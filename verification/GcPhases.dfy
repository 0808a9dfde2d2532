/** From one phase to the next: what the sweep has reached, and what a cycle begins with. */
module GcPhases {
  import opened Options
  import opened GcHeap
  import opened GcState
  import opened GcPaint
  import opened GcWalk
  import opened GcSettle
  import opened GcEphemeron
  import opened GcAtomic
  import opened GcComplete
  import opened GcWeak
  import opened GcSweep

  // ----- from phase to phase --------------------------------------------------------------------------------

  /** The sets that may serve as `bound` for a new cycle. */
  ghost predicate BoundOK(s: State, B: Bound) {
    && Bounded(s.heap, s.blind, B) && s.blind <= B.now
    && RootSet(s) + ToSet(s.fixedgc) <= B.now && ToSet(s.finobj) <= B.later
  }

  /** A state with no gray list at all. */
  function Restarted(s: State, B: Bound): State {
    s.(gray := [], grayagain := [], weak := [], allweak := [], ephemeron := [], held := [], bound := B)
  }

  lemma RestartHeap(s: State, B: Bound)
    requires Resting(s) && BoundOK(s, B)
    ensures HeapInv(Restarted(s, B))
  {
    hide Closed, SeenHeap;
    forall r, v | r in s.heap && Holds(s.heap[r].body, v) ensures Points(s.heap, v) {
      assert LiveRef(s.heap, s.white, r);
      assert Live(s, v);
    }
    forall r | r in s.fixedgc ensures r in B.now { assert r in ToSet(s.fixedgc); }
  }

  lemma RestartInv(s: State, B: Bound)
    requires Resting(s) && BoundOK(s, B)
    ensures MarkInv(Restarted(s, B), {}) && RootsOK(Restarted(s, B))
  {
    hide HeapInv, CoverInv, ListInv, RootsOK, Resting, BoundOK;
    RestartHeap(s, B);
    RestartRoots(s, B);
    RestartLists(s, B);
    RestartCovers(s, B);
  }

  lemma RestartLists(s: State, B: Bound)
    requires Resting(s)
    ensures ListInv(Restarted(s, B))
  {
    assert Links(Restarted(s, B)) == multiset{};
    hide RestInv, FixedOK;
  }

  lemma RestartCovers(s: State, B: Bound)
    requires Resting(s)
    ensures CoverInv(Restarted(s, B), {})
  {
    hide LiveClosed, LiveRoots;
  }

  lemma RestartRoots(s: State, B: Bound)
    requires Resting(s) && BoundOK(s, B)
    ensures RootsOK(Restarted(s, B))
  {
    hide LiveClosed, Closed, FixedOK, SeenHeap;
    forall v | v in s.mt ensures Points(s.heap, v) && In(B.now, v) {
      assert Live(s, v);
      if v.Ptr? { assert v.r in RefsOf(s.mt); }
    }
    if s.registry.Ptr? { assert s.registry in [s.registry] && s.registry.r in RefsOf([s.registry]); }
    forall r | r in s.tobefnz + s.finobj ensures r in s.heap {
      assert r in s.finobj + s.tobefnz;
      assert LiveRef(s.heap, s.white, r);
    }
    forall r | r in s.tobefnz ensures r in B.now { assert r in ToSet(s.tobefnz); }
    forall r | r in s.finobj ensures r in B.later { assert r in ToSet(s.finobj); }
  }

  /** Changing the phase or stopping the program does not disturb marking. */
  lemma PhaseInv(s: State, s': State)
    requires MarkInv(s, {}) && s' == s.(phase := s'.phase, stopped := s'.stopped)
    requires !s.phase.InsideAtomic? && !s'.phase.InsideAtomic? && (s.stopped ==> s'.stopped)
    ensures MarkInv(s', {})
  {
    hide MarkInv;
    RelistedMark(s, s', {});
  }

  /** Marking keeps the owner part of the invariant. */
  lemma RanOwners(s: State, s': State)
    requires OwnInv(s) && FixedOK(s) && s.mainthread in s.heap && s.heap[s.mainthread].body.Thread? && Ran(s, s')
    ensures OwnInv(s') && FixedOK(s') && s'.mainthread in s'.heap && s'.heap[s'.mainthread].body.Thread?
    ensures s'.tobefnz == s.tobefnz && s'.finnum == s.finnum && s'.blind == s.blind
  {
    assert Owners(s') == Owners(s);
    forall r | r in s.heap ensures Trimmed(s.heap[r].body, s'.heap[r].body) { }
  }

  /** The end of a propagation step, or of the restart. */
  lemma MarkStepInv(s: State, s': State)
    requires Inv(s) && (s.phase.Propagate? || s.phase.Atomic?) && s.phase == s'.phase
    requires Grew(s, s') && MarkInv(s', {}) && (s'.phase.Propagate? ==> s'.gray != [])
    ensures Inv(s') && LiveSet(s') == LiveSet(s)
  {
    hide MarkInv, LiveSet, Ran;
    GrewRan(s, s');
    RanOwners(s, s');
    RanKeeps(s, s');
    assert s'.sweep == s.sweep && s'.held == s.held && s'.stopped == s.stopped && s'.heap.Keys == s.heap.Keys;
    assert s'.bound == s.bound && s'.white == s.white;
    assert NoneDead(s) by { MarkHeap(s); }
    assert NoneDead(s') by { MarkHeap(s'); }
    LiveAll(s);
    LiveAll(s');
  }

  lemma MarkHeap(s: State)
    requires MarkInv(s, {})
    ensures HeapInv(s) && NoneDead(s)
  {
  }

  lemma LiveAll(s: State)
    requires NoneDead(s)
    ensures LiveSet(s) == s.heap.Keys
  {
  }

  /** After the flip, live means marked; the sweep can start. */
  lemma FlippedSweep(s0: State, s: State, L: Ref, M: set<Ref>)
    requires Inv(s0) && s0.phase.Atomic? && Flipped(s) && OwnersMoved(s0.(stopped := s.stopped), s, M)
    requires ShrunkHeap(s0.heap, s.heap) && RootSet(s) + {L} <= MarkedSet(s.heap)
    requires RefsMarked(s.heap, s.fixedgc)
    ensures var s' := s.(phase := SwpAllGc, stopped := false, sweep := Some(0));
            Inv(s') && LiveSet(s') == MarkedSet(s.heap)
  {
    hide Inv, Flipped, LiveClosed, LiveRoots, OwnInv, FixedOK, LiveSet, ShrunkHeap, RefsMarked;
    InvOwners(s0);
    FlippedOwners(s0, s, M);
    FlippedLive(s);
    FlippedRoots(s, L);
    SweepStart(s.(phase := SwpAllGc, stopped := false, sweep := Some(0)));
  }

  lemma InvOwners(s: State)
    requires Inv(s)
    ensures OwnInv(s) && FixedOK(s) && s.mainthread in s.heap && s.heap[s.mainthread].body.Thread?
    ensures !s.phase.InsideAtomic? && (s.tobefnz != [] ==> s.finnum > 0)
    ensures !s.stopped && s.blind == {}
  {
  }

  lemma SweepStart(s: State)
    requires s.blind == {} && OwnInv(s) && FixedOK(s) && s.mainthread in s.heap && s.heap[s.mainthread].body.Thread?
    requires LiveClosed(s) && LiveRoots(s) && s.phase.SwpAllGc? && s.sweep == Some(0) && !s.stopped
    requires s.tobefnz != [] ==> s.finnum > 0
    ensures Inv(s)
  {
    hide OwnInv, FixedOK, LiveClosed, LiveRoots;
  }

  lemma FlippedOwners(s0: State, s: State, M: set<Ref>)
    requires s0.blind == {} && OwnInv(s0) && FixedOK(s0) && s0.mainthread in s0.heap && s0.heap[s0.mainthread].body.Thread?
    requires OwnersMoved(s0.(stopped := s.stopped), s, M) && ShrunkHeap(s0.heap, s.heap) && RefsMarked(s.heap, s.fixedgc)
    ensures var s' := s.(phase := SwpAllGc, stopped := false, sweep := Some(0));
            OwnInv(s') && FixedOK(s') && s'.mainthread in s'.heap && s'.heap[s'.mainthread].body.Thread? && s'.finnum > 0 && s'.blind == {}
  {
    hide Owners, Only, Without;
    MovedOwners(s0, s, M);
    forall r | r in s0.heap ensures Shrunk(s0.heap[r].body, s.heap[r].body) { }
  }

  lemma MovedOwners(s0: State, s: State, M: set<Ref>)
    requires OwnersMoved(s0.(stopped := s.stopped), s, M)
    ensures forall r :: Owners(s.(phase := SwpAllGc, stopped := false, sweep := Some(0)))[r] == Owners(s0)[r]
  {
    OnlyAll(s0.finobj, M);
    assert multiset(s.tobefnz) == multiset(s0.tobefnz) + multiset(Without(s0.finobj, M));
    forall r ensures multiset(s.finobj)[r] + multiset(s.tobefnz)[r] == multiset(s0.finobj)[r] + multiset(s0.tobefnz)[r] {
      assert (multiset(Only(s0.finobj, M)) + multiset(Without(s0.finobj, M)))[r] == multiset(s0.finobj)[r];
    }
    hide Only, Without, RefsMarked;
  }

  lemma FlippedLive(s: State)
    requires Flipped(s) && s.blind == {}
    ensures var s' := s.(phase := SwpAllGc, stopped := false, sweep := Some(0));
            LiveClosed(s') && LiveSet(s') == MarkedSet(s.heap)
  {
    hide Closed, NoDangling;
    var s' := s.(phase := SwpAllGc, stopped := false, sweep := Some(0));
    forall r, v | LiveRef(s'.heap, s'.white, r) && Holds(s'.heap[r].body, v) ensures Live(s', v) {
      assert Full(s.heap, s.heap[r].body);
      assert Marked(s.heap, v);
    }
  }

  lemma FlippedRoots(s: State, L: Ref)
    requires RootSet(s) + {L} <= MarkedSet(s.heap) && RefsMarked(s.heap, s.finobj)
    ensures LiveRoots(s.(phase := SwpAllGc, stopped := false, sweep := Some(0)))
  {
    var s' := s.(phase := SwpAllGc, stopped := false, sweep := Some(0));
    if s.registry.Ptr? { assert s.registry in [s.registry] && s.registry.r in RefsOf([s.registry]); }
    forall v | v in s.mt ensures Live(s', v) {
      if v.Ptr? { assert v.r in RefsOf(s.mt); }
    }
    assert s.mainthread in MarkedSet(s.heap);
    forall r | r in s'.finobj + s'.tobefnz ensures LiveRef(s'.heap, s'.white, r) {
      if r in s.tobefnz { assert r in ToSet(s.tobefnz) && r in MarkedSet(s.heap); }
    }
  }

  /** Abandoning a mark: nothing carries the old white, so the sweep frees nothing. */
  lemma AbandonSweep(s: State)
    requires Inv(s) && (s.phase.Propagate? || s.phase.Atomic?)
    ensures var s' := s.(phase := SwpAllGc, sweep := Some(0));
            Inv(s') && LiveSet(s') == s.heap.Keys && LiveSet(s) == s.heap.Keys
  {
    hide Inv, LiveClosed, LiveRoots, OwnInv, FixedOK, LiveSet, NoneDead;
    InvOwners(s);
    LiveInAllPhases(s);
    InvNoneDead(s);
    var s' := s.(phase := SwpAllGc, sweep := Some(0));
    AbandonLive(s, s');
    AbandonOwners(s, s');
    SweepStart(s');
  }

  lemma InvNoneDead(s: State)
    requires Inv(s) && (s.phase.Propagate? || s.phase.Atomic?)
    ensures NoneDead(s) && MarkInv(s, {}) && RootsOK(s) && StartMarked(s) && s.held == [] && s.sweep.None?
    ensures (s.phase.Propagate? ==> s.gray != []) && s.blind == {}
  {
  }

  lemma AbandonOwners(s: State, s': State)
    requires s' == s.(phase := s'.phase, sweep := s'.sweep) && OwnInv(s)
    ensures OwnInv(s')
  {
    assert Owners(s') == Owners(s);
  }

  lemma AbandonLive(s: State, s': State)
    requires NoneDead(s) && s' == s.(phase := s'.phase, sweep := s'.sweep)
    ensures LiveSet(s') == s.heap.Keys && LiveSet(s) == s.heap.Keys
    ensures LiveClosed(s) ==> LiveClosed(s')
    ensures LiveRoots(s) ==> LiveRoots(s')
    ensures FixedOK(s) ==> FixedOK(s')
  {
    if LiveClosed(s) {
      forall r, v | LiveRef(s'.heap, s'.white, r) && Holds(s'.heap[r].body, v) ensures Live(s', v) {
        assert LiveRef(s.heap, s.white, r);
        assert Live(s, v);
      }
    }
    if LiveRoots(s) {
      forall v | v in s.mt ensures Live(s', v) { assert Live(s, v); }
    }
  }

  // ----- moving on ------------------------------------------------------------------------------------------

  function NextPhase(p: Phase): Phase
    requires Sweeping(p)
  {
    match p
    case SwpAllGc => SwpFinObj
    case SwpFinObj => SwpToBeFnz
    case _ => SwpEnd
  }

  /** `sweepstep` at the end of a list. */
  function Advanced(s: State): State
    requires Sweeping(s.phase)
  {
    s.(phase := NextPhase(s.phase), sweep := if s.phase.SwpToBeFnz? then None else Some(0))
  }

  lemma AdvancedInv(s: State)
    requires Inv(s) && Sweeping(s.phase) && s.sweep.None?
    ensures Inv(Advanced(s)) && LiveSet(Advanced(s)) == LiveSet(s)
  {
    var s' := Advanced(s);
    MovedLive(s, s');
    AbandonOwners(s, s');
    assert s'.finobj[..0] == [] && s'.tobefnz[..0] == [];
    hide LiveClosed, LiveRoots, OwnInv, LiveSet;
  }

  /** The phase and the sweep position say nothing about objects. */
  lemma MovedLive(s: State, s': State)
    requires s' == s.(phase := s'.phase, sweep := s'.sweep)
    ensures LiveSet(s') == LiveSet(s)
    ensures LiveClosed(s) ==> LiveClosed(s')
    ensures LiveRoots(s) ==> LiveRoots(s')
    ensures FixedOK(s) ==> FixedOK(s')
  {
    if LiveClosed(s) {
      forall r, v | LiveRef(s'.heap, s'.white, r) && Holds(s'.heap[r].body, v) ensures Live(s', v) {
        assert LiveRef(s.heap, s.white, r);
        assert Live(s, v);
      }
    }
    if LiveRoots(s) {
      forall v | v in s.mt ensures Live(s', v) { assert Live(s, v); }
    }
  }

  /** Recolouring a live object with the current white. */
  function Whitened(s: State, o: Ref): State
    requires o in s.heap
  {
    s.(heap := s.heap[o := s.heap[o].(colour := White(s.white))])
  }

  lemma WhitenedLive(s: State, o: Ref)
    requires LiveRef(s.heap, s.white, o) || (o in s.heap && s.heap[o].body.Str?)
    ensures var s' := Whitened(s, o);
            && LiveSet(s') == LiveSet(s) + {o}
            && (forall v :: Live(s, v) ==> Live(s', v))
            && (LiveClosed(s) ==> LiveClosed(s')) && (LiveRoots(s) ==> LiveRoots(s'))
            && (forall l :: AllWhite(s, l) ==> AllWhite(s', l))
  {
    var s' := Whitened(s, o);
    forall v | Live(s, v) ensures Live(s', v) { }
    if LiveClosed(s) {
      forall r, v | LiveRef(s'.heap, s'.white, r) && Holds(s'.heap[r].body, v) ensures Live(s', v) {
        if r != o || LiveRef(s.heap, s.white, o) {
          assert LiveRef(s.heap, s.white, r);
          assert Live(s, v);
        }
      }
    }
    if LiveRoots(s) {
      forall v | v in s.mt ensures Live(s', v) { assert Live(s, v); }
      forall r | r in s'.finobj + s'.tobefnz ensures LiveRef(s'.heap, s'.white, r) {
        assert LiveRef(s.heap, s.white, r);
      }
    }
    forall l | AllWhite(s, l) ensures AllWhite(s', l) { }
  }

  /** The last sweep step: the main thread turns white and nothing is left to sweep. */
  function Ended(s: State): State
    requires s.mainthread in s.heap
  {
    Whitened(s, s.mainthread).(phase := CallFin)
  }

  lemma EndedInv(s: State)
    requires Inv(s) && s.phase.SwpEnd?
    ensures s.mainthread in s.heap && Inv(Ended(s)) && LiveSet(Ended(s)) == LiveSet(s)
  {
    var w, s' := Whitened(s, s.mainthread), Ended(s);
    WhitenedLive(s, s.mainthread);
    MovedLive(w, s');
    assert Owners(Ended(s)) == Owners(s);
    forall r | r in s.heap && r !in s.fixedgc ensures Ended(s).heap[r].colour == White(s.white) {
      OwnedIn(s, r);
    }
    assert s.mainthread in LiveSet(s);
    hide LiveClosed, LiveRoots, OwnInv, LiveSet, AllWhite;
  }
}
