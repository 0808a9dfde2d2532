/** What a single step of the collector guarantees. */
module GcStep {
  import opened Options
  import opened GcHeap
  import opened GcState
  import opened GcPaint
  import opened GcWalk
  import opened GcSettle
  import opened GcEphemeron
  import opened GcAtomic
  import opened GcComplete
  import opened GcWeak
  import opened GcSweep
  import opened GcPhases
  import opened GcFinalize

  // ----- the contract of a single step ---------------------------------------------------------------------

  /** Roots and finalizable objects are as before. */
  ghost predicate SameNames(s: State, s': State) {
    Rooted(s, s') && s'.finobj == s.finobj
  }

  /** A step outside the atomic phase: nothing live is lost and live contents are only trimmed. */
  ghost predicate Gentle(s: State, s': State) {
    && Inv(s') && LiveSet(s') == LiveSet(s) && SameNames(s, s')
    && forall r :: r in s'.heap ==> r in s.heap && Trimmed(s.heap[r].body, s'.heap[r].body)
  }

  lemma SweptGentle(s: State, s': State)
    requires SweptTo(s, s')
    ensures Gentle(s, s') && s'.tobefnz == s.tobefnz && s'.bound == s.bound
  {
    hide Inv, LiveSet;
    forall r | r in s'.heap ensures r in s.heap && Trimmed(s.heap[r].body, s'.heap[r].body) { }
  }

  lemma GrewGentle(s: State, s': State)
    requires Inv(s) && (s.phase.Propagate? || s.phase.Atomic?) && s.phase == s'.phase
    requires Grew(s, s') && MarkInv(s', {}) && (s'.phase.Propagate? ==> s'.gray != [])
    ensures Gentle(s, s') && s'.tobefnz == s.tobefnz && s'.bound == s.bound
  {
    hide Inv, LiveSet, MarkInv;
    MarkStepInv(s, s');
    assert SameNames(s, s') && s'.tobefnz == s.tobefnz && s'.bound == s.bound;
    assert forall r :: r in s'.heap ==> r in s.heap && Trimmed(s.heap[r].body, s'.heap[r].body);
  }

  /** Propagation is over when the gray list is empty. */
  lemma ToAtomic(s: State, s': State)
    requires Inv(s) && s.phase.Propagate? && Grew(s, s') && MarkInv(s', {}) && s'.gray == []
    ensures Gentle(s, s'.(phase := Atomic)) && s'.tobefnz == s.tobefnz && s'.bound == s.bound
  {
    hide LiveSet, MarkInv, WhiteSet, Grew;
    var s0, s1 := s.(phase := Atomic), s'.(phase := Atomic);
    GrewPhase(s, s');
    PhaseInv(s', s1);
    ToAtomicInv(s);
    GrewGentle(s0, s1);
    MovedLive(s, s0);
    assert LiveSet(s0) == LiveSet(s);
  }

  lemma GrewPhase(s: State, s': State)
    requires Grew(s, s') && s.phase.Propagate?
    ensures Grew(s.(phase := Atomic), s'.(phase := Atomic)) && s'.tobefnz == s.tobefnz && s'.bound == s.bound && s'.phase == s.phase
    ensures s'.stopped == s.stopped
  {
    hide WhiteSet, TrimmedHeap, Darker;
  }

  lemma ToAtomicInv(s: State)
    requires Inv(s) && s.phase.Propagate?
    ensures Inv(s.(phase := Atomic))
  {
    hide OwnInv, MarkInv, LiveClosed, LiveRoots;
    var s' := s.(phase := Atomic);
    InvNoneDead(s);
    PhaseInv(s, s');
    AbandonOwners(s, s');
  }

  /** A new cycle has its roots marked. */
  lemma RestartDone(s: State, B: Bound, s': State)
    requires Inv(s) && s.phase.Pause? && BoundOK(s, B)
    requires Ran(Restarted(s, B), s') && MarkInv(s', {}) && s'.phase.Pause? && s'.gray != [] && s'.held == []
    requires StartMarked(s') && s'.sweep == s.sweep
    ensures var t := s'.(phase := Propagate);
            Gentle(s, t) && t.tobefnz == s.tobefnz && t.bound == B
  {
    hide Inv, MarkInv, LiveSet, BoundOK, Ran, OwnInv, FixedOK, RootsOK, StartMarked, NoneDead, HeapInv, Trimmed, Resting;
    var t, r0 := s'.(phase := Propagate), Restarted(s, B);
    RestingInv(s);
    RestartInv(s, B);
    RanKeeps(r0, s');
    RestartOwners(s, B, s');
    InvOwners(s);
    assert s.sweep.None? && !s.stopped;
    PhaseInv(s', t) by {
      assert s'.stopped == r0.stopped;
    }
    RestartPhase(s', t);
    MarkPhaseMake(t);
    MarkHeap(t);
    LiveAll(t);
    RestAllLive(s);
  }

  lemma RestingInv(s: State)
    requires Inv(s) && s.phase.Pause?
    ensures Resting(s)
  {
    hide LiveClosed, LiveRoots, OwnInv;
  }

  lemma RestartPhase(s: State, t: State)
    requires t == s.(phase := Propagate)
    ensures RootsOK(s) ==> RootsOK(t)
    ensures StartMarked(s) ==> StartMarked(t)
  {
  }

  lemma MarkPhaseMake(t: State)
    requires t.blind == {} && OwnInv(t) && FixedOK(t) && t.mainthread in t.heap && t.heap[t.mainthread].body.Thread?
    requires t.tobefnz != [] ==> t.finnum > 0
    requires MarkInv(t, {}) && !t.stopped && t.held == [] && RootsOK(t) && StartMarked(t) && t.sweep.None?
    requires t.phase.Propagate? && t.gray != []
    ensures Inv(t)
  {
    hide OwnInv, FixedOK, MarkInv, RootsOK, StartMarked;
  }

  lemma RestartOwners(s: State, B: Bound, s': State)
    requires Inv(s) && s.phase.Pause? && Ran(Restarted(s, B), s')
    ensures var t := s'.(phase := Propagate);
            && OwnInv(t) && FixedOK(t) && t.mainthread in t.heap && t.heap[t.mainthread].body.Thread?
            && (t.tobefnz != [] ==> t.finnum > 0) && SameNames(s, t) && t.tobefnz == s.tobefnz && t.bound == B && !t.stopped
            && t.sweep.None? && t.heap.Keys == s.heap.Keys && t.blind == {}
            && forall r :: r in t.heap ==> Trimmed(s.heap[r].body, t.heap[r].body)
  {
    var t := s'.(phase := Propagate);
    assert Owners(t) == Owners(s);
    forall r | r in s.heap ensures Trimmed(s.heap[r].body, s'.heap[r].body) { }
  }

  lemma RestAllLive(s: State)
    requires Inv(s) && s.phase.Pause?
    ensures LiveSet(s) == s.heap.Keys
  {
    forall r | r in s.heap ensures r in LiveSet(s) {
      if r in s.fixedgc { assert !s.heap[r].colour.White?; }
    }
  }

  /** The atomic step: `s` before, `s1` when the gray list was empty, `s2` after the flip, `s3` once the
      sweep has begun. */
  lemma AtomicStep(s: State, s1: State, s2: State, s3: State, L: Ref, M: set<Ref>)
    requires Inv(s) && s.phase.Atomic? && L in s.heap
    requires Grew(s.(stopped := true), s1) && Reached(s1, L, M)
    requires Flipped(s2) && Closed(SeenHeap(s1.heap, s1.blind), MarkedSet(s2.heap), false) && RootSet(s2) + {L} <= MarkedSet(s2.heap)
    requires ShrunkHeap(s1.heap, s2.heap) && Darker(s1.heap, s2.heap) && OwnersMoved(s1, s2, M)
    requires s1.blind == {} ==> Entries(s1.heap, s2.heap, M, MarkedSet(s2.heap))
    ensures Inv(s2.(phase := SwpAllGc, stopped := false, sweep := Some(0)))
    ensures var m := s2.(phase := SwpAllGc, stopped := false, sweep := Some(0));
            SweptTo(m, s3) && Beside(m, s3) ==> Exact(s, s3, L) && Kept(s, s3)
  {
    hide Inv, Flipped, Closed, MarkedSet, RootSet, ShrunkHeap, TrimmedHeap, Darker, OwnersMoved, SweptTo, Exact, Kept, Grew, Reached,
      SeenHeap, Entries, Found;
    var s0 := s.(stopped := true);
    InvOwners(s);
    GrewRan(s0, s1);
    RanKeeps2(s0, s1);
    SeenNone(s1.heap);
    AtomicMoved(s, s1, s2, M);
    ReachedBefore(s0, s1, L, M);
    TrimmedClosed(s.heap, s1.heap, MarkedSet(s2.heap));
    TrimmedHeapShrunk(s.heap, s1.heap);
    ShrunkHeapTrans(s.heap, s1.heap, s2.heap);
    RanDarker(s0, s1);
    DarkerTrans(s.heap, s1.heap, s2.heap);
    FixedMarked(s, s2) by { MovedFixed(s, s2, M); }
    FlippedSweep(s, s2, L, M);
    var m := s2.(phase := SwpAllGc, stopped := false, sweep := Some(0));
    if SweptTo(m, s3) && Beside(m, s3) {
      assert s1.heap.Keys == s0.heap.Keys && forall r :: r in s0.heap ==> Trimmed(s0.heap[r].body, s1.heap[r].body);
      EntriesBefore(s.heap, s1.heap, s2.heap, M, MarkedSet(s2.heap));
      AtomicExact(s, s2, s3, L, M);
    }
  }

  lemma ReachedBefore(s0: State, s1: State, L: Ref, M: set<Ref>)
    requires Ran(s0, s1) && Reached(s1, L, M)
    ensures Reached(s0, L, M)
  {
    hide Closed, TrimmedHeap, Darker, SeenHeap, RootSet;
    SeenTrimmed(s0.heap, s1.heap, s0.blind);
    TrimmedClosed(SeenHeap(s0.heap, s0.blind), SeenHeap(s1.heap, s0.blind), M);
    SameRootSet(s0, s1);
    DarkerSet(s0.heap, s1.heap);
  }

  lemma RanDarker(s: State, s': State)
    requires Ran(s, s')
    ensures Darker(s.heap, s'.heap)
  {
  }

  lemma MovedFixed(s: State, s2: State, M: set<Ref>)
    requires OwnersMoved(s.(stopped := s2.stopped), s2, M)
    ensures s2.fixedgc == s.fixedgc
  {
  }

  lemma FixedMarked(s: State, s2: State)
    requires FixedOK(s) && Darker(s.heap, s2.heap) && s2.fixedgc == s.fixedgc
    ensures RefsMarked(s2.heap, s2.fixedgc)
  {
  }

  lemma TrimmedRefl(b: Body)
    ensures Trimmed(b, b)
  {
  }

  lemma AtomicMoved(s: State, s1: State, s2: State, M: set<Ref>)
    requires Ran(s.(stopped := true), s1) && OwnersMoved(s1, s2, M)
    ensures OwnersMoved(s.(stopped := s2.stopped), s2, M)
  {
    hide TrimmedHeap, Darker;
  }

  lemma AtomicFound(s: State, s2: State, s3: State, L: Ref, M: set<Ref>)
    requires OwnersMoved(s.(stopped := s2.stopped), s2, M) && s.blind == {} && Reached(s.(stopped := true), L, M)
    requires var m := s2.(phase := SwpAllGc, stopped := false, sweep := Some(0));
             SweptTo(m, s3) && LiveSet(m) == MarkedSet(s2.heap)
    requires Entries(s.heap, s2.heap, M, MarkedSet(s2.heap))
    ensures Found(s, s3, L, s.bound.now, M)
  {
    hide Inv, Closed, LiveSet, SeenHeap, Entries, Trimmed, RootSet, MarkedSet;
    SeenNone(s.heap);
    SameRootSet(s, s.(stopped := true));
    forall r | r in s3.heap ensures r in s2.heap && Trimmed(s2.heap[r].body, s3.heap[r].body) { TrimmedRefl(s2.heap[r].body); }
    EntriesAfter(s.heap, s2.heap, s3.heap, M, MarkedSet(s2.heap));
  }

  lemma AtomicExact(s: State, s2: State, s3: State, L: Ref, M: set<Ref>)
    requires Flipped(s2) && Closed(s.heap, MarkedSet(s2.heap), false) && RootSet(s2) + {L} <= MarkedSet(s2.heap)
    requires OwnersMoved(s.(stopped := s2.stopped), s2, M) && RefsMarked(s2.heap, s2.fixedgc) && ShrunkHeap(s.heap, s2.heap)
    requires s.blind == {} && Reached(s.(stopped := true), L, M)
    requires var m := s2.(phase := SwpAllGc, stopped := false, sweep := Some(0));
             SweptTo(m, s3) && Beside(m, s3) && LiveSet(m) == MarkedSet(s2.heap)
    requires Entries(s.heap, s2.heap, M, MarkedSet(s2.heap))
    ensures Exact(s, s3, L) && Kept(s, s3)
  {
    hide Inv, Closed, LiveSet, LiveClosed, NoDangling, AllFull, SeenHeap, Least, Entries, Trimmed, Found;
    AtomicFound(s, s2, s3, L, M);
    assert RootSet(s3) == RootSet(s2);
    assert forall r :: r in ToSet(s3.finobj) + ToSet(s3.fixedgc) ==> r in MarkedSet(s2.heap);
    forall r | r in s3.heap ensures r in s.heap && Shrunk(s.heap[r].body, s3.heap[r].body) {
      assert r in s2.heap;
    }
    FoundSorted(s, s3, L, s.bound.now, M);
  }

  lemma RootsMain(s: State)
    requires RootsOK(s)
    ensures s.mainthread in s.heap && s.mainthread in s.bound.now
  {
  }

  /** The marked main thread can only be on the gray list when a cycle begins. */
  lemma RestartGray(s: State)
    requires MarkInv(s, {}) && s.held == [] && s.grayagain == [] && s.phase.Pause?
    requires s.mainthread in s.heap && s.heap[s.mainthread].body.Thread? && Marked(s.heap, Ptr(s.mainthread))
    requires s.mainthread !in s.blind
    ensures s.gray != []
  {
    assert Covered(s, s.mainthread);
  }

  lemma StartDone(s: State)
    requires s.mainthread in s.heap && AllMarked(s.heap, [Ptr(s.mainthread), s.registry] + s.mt)
    requires RefsMarked(s.heap, s.tobefnz)
    ensures StartMarked(s) && Marked(s.heap, Ptr(s.mainthread))
  {
    assert Ptr(s.mainthread) in [Ptr(s.mainthread), s.registry] + s.mt;
  }

  lemma RanThread(s: State, s': State)
    requires Ran(s, s') && s.mainthread in s.heap && s.heap[s.mainthread].body.Thread?
    ensures s'.mainthread in s'.heap && s'.heap[s'.mainthread].body.Thread?
  {
    assert Trimmed(s.heap[s.mainthread].body, s'.heap[s.mainthread].body);
  }

  lemma GentleRefl(s: State)
    requires Inv(s)
    ensures Gentle(s, s)
  {
    forall r | r in s.heap ensures Trimmed(s.heap[r].body, s.heap[r].body) { }
  }

  lemma GentleTrans(a: State, b: State, c: State)
    requires Gentle(a, b) && Gentle(b, c)
    ensures Gentle(a, c)
  {
    hide Inv, LiveSet;
    forall r | r in c.heap ensures r in a.heap && Trimmed(a.heap[r].body, c.heap[r].body) {
      TrimmedTrans(a.heap[r].body, b.heap[r].body, c.heap[r].body);
    }
  }

  lemma PopGentle(s: State, m: State)
    requires Gentle(s, m) && m.tobefnz != [] && m.tobefnz[0] in m.heap
    requires Inv(Popped(m)) && LiveSet(Popped(m)) == LiveSet(m)
    ensures Gentle(s, Popped(m))
  {
    hide Inv, LiveSet, Trimmed;
    PopFacts(m);
  }

  lemma PopFacts(m: State)
    requires m.tobefnz != [] && m.tobefnz[0] in m.heap
    ensures var c := Popped(m);
            && c.phase == m.phase && c.bound == m.bound && c.finnum == m.finnum && c.tobefnz == m.tobefnz[1..]
            && SameNames(m, c) && c.heap.Keys == m.heap.Keys && (forall r :: r in m.heap ==> c.heap[r].body == m.heap[r].body)
            && (m.phase.SwpToBeFnz? && m.sweep.Some? && m.sweep.value > 0 ==> c.sweep == Some(m.sweep.value - 1))
            && (m.sweep.None? || m.sweep == Some(0) ==> c.sweep == m.sweep)
  {
  }

  lemma FinNum(s: State, m: State, m': State)
    requires Gentle(s, m) && m' == m.(finnum := m'.finnum) && (m.tobefnz != [] ==> m'.finnum > 0)
    ensures Gentle(s, m')
  {
    hide Inv;
    FinNumInv(m, m');
  }

  lemma FinNumInv(m: State, m': State)
    requires Inv(m) && m' == m.(finnum := m'.finnum) && (m.tobefnz != [] ==> m'.finnum > 0)
    ensures Inv(m')
  {
    hide LiveClosed, LiveRoots, OwnInv, MarkPhaseInv;
    MovedFin(m, m');
    if m.phase.Propagate? || m.phase.Atomic? { FinNumMark(m, m'); }
  }

  lemma FinNumMark(m: State, m': State)
    requires MarkPhaseInv(m) && m' == m.(finnum := m'.finnum)
    ensures MarkPhaseInv(m')
  {
    hide MarkInv;
    OwnersInv(m, m', {});
  }

  lemma MovedFin(m: State, m': State)
    requires m' == m.(finnum := m'.finnum)
    ensures OwnInv(m) ==> OwnInv(m')
    ensures LiveClosed(m) ==> LiveClosed(m')
    ensures LiveRoots(m) ==> LiveRoots(m')
  {
    assert Owners(m') == Owners(m);
    if LiveClosed(m) {
      forall r, v | LiveRef(m'.heap, m'.white, r) && Holds(m'.heap[r].body, v) ensures Live(m', v) {
        assert LiveRef(m.heap, m.white, r);
        assert Live(m, v);
      }
    }
    if LiveRoots(m) {
      forall v | v in m.mt ensures Live(m', v) { assert Live(m, v); }
    }
  }

  lemma StopRoots(s: State, s': State)
    requires s' == s.(stopped := s'.stopped)
    ensures RootsOK(s) ==> RootsOK(s')
    ensures StartMarked(s) ==> StartMarked(s')
  {
  }

  lemma RanOver(s: State, s': State)
    requires Ran(s, s')
    ensures s'.heap.Keys == s.heap.Keys && s'.bound == s.bound && s'.stopped == s.stopped
  {
  }

  lemma RestartedFacts(s: State, B: Bound)
    requires Resting(s)
    ensures var r := Restarted(s, B);
            && r.held == [] && r.grayagain == [] && r.phase.Pause? && r.sweep == s.sweep && r.mainthread !in r.blind
            && r.mainthread in r.heap && r.heap[r.mainthread].body.Thread?
  {
  }
}
