/** Whole collections: what one step of the collector does, and what a run of steps adds up to. */
module GcCycle {
  import opened Options
  import opened GcHeap
  import opened GcState
  import opened GcPaint
  import opened GcWalk
  import opened GcSettle
  import opened GcEphemeron
  import opened GcAtomic
  import opened GcComplete
  import opened GcWeak
  import opened GcSweep
  import opened GcPhases
  import opened GcFinalize
  import opened GcStep

  // ----- one step -----------------------------------------------------------------------------

  /** The order of the phases. */
  predicate Follows(p: Phase, p': Phase) {
    match p
    case Pause => p'.Propagate?
    case Propagate => p'.Propagate? || p'.Atomic?
    case Atomic => p'.SwpAllGc?
    case SwpEnd => p'.CallFin?
    case CallFin => p'.CallFin? || p'.Pause?
    case InsideAtomic => false
    case _ => p' == p || p' == NextPhase(p)
  }

  /** What `singlestep` guarantees. Only the step that ends marking may give up an object; every other
      step keeps all live ones. `B` is the bound of the cycle that starts at a pause. */
  ghost predicate Stepped(s: State, s': State, L: Ref, B: Bound, emergency: bool) {
    && Inv(s') && Follows(s.phase, s'.phase)
    && (if s.phase.Atomic? then Exact(s, s', L) && Kept(s, s') else Gentle(s, s'))
    && (if s.phase.Pause? then s'.bound == B else Closer(s, s'))
    && (KeepInvariant(s.phase) && KeepInvariant(s'.phase) ==> s'.bound == s.bound)
    && (!s.phase.Atomic? && !s.phase.CallFin? ==> s'.tobefnz == s.tobefnz)
    && (s.phase.CallFin? ==>
          if s.tobefnz != [] && !emergency then s'.phase.CallFin? && s' == SomeFinalized(s) else s' == s.(phase := Pause))
    && (s.phase.SwpEnd? ==> s.mainthread in s.heap && s' == Ended(s))
    && Advance(s, s')
  }

  /** How marks and sweeps move on: roots are marked first, marks stay, propagation ends with the gray list,
      a sweep starts at the front of its list and leaves alone what comes later. */
  ghost predicate Advance(s: State, s': State) {
    && (s.phase.Pause? ==> Marked(s'.heap, s'.registry))
    && (KeepInvariant(s.phase) && KeepInvariant(s'.phase) ==> MarkedSet(s.heap) <= MarkedSet(s'.heap))
    && (s'.phase.Atomic? ==> s'.gray == [])
    && (Sweeping(s.phase) ==>
          Beside(s, s') && SweepsOn(s, s') && s'.finnum == s.finnum && (Sweeping(s'.phase) && s'.phase != s.phase ==> s'.sweep == Some(0)))
  }

  lemma MarkingStepped(s: State, s': State, L: Ref, B: Bound, emergency: bool)
    requires Inv(s) && s.phase.Propagate? && Grew(s, s') && MarkInv(s', {})
    requires WhiteSet(s'.heap) < WhiteSet(s.heap) || |s'.gray| < |s.gray|
    ensures Stepped(s, if s'.gray == [] then s'.(phase := Atomic) else s', L, B, emergency)
  {
    hide Inv, MarkInv, LiveSet, Grew, Exact, Kept, MarkedSet;
    GrewKeeps(s, s');
    GrewMarks(s, s');
    if s'.gray == [] {
      ToAtomic(s, s');
      GentleInv(s, s'.(phase := Atomic));
    } else {
      GrewGentle(s, s');
      GentleInv(s, s');
    }
  }

  lemma GrewMarks(s: State, s': State)
    requires Grew(s, s')
    ensures MarkedSet(s.heap) <= MarkedSet(s'.heap)
  {
    hide WhiteSet, TrimmedHeap;
    DarkerSet(s.heap, s'.heap);
  }

  lemma GentleInv(s: State, s': State)
    requires Gentle(s, s')
    ensures Inv(s') && LiveSet(s') == LiveSet(s)
  {
    hide Inv, LiveSet;
  }

  lemma RestartStepped(s: State, s': State, L: Ref, B: Bound, emergency: bool)
    requires s.phase.Pause? && Gentle(s, s') && s'.phase.Propagate? && s'.tobefnz == s.tobefnz && s'.bound == B
    requires Marked(s'.heap, s'.registry)
    ensures Stepped(s, s', L, B, emergency)
  {
    hide Inv, LiveSet;
  }

  lemma SweepStepped(s: State, s': State, L: Ref, B: Bound, emergency: bool)
    requires Sweeping(s.phase) && SweptTo(s, s') && Closer(s, s') && (s'.phase == s.phase || s'.phase == NextPhase(s.phase))
    requires Beside(s, s') && SweepsOn(s, s') && (Sweeping(s'.phase) && s'.phase != s.phase ==> s'.sweep == Some(0))
    ensures Stepped(s, s', L, B, emergency)
  {
    hide Inv, LiveSet, SweepsOn;
    SweptGentle(s, s');
  }

  lemma EndStepped(s: State, L: Ref, B: Bound, emergency: bool)
    requires Inv(s) && s.phase.SwpEnd?
    ensures s.mainthread in s.heap && Stepped(s, Ended(s), L, B, emergency)
  {
    EndedInv(s);
    hide Inv, LiveSet;
    var s' := Ended(s);
    forall r | r in s'.heap ensures r in s.heap && Trimmed(s.heap[r].body, s'.heap[r].body) { }
  }

  lemma FinalizedStepped(s: State, s': State, L: Ref, B: Bound)
    requires Gentle(s, s') && s.phase.CallFin? && s'.phase.CallFin? && |s'.tobefnz| < |s.tobefnz| && s' == SomeFinalized(s)
    ensures Stepped(s, s', L, B, false)
  {
    hide Inv, LiveSet, SomeFinalized;
  }

  /** The end of a collection. */
  lemma PauseStepped(s: State, L: Ref, B: Bound, emergency: bool)
    requires Inv(s) && s.phase.CallFin? && (emergency || s.tobefnz == [])
    ensures Stepped(s, s.(phase := Pause), L, B, emergency)
  {
    var s' := s.(phase := Pause);
    MovedLive(s, s');
    AbandonOwners(s, s');
    hide LiveClosed, LiveRoots, OwnInv, LiveSet;
    forall r | r in s'.heap ensures r in s.heap && Trimmed(s.heap[r].body, s'.heap[r].body) { }
  }

  lemma AtomicStepped(s: State, s': State, L: Ref, B: Bound, emergency: bool)
    requires Inv(s') && s.phase.Atomic? && s'.phase.SwpAllGc? && Exact(s, s', L) && Kept(s, s')
    ensures Stepped(s, s', L, B, emergency)
  {
    hide Inv, LiveSet, Exact, Kept;
  }

  // ----- runs of steps ------------------------------------------------------------------------------

  /** A run that stops as soon as its phase is one of `states`. */
  ghost predicate Run(t: seq<State>, states: set<Phase>, L: Ref, B: Bound, emergency: bool) {
    && t != [] && Inv(t[0])
    && (forall i :: 0 <= i < |t| - 1 ==> t[i].phase !in states && Stepped(t[i], t[i + 1], L, B, emergency))
    && t[|t| - 1].phase in states
  }

  /** A run that has not reached `states` yet. */
  ghost predicate Running(t: seq<State>, states: set<Phase>, L: Ref, B: Bound, emergency: bool) {
    && t != [] && Inv(t[0])
    && (forall i :: 0 <= i < |t| - 1 ==> t[i].phase !in states && Stepped(t[i], t[i + 1], L, B, emergency))
  }

  /** `states` is ahead of phase `p` within one collection. */
  predicate Ahead(p: Phase, states: set<Phase>) {
    p in states || Pause in states || (if p.Pause? then Propagate in states else CallFin in states)
  }

  /** Distance to `states`, as far as phases go. */
  function Distance(p: Phase, states: set<Phase>): nat {
    if p in states then 0 else if p.Pause? then 10 else 1 + Rank(p)
  }

  lemma RunMeasure(s: State, s': State, states: set<Phase>, L: Ref, B: Bound, emergency: bool)
    requires Stepped(s, s', L, B, emergency) && s.phase !in states && Ahead(s.phase, states)
    ensures Ahead(s'.phase, states)
    ensures var d, d' := Distance(s.phase, states), Distance(s'.phase, states);
            d' < d || (d' == d && (Whites(s') < Whites(s) || (Whites(s') == Whites(s) && Todo(s') < Todo(s))))
    ensures s'.phase.Pause? ==> s'.phase in states
  {
    hide Inv, Exact, Kept, Gentle, Whites, Todo;
  }

  /** The running thread stays live, and within the bound while marking. */
  lemma RunThread(s: State, s': State, L: Ref, B: Bound, emergency: bool)
    requires Inv(s) && Stepped(s, s', L, B, emergency) && L in LiveSet(s) && (KeepInvariant(s.phase) ==> L in s.bound.now)
    requires s.phase.Pause? ==> L in B.now
    ensures L in LiveSet(s') && (KeepInvariant(s'.phase) ==> L in s'.bound.now)
  {
    hide Inv, LiveSet, Closed;
  }

  lemma LiveIn(s: State, r: Ref)
    requires r in LiveSet(s)
    ensures r in s.heap
  {
  }

  /** The steps of one `luaC_step`: at least one, then as long as there is debt, and not past a pause. */
  ghost predicate TurnsOn(t: seq<State>, owing: (nat, Phase) -> bool, L: Ref, B: Bound) {
    && |t| > 1 && Inv(t[0]) && (forall i :: 0 <= i < |t| - 1 ==> Stepped(t[i], t[i + 1], L, B, false))
    && (forall i :: 0 < i < |t| - 1 ==> owing(i, t[i].phase) && !t[i].phase.Pause?)
  }

  ghost predicate Turns(t: seq<State>, owing: (nat, Phase) -> bool, L: Ref, B: Bound) {
    TurnsOn(t, owing, L, B) && (t[|t| - 1].phase.Pause? || !owing(|t| - 1, t[|t| - 1].phase))
  }

  lemma TurnOwed(t: seq<State>, owing: (nat, Phase) -> bool, L: Ref, B: Bound, i: nat)
    requires TurnsOn(t, owing, L, B) && 0 < i < |t| - 1
    ensures owing(i, t[i].phase)
  {
    hide Inv, Stepped;
  }

  lemma TurnsStart(s: State, s': State, owing: (nat, Phase) -> bool, L: Ref, B: Bound)
    requires Inv(s) && Stepped(s, s', L, B, false)
    ensures TurnsOn([s, s'], owing, L, B)
  {
    hide Inv, Stepped;
  }

  lemma TurnsMore(t: seq<State>, s': State, owing: (nat, Phase) -> bool, L: Ref, B: Bound)
    requires TurnsOn(t, owing, L, B) && Stepped(t[|t| - 1], s', L, B, false)
    requires owing(|t| - 1, t[|t| - 1].phase) && !t[|t| - 1].phase.Pause?
    ensures TurnsOn(t + [s'], owing, L, B)
  {
    hide Inv, Stepped;
    var u := t + [s'];
    forall i | 0 <= i < |u| - 1 ensures Stepped(u[i], u[i + 1], L, B, false) {
      if i < |t| - 1 { assert u[i] == t[i] && u[i + 1] == t[i + 1]; }
    }
  }

  // ----- sweeping up to the pause ----------------------------------------------------------------------

  /** Nothing live is lost on the way to the pause once marking is over or was abandoned. */
  lemma {:induction false} DrainRun(t: seq<State>, L: Ref, B: Bound, emergency: bool)
    requires Running(t, {Pause}, L, B, emergency) && !KeepInvariant(t[0].phase)
    ensures Gentle(t[0], t[|t| - 1]) && !KeepInvariant(t[|t| - 1].phase)
    ensures emergency ==> t[|t| - 1].tobefnz == t[0].tobefnz
    ensures |t| > 1 && t[|t| - 1].phase.Pause? && !emergency ==> t[|t| - 1].tobefnz == []
  {
    hide Inv, LiveSet, Exact, Kept, Gentle, Closer;
    if |t| == 1 {
      GentleRefl(t[0]);
    } else {
      var u := t[..|t| - 1];
      DrainRun(u, L, B, emergency);
      GentleTrans(t[0], u[|u| - 1], t[|t| - 1]);
    }
  }

  // ----- a whole cycle -----------------------------------------------------------------------------------

  /** The roots of a collection: what the program holds, what still awaits a finalizer, fixed strings. */
  function CycleRoots(s: State, L: Ref): set<Ref> {
    RootSet(s) + {L} + ToSet(s.finobj) + ToSet(s.fixedgc)
  }

  /** What a collection that began in `s` at a pause has achieved when marking is over: the live objects
      are a closed set over the roots and within the bound, contents are kept, and an object with a
      finalizer that the roots hold is not finalized. */
  ghost predicate Collected(s: State, c: State, L: Ref, B: Bound) {
    && Inv(c) && !KeepInvariant(c.phase)
    && Closed(s.heap, LiveSet(c), false) && CycleRoots(s, L) <= LiveSet(c) <= B.later
    && (forall r :: r in c.heap ==> r in s.heap && Shrunk(s.heap[r].body, c.heap[r].body))
    && Rooted(s, c) && exists M :: Found(s, c, L, B.now, M)
  }

  ghost predicate InCycle(s: State, c: State, L: Ref, B: Bound) {
    if KeepInvariant(c.phase) then Gentle(s, c) && c.bound == B && c.tobefnz == s.tobefnz else Collected(s, c, L, B)
  }

  /** What waits for its finalizer: what was found in this cycle goes behind what waited before, and all of
      it is finalized before the pause unless the collection is an emergency. */
  ghost predicate Due(s: State, c: State, emergency: bool) {
    if KeepInvariant(c.phase) then true
    else if emergency then c.tobefnz == s.tobefnz + Without(s.finobj, ToSet(c.finobj))
    else c.phase.Pause? ==> c.tobefnz == []
  }

  lemma MarkedCollected(s: State, m: State, c: State, L: Ref, B: Bound)
    requires Inv(s) && s.phase.Pause? && Gentle(s, m) && m.phase.Atomic? && m.bound == B && m.tobefnz == s.tobefnz
    requires Inv(c) && c.phase.SwpAllGc? && Exact(m, c, L) && Kept(m, c)
    ensures Collected(s, c, L, B)
  {
    hide Inv, LiveSet, Closed, Trimmed, Shrunk, RootSet, MarkInv, RootsOK, StartMarked, NoneDead, Found, Least;
    SameCycleRoots(s, m, L);
    CycleMust(m, c, L);
    RestAllLive(s);
    InvNoneDead(m);
    LiveAll(m);
    assert TrimmedHeap(s.heap, m.heap);
    TrimmedClosed(s.heap, m.heap, LiveSet(c));
    forall r | r in c.heap ensures r in s.heap && Shrunk(s.heap[r].body, c.heap[r].body) {
      TrimmedIsShrunk(s.heap[r].body, m.heap[r].body);
      ShrunkTrans(s.heap[r].body, m.heap[r].body, c.heap[r].body);
    }
    LiveIn(c, L);
    var M :| Found(m, c, L, m.bound.now, M);
    MarkedFound(s, m, c, L, B, M);
  }

  lemma MarkedFound(s: State, m: State, c: State, L: Ref, B: Bound, M: set<Ref>)
    requires SameNames(s, m) && m.tobefnz == s.tobefnz && Found(m, c, L, B.now, M)
    requires TrimmedHeap(s.heap, m.heap) && LiveSet(c) <= m.heap.Keys && forall r :: r in c.heap ==> r in m.heap
    ensures Found(s, c, L, B.now, M)
  {
    hide Closed, LiveSet, Entries, RootSet;
    SameRootSet(s, m);
    TrimmedClosed(s.heap, m.heap, M);
    EntriesBefore(s.heap, m.heap, c.heap, M, LiveSet(c));
  }

  lemma SameCycleRoots(s: State, m: State, L: Ref)
    requires SameNames(s, m) && m.tobefnz == s.tobefnz
    ensures CycleRoots(m, L) == CycleRoots(s, L)
  {
  }

  lemma CycleMust(m: State, c: State, L: Ref)
    requires Exact(m, c, L)
    ensures CycleRoots(m, L) <= LiveSet(c) && L in LiveSet(c)
  {
    hide LiveSet, Closed, Least;
    var M :| Found(m, c, L, m.bound.now, M);
    FoundSorted(m, c, L, m.bound.now, M);
    var kept := ToSet(c.finobj);
    OnlyIn(m.finobj, kept);
    forall r | r in CycleRoots(m, L) ensures r in LiveSet(c) {
      if r in m.tobefnz || (r in m.finobj && r !in kept) {
        assert r in c.tobefnz && r in ToSet(c.tobefnz);
      }
      assert r in RootSet(c) + {L} + ToSet(c.finobj) + ToSet(c.fixedgc);
    }
  }

  lemma CollectedGentle(s: State, c: State, c': State, L: Ref, B: Bound)
    requires Collected(s, c, L, B) && Gentle(c, c') && !KeepInvariant(c'.phase)
    ensures Collected(s, c', L, B)
  {
    hide Inv, LiveSet, Closed, Shrunk, Trimmed, Least, Entries;
    forall r | r in c'.heap ensures r in s.heap && Shrunk(s.heap[r].body, c'.heap[r].body) {
      TrimmedIsShrunk(c.heap[r].body, c'.heap[r].body);
      ShrunkTrans(s.heap[r].body, c.heap[r].body, c'.heap[r].body);
    }
    var M :| Found(s, c, L, B.now, M);
    EntriesAfter(s.heap, c.heap, c'.heap, M, LiveSet(c));
    assert Found(s, c', L, B.now, M);
  }

  /** One step of a cycle, after its first one. */
  lemma CycleStep(s: State, c: State, c': State, L: Ref, B: Bound, emergency: bool)
    requires Inv(s) && s.phase.Pause? && InCycle(s, c, L, B) && !c.phase.Pause? && Stepped(c, c', L, B, emergency)
    ensures InCycle(s, c', L, B)
  {
    hide Inv, LiveSet, Exact, Kept, Gentle, Closer, Collected;
    if c.phase.Atomic? {
      MarkedCollected(s, c, c', L, B);
    } else if c.phase.Propagate? {
      GentleTrans(s, c, c');
    } else {
      CollectedGentle(s, c, c', L, B);
    }
  }

  lemma DueStep(s: State, c: State, c': State, L: Ref, B: Bound, emergency: bool)
    requires InCycle(s, c, L, B) && Due(s, c, emergency) && !c.phase.Pause? && Stepped(c, c', L, B, emergency)
    ensures Due(s, c', emergency)
  {
    hide Inv, LiveSet, Closer, Collected, Advance, SomeFinalized, Found, Closed, RootSet, RefsMarked;
  }

  /** Every run from within a cycle that stops at the latest at the pause stays in that cycle. */
  lemma {:induction false} CycleRun(s: State, t: seq<State>, states: set<Phase>, L: Ref, B: Bound, emergency: bool)
    requires Inv(s) && s.phase.Pause? && Running(t, states, L, B, emergency) && Ahead(t[0].phase, states)
    requires InCycle(s, t[0], L, B) && (t[0].phase.Pause? ==> t[0].phase in states) && Due(s, t[0], emergency)
    ensures InCycle(s, t[|t| - 1], L, B) && Due(s, t[|t| - 1], emergency) && Ahead(t[|t| - 1].phase, states)
    ensures t[|t| - 1].phase.Pause? ==> t[|t| - 1].phase in states
  {
    hide Inv, InCycle, Stepped, Ahead, Due;
    if |t| > 1 {
      CycleRun(s, t[..|t| - 1], states, L, B, emergency);
      var m, c := t[|t| - 2], t[|t| - 1];
      CycleStep(s, m, c, L, B, emergency);
      DueStep(s, m, c, L, B, emergency);
      RunMeasure(m, c, states, L, B, emergency);
    }
  }

  /** The first step of a cycle. */
  lemma CycleStart(s: State, c: State, L: Ref, B: Bound, emergency: bool)
    requires Inv(s) && s.phase.Pause? && Stepped(s, c, L, B, emergency)
    ensures InCycle(s, c, L, B) && c.phase.Propagate?
  {
    hide Inv, Gentle, Collected;
  }

  // ----- what can be reached does not depend on the garbage ------------------------------------------------

  /** `h'` is what is left of `h` once some garbage was swept: the rest is closed under every pointer. */
  ghost predicate Remains(h: Heap, h': Heap) {
    && NoDangling(h')
    && forall r :: r in h' ==> r in h && Trimmed(h[r].body, h'[r].body)
  }

  /** Closedness at an object that remained. */
  lemma RemainsAt(h: Heap, h': Heap, S: set<Ref>, r: Ref, strings: bool)
    requires Remains(h, h') && r in h'
    ensures ClosedAt(h, S, h[r].body, strings) <==> ClosedAt(h', S * h'.Keys, h'[r].body, strings)
  {
    var b, b', S' := h[r].body, h'[r].body, S * h'.Keys;
    assert Trimmed(b, b');
    forall v: Value | v.Ptr? ensures StrongHolds(b, v) <==> StrongHolds(b', v) ensures EntryHolds(b, v) <==> EntryHolds(b', v) {
    }
    forall v: Value | v.Ptr? && (StrongHolds(b', v) || EntryHolds(b', v))
      ensures v.r in h' && (IsString(h, v) <==> IsString(h', v))
    {
      HeldSomewhere(h'[r].body, v);
      assert Holds(h'[r].body, v) && Points(h', v);
      assert Trimmed(h[v.r].body, h'[v.r].body);
    }
    if b.Table? {
      forall n: Node | !n.val.Nil? ensures n in b.nodes <==> n in b'.nodes { }
      forall n | n in b'.nodes && !n.val.Nil?
        ensures KeyHeld(h, S, n.key) <==> KeyHeld(h', S', n.key)
        ensures In(S, n.key) <==> In(S', n.key)
        ensures In(S, n.val) <==> In(S', n.val)
      {
        assert EntryHolds(b', n.key) && EntryHolds(b', n.val);
      }
    }
  }

  /** Sweeping garbage does not change what is reachable. */
  lemma RemainsLeast(h: Heap, h': Heap, roots: set<Ref>, strings: bool)
    requires Remains(h, h') && roots <= h'.Keys
    ensures Least(h, roots, strings) == Least(h', roots, strings)
  {
    var L, L' := Least(h, roots, strings), Least(h', roots, strings);
    LeastIsClosed(h', roots, strings);
    assert L <= L' by {
      assert L' <= h'.Keys;
      assert L' * h'.Keys == L';
      forall r | r in L' && r in h ensures ClosedAt(h, L', h[r].body, strings) {
        assert ClosedAt(h', L', h'[r].body, strings);
        RemainsAt(h, h', L', r, strings);
      }
      LeastBelow(h, roots, strings, L');
    }
    forall r | r in L' ensures r in L {
      forall S | Closed(h, S, strings) && roots <= S ensures r in S {
        var S' := S * h'.Keys;
        forall q | q in S' && q in h' ensures ClosedAt(h', S', h'[q].body, strings) {
          assert q in S && q in h;
          RemainsAt(h, h', S, q, strings);
        }
        LeastBelow(h', roots, strings, S');
      }
      assert InEveryClosed(h, roots, strings, r);
    }
  }

  // ----- full collections ----------------------------------------------------------------------------------

  lemma SteppedInv(s: State, s': State, L: Ref, B: Bound, emergency: bool)
    requires Stepped(s, s', L, B, emergency)
    ensures Inv(s')
  {
    hide Inv;
  }

  lemma RunLength(t: seq<State>, states: set<Phase>, L: Ref, B: Bound, emergency: bool)
    requires Running(t, states, L, B, emergency)
    ensures t[|t| - 1].phase in states && t[0].phase !in states ==> |t| > 1
    ensures t[0].phase in states ==> t == [t[0]]
  {
    hide Inv, Stepped;
    assert |t| > 1 ==> t[0].phase !in states;
  }

  /** Giving up an unfinished mark loses nothing. */
  lemma AbandonGentle(s: State)
    requires Inv(s) && KeepInvariant(s.phase)
    ensures var s' := s.(phase := SwpAllGc, stopped := false, sweep := Some(0)); Inv(s') && Gentle(s, s') && s'.tobefnz == s.tobefnz
  {
    hide Inv, LiveSet;
    InvOwners(s);
    AbandonSweep(s);
    var s' := s.(phase := SwpAllGc, stopped := false, sweep := Some(0));
    assert s' == s.(phase := SwpAllGc, sweep := Some(0));
    forall r | r in s'.heap ensures r in s.heap && Trimmed(s.heap[r].body, s'.heap[r].body) { }
  }

  lemma AbandonSwept(s: State, c: State)
    requires var s' := s.(phase := SwpAllGc, stopped := false, sweep := Some(0)); Gentle(s, s') && SweptTo(s', c)
    ensures Gentle(s, c) && c.tobefnz == s.tobefnz
  {
    hide Gentle, SweptTo;
    var s' := s.(phase := SwpAllGc, stopped := false, sweep := Some(0));
    SweptGentle(s', c);
    GentleTrans(s, s', c);
  }

  function AllPhases(): set<Phase> {
    {Propagate, Atomic, InsideAtomic, SwpAllGc, SwpFinObj, SwpToBeFnz, SwpEnd, CallFin, Pause}
  }

  /** What a full collection finds reachable before it looks at finalizers. Objects that wait for their
      finalizers count only when the finalizers have not run before the new cycle starts. */
  function FirstRoots(s: State, L: Ref, isemergency: bool): set<Ref> {
    {s.mainthread} + RefsOf([s.registry]) + RefsOf(s.mt) + {L} +
    (if isemergency || s.phase.Pause? then ToSet(s.tobefnz) else {})
  }

  /** The roots of a full collection: also what has a finalizer, and fixed strings. */
  function FullRoots(s: State, L: Ref, isemergency: bool): set<Ref> {
    FirstRoots(s, L, isemergency) + ToSet(s.finobj) + ToSet(s.fixedgc)
  }

  ghost predicate NoWeakTables(h: Heap) {
    forall r :: r in h && h[r].body.Table? ==> h[r].body.mode.Strong?
  }

  /** The heap after a full collection: everything reachable, nothing that is not, contents untouched, except
      that weak tables lost exactly the entries whose object is lost. For values that is decided before
      finalizers are looked at, unless only a finalizer leads to the table. Strings that only weak slots hold
      may stay; without weak tables the outcome is exact. An object keeps its finalizer exactly when it is
      reached without finalizers. */
  ghost predicate FullyCollected(s: State, c: State, L: Ref, isemergency: bool) {
    var R, F := FullRoots(s, L, isemergency), FirstRoots(s, L, isemergency);
    && Least(s.heap, R, false) <= c.heap.Keys <= Least(s.heap, R, true)
    && (forall r :: r in s.heap && !s.heap[r].body.Str? ==> (r in c.heap <==> r in Least(s.heap, R, false)))
    && (forall r :: r in c.heap ==> r in s.heap && Shrunk(s.heap[r].body, c.heap[r].body))
    && WeakExactly(s.heap, c.heap, Least(s.heap, F, false))
    && (NoWeakTables(s.heap) ==> c.heap.Keys == Least(s.heap, R, false))
    && c.finobj == Only(s.finobj, ToSet(c.finobj))
    && (forall r :: r in s.finobj && r in s.heap && !s.heap[r].body.Str? ==> (r in c.finobj <==> r in Least(s.heap, F, false)))
    && Relinked(s, c, isemergency)
  }

  /** The roots are as before. Everything with a finalizer that was not reached was finalized and is an ordinary
      object now, unless the collection is an emergency: then it waits, behind what waited before. */
  ghost predicate Relinked(s: State, c: State, isemergency: bool) {
    && Rooted(s, c)
    && c.tobefnz == (if isemergency then s.tobefnz + Without(s.finobj, ToSet(c.finobj)) else [])
    && forall r :: r in c.allgc <==> r in c.heap && r !in c.finobj + c.tobefnz + c.fixedgc + [c.mainthread]
  }

  lemma FullRelinked(s: State, p: State, c: State, L: Ref, B: Bound, isemergency: bool)
    requires Gentle(s, p) && p.tobefnz == if isemergency || s.phase.Pause? then s.tobefnz else []
    requires InCycle(p, c, L, B) && c.phase.Pause? && Due(p, c, isemergency)
    ensures Relinked(s, c, isemergency)
  {
    hide Inv, LiveSet, Closed, Found, CycleRoots, Trimmed;
    AllGcRest(c) by { InvOwners(c); }
  }

  lemma AllGcHas(c: State, r: Ref)
    requires Owners(c)[r] == if r in c.heap then 1 else 0
    ensures r in c.allgc <==> r in c.heap && r !in c.finobj + c.tobefnz + c.fixedgc + [c.mainthread]
  {
    var l: seq<Ref> := c.finobj + c.tobefnz + c.fixedgc + [c.mainthread];
    assert multiset(l) == multiset(c.finobj) + multiset(c.tobefnz) + multiset(c.fixedgc) + multiset{c.mainthread};
    assert Owners(c)[r] == multiset(c.allgc)[r] + multiset(l)[r];
    assert r in l <==> multiset(l)[r] > 0;
  }

  lemma AllGcRest(c: State)
    requires OwnInv(c)
    ensures forall r :: r in c.allgc <==> r in c.heap && r !in c.finobj + c.tobefnz + c.fixedgc + [c.mainthread]
  {
    forall r ensures r in c.allgc <==> r in c.heap && r !in c.finobj + c.tobefnz + c.fixedgc + [c.mainthread] {
      assert Owners(c)[r] == if r in c.heap then 1 else 0;
      AllGcHas(c, r);
    }
  }

  ghost predicate WeakExactly(h: Heap, c: Heap, M: set<Ref>) {
    forall r :: r in h && r in c ==> Pruned(h, if r in M then M else c.Keys, c.Keys, h[r].body, c[r].body)
  }

  /** The bounds of a full collection. */
  ghost function FullBounds(h: Heap, s: State, L: Ref, isemergency: bool): Bound {
    Bound(Least(h, FirstRoots(s, L, isemergency) + ToSet(s.fixedgc), true), Least(h, FullRoots(s, L, isemergency), true))
  }

  lemma PauseHeap(p: State)
    requires Inv(p) && p.phase.Pause?
    ensures NoDangling(p.heap) && LiveSet(p) == p.heap.Keys && LiveRoots(p) && FixedOK(p)
  {
    LiveInAllPhases(p);
    RestAllLive(p);
    hide LiveRoots, OwnInv, FixedOK;
    forall r, v | r in p.heap && Holds(p.heap[r].body, v) ensures Points(p.heap, v) {
      assert r in LiveSet(p);
      assert LiveRef(p.heap, p.white, r);
      assert Live(p, v);
    }
  }

  lemma RootsAgree(s: State, p: State, L: Ref, isemergency: bool)
    requires SameNames(s, p) && p.tobefnz == if isemergency || s.phase.Pause? then s.tobefnz else []
    ensures CycleRoots(p, L) == FullRoots(s, L, isemergency)
    ensures RootSet(p) + {L} == FirstRoots(s, L, isemergency)
  {
  }

  lemma FullRemains(s: State, p: State)
    requires Gentle(s, p) && p.phase.Pause?
    ensures Remains(s.heap, p.heap) && Inv(p)
  {
    hide Inv, LiveSet, Trimmed;
    PauseHeap(p);
  }

  lemma FullBound(s: State, p: State, L: Ref, isemergency: bool)
    requires Gentle(s, p) && p.phase.Pause? && L in LiveSet(p)
    requires p.tobefnz == if isemergency || s.phase.Pause? then s.tobefnz else []
    ensures var B := FullBounds(p.heap, s, L, isemergency); BoundOK(p, B) && L in B.now && Inv(p)
  {
    hide Inv, LiveSet, Trimmed, Closed, Least;
    PauseHeap(p);
    InvOwners(p);
    RootsAgree(s, p, L, isemergency);
    SeenNone(p.heap);
    var F, R := FirstRoots(s, L, isemergency) + ToSet(s.fixedgc), FullRoots(s, L, isemergency);
    LeastIsClosed(p.heap, F, true);
    LeastIsClosed(p.heap, R, true);
    LeastGrows(p.heap, F, R, true);
  }

  lemma FirstStep(p: State, t: seq<State>, L: Ref, B: Bound, emergency: bool)
    requires Inv(p) && p.phase.Pause? && Running(t, AllPhases() - {Pause}, L, B, emergency) && t[0] == p
    requires t[|t| - 1].phase in AllPhases() - {Pause}
    ensures InCycle(p, t[|t| - 1], L, B) && t[|t| - 1].phase.Propagate?
  {
    hide Inv, InCycle, Gentle, Exact, Kept, Closer;
    assert |t| > 1;
    assert Stepped(t[0], t[1], L, B, emergency);
    CycleStart(p, t[1], L, B, emergency);
  }

  lemma FullDone(s: State, p: State, c: State, L: Ref, isemergency: bool)
    requires Gentle(s, p) && p.phase.Pause? && L in LiveSet(p)
    requires p.tobefnz == if isemergency || s.phase.Pause? then s.tobefnz else []
    requires InCycle(p, c, L, FullBounds(p.heap, s, L, isemergency)) && c.phase.Pause? && Due(p, c, isemergency)
    ensures FullyCollected(s, c, L, isemergency)
  {
    hide Inv, LiveSet, Trimmed, Shrunk, Closed, Least, Found, FirstRoots, CycleRoots, NoWeakTables, WeakExactly, Remains, Relinked,
      Due, Rooted;
    FullRelinked(s, p, c, L, FullBounds(p.heap, s, L, isemergency), isemergency);
    RootsAgree(s, p, L, isemergency);
    PauseHeap(p);
    PauseHeap(c);
    FullRemains(s, p);
    FullHeap(s.heap, p.heap, FullRoots(s, L, isemergency), LiveSet(c));
    FullShrunk(s.heap, p.heap, c.heap);
    var M :| Found(p, c, L, FullBounds(p.heap, s, L, isemergency).now, M);
    FullSorted(s, p, c, L, isemergency, M);
    FullEntries(s, p, c, L, isemergency, M);
  }

  /** Which objects are left: `K`, if it is closed, with the roots, and within the bound. */
  lemma FullHeap(h: Heap, h': Heap, R: set<Ref>, K: set<Ref>)
    requires Remains(h, h') && NoDangling(h') && R <= h'.Keys && Closed(h', K, false) && R <= K <= Least(h', R, true)
    ensures Least(h, R, false) <= K <= Least(h, R, true)
    ensures forall r :: r in h && !h[r].body.Str? ==> (r in K <==> r in Least(h, R, false))
    ensures NoWeakTables(h) ==> K == Least(h, R, false)
  {
    hide Closed, Least, Remains, NoWeakTables;
    RemainsLeast(h, h', R, true);
    RemainsLeast(h, h', R, false);
    LeastBelow(h', R, false, K);
    LeastIn(h', R, true);
    StringsOnly(h', R, {});
    assert R + {} == R;
    if NoWeakTables(h) {
      StillNoWeak(h, h');
      StrongHeapLeast(h', R);
    }
    SameStr(h, h');
  }

  lemma FullShrunk(a: Heap, b: Heap, c: Heap)
    requires Remains(a, b) && forall r :: r in c ==> r in b && Shrunk(b[r].body, c[r].body)
    ensures forall r :: r in c ==> r in a && Shrunk(a[r].body, c[r].body)
  {
    hide Shrunk, Trimmed;
    forall r | r in c ensures r in a && Shrunk(a[r].body, c[r].body) {
      TrimmedIsShrunk(a[r].body, b[r].body);
      ShrunkTrans(a[r].body, b[r].body, c[r].body);
    }
  }

  lemma SameStr(h: Heap, h': Heap)
    requires Remains(h, h')
    ensures forall r :: r in h' ==> r in h && (h'[r].body.Str? <==> h[r].body.Str?)
  {
    forall r | r in h' ensures r in h && (h'[r].body.Str? <==> h[r].body.Str?) { assert Trimmed(h[r].body, h'[r].body); }
  }

  lemma FullSorted(s: State, p: State, c: State, L: Ref, isemergency: bool, M: set<Ref>)
    requires Gentle(s, p) && Remains(s.heap, p.heap) && NoDangling(p.heap) && FixedOK(p)
    requires Found(p, c, L, FullBounds(p.heap, s, L, isemergency).now, M)
    requires RootSet(p) + {L} == FirstRoots(s, L, isemergency) && FirstRoots(s, L, isemergency) <= p.heap.Keys
    requires forall r :: r in s.finobj ==> r in p.heap
    ensures c.finobj == Only(s.finobj, ToSet(c.finobj))
    ensures forall r :: r in s.finobj && r in s.heap && !s.heap[r].body.Str? ==>
              (r in c.finobj <==> r in Least(s.heap, FirstRoots(s, L, isemergency), false))
  {
    hide Inv, LiveSet, Trimmed, Closed, Least, Remains, Found;
    FirstMarks(s, p, c, L, isemergency, M);
    FoundSorted(p, c, L, FullBounds(p.heap, s, L, isemergency).now, M);
    OnlyMarked(p, c, L, FullBounds(p.heap, s, L, isemergency).now, M);
  }

  lemma OnlyMarked(p: State, c: State, L: Ref, now: set<Ref>, M: set<Ref>)
    requires Found(p, c, L, now, M)
    ensures forall r :: r in c.finobj <==> r in p.finobj && r in M
  {
    OnlyIn(p.finobj, M);
  }

  /** What was marked first is what is reached without finalizers, as far as it is not a string. */
  lemma FirstMarks(s: State, p: State, c: State, L: Ref, isemergency: bool, M: set<Ref>)
    requires Remains(s.heap, p.heap) && NoDangling(p.heap) && FixedOK(p) && SameNames(s, p)
    requires Found(p, c, L, FullBounds(p.heap, s, L, isemergency).now, M)
    requires RootSet(p) + {L} == FirstRoots(s, L, isemergency) && FirstRoots(s, L, isemergency) <= p.heap.Keys
    ensures forall r :: r in s.heap && !s.heap[r].body.Str? ==> (r in M <==> r in Least(s.heap, FirstRoots(s, L, isemergency), false))
  {
    hide Trimmed, Closed, Remains, Entries;
    var F := FirstRoots(s, L, isemergency);
    RemainsLeast(s.heap, p.heap, F, false);
    StringsOnly(p.heap, F, ToSet(s.fixedgc));
    SameStr(s.heap, p.heap);
    LeastBelow(p.heap, F, false, M);
    LeastIn(p.heap, F + ToSet(s.fixedgc), true);
    hide Least;
  }

  lemma LeastIn(h: Heap, roots: set<Ref>, strings: bool)
    ensures Least(h, roots, strings) <= h.Keys + roots
  {
  }

  lemma FullEntries(s: State, p: State, c: State, L: Ref, isemergency: bool, M: set<Ref>)
    requires Gentle(s, p) && Remains(s.heap, p.heap) && NoDangling(p.heap) && FixedOK(p)
    requires Found(p, c, L, FullBounds(p.heap, s, L, isemergency).now, M)
    requires RootSet(p) + {L} == FirstRoots(s, L, isemergency) && FirstRoots(s, L, isemergency) <= p.heap.Keys
    requires NoDangling(c.heap) && LiveSet(c) == c.heap.Keys && c.heap.Keys <= p.heap.Keys
    requires forall r :: r in c.heap ==> r in s.heap && Shrunk(s.heap[r].body, c.heap[r].body)
    ensures WeakExactly(s.heap, c.heap, Least(s.heap, FirstRoots(s, L, isemergency), false))
  {
    hide Inv, LiveSet, Trimmed, Closed, Least, Shrunk, Pruned, Entries, NoDangling;
    FirstMarks(s, p, c, L, isemergency, M);
    EntriesBefore(s.heap, p.heap, c.heap, M, c.heap.Keys);
    EntriesPruned(s.heap, c.heap, M, Least(s.heap, FirstRoots(s, L, isemergency), false));
  }

  lemma StillNoWeak(h: Heap, h': Heap)
    requires Remains(h, h') && NoWeakTables(h)
    ensures NoWeakTables(h')
  {
    forall r | r in h' && h'[r].body.Table? ensures h'[r].body.mode.Strong? {
      assert Trimmed(h[r].body, h'[r].body);
    }
  }
}
