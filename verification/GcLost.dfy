/** Two cases in which the collector frees an object that is still referenced, each with its exact
    condition and with a run from the initial state that ends there. */
module GcLost {
  import opened Options
  import opened GcHeap
  import opened GcState
  import opened GcPaint
  import opened GcWalk
  import opened GcSettle
  import opened GcEphemeron
  import opened GcAtomic
  import opened GcComplete
  import opened GcSweep
  import opened GcPhases
  import opened GcFinalize
  import opened GcStep
  import opened GcCycle
  import opened GcMutator
  import opened GcObjects
  import opened GcStores
  import opened Collector

  // ----- what a mark ends with when some objects are blind --------------------------------------

  /** What counts as reached before finalizers are looked at, and in the whole cycle. */
  function FirstMarks(s: State, L: Ref): set<Ref> {
    MarkedSet(s.heap) + RootSet(s) + {L}
  }

  function AllMarks(s: State, L: Ref): set<Ref> {
    FirstMarks(s, L) + ToSet(s.finobj)
  }

  ghost function ExactBound(s: State, L: Ref): Bound {
    var h := SeenHeap(s.heap, s.blind);
    Bound(Least(h, FirstMarks(s, L), true), Least(h, AllMarks(s, L), true))
  }

  lemma ExactBounded(s: State, L: Ref)
    requires NoDangling(s.heap)
    ensures var B := ExactBound(s, L);
            Bounded(s.heap, s.blind, B) && FirstMarks(s, L) <= B.now && AllMarks(s, L) <= B.later
  {
    hide Closed, Least, SeenHeap, FirstMarks, NoDangling;
    var h := SeenHeap(s.heap, s.blind);
    SeenDangling(s.heap, s.blind);
    LeastIsClosed(h, FirstMarks(s, L), true);
    LeastIsClosed(h, AllMarks(s, L), true);
    LeastGrows(h, FirstMarks(s, L), AllMarks(s, L), true);
  }

  /** Objects other than strings are marked exactly when the collector could reach them. */
  ghost predicate MarkedExactly(s: State, L: Ref, marked: set<Ref>) {
    forall r :: r in s.heap && !s.heap[r].body.Str? ==>
      (r in marked <==> r in Least(SeenHeap(s.heap, s.blind), AllMarks(s, L), false))
  }

  lemma ExactMarks(s: State, L: Ref, marked: set<Ref>)
    requires NoDangling(s.heap) && Closed(SeenHeap(s.heap, s.blind), marked, false)
    requires AllMarks(s, L) <= marked <= ExactBound(s, L).later
    ensures MarkedExactly(s, L, marked)
  {
    hide Closed, Least, SeenHeap, AllMarks, NoDangling;
    var h, R := SeenHeap(s.heap, s.blind), AllMarks(s, L);
    SeenDangling(s.heap, s.blind);
    SeenStrings(s.heap, s.blind);
    LeastBelow(h, R, false, marked);
    StringsOnly(h, R, {});
    assert R + {} == R;
  }

  lemma SeenStrings(h: Heap, blind: set<Ref>)
    ensures forall r :: r in h ==> r in SeenHeap(h, blind) && (SeenHeap(h, blind)[r].body.Str? <==> h[r].body.Str?)
  {
  }

  /** The rest of a mark, step by step, with the program stopped. */
  method FinishMark(g: GlobalState, L: Ref)
    requires MarkInv(g.Snap(), {}) && KeepInvariant(g.gcstate) && !g.stopped && g.held == []
    requires RootsOK(g.Snap()) && StartMarked(g.Snap()) && L in g.heap && L in g.bound.now
    modifies g
    ensures Marked1(old(g.Snap()), g.Snap(), L)
  {
    hide MarkInv, Grew, RootsOK, StartMarked, Ran, Reached, OwnersMoved, Flipped, Closed, SeenHeap, MarkedSet, RootSet,
      ShrunkHeap, Darker, Marked1;
    ghost var s := g.Snap();
    GrewRefl(s);
    while g.gcstate.Propagate? && g.gray != []
      invariant MarkInv(g.Snap(), {}) && KeepInvariant(g.gcstate) && Grew(s, g.Snap())
      decreases WhiteSet(g.heap), |g.gray|
    {
      ghost var m := g.Snap();
      g.PropagateMark();
      GrewTrans(s, m, g.Snap());
      GrewKeeps(m, g.Snap());
    }
    ghost var m := g.Snap();
    GrewRan(s, m);
    RanKeeps(s, m);
    g.gcstate, g.stopped := Phase.Atomic, true;
    ghost var s0 := g.Snap();
    RanOver(s, m);
    PhaseInv(m, s0);
    g.PropagateAll();
    ghost var s1 := g.Snap();
    GrewKeep2(s, m);
    GrewKeep2(s0, s1);
    GrewRan(s0, s1);
    StoppedRan(s, m, s0, s1);
    RanKeeps(s0, s1);
    RootsAt(m, s0);
    RanOver(s0, s1);
    ghost var M := g.Atomic(L);
    Finished(s, s1, g.Snap(), L, M);
  }

  lemma RootsAt(s: State, s': State)
    requires s' == s.(phase := s'.phase, stopped := s'.stopped)
    ensures RootsOK(s) ==> RootsOK(s')
    ensures StartMarked(s) ==> StartMarked(s')
  {
  }

  lemma StoppedRan(s: State, m: State, s0: State, s1: State)
    requires Ran(s, m) && s0 == m.(phase := s0.phase, stopped := true) && Ran(s0, s1) && !s.stopped
    ensures Ran(s.(stopped := true), s1)
  {
    hide Darker;
    assert SameOwners(m, s0);
    forall r | r in s.heap ensures Trimmed(s.heap[r].body, s1.heap[r].body) {
      TrimmedTrans(s.heap[r].body, m.heap[r].body, s1.heap[r].body);
    }
    DarkerTrans(s.heap, m.heap, s1.heap);
  }

  /** A finished mark: live means marked, the marked set is closed as far as the collector could see, and
      no object changed hands except that finalizers became due. */
  ghost predicate Marked1(s: State, c: State, L: Ref) {
    && Closed(SeenHeap(s.heap, s.blind), LiveSet(c), false) && AllMarks(s, L) <= LiveSet(c) <= s.bound.later
    && ShrunkHeap(s.heap, c.heap)
    && c.allgc == s.allgc && c.fixedgc == s.fixedgc && c.mainthread == s.mainthread && c.registry == s.registry && c.mt == s.mt
    && multiset(c.finobj) + multiset(c.tobefnz) == multiset(s.finobj) + multiset(s.tobefnz)
  }

  lemma Finished(s: State, s1: State, c: State, L: Ref, M: set<Ref>)
    requires Ran(s.(stopped := true), s1) && Reached(s1, L, M) && OwnersMoved(s1, c, M) && Flipped(c)
    requires Closed(SeenHeap(s1.heap, s1.blind), MarkedSet(c.heap), false) && RootSet(c) + {L} <= MarkedSet(c.heap)
    requires ShrunkHeap(s1.heap, c.heap) && Darker(s1.heap, c.heap)
    ensures Marked1(s, c, L)
  {
    hide Closed, SeenHeap, ShrunkHeap, Darker, TrimmedHeap, Reached, AllFull, NoDangling, LiveSet;
    var t := s.(stopped := true);
    RanKeeps2(t, s1);
    SeenTrimmed(s.heap, s1.heap, s.blind);
    TrimmedClosed(SeenHeap(s.heap, s.blind), SeenHeap(s1.heap, s.blind), MarkedSet(c.heap));
    TrimmedHeapShrunk(s.heap, s1.heap);
    ShrunkHeapTrans(s.heap, s1.heap, c.heap);
    RanDarker(t, s1);
    DarkerSet(s.heap, s1.heap);
    DarkerSet(s1.heap, c.heap);
    FlippedLives(c);
    FinishedRoots(s, s1, c, L, M);
    OnlyAll(s.finobj, M);
    assert multiset(c.tobefnz) == multiset(s.tobefnz) + multiset(Without(s.finobj, M));
  }

  lemma FlippedLives(c: State)
    requires forall r :: r in c.heap && c.heap[r].colour.White? ==> c.heap[r].colour == White(!c.white)
    ensures LiveSet(c) == MarkedSet(c.heap)
  {
  }

  lemma FinishedRoots(s: State, s1: State, c: State, L: Ref, M: set<Ref>)
    requires SameOwners(s.(stopped := true), s1) && OwnersMoved(s1, c, M) && RootSet(c) + {L} <= MarkedSet(c.heap)
    requires MarkedSet(s.heap) <= MarkedSet(c.heap)
    ensures AllMarks(s, L) <= MarkedSet(c.heap)
  {
    OnlyIn(s.finobj, M);
    forall r | r in AllMarks(s, L) ensures r in MarkedSet(c.heap) {
      if r in s.tobefnz {
        assert r in c.tobefnz && r in RootSet(c);
      } else if r in s.finobj {
        assert r in c.finobj || r in c.tobefnz;
      } else if r in RootSet(s) {
        assert r in RootSet(c);
      }
    }
  }

  // ----- sweeping with the invariant broken ------------------------------------------------------------------

  /** `entersweep` and `sweepstep` on `allgc`: its dead objects are freed, nothing else changes. */
  method SweepAllGc(g: GlobalState)
    requires OwnInv(g.Snap())
    modifies g
    ensures LiveSet(g.Snap()) == LiveSet(old(g.Snap())) && g.registry == old(g.registry)
    ensures forall r :: r in g.heap ==> r in old(g.heap) && g.heap[r].body == old(g.heap)[r].body
    ensures forall r :: r in old(g.heap) ==> (r in g.heap <==> r in LiveSet(old(g.Snap())) || r !in old(g.allgc))
  {
    hide OwnInv, LiveSet, SweptState, SweptHeap, Survivors, AllWhite;
    ghost var s0 := g.Snap();
    g.gcstate, g.stopped, g.sweepgc := SwpAllGc, false, Some(0);
    ghost var s := g.Snap();
    SweepBegins(s0, s);
    ghost var k := g.SweepCurrent(1);
    SweepGoesOn(s, s, g.Snap(), k);
    while g.sweepgc.Some?
      invariant SweepPart(s, g.Snap())
      decreases g.sweepgc.Some?, if g.sweepgc.Some? then |g.allgc| - g.sweepgc.value else 0
    {
      ghost var m := g.Snap();
      k := g.SweepCurrent(GCSWEEPMAX);
      SweepGoesOn(s, m, g.Snap(), k);
    }
    SweepEnds(s, g.Snap());
  }

  /** A sweep of `allgc` that began in `s`. */
  ghost predicate SweepPart(s: State, c: State) {
    && OwnInv(c) && c.phase.SwpAllGc? && SweptPart(c, c.allgc) && LiveSet(c) == LiveSet(s) && c.white == s.white
    && c.finobj == s.finobj && c.tobefnz == s.tobefnz && c.fixedgc == s.fixedgc && c.mainthread == s.mainthread
    && c.registry == s.registry
    && (forall r :: r in c.heap ==> r in s.heap && c.heap[r].body == s.heap[r].body)
    && (forall r :: r in s.heap && r !in c.heap ==> r in s.allgc && r !in LiveSet(s))
    && (forall r :: r in c.allgc ==> r in s.allgc)
  }

  lemma SweepBegins(s0: State, s: State)
    requires OwnInv(s0) && s == s0.(phase := SwpAllGc, stopped := false, sweep := Some(0))
    ensures SweepPart(s, s) && LiveSet(s) == LiveSet(s0)
  {
    assert Owners(s) == Owners(s0);
    assert s.allgc[..0] == [];
  }

  lemma SweepGoesOn(s: State, m: State, c: State, k: nat)
    requires SweepPart(s, m) && m.sweep.Some? && m.sweep.value <= |m.allgc| && m.sweep.value + k <= |m.allgc|
    requires c == SweptState(m, m.sweep.value, k)
    ensures SweepPart(s, c)
    ensures c.sweep.Some? ==> c.sweep.value <= |c.allgc|
    ensures c.sweep.Some? ==> |c.allgc| - c.sweep.value == |m.allgc| - m.sweep.value - k && m.sweep.value + k < |m.allgc|
  {
    hide Owners, SweptHeap, Survivors, AllWhite, LiveSet;
    var at := m.sweep.value;
    forall r | r in m.allgc ensures r in m.heap { OwnedIn(m, r); }
    SweptOwners(m, at, k);
    SweptPrefix(m, at, k);
    SweptLive(m, at, k);
    SurvivorsIn(m.heap, m.white, m.allgc[at..at + k]);
    SliceIn(m.allgc, Survivors(m.heap, m.white, m.allgc[at..at + k]), at, k);
    forall r | r in m.heap && r !in c.heap ensures r in s.allgc && r !in LiveSet(s) {
      SweptGone(m, at, k, r);
    }
  }

  lemma SweptGone(m: State, at: nat, k: nat, r: Ref)
    requires m.phase.SwpAllGc? && at + k <= |m.allgc| && r in m.heap && r !in SweptState(m, at, k).heap
    ensures r in m.allgc && r !in LiveSet(m)
  {
  }

  lemma SweepEnds(s: State, c: State)
    requires SweepPart(s, c) && c.sweep.None? && OwnInv(s)
    ensures forall r :: r in s.heap ==> (r in c.heap <==> r in LiveSet(s) || r !in s.allgc)
  {
    hide Owners;
    forall r | r in s.heap && r in c.heap && r in s.allgc ensures r in LiveSet(s) {
      NotElsewhere(s, r);
      OwnedIn(c, r);
      assert r in c.allgc;
      assert c.heap[r].colour == White(c.white);
      assert r in LiveSet(c);
    }
  }

  // ----- a metatable set behind the collector's back ---------------------------------------------------

  /** A table with weak keys and values that the collector has visited: it is gray, so storing into it runs
      no forward barrier, and on no list that will be visited again. */
  predicate Visited(s: State, o: Ref) {
    && o in s.heap && AllWeakTable(s.heap[o].body) && !s.heap[o].colour.White? && o !in s.gray && o !in s.grayagain
  }

  /** The store of the metatable, and a bound that forgets what only this store leads to. */
  ghost function Unseen(s: State, o: Ref, m: Ref, L: Ref): State
    requires Visited(s, o)
  {
    var w := Wrote(s, o, s.heap[o].body.(meta := Ptr(m))).(blind := {o});
    w.(bound := ExactBound(w, L))
  }

  /** `lua_setmetatable` on such a table, then the rest of the collection up to the end of `sweeplist` on
      `allgc`, without a step of the program in between. The new metatable is freed, although the table still
      refers to it, exactly when nothing else leads to it. */
  method LoseMetatable(g: GlobalState, L: Ref, o: Ref, m: Ref)
    requires Inv(g.Snap()) && KeepInvariant(g.gcstate) && L in g.heap && Visited(g.Snap(), o)
    requires m in g.heap && g.heap[m].body.Table? && g.heap[m].colour.White?
    modifies g
    ensures o in g.heap && g.heap[o].body.Table? && g.heap[o].body.meta == Ptr(m) && g.registry == old(g.registry)
    ensures m in g.heap <==> m in Least(SeenHeap(old(g.heap), {o}), AllMarks(old(g.Snap()), L), false)
  {
    hide Inv, CanWrite, NoWeakMeta, MarkInv, RootsOK, StartMarked, Marked1, OwnInv, Least, LiveSet, AllMarks, SeenHeap;
    ghost var s := g.Snap();
    MarkPhaseIs(s);
    UnseenInv(s, o, m, L);
    VisitedStore(s, o, m);
    g.StoreForward(o, g.heap[o].body.(meta := Ptr(m)), Ptr(m));
    g.blind := {o};
    g.bound := ExactBound(g.Snap(), L);
    ghost var w := g.Snap();
    assert w == Unseen(s, o, m, L);
    MarkHeap(w);
    FinishMark(g, L);
    ghost var c := g.Snap();
    FinishedFacts(w, c, L);
    FinishedOwners(w, c, L);
    UnseenExact(s, o, m, L, c);
    SweepAllGc(g);
  }

  lemma VisitedStore(s: State, o: Ref, m: Ref)
    requires Inv(s) && KeepInvariant(s.phase) && Visited(s, o) && m in s.heap && s.heap[m].colour.White?
    ensures var b := s.heap[o].body.(meta := Ptr(m)); CanWrite(s, o, b, [Ptr(m)]) && !NoWeakMeta(s, o, b, Ptr(m))
  {
    hide OwnInv, FixedOK, Closed, CoverInv, LinksOK, KindsOK;
    InvNoneDead(s);
    LiveAll(s);
    LiveIsRef(s, o);
    LiveIsRef(s, m);
  }

  lemma VisitedGray(s: State, o: Ref)
    requires MarkPhaseInv(s) && KeepInvariant(s.phase) && s.blind == {} && Visited(s, o)
    ensures s.heap[o].colour.Gray? && o in s.allweak
  {
    CoveredAt(s, o);
  }

  lemma UnseenInv(s: State, o: Ref, m: Ref, L: Ref)
    requires Inv(s) && KeepInvariant(s.phase) && L in s.heap && Visited(s, o) && m in s.heap && s.heap[m].colour.White?
    ensures var w := Unseen(s, o, m, L);
            && MarkInv(w, {}) && RootsOK(w) && StartMarked(w) && L in w.bound.now && !w.stopped && w.held == [] && OwnInv(w)
            && FixedOK(w)
  {
    hide Inv, HeapInv, ListInv, CoverInv, RootsOK, StartMarked, OwnInv, FixedOK, Unseen, Closed;
    MarkPhaseIs(s);
    VisitedGray(s, o);
    UnseenHeap(s, o, m, L);
    UnseenLists(s, o, m, L);
    UnseenCovers(s, o, m, L);
    UnseenRoots(s, o, m, L);
    UnseenOwners(s, o, m, L);
    UnseenFields(s, o, m, L);
  }

  lemma UnseenFields(s: State, o: Ref, m: Ref, L: Ref)
    requires Visited(s, o)
    ensures var w := Unseen(s, o, m, L);
            && w == s.(heap := w.heap, blind := {o}, bound := w.bound) && w.heap.Keys == s.heap.Keys
            && w.heap[o] == s.heap[o].(body := s.heap[o].body.(meta := Ptr(m)))
            && (forall r :: r in s.heap && r != o ==> w.heap[r] == s.heap[r])
            && w.bound == ExactBound(w, L)
  {
    var w := Unseen(s, o, m, L);
  }

  lemma UnseenHeap(s: State, o: Ref, m: Ref, L: Ref)
    requires HeapInv(s) && Visited(s, o) && m in s.heap
    ensures HeapInv(Unseen(s, o, m, L))
  {
    hide Closed, SeenHeap, Least, Unseen, Bounded, ExactBound, FirstMarks, AllMarks;
    UnseenFields(s, o, m, L);
    var w := Unseen(s, o, m, L);
    forall r, v | r in w.heap && Holds(w.heap[r].body, v) ensures Points(w.heap, v) {
      if r == o {
        if v != Ptr(m) && v.Ptr? { assert Holds(s.heap[o].body, v) && Points(s.heap, v); }
      } else {
        assert Holds(s.heap[r].body, v) && Points(s.heap, v);
      }
    }
    ExactBounded(w, L);
    forall r | r in w.heap && !w.heap[r].colour.White? ensures r in w.bound.now { MarksIn(w, L, r); }
  }

  lemma MarksIn(s: State, L: Ref, r: Ref)
    requires r in s.heap && !s.heap[r].colour.White?
    ensures r in FirstMarks(s, L)
  {
  }

  lemma UnseenLists(s: State, o: Ref, m: Ref, L: Ref)
    requires ListInv(s) && s.blind == {} && Visited(s, o) && KeepInvariant(s.phase) && s.held == []
    ensures ListInv(Unseen(s, o, m, L))
  {
    UnseenKinds(s, o, m, L);
    hide Unseen, KindsOK, Links, ExactBound;
    UnseenFields(s, o, m, L);
  }

  lemma UnseenKinds(s: State, o: Ref, m: Ref, L: Ref)
    requires KindsOK(s) && s.blind == {} && Visited(s, o) && KeepInvariant(s.phase) && s.held == []
    ensures KindsOK(Unseen(s, o, m, L))
  {
    hide Unseen;
    UnseenFields(s, o, m, L);
  }

  lemma UnseenCovers(s: State, o: Ref, m: Ref, L: Ref)
    requires CoverInv(s, {}) && s.blind == {} && Visited(s, o)
    ensures CoverInv(Unseen(s, o, m, L), {})
  {
    hide Unseen;
    UnseenFields(s, o, m, L);
    var w := Unseen(s, o, m, L);
    assert forall v :: Marked(s.heap, v) == Marked(w.heap, v);
    assert forall v :: IsString(s.heap, v) == IsString(w.heap, v);
    forall r | r in w.heap && !w.heap[r].colour.White? && r !in {} ensures Covered(w, r) {
      if r != o {
        assert Covered(s, r);
      }
    }
  }

  lemma UnseenRoots(s: State, o: Ref, m: Ref, L: Ref)
    requires RootsOK(s) && StartMarked(s) && HeapInv(s) && Visited(s, o) && m in s.heap
    ensures var w := Unseen(s, o, m, L); RootsOK(w) && StartMarked(w) && L in w.bound.now
  {
    hide Closed, SeenHeap, Least, Unseen, Bounded, ExactBound;
    UnseenFields(s, o, m, L);
    UnseenHeap(s, o, m, L);
    var w := Unseen(s, o, m, L);
    ExactBounded(w, L);
  }

  lemma UnseenOwners(s: State, o: Ref, m: Ref, L: Ref)
    requires OwnInv(s) && FixedOK(s) && Visited(s, o)
    ensures OwnInv(Unseen(s, o, m, L)) && FixedOK(Unseen(s, o, m, L))
  {
    hide Unseen;
    UnseenFields(s, o, m, L);
    assert Owners(Unseen(s, o, m, L)) == Owners(s);
  }

  lemma FinishedOwners(s: State, c: State, L: Ref)
    requires OwnInv(s) && Marked1(s, c, L)
    ensures OwnInv(c)
  {
    hide Closed, SeenHeap, LiveSet, AllMarks;
    assert c.heap.Keys == s.heap.Keys;
    forall r ensures Owners(c)[r] == Owners(s)[r] {
      assert (multiset(c.finobj) + multiset(c.tobefnz))[r] == (multiset(s.finobj) + multiset(s.tobefnz))[r];
    }
  }

  /** What the collector sees of the heap is what it saw before the store. */
  lemma UnseenSame(s: State, o: Ref, m: Ref, L: Ref)
    requires Visited(s, o)
    ensures var w := Unseen(s, o, m, L); SeenHeap(w.heap, {o}) == SeenHeap(s.heap, {o}) && AllMarks(w, L) == AllMarks(s, L)
  {
    hide Unseen;
    UnseenFields(s, o, m, L);
    var w := Unseen(s, o, m, L);
    assert MarkedSet(w.heap) == MarkedSet(s.heap);
  }

  lemma UnseenExact(s: State, o: Ref, m: Ref, L: Ref, c: State)
    requires MarkPhaseInv(s) && KeepInvariant(s.phase) && s.blind == {} && FixedOK(s)
    requires Visited(s, o) && m in s.heap && s.heap[m].body.Table? && s.heap[m].colour.White?
    requires Marked1(Unseen(s, o, m, L), c, L) && HeapInv(Unseen(s, o, m, L)) && OwnInv(c)
    ensures m in c.heap && o in LiveSet(c) && o in c.heap && c.heap[o].body.Table? && c.heap[o].body.meta == Ptr(m)
    ensures m in LiveSet(c) || m !in c.allgc <==> m in Least(SeenHeap(s.heap, {o}), AllMarks(s, L), false)
  {
    hide Closed, SeenHeap, Least, Unseen, LiveSet, HeapInv, OwnInv, MarkPhaseInv, Marked1, AllMarks;
    UnseenFields(s, o, m, L);
    UnseenSame(s, o, m, L);
    var w := Unseen(s, o, m, L);
    WithoutDangling(w);
    FinishedFacts(w, c, L);
    ExactMarks(w, L, LiveSet(c));
    MarksIn(w, L, o);
    FirstIn(w, L, o);
    if m !in c.allgc { MarkedOwned(w, c, L, m); }
  }

  lemma FinishedFacts(w: State, c: State, L: Ref)
    requires Marked1(w, c, L)
    ensures Closed(SeenHeap(w.heap, w.blind), LiveSet(c), false) && AllMarks(w, L) <= LiveSet(c) <= w.bound.later
    ensures ShrunkHeap(w.heap, c.heap) && c.heap.Keys == w.heap.Keys && c.registry == w.registry
  {
  }

  lemma FirstIn(s: State, L: Ref, r: Ref)
    requires r in FirstMarks(s, L)
    ensures r in AllMarks(s, L)
  {
  }

  lemma WithoutDangling(s: State)
    requires HeapInv(s)
    ensures NoDangling(s.heap)
  {
  }

  /** What is on any other list than `allgc` is marked. */
  lemma MarkedOwned(w: State, c: State, L: Ref, m: Ref)
    requires Marked1(w, c, L) && OwnInv(c) && m in c.heap && m !in c.allgc && m !in w.fixedgc
    ensures m in LiveSet(c)
  {
    hide Closed, SeenHeap, LiveSet, ShrunkHeap;
    OwnedIn(c, m);
    if m in c.finobj || m in c.tobefnz {
      assert m in multiset(c.finobj) + multiset(c.tobefnz);
      assert m in multiset(w.finobj) + multiset(w.tobefnz);
      assert m in ToSet(w.finobj) || m in ToSet(w.tobefnz);
    }
    assert m in AllMarks(w, L);
  }

  // ----- objects left marked ----------------------------------------------------------------------------

  /** Objects still waiting for their finalizers that the sweep has not turned white. */
  function Leftover(s: State): set<Ref> {
    set r | r in s.tobefnz && r in s.heap && !s.heap[r].colour.White?
  }

  /** Between the sweep that was cut short and the pause. */
  ghost predicate Carried(s0: State, s: State, blind: set<Ref>) {
    && OwnInv(s) && FixedOK(s) && LiveClosed(s) && LiveRoots(s) && !s.stopped && s.sweep.None? && s.white == s0.white
    && s.mainthread in s.heap && s.heap[s.mainthread].body.Thread? && s.mainthread !in blind
    && s.finobj == s0.finobj && s.fixedgc == s0.fixedgc && s.mainthread == s0.mainthread
    && s.registry == s0.registry && s.mt == s0.mt && LiveSet(s) == LiveSet(s0) && s.heap.Keys == s0.heap.Keys
    && (forall r :: r in s.heap ==> s.heap[r].body == s0.heap[r].body)
    && (forall r :: r in s.allgc || r in s.finobj || r in s.tobefnz ==>
          r in s.heap && (s.heap[r].colour == White(s.white) || r in blind))
    && (forall r :: r in blind ==> r in s.heap && !s.heap[r].colour.White? && s.heap[r] == s0.heap[r])
  }

  /** `s` is the state before `udata2finalize`, with the sweep right behind the first object of `tobefnz`. What is
      left of the collection: the rest of `tobefnz` is not swept, and whatever of it is still marked stays so. */
  method CarryAway(g: GlobalState, ghost s: State)
    requires Inv(s) && s.phase.SwpToBeFnz? && s.sweep == Some(1) && s.tobefnz != [] && s.tobefnz[0] in s.heap
    requires g.Snap() == Finalizing(s).(finnum := g.gcfinnum)
    modifies g
    ensures g.blind == Leftover(s.(tobefnz := s.tobefnz[1..])) && Resting(g.Snap())
    ensures Carried(s, g.Snap(), g.blind) && g.tobefnz == []
  {
    hide Inv, Carried, Leftover, Resting;
    ghost var blind := Leftover(s.(tobefnz := s.tobefnz[1..]));
    CutShort(g, s);
    FinalizeRest(g, s, blind);
    ghost var m := g.Snap();
    EndCycle(g, blind);
    CarriedPause(s, m, g.Snap());
    CarriedRests(s, g.Snap());
  }

  /** The sweep is at the end of its list, the main thread turns white. */
  method CutShort(g: GlobalState, ghost s: State)
    requires Inv(s) && s.phase.SwpToBeFnz? && s.sweep == Some(1) && s.tobefnz != [] && s.tobefnz[0] in s.heap
    requires g.Snap() == Finalizing(s).(finnum := g.gcfinnum)
    modifies g
    ensures Carried(s, g.Snap(), Leftover(s.(tobefnz := s.tobefnz[1..]))) && g.gcstate.CallFin?
    ensures g.mainthread in g.heap && g.heap[g.mainthread].colour == White(g.currentwhite)
  {
    hide Inv, Carried, Leftover, Finalizing;
    CarriedFirst(s);
    g.gcstate := SwpEnd;
    CarriedNum(s, Finalizing(s).(phase := SwpEnd), g.Snap(), Leftover(s.(tobefnz := s.tobefnz[1..])));
    CarriedMain(s, g.Snap(), Leftover(s.(tobefnz := s.tobefnz[1..])));
    g.heap := g.heap[g.mainthread := g.heap[g.mainthread].(colour := White(g.currentwhite))];
    g.gcstate := CallFin;
  }

  lemma CarriedNum(s0: State, m: State, p: State, blind: set<Ref>)
    requires Carried(s0, m, blind) && p == m.(finnum := p.finnum)
    ensures Carried(s0, p, blind)
  {
    hide LiveClosed, FixedOK, OwnInv, LiveRoots, LiveSet;
    RestSame(m, p);
  }

  method EndCycle(g: GlobalState, ghost blind: set<Ref>)
    modifies g`gcfinnum, g`gcstate, g`blind
    ensures g.Snap() == old(g.Snap()).(finnum := 0, phase := Pause, blind := blind)
  {
    g.gcfinnum := 0;
    g.gcstate := Pause;
    g.blind := blind;
  }

  /** `runafewfinalizers`, until no object is left. */
  method FinalizeRest(g: GlobalState, ghost s: State, ghost blind: set<Ref>)
    requires Carried(s, g.Snap(), blind) && g.gcstate.CallFin?
    requires g.mainthread in g.heap && g.heap[g.mainthread].colour == White(g.currentwhite)
    modifies g`tobefnz, g`allgc, g`heap
    ensures Carried(s, g.Snap(), blind) && g.tobefnz == []
    ensures g.mainthread in g.heap && g.heap[g.mainthread].colour == White(g.currentwhite)
  {
    hide Carried;
    while g.tobefnz != []
      invariant Carried(s, g.Snap(), blind) && g.gcstate.CallFin?
      invariant g.mainthread in g.heap && g.heap[g.mainthread].colour == White(g.currentwhite)
      decreases |g.tobefnz|
    {
      CarriedPop(s, g.Snap(), blind);
      g.ReturnFirst();
    }
  }

  /** The first step: `UdataToFinalize`, seen as a state. */
  lemma CarriedFirst(s: State)
    requires Inv(s) && s.phase.SwpToBeFnz? && s.sweep == Some(1) && s.tobefnz != []
    ensures s.tobefnz[0] in s.heap
    ensures Carried(s, Finalizing(s).(phase := SwpEnd), Leftover(s.(tobefnz := s.tobefnz[1..])))
  {
    hide Inv, LiveSet, OwnInv, FixedOK, LiveClosed, LiveRoots;
    FirstHere(s);
    FirstWhite(s);
    WhitenedSame(s, s.tobefnz[0]);
    var m := s.(sweep := Some(0));
    SkipBack(s, m);
    PoppedInv(m);
    var p := Popped(m);
    InvOwners(p);
    LiveInAllPhases(p);
    var q := Finalizing(s).(phase := SwpEnd);
    MovedLive(p, q);
    AbandonOwners(p, q);
    MovedLive(s, m);
    CarriedColours(s, q);
  }

  lemma CarriedColours(s: State, q: State)
    requires Inv(s) && s.phase.SwpToBeFnz? && s.sweep == Some(1) && s.tobefnz != []
    requires q == s.(phase := SwpEnd, sweep := None, tobefnz := s.tobefnz[1..], allgc := [s.tobefnz[0]] + s.allgc)
    ensures var blind := Leftover(s.(tobefnz := s.tobefnz[1..]));
            && (forall r :: r in q.allgc || r in q.finobj || r in q.tobefnz ==>
                  r in q.heap && (q.heap[r].colour == White(q.white) || r in blind))
            && s.mainthread !in blind
  {
    SweptAllGc(s);
    FirstWhite(s);
    LiveInAllPhases(s);
    InvOwners(s);
    MainAlone(s);
    hide Inv, OwnInv, LiveClosed;
    forall r | r in s.tobefnz[1..] ensures r in s.heap && !IsDead(s.white, s.heap[r].colour) {
      assert r in s.finobj + s.tobefnz && LiveRef(s.heap, s.white, r);
    }
  }

  lemma MainAlone(s: State)
    requires OwnInv(s)
    ensures s.mainthread !in s.tobefnz && s.mainthread !in s.allgc && s.mainthread !in s.finobj && s.mainthread !in s.fixedgc
  {
    assert Owners(s)[s.mainthread] <= 1;
    assert s.mainthread in s.tobefnz ==> multiset(s.tobefnz)[s.mainthread] >= 1;
    assert s.mainthread in s.allgc ==> multiset(s.allgc)[s.mainthread] >= 1;
    assert s.mainthread in s.finobj ==> multiset(s.finobj)[s.mainthread] >= 1;
    assert s.mainthread in s.fixedgc ==> multiset(s.fixedgc)[s.mainthread] >= 1;
  }

  lemma CarriedMain(s0: State, s: State, blind: set<Ref>)
    requires Carried(s0, s, blind)
    ensures s.mainthread in s.heap
    ensures var s' := Whitened(s, s.mainthread).(phase := CallFin);
            Carried(s0, s', blind) && s'.heap[s.mainthread].colour == White(s.white)
  {
    hide LiveClosed, FixedOK, OwnInv;
    var w := Whitened(s, s.mainthread);
    assert LiveRef(s.heap, s.white, s.mainthread);
    WhitenedLive(s, s.mainthread);
    MovedLive(w, w.(phase := CallFin));
    MainAlone(s);
    WhitenOwners(s, s.mainthread);
    AbandonOwners(w, w.(phase := CallFin));
  }

  lemma CarriedPop(s0: State, s: State, blind: set<Ref>)
    requires Carried(s0, s, blind) && s.phase.CallFin? && s.tobefnz != [] && s.mainthread in s.heap
    ensures s.tobefnz[0] in s.heap && Carried(s0, Returned(s), blind)
    ensures Returned(s).heap == s.heap && Returned(s).mainthread == s.mainthread && |Returned(s).tobefnz| < |s.tobefnz|
  {
    hide LiveClosed, FixedOK, OwnInv, LiveRoots, LiveSet;
    assert s.tobefnz[0] in s.tobefnz;
    PopOwners(s);
    PopLive(s);
    assert Popped(s) == Returned(s);
  }

  lemma CarriedPause(s0: State, m: State, p: State)
    requires Carried(s0, m, p.blind) && p == m.(finnum := 0, phase := Pause, blind := p.blind)
    ensures Carried(s0, p, p.blind)
  {
    hide LiveClosed, FixedOK, OwnInv, LiveRoots, LiveSet;
    RestSame(m, p);
  }

  lemma RestSame(m: State, p: State)
    requires p == m.(finnum := p.finnum, phase := p.phase, blind := p.blind)
    ensures OwnInv(m) ==> OwnInv(p)
    ensures FixedOK(m) ==> FixedOK(p)
    ensures LiveClosed(m) ==> LiveClosed(p)
    ensures LiveRoots(m) ==> LiveRoots(p)
    ensures LiveSet(m) == LiveSet(p)
  {
    assert Owners(p) == Owners(m);
    if LiveClosed(m) {
      forall r, v | LiveRef(p.heap, p.white, r) && Holds(p.heap[r].body, v) ensures Live(p, v) {
        assert LiveRef(m.heap, m.white, r);
        assert Live(m, v);
      }
    }
    if LiveRoots(m) {
      forall v | v in m.mt ensures Live(p, v) { assert Live(m, v); }
    }
  }

  lemma CarriedRests(s0: State, s: State)
    requires Carried(s0, s, s.blind) && s.phase.Pause? && s.tobefnz == [] && s.heap[s.mainthread].colour == White(s.white)
    ensures Resting(s)
  {
    hide LiveClosed, LiveRoots, FixedOK, LiveSet;
    forall r | r in s.heap && r !in s.fixedgc && r !in s.blind ensures s.heap[r].colour == White(s.white) {
      OwnedIn(s, r);
    }
  }

  /** The next collection, from a pause at which some objects are still marked: those are not visited, so of
      what they lead to exactly that survives which something else leads to. */
  method BlindCycle(g: GlobalState, L: Ref)
    requires Resting(g.Snap()) && OwnInv(g.Snap()) && L in g.heap
    modifies g
    ensures forall r :: r in old(g.heap) && !old(g.heap)[r].body.Str? ==>
              (r in g.heap <==> r in Least(SeenHeap(old(g.heap), old(g.blind)), AllMarks(old(g.Snap()), L), false))
    ensures forall r :: r in g.heap ==> r in old(g.heap) && Shrunk(old(g.heap)[r].body, g.heap[r].body)
    ensures g.registry == old(g.registry)
  {
    hide MarkInv, RootsOK, StartMarked, Marked1, OwnInv, Least, LiveSet, AllMarks, SeenHeap, Resting, Ran, Restarted, Shrunk;
    ghost var s := g.Snap();
    ghost var B := ExactBound(s, L);
    RestingDangling(s);
    ExactBounded(s, L);
    FixedMarks(s, L);
    g.RestartCollection(B);
    ghost var p := g.Snap();
    g.gcstate := Propagate;
    BlindStarted(s, p, g.Snap(), L);
    FinishMark(g, L);
    ghost var c := g.Snap();
    BlindExact(s, p.(phase := Propagate), c, L);
    SweepAllGc(g);
  }

  lemma RestingDangling(s: State)
    requires Resting(s)
    ensures NoDangling(s.heap)
  {
    forall r, v | r in s.heap && Holds(s.heap[r].body, v) ensures Points(s.heap, v) {
      assert LiveRef(s.heap, s.white, r);
      assert Live(s, v);
    }
  }

  lemma FixedMarks(s: State, L: Ref)
    requires Resting(s)
    ensures s.blind + RootSet(s) + ToSet(s.fixedgc) + {L} <= FirstMarks(s, L) && ToSet(s.finobj) <= AllMarks(s, L)
  {
    hide LiveClosed, LiveRoots;
  }

  lemma BlindStarted(s: State, p: State, q: State, L: Ref)
    requires Resting(s) && OwnInv(s) && L in s.heap && L in ExactBound(s, L).now
    requires Ran(Restarted(s, ExactBound(s, L)), p) && MarkInv(p, {}) && RootsOK(p) && StartMarked(p)
    requires p.phase.Pause? && q == p.(phase := Propagate)
    ensures MarkInv(q, {}) && RootsOK(q) && StartMarked(q) && L in q.heap && L in q.bound.now && !q.stopped
  {
    hide MarkInv, RootsOK, StartMarked, ExactBound, RestInv, FixedOK, Darker, TrimmedHeap;
    PhaseInv(p, q);
    RootsAt(p, q);
  }

  lemma BlindExact(s: State, q: State, c: State, L: Ref)
    requires Resting(s) && OwnInv(s) && Ran(Restarted(s, ExactBound(s, L)), q.(phase := Pause)) && Marked1(q, c, L)
    ensures OwnInv(c) && c.heap.Keys == s.heap.Keys && c.registry == s.registry
    ensures forall r :: r in s.heap ==> Shrunk(s.heap[r].body, c.heap[r].body)
    ensures forall r :: r in s.heap && !s.heap[r].body.Str? ==>
              (r in LiveSet(c) || r !in c.allgc <==> r in Least(SeenHeap(s.heap, s.blind), AllMarks(s, L), false))
  {
    hide Closed, SeenHeap, Least, LiveSet, OwnInv, Resting, Darker, TrimmedHeap, ShrunkHeap, ExactBound, AllMarks, FirstMarks;
    var B := ExactBound(s, L);
    BlindOwners(s, q, c, L);
    TrimmedHeapShrunk(Restarted(s, B).heap, (q.(phase := Pause)).heap);
    SeenTrimmed(s.heap, q.heap, s.blind);
    TrimmedClosed(SeenHeap(s.heap, s.blind), SeenHeap(q.heap, s.blind), LiveSet(c));
    ShrunkHeapTrans(s.heap, q.heap, c.heap);
    RestartedMarks(s, q, L);
    RestingDangling(s);
    ExactMarks(s, L, LiveSet(c));
    forall r | r in s.heap && !s.heap[r].body.Str? && r !in c.allgc ensures r in LiveSet(c) {
      FixedStr(s, r);
      MarkedOwned(q, c, L, r);
    }
  }

  lemma FixedStr(s: State, r: Ref)
    requires Resting(s) && r in s.heap && !s.heap[r].body.Str?
    ensures r !in s.fixedgc
  {
    hide RestInv;
  }

  lemma BlindOwners(s: State, q: State, c: State, L: Ref)
    requires OwnInv(s) && SameOwners(Restarted(s, ExactBound(s, L)), q.(phase := Pause)) && Marked1(q, c, L)
    ensures OwnInv(c) && c.heap.Keys == s.heap.Keys && c.registry == s.registry && q.fixedgc == s.fixedgc
  {
    hide Closed, SeenHeap, LiveSet, AllMarks, ExactBound;
    assert Owners(q) == Owners(s);
    FinishedOwners(q, c, L);
  }

  lemma RestartedMarks(s: State, q: State, L: Ref)
    requires SameOwners(Restarted(s, ExactBound(s, L)), q.(phase := Pause)) && Darker(s.heap, q.heap)
    ensures AllMarks(s, L) <= AllMarks(q, L) && q.bound == ExactBound(s, L) && q.blind == s.blind
  {
    hide ExactBound;
    DarkerSet(s.heap, q.heap);
  }

  /** The roots of the collection after the one that was cut short. */
  function LaterRoots(s: State, L: Ref): set<Ref> {
    Leftover(s.(tobefnz := if s.tobefnz == [] then [] else s.tobefnz[1..])) +
    {s.mainthread, L} + RefsOf([s.registry]) + RefsOf(s.mt) + ToSet(s.finobj) + ToSet(s.fixedgc)
  }

  /** Popping a finalizer at that moment costs, one collection later, exactly those objects that only
      objects left marked lead to. Without any such object it costs nothing. */
  method LoseReferents(g: GlobalState, L: Ref)
    requires Inv(g.Snap()) && g.gcstate.SwpToBeFnz? && g.sweepgc == Some(1) && g.tobefnz != [] && L in g.heap
    modifies g
    ensures var left := Leftover(old(g.Snap()).(tobefnz := old(g.tobefnz)[1..]));
            forall r :: r in old(g.heap) && !old(g.heap)[r].body.Str? ==>
              (r in g.heap <==> r in Least(SeenHeap(old(g.heap), left), LaterRoots(old(g.Snap()), L), false))
    ensures forall r :: r in g.heap ==> r in old(g.heap) && Shrunk(old(g.heap)[r].body, g.heap[r].body)
  {
    hide Inv, Carried, Leftover, Resting, Least, SeenHeap, AllMarks, LaterRoots, Shrunk;
    ghost var s := g.Snap();
    g.UdataToFinalize();
    CarryAway(g, s);
    ghost var p := g.Snap();
    CarriedFacts(s, p, L);
    BlindCycle(g, L);
  }

  lemma CarriedFacts(s: State, p: State, L: Ref)
    requires s.tobefnz != [] && p.blind == Leftover(s.(tobefnz := s.tobefnz[1..])) && Resting(p)
    requires Carried(s, p, p.blind) && p.tobefnz == []
    ensures OwnInv(p) && p.heap.Keys == s.heap.Keys && (forall r :: r in s.heap ==> p.heap[r].body == s.heap[r].body)
    ensures AllMarks(p, L) == LaterRoots(s, L)
    ensures forall r :: r in s.heap ==> (SeenHeap(p.heap, p.blind)[r].body == SeenHeap(s.heap, p.blind)[r].body)
    ensures Least(SeenHeap(p.heap, p.blind), LaterRoots(s, L), false) == Least(SeenHeap(s.heap, p.blind), LaterRoots(s, L), false)
  {
    hide Least, OwnInv, LiveClosed, LiveRoots, Leftover;
    RestingMarks(p);
    LeastBodies(SeenHeap(p.heap, p.blind), SeenHeap(s.heap, p.blind), LaterRoots(s, L));
  }

  lemma RestingMarks(p: State)
    requires Resting(p)
    ensures MarkedSet(p.heap) == p.blind + ToSet(p.fixedgc)
  {
    hide LiveClosed, LiveRoots;
  }

  /** Reachability does not depend on colours. */
  lemma LeastBodies(h: Heap, h': Heap, roots: set<Ref>)
    requires h.Keys == h'.Keys && forall r :: r in h ==> h'[r].body == h[r].body
    ensures Least(h, roots, false) == Least(h', roots, false)
  {
    forall S ensures Closed(h, S, false) == Closed(h', S, false) {
    }
    hide Closed;
    assert forall r :: InEveryClosed(h, roots, false, r) == InEveryClosed(h', roots, false, r);
  }
}
