/** The atomic phase as a whole: marking is complete when it ends. */
module GcComplete {
  import opened GcHeap
  import opened GcState
  import opened GcPaint
  import opened GcWalk
  import opened GcSettle
  import opened GcEphemeron
  import opened GcAtomic

  // ----- the two list swaps of the atomic phase ---------------------------------------------------------------

  lemma EnterInside(s: State)
    requires MarkInv(s, {}) && s.phase.Atomic? && s.held == []
    ensures MarkInv(s.(phase := InsideAtomic, held := s.grayagain), {})
  {
    hide MarkInv;
    RelistedMark(s, s.(phase := InsideAtomic, held := s.grayagain), {});
  }

  lemma SwapHeld(s: State)
    requires MarkInv(s, {}) && s.gray == []
    ensures MarkInv(s.(gray := s.held, held := []), {})
  {
    hide MarkInv;
    RelistedMark(s, s.(gray := s.held, held := []), {});
  }

  /** The state in which weak tables are cleared. */
  ghost predicate Quiet(s: State) {
    MarkInv(s, {}) && s.gray == [] && s.held == [] && s.phase.InsideAtomic? && s.stopped
  }

  lemma WeakClearable(s: State)
    requires Quiet(s)
    ensures Clearable(s, s.weak) && Clearable(s, s.allweak) && KeyClearable(s, s.ephemeron) && KeyClearable(s, s.allweak)
  {
    hide HeapInv;
    forall r | r in s.weak || r in s.ephemeron || r in s.allweak ensures r in s.heap && s.heap[r].colour.Gray? {
      assert r in Links(s);
    }
    forall r | r in s.allweak && s.heap[r].body.mode.WeakKeys?
      ensures ArrMarked(s.heap, s.heap[r].body) && ValsMarked(s.heap, s.heap[r].body)
    {
      assert Covered(s, r);
      assert Links(s)[r] == 1;
      if r in s.ephemeron { assert false; }
      FullParts(s.heap, s.heap[r].body);
    }
  }

  lemma FullParts(h: Heap, b: Body)
    ensures Full(h, b) ==> ArrMarked(h, b) && ValsMarked(h, b) && KeysMarked(h, b)
  {
    if b.Table? && Full(h, b) {
      forall n | n in b.nodes ensures Marked(h, n.val) && Marked(h, n.key) {
        assert Holds(b, n.val) && Holds(b, n.key);
      }
      forall v | v in b.arr ensures Marked(h, v) { assert Holds(b, v); }
    }
  }

  // ----- which tables are clean ---------------------------------------------------------------------------------

  ghost predicate ValsClean(h: Heap, l: seq<Ref>) {
    forall r :: r in l ==> r in h && h[r].body.Table? && ArrMarked(h, h[r].body) && ValsMarked(h, h[r].body)
  }

  ghost predicate KeysClean(h: Heap, l: seq<Ref>) {
    forall r :: r in l ==> r in h && h[r].body.Table? && KeysMarked(h, h[r].body)
  }

  lemma CleanStays(h: Heap, h': Heap, l: seq<Ref>)
    requires Darker(h, h') && ShrunkHeap(h, h')
    ensures ValsClean(h, l) ==> ValsClean(h', l)
    ensures KeysClean(h, l) ==> KeysClean(h', l)
  {
    forall r | r in l && r in h && h[r].body.Table?
      ensures r in h' && h'[r].body.Table?
      ensures ArrMarked(h, h[r].body) ==> ArrMarked(h', h'[r].body)
      ensures ValsMarked(h, h[r].body) ==> ValsMarked(h', h'[r].body)
      ensures KeysMarked(h, h[r].body) ==> KeysMarked(h', h'[r].body)
    {
      assert Shrunk(h[r].body, h'[r].body);
      NodesGrow(h, h', h[r].body, h'[r].body);
    }
  }

  lemma DoneClean(h: Heap, l: seq<Ref>, h0: Heap)
    ensures ValuesDone(h, l, h0) ==> ValsClean(h, l)
    ensures KeysDone(h, l, h0) ==> KeysClean(h, l)
  {
    if ValuesDone(h, l, h0) {
      forall r | r in l ensures r in h && h[r].body.Table? && ArrMarked(h, h[r].body) && ValsMarked(h, h[r].body) {
        assert ValuesCleared(h, h0[r].body, h[r].body);
      }
    }
    if KeysDone(h, l, h0) {
      forall r | r in l ensures r in h && h[r].body.Table? && KeysMarked(h, h[r].body) {
        assert KeysCleared(h, h0[r].body, h[r].body);
      }
    }
  }

  /** A stable ephemeron table whose unmarked keys were dropped has only marked values left. */
  lemma StableCleared(h: Heap, h': Heap, b0: Body, b: Body)
    requires SameButStrings(h, h') && Stable(h, b0) && KeysCleared(h', b0, b)
    requires forall n :: n in b0.nodes ==> Points(h, n.key)
    ensures ValsMarked(h', b)
  {
    forall n | n in b.nodes ensures Marked(h', n.val) {
      var k :| 0 <= k < |b.nodes| && b.nodes[k] == n;
      assert b0.nodes[k] in b0.nodes && StableNode(h, b0.nodes[k]);
      assert Marked(h', n.key);
    }
  }

  lemma EphemeronsClean(s: State, s': State)
    requires Quiet(s) && AllStable(s) && Wiped(s, s') && KeysDone(s'.heap, s.ephemeron, s.heap)
    ensures forall r :: r in s.ephemeron ==>
      r in s'.heap && s'.heap[r].body.Table? && KeysMarked(s'.heap, s'.heap[r].body) && ValsMarked(s'.heap, s'.heap[r].body)
  {
    hide Stable, Closed, CoverInv, LinksOK;
    DoneClean(s'.heap, s.ephemeron, s.heap);
    forall r | r in s.ephemeron ensures ValsMarked(s'.heap, s'.heap[r].body) {
      var b := s.heap[r].body;
      assert Stable(s.heap, b) && KeysCleared(s'.heap, b, s'.heap[r].body);
      StableTable(s.heap, b);
      forall n | n in b.nodes ensures Points(s.heap, n.key) { assert Holds(s.heap[r].body, n.key); }
      StableCleared(s.heap, s'.heap, b, s'.heap[r].body);
    }
  }

  /** When every weak list is clean, no marked object leads to an unmarked one. */
  ghost predicate AllFull(h: Heap, blind: set<Ref>) {
    forall r :: r in h && !h[r].colour.White? && r !in blind ==> Full(h, h[r].body)
  }

  lemma CleanFull(s: State)
    requires Quiet(s)
    requires KeysClean(s.heap, s.ephemeron) && KeysClean(s.heap, s.allweak)
    requires ValsClean(s.heap, s.weak) && ValsClean(s.heap, s.allweak)
    requires forall r :: r in s.ephemeron ==> r in s.heap && ValsMarked(s.heap, s.heap[r].body)
    ensures AllFull(s.heap, s.blind)
  {
    hide HeapInv, ListInv;
    forall r | r in s.heap && !s.heap[r].colour.White? && r !in s.blind ensures Full(s.heap, s.heap[r].body) {
      assert Covered(s, r);
      var b := s.heap[r].body;
      if b.Table? {
        UpToAll(s.heap, b);
      } else if b.Str? {
        assert forall v :: !Holds(b, v);
      }
    }
  }

  // ----- completeness of marking ------------------------------------------------------------------------------------

  lemma TrimmedClosedAt(h: Heap, h': Heap, S: set<Ref>, b: Body, b': Body)
    requires Trimmed(b, b') && ClosedAt(h', S, b', false) && StrSame(h, h')
    ensures ClosedAt(h, S, b, false)
  {
    forall v | StrongHolds(b, v) ensures In(S, v) {
    }
    if b.Table? && b.mode.WeakKeys? {
      forall n | n in b.nodes && !n.val.Nil? && KeyHeld(h, S, n.key) ensures In(S, n.key) && In(S, n.val) {
        var i :| 0 <= i < |b.nodes| && b.nodes[i] == n;
        assert b'.nodes[i] == n && n in b'.nodes;
        assert KeyHeld(h', S, n.key);
      }
    }
  }

  lemma ShrunkStr(h: Heap, h': Heap)
    requires ShrunkHeap(h, h')
    ensures StrSame(h, h')
  {
    forall r | r in h ensures h'[r].body.Str? == h[r].body.Str? { assert Shrunk(h[r].body, h'[r].body); }
  }

  lemma TrimmedHeapShrunk(h: Heap, h': Heap)
    requires TrimmedHeap(h, h')
    ensures ShrunkHeap(h, h')
  {
    forall r | r in h ensures Shrunk(h[r].body, h'[r].body) { TrimmedIsShrunk(h[r].body, h'[r].body); }
  }

  lemma TrimmedClosed(h: Heap, h': Heap, S: set<Ref>)
    requires TrimmedHeap(h, h') && Closed(h', S, false)
    ensures Closed(h, S, false)
  {
    TrimmedHeapShrunk(h, h');
    ShrunkStr(h, h');
    forall r | r in S && r in h ensures ClosedAt(h, S, h[r].body, false) {
      assert ClosedAt(h', S, h'[r].body, false);
      TrimmedClosedAt(h, h', S, h[r].body, h'[r].body);
    }
  }

  /** Marking before and after resurrection: `h0` at the start of the phase, `h1` when marking first
      converged, `hc` after the weak values were cleared, `h2` when marking converged again. */
  lemma ResurrectClosed(h0: Heap, h1: Heap, hc: Heap, h2: Heap, T1: set<Ref>, T2: set<Ref>)
    requires TrimmedHeap(h0, h1) && Closed(h1, T1, false)
    requires h1.Keys == hc.Keys && StrSame(h0, h2)
    requires forall r :: r in h1 && hc[r].body != h1[r].body ==>
      r in T1 && h1[r].body.Table? && !h1[r].body.mode.WeakKeys?
    requires TrimmedHeap(hc, h2) && Closed(h2, T2, false) && T1 <= T2
    ensures Closed(h0, T2, false)
  {
    TrimmedClosed(h0, h1, T1);
    forall r | r in T2 && r in h0 ensures ClosedAt(h0, T2, h0[r].body, false) {
      assert Trimmed(h0[r].body, h1[r].body) && Trimmed(hc[r].body, h2[r].body);
      if hc[r].body == h1[r].body {
        TrimmedTrans(h0[r].body, h1[r].body, h2[r].body);
        assert ClosedAt(h2, T2, h2[r].body, false);
        TrimmedClosedAt(h0, h2, T2, h0[r].body, h2[r].body);
      } else {
        assert ClosedAt(h0, T1, h0[r].body, false);
      }
    }
  }

  /** More strings in a closed set ask for nothing more. */
  lemma StringsClosed(h: Heap, S: set<Ref>, S': set<Ref>)
    requires Closed(h, S, false) && S <= S'
    requires forall r :: r in S' && r !in S ==> r in h && h[r].body.Str?
    ensures Closed(h, S', false)
  {
    forall r | r in S' && r in h ensures ClosedAt(h, S', h[r].body, false) {
      if r in S {
        var b := h[r].body;
        assert ClosedAt(h, S, b, false);
        if b.Table? && b.mode.WeakKeys? {
          forall n | n in b.nodes && !n.val.Nil? && KeyHeld(h, S', n.key) ensures In(S', n.key) && In(S', n.val) {
            assert KeyHeld(h, S, n.key);
          }
        }
      }
    }
  }

  // ----- objects to be finalized ---------------------------------------------------------------------------------------

  /** The elements of a list that are in a set, and the others. */
  function Only(l: seq<Ref>, S: set<Ref>): (r: seq<Ref>) {
    if l == [] then [] else Only(l[..|l| - 1], S) + (if l[|l| - 1] in S then [l[|l| - 1]] else [])
  }

  function Without(l: seq<Ref>, S: set<Ref>): (r: seq<Ref>) {
    if l == [] then [] else Without(l[..|l| - 1], S) + (if l[|l| - 1] in S then [] else [l[|l| - 1]])
  }

  lemma {:induction false} OnlyIn(l: seq<Ref>, S: set<Ref>)
    ensures forall r :: r in Only(l, S) <==> r in l && r in S
    ensures forall r :: r in Without(l, S) <==> r in l && r !in S
  {
    if l != [] {
      var k := |l| - 1;
      OnlyIn(l[..k], S);
      assert forall r :: r in l <==> r == l[k] || r in l[..k];
    }
  }

  lemma {:induction false} OnlyAll(l: seq<Ref>, S: set<Ref>)
    ensures multiset(Only(l, S)) + multiset(Without(l, S)) == multiset(l)
  {
    if l != [] {
      var k := |l| - 1;
      var front, c := l[..k], l[k];
      OnlyAll(front, S);
      assert l == front + [c];
      assert multiset(l) == multiset(front) + multiset{c};
      if c in S {
        assert multiset(Only(l, S)) == multiset(Only(front, S)) + multiset{c} && Without(l, S) == Without(front, S);
      } else {
        assert multiset(Without(l, S)) == multiset(Without(front, S)) + multiset{c} && Only(l, S) == Only(front, S);
      }
    }
  }

  /** Only the elements of the list matter, and picking twice is picking once. */
  lemma {:induction false} OnlySame(l: seq<Ref>, S: set<Ref>, S': set<Ref>)
    requires forall r :: r in l ==> (r in S <==> r in S')
    ensures Only(l, S) == Only(l, S') && Without(l, S) == Without(l, S')
  {
    if l != [] {
      assert l[|l| - 1] in l;
      OnlySame(l[..|l| - 1], S, S');
    }
  }

  lemma {:induction false} OnlyNot(l: seq<Ref>, S: set<Ref>, S': set<Ref>)
    requires forall r :: r in l ==> (r in S <==> r !in S')
    ensures Only(l, S) == Without(l, S') && Without(l, S) == Only(l, S')
  {
    if l != [] {
      assert l[|l| - 1] in l;
      OnlyNot(l[..|l| - 1], S, S');
    }
  }

  lemma OnlySnoc(l: seq<Ref>, S: set<Ref>, i: nat)
    requires i < |l|
    ensures Only(l[..i + 1], S) == Only(l[..i], S) + (if l[i] in S then [l[i]] else [])
    ensures Without(l[..i + 1], S) == Without(l[..i], S) + (if l[i] in S then [] else [l[i]])
  {
    assert l[..i + 1][..i] == l[..i];
  }

  /** Marking looks at no owner list, no root and no sweep position. */
  ghost predicate MarkFields(s: State, s': State) {
    s' == s.(allgc := s'.allgc, finobj := s'.finobj, tobefnz := s'.tobefnz, fixedgc := s'.fixedgc,
             registry := s'.registry, mt := s'.mt, sweep := s'.sweep, finnum := s'.finnum)
  }

  lemma OwnersInv(s: State, s': State, skip: set<Ref>)
    requires MarkFields(s, s') && MarkInv(s, skip)
    ensures MarkInv(s', skip)
  {
    hide MarkInv;
    RelistedMark(s, s', skip);
  }

  // ----- a run of marking, seen from outside ---------------------------------------------------------------------------

  /** Bodies were trimmed and objects marked; the owner lists and roots are as before. */
  ghost predicate Ran(s: State, s': State) {
    && SameOwners(s, s') && TrimmedHeap(s.heap, s'.heap) && Darker(s.heap, s'.heap) && s'.stopped == s.stopped
  }

  lemma RanTrans(a: State, b: State, c: State)
    requires Ran(a, b) && Ran(b, c)
    ensures Ran(a, c)
  {
    forall r | r in a.heap ensures Trimmed(a.heap[r].body, c.heap[r].body) {
      TrimmedTrans(a.heap[r].body, b.heap[r].body, c.heap[r].body);
    }
  }

  lemma PaintedRan(s: State, s': State)
    requires Painted(s, s')
    ensures Ran(s, s') && s'.phase == s.phase && s'.held == s.held && s'.grayagain == s.grayagain
  {
    PaintedOwners(s, s');
    forall r | r in s.heap ensures Trimmed(s.heap[r].body, s'.heap[r].body) { }
  }

  lemma GrewRan(s: State, s': State)
    requires Grew(s, s')
    ensures Ran(s, s') && s'.phase == s.phase && s'.held == s.held
    ensures Suffix(s.weak, s'.weak) && Suffix(s.allweak, s'.allweak)
  {
    hide WhiteSet, TrimmedHeap;
  }

  lemma SpreadRan(s: State, s': State)
    requires Spread(s, s')
    ensures Ran(s, s') && s'.phase == s.phase
    ensures Suffix(s.weak, s'.weak) && Suffix(s.allweak, s'.allweak)
  {
    hide WhiteSet, TrimmedHeap;
  }

  lemma ListsRan(s: State, s': State)
    requires s' == s.(gray := s'.gray, held := s'.held, phase := s'.phase)
    ensures Ran(s, s')
  {
    forall r | r in s.heap ensures Trimmed(s.heap[r].body, s'.heap[r].body) { }
  }

  /** What a run of marking keeps. */
  lemma RanKeeps(s: State, s': State)
    requires Ran(s, s')
    ensures RootsOK(s) ==> RootsOK(s')
    ensures RootsOK(s) && StartMarked(s) ==> StartMarked(s')
    ensures forall vs :: AllMarked(s.heap, vs) ==> AllMarked(s'.heap, vs)
    ensures s'.registry == s.registry && s'.mt == s.mt && s'.stopped == s.stopped
    ensures s'.mainthread == s.mainthread && s'.sweep == s.sweep && s'.blind == s.blind
  {
    hide TrimmedHeap;
    if StartMarked(s) { StartStays(s, s'); }
    forall vs | AllMarked(s.heap, vs) ensures AllMarked(s'.heap, vs) { }
  }

  lemma RootsPoint(s: State, L: Ref)
    requires RootsOK(s) && L in s.heap && L in s.bound.now
    ensures AllPoint(s, [Ptr(L), s.registry] + s.mt)
  {
  }

  // ----- the second half of the atomic phase ------------------------------------------------------------------------------

  lemma WipedQuiet(s: State, s': State)
    requires Quiet(s) && Wiped(s, s') && MarkInv(s', {})
    ensures Quiet(s') && SameOwners(s, s') && Darker(s.heap, s'.heap) && ShrunkHeap(s.heap, s'.heap)
    ensures s'.weak == s.weak && s'.allweak == s.allweak && s'.ephemeron == s.ephemeron
    ensures RootsOK(s) ==> RootsOK(s')
    ensures forall vs :: AllMarked(s.heap, vs) ==> AllMarked(s'.heap, vs)
  {
    hide MarkInv;
    WipedOwners(s, s');
    forall vs | AllMarked(s.heap, vs) ensures AllMarked(s'.heap, vs) { }
  }

  lemma ClearablePart(s: State, l: seq<Ref>, l': seq<Ref>)
    requires Clearable(s, l) && forall r :: r in l' ==> r in l
    ensures Clearable(s, l')
  {
  }

  lemma CleanParts(h: Heap, l: seq<Ref>, k: nat)
    requires k <= |l| && ValsClean(h, l[..k]) && ValsClean(h, l[k..])
    ensures ValsClean(h, l)
  {
    forall r | r in l ensures r in h && h[r].body.Table? && ArrMarked(h, h[r].body) && ValsMarked(h, h[r].body) {
      assert l == l[..k] + l[k..];
      assert r in l[..k] || r in l[k..];
    }
  }

  lemma SuffixSplit(a: seq<Ref>, b: seq<Ref>)
    requires Suffix(a, b)
    ensures b[|b| - |a|..] == a
  {
  }

  ghost predicate EphValsMarked(h: Heap, l: seq<Ref>) {
    forall r :: r in l ==> r in h && ValsMarked(h, h[r].body)
  }

  lemma EphValsStay(s: State, s': State, l: seq<Ref>)
    requires Wiped(s, s') && EphValsMarked(s.heap, l)
    ensures EphValsMarked(s'.heap, l)
  {
    forall r | r in l ensures r in s'.heap && ValsMarked(s'.heap, s'.heap[r].body) {
      assert Shrunk(s.heap[r].body, s'.heap[r].body);
      NodesGrow(s.heap, s'.heap, s.heap[r].body, s'.heap[r].body);
      if !s.heap[r].body.Table? { assert !s'.heap[r].body.Table?; }
    }
  }

  /** From now on everything within the later bound may be marked. */
  function Resurrecting(s: State): State {
    var w := WhiteSet(s.heap);
    s.(finobj := Without(s.finobj, w), tobefnz := s.tobefnz + Only(s.finobj, w), finnum := 1,
       bound := Bound(s.bound.later, s.bound.later))
  }

  lemma SeparateRoots(s: State)
    requires RootsOK(s) && Bounded(s.heap, s.blind, s.bound)
    ensures RootsOK(Resurrecting(s))
  {
    hide Closed;
    OnlyIn(s.finobj, WhiteSet(s.heap));
  }

  lemma SeparateMark(s: State)
    requires MarkInv(s, {})
    ensures MarkInv(Resurrecting(s), {}) && Bounded(s.heap, s.blind, s.bound)
  {
    hide Closed, SeenHeap;
    RelistedMark(s, Resurrecting(s), {});
  }

  lemma PaintedLists(s: State, s': State)
    requires Painted(s, s')
    ensures s'.weak == s.weak && s'.allweak == s.allweak && s'.finobj == s.finobj && s'.tobefnz == s.tobefnz
    ensures s'.finnum == s.finnum
  {
  }

  lemma ResurrectKeeps(s: State, m: State, s': State)
    requires Ran(s, m) && Ran(m, s') && Ran(s, s') && RefsMarked(m.heap, m.tobefnz)
    ensures SameOwners(s, s') && TrimmedHeap(s.heap, s'.heap) && Darker(s.heap, s'.heap) && ShrunkHeap(s.heap, s'.heap)
    ensures RefsMarked(s'.heap, s'.tobefnz)
    ensures s'.finobj == s.finobj && s'.tobefnz == s.tobefnz && s'.finnum == s.finnum
  {
    TrimmedHeapShrunk(s.heap, s'.heap);
  }

  lemma DarkerSet(h: Heap, h': Heap)
    requires Darker(h, h')
    ensures MarkedSet(h) <= MarkedSet(h')
  {
  }

  lemma ListedMarked(s: State)
    requires Quiet(s)
    ensures ToSet(s.weak) + ToSet(s.allweak) <= MarkedSet(s.heap)
  {
    hide HeapInv, CoverInv;
    forall r | r in s.weak || r in s.allweak ensures r in MarkedSet(s.heap) { assert r in Links(s); }
  }

  /** What was marked when finalizers were looked at: a closed set of what the collector could see. */
  ghost predicate Reached(s: State, L: Ref, M: set<Ref>) {
    && Closed(SeenHeap(s.heap, s.blind), M, false)
    && RootSet(s) + {L} + MarkedSet(s.heap) <= M <= s.bound.now
  }

  /** Marking was complete: `s0` at the start of the phase, `s1` when it first converged, `s2` after the
      first clearing, `s3` when it converged again, `s4` after the last clearing. */
  lemma AtomicComplete(s0: State, s1: State, s2: State, s3: State, s4: State)
    requires Ran(s0, s1) && Quiet(s1) && AllStable(s1) && s2.blind == s3.blind
    requires WipedIn(s1, s2, ToSet(s1.weak) + ToSet(s1.allweak))
    requires TrimmedHeap(s2.heap, s3.heap) && Darker(s2.heap, s3.heap) && Quiet(s3) && AllStable(s3)
    requires Wiped(s3, s4)
    ensures Closed(SeenHeap(s0.heap, s0.blind), MarkedSet(s2.heap), false)
    ensures Closed(SeenHeap(s0.heap, s0.blind), MarkedSet(s4.heap), false)
    ensures ShrunkHeap(s0.heap, s4.heap)
  {
    hide MarkInv, AllStable, Quiet, Wiped, WipedIn, Ran, TrimmedHeap, ShrunkHeap, Darker, Closed, StrSame, MarkedSet, SeenHeap;
    RanKeeps2(s0, s1);
    ConvergedClosed(s1) by { QuietIs(s1); }
    ConvergedClosed(s3) by { QuietIs(s3); }
    WipedListed(s1, s2);
    WipedOf(s1, s2, ToSet(s1.weak) + ToSet(s1.allweak));
    DarkerSet(s2.heap, s3.heap);
    TrimmedHeapShrunk(s0.heap, s1.heap);
    TrimmedHeapShrunk(s2.heap, s3.heap);
    ShrunkHeapTrans(s0.heap, s1.heap, s2.heap);
    ShrunkHeapTrans(s0.heap, s2.heap, s3.heap);
    ShrunkStr(s0.heap, s3.heap);
    var U := s0.blind;
    SeenTrimmed(s0.heap, s1.heap, U);
    SeenTrimmed(s2.heap, s3.heap, U);
    SeenStrSame(s0.heap, s3.heap, U);
    SeenWiped(s1.heap, s2.heap, U, MarkedSet(s1.heap));
    ResurrectClosed(SeenHeap(s0.heap, U), SeenHeap(s1.heap, U), SeenHeap(s2.heap, U), SeenHeap(s3.heap, U),
                    MarkedSet(s1.heap), MarkedSet(s3.heap));
    TrimmedClosed(SeenHeap(s0.heap, U), SeenHeap(s1.heap, U), MarkedSet(s1.heap));
    WipedStrings(s1, s2);
    ClosedMore(s0.heap, s1.heap, U, MarkedSet(s1.heap), MarkedSet(s2.heap));
    WipedStrings(s3, s4);
    ShrunkHeapTrans(s0.heap, s3.heap, s4.heap);
    ClosedMore(s0.heap, s3.heap, U, MarkedSet(s3.heap), MarkedSet(s4.heap));
  }

  lemma MarkedBound(s: State)
    requires Quiet(s)
    ensures MarkedSet(s.heap) <= s.bound.now
  {
  }

  lemma ResurrectBlind(s: State, s': State)
    requires SameOwners(Resurrecting(s), s')
    ensures s'.blind == s.blind
  {
  }

  lemma SeenTrimmed(h: Heap, h': Heap, blind: set<Ref>)
    requires TrimmedHeap(h, h')
    ensures TrimmedHeap(SeenHeap(h, blind), SeenHeap(h', blind))
  {
    forall r | r in h ensures Trimmed(SeenHeap(h, blind)[r].body, SeenHeap(h', blind)[r].body) {
      assert Trimmed(h[r].body, h'[r].body);
    }
  }

  lemma SeenStrSame(h: Heap, h': Heap, blind: set<Ref>)
    requires StrSame(h, h')
    ensures StrSame(SeenHeap(h, blind), SeenHeap(h', blind))
  {
  }

  /** Clearing weak values, as far as the collector can see it. */
  lemma SeenWiped(h: Heap, h': Heap, blind: set<Ref>, T: set<Ref>)
    requires h.Keys == h'.Keys && ShrunkHeap(h, h')
    requires forall r :: r in h && h'[r].body != h[r].body ==> r in T && h[r].body.Table? && !h[r].body.mode.WeakKeys?
    ensures SeenHeap(h, blind).Keys == SeenHeap(h', blind).Keys
    ensures forall r :: r in SeenHeap(h, blind) && SeenHeap(h', blind)[r].body != SeenHeap(h, blind)[r].body ==>
              r in T && SeenHeap(h, blind)[r].body.Table? && !SeenHeap(h, blind)[r].body.mode.WeakKeys?
  {
    forall r | r in h ensures Shrunk(h[r].body, h'[r].body) { }
    hide ShrunkHeap;
  }

  /** Additional strings do no harm. */
  lemma ClosedMore(h0: Heap, h: Heap, blind: set<Ref>, T: set<Ref>, T': set<Ref>)
    requires ShrunkHeap(h0, h) && Closed(SeenHeap(h0, blind), T, false) && T <= T'
    requires forall r :: r in T' && r !in T ==> r in h && h[r].body.Str?
    ensures Closed(SeenHeap(h0, blind), T', false)
  {
    hide Closed;
    assert forall r :: r in h0 && h0[r].body.Str? ==> r in SeenHeap(h0, blind) && SeenHeap(h0, blind)[r].body.Str?;
    StringsClosed(SeenHeap(h0, blind), T, T');
  }

  lemma RanKeeps2(s: State, s': State)
    requires Ran(s, s')
    ensures TrimmedHeap(s.heap, s'.heap) && s'.blind == s.blind
  {
  }

  lemma QuietIs(s: State)
    requires Quiet(s)
    ensures MarkInv(s, {}) && s.gray == [] && s.held == [] && s.phase.InsideAtomic?
  {
  }

  lemma WipedListed(s: State, s': State)
    requires Quiet(s) && WipedIn(s, s', ToSet(s.weak) + ToSet(s.allweak))
    ensures s.heap.Keys == s'.heap.Keys && MarkedSet(s.heap) <= MarkedSet(s'.heap) && ShrunkHeap(s.heap, s'.heap)
    ensures forall r :: r in s.heap && s'.heap[r].body != s.heap[r].body ==>
      r in MarkedSet(s.heap) && s.heap[r].body.Table? && !s.heap[r].body.mode.WeakKeys?
  {
    hide Quiet, MarkedSet;
    ListedMarked(s);
    DarkerSet(s.heap, s'.heap);
  }

  lemma WipedStrings(s: State, s': State)
    requires Wiped(s, s')
    ensures ShrunkHeap(s.heap, s'.heap)
    ensures MarkedSet(s.heap) <= MarkedSet(s'.heap)
    ensures forall r :: r in MarkedSet(s'.heap) && r !in MarkedSet(s.heap) ==> r in s.heap && s.heap[r].body.Str?
  {
  }

  lemma ShrunkHeapTrans(a: Heap, b: Heap, c: Heap)
    requires ShrunkHeap(a, b) && ShrunkHeap(b, c)
    ensures ShrunkHeap(a, c)
  {
    forall r | r in a ensures Shrunk(a[r].body, c[r].body) {
      ShrunkTrans(a[r].body, b[r].body, c[r].body);
    }
  }

  /** What the end of the atomic phase establishes: nothing marked leads to anything unmarked, every
      object with the old white is dead from now on, and all of that lies within the bound. */
  ghost predicate Flipped(s: State) {
    && NoDangling(s.heap) && AllFull(s.heap, s.blind)
    && (forall r :: r in s.heap && s.heap[r].colour.White? ==> s.heap[r].colour == White(!s.white))
    && MarkedSet(s.heap) <= s.bound.now && s.blind <= MarkedSet(s.heap)
  }

  lemma FlipNow(s: State)
    requires Quiet(s) && AllFull(s.heap, s.blind)
    ensures Flipped(s.(white := !s.white))
  {
    hide Closed, NoDangling, LinksOK, CoverInv, AllFull;
  }

  lemma RootsMarkedNow(s1: State, s: State, L: Ref)
    requires SameRest(s1, s)
    requires Darker(s1.heap, s.heap) && AllMarked(s1.heap, [Ptr(L), s1.registry] + s1.mt)
    requires s1.mainthread in s1.heap && !s1.heap[s1.mainthread].colour.White? && RefsMarked(s.heap, s.tobefnz)
    ensures RootSet(s) + {L} <= MarkedSet(s.heap)
  {
    assert Ptr(L) in [Ptr(L), s1.registry] + s1.mt && s1.registry in [Ptr(L), s1.registry] + s1.mt;
    forall r | r in RootSet(s) + {L} ensures r in MarkedSet(s.heap) {
      if r in RefsOf(s.mt) {
        assert Ptr(r) in [Ptr(L), s1.registry] + s1.mt;
      } else if r in RefsOf([s.registry]) {
        assert Ptr(r) == s1.registry;
      }
    }
  }

  lemma SuffixLength(a: seq<Ref>, b: seq<Ref>)
    requires Suffix(a, b)
    ensures |a| <= |b|
  {
  }

  /** Apart from unmarked objects moving from `finobj` to `tobefnz`, no list or root changed; the order of
      both lists is kept. `M` is what was marked by then. */
  ghost predicate OwnersMoved(s: State, s': State, M: set<Ref>) {
    && s'.heap.Keys == s.heap.Keys && s'.allgc == s.allgc && s'.fixedgc == s.fixedgc && s'.mainthread == s.mainthread
    && s'.registry == s.registry && s'.mt == s.mt && s'.sweep == s.sweep && s'.stopped == s.stopped && s'.blind == s.blind
    && s'.bound == Bound(s.bound.later, s.bound.later) && s'.finnum == 1
    && s'.finobj == Only(s.finobj, M) && s'.tobefnz == s.tobefnz + Without(s.finobj, M)
    && RefsMarked(s'.heap, s'.tobefnz) && RefsMarked(s'.heap, s'.finobj)
  }

  lemma AtomicOwners(s0: State, s1: State, s2: State, s3: State, s4: State, L: Ref)
    requires Ran(s0, s1) && RootsOK(s0) && StartMarked(s0) && AllMarked(s1.heap, [Ptr(L), s1.registry] + s1.mt)
    requires SameOwners(s1, s2) && Darker(s1.heap, s2.heap) && s2.stopped
    requires SameOwners(Resurrecting(s2), s3) && Darker(s2.heap, s3.heap) && s3.stopped
    requires RefsMarked(s3.heap, s3.tobefnz) && Wiped(s3, s4) && s0.stopped && RootsOK(s3)
    requires MarkedSet(s2.heap) <= s2.bound.now
    ensures OwnersMoved(s0, s4.(white := !s4.white), MarkedSet(s2.heap)) && s4.white == s0.white && Darker(s0.heap, s4.heap)
    ensures RootSet(s4) + {L} <= MarkedSet(s4.heap)
    ensures RootSet(s4.(white := !s4.white)) == RootSet(s4)
    ensures RootSet(s0) + {L} + MarkedSet(s0.heap) <= MarkedSet(s2.heap) <= s0.bound.now
  {
    hide AllMarked, TrimmedHeap, OwnersMoved, MarkedSet, RootSet, StartMarked, RootsOK, RefsMarked, Resurrecting;
    WipedOwners(s3, s4);
    DarkerTrans(s1.heap, s2.heap, s3.heap);
    DarkerTrans(s1.heap, s3.heap, s4.heap);
    DarkerTrans(s0.heap, s1.heap, s4.heap);
    DarkerTrans(s0.heap, s1.heap, s2.heap);
    StartStays(s0, s1);
    FinMarked(s0, s2, s3, s4);
    ResurrectedOwners(s1, s2, s3, s4);
    AtomicRootsMarked(s1, s4, L);
    StartStays(s1, s2);
    AtomicRootsMarked(s1, s2, L);
    DarkerSet(s0.heap, s2.heap);
    SameRootSet(s0, s2);
    AtomicMovedOwners(s0, s2, s3, s4);
    FlipRoots(s4);
  }

  lemma SameRootSet(s: State, s': State)
    requires s'.mainthread == s.mainthread && s'.registry == s.registry && s'.mt == s.mt && s'.tobefnz == s.tobefnz
    ensures RootSet(s') == RootSet(s)
  {
  }

  lemma ResurrectedOwners(s1: State, s2: State, s3: State, s4: State)
    requires SameOwners(s1, s2) && SameOwners(Resurrecting(s2), s3) && SameOwners(s3, s4)
    ensures SameRest(s1, s4) && SameRest(s1, s2)
  {
  }

  /** The roots are the same. */
  ghost predicate SameRest(s: State, s': State) {
    s'.heap.Keys == s.heap.Keys && s'.mainthread == s.mainthread && s'.registry == s.registry && s'.mt == s.mt
  }

  /** Everything is marked that was not moved to the objects to finalize. */
  lemma FinMarked(s0: State, s2: State, s3: State, s4: State)
    requires SameOwners(Resurrecting(s2), s3) && SameOwners(s3, s4) && RootsOK(s0) && s0.finobj == s2.finobj
    requires s0.heap.Keys == s2.heap.Keys
    requires Darker(s2.heap, s3.heap) && Darker(s3.heap, s4.heap) && RefsMarked(s3.heap, s3.tobefnz)
    ensures RefsMarked(s4.heap, s4.tobefnz) && RefsMarked(s4.heap, s4.finobj)
    ensures s4.finobj == Only(s2.finobj, MarkedSet(s2.heap)) && s4.tobefnz == s2.tobefnz + Without(s2.finobj, MarkedSet(s2.heap))
  {
    OnlyNot(s2.finobj, WhiteSet(s2.heap), MarkedSet(s2.heap));
    OnlyIn(s2.finobj, MarkedSet(s2.heap));
  }

  lemma AtomicMovedOwners(s0: State, s2: State, s3: State, s4: State)
    requires SameOwners(s0, s2) && s0.stopped && s3.stopped
    requires SameOwners(Resurrecting(s2), s3)
    requires SameOwners(s3, s4) && s4.stopped == s3.stopped
    requires RefsMarked(s4.heap, s4.tobefnz) && RefsMarked(s4.heap, s4.finobj)
    requires s4.finobj == Only(s2.finobj, MarkedSet(s2.heap)) && s4.tobefnz == s2.tobefnz + Without(s2.finobj, MarkedSet(s2.heap))
    ensures OwnersMoved(s0, s4.(white := !s4.white), MarkedSet(s2.heap)) && s4.white == s0.white
  {
    hide RefsMarked, MarkedSet, WhiteSet;
  }

  lemma FlipRoots(s: State)
    ensures RootSet(s.(white := !s.white)) == RootSet(s)
  {
  }

  lemma AtomicRootsMarked(s1: State, s: State, L: Ref)
    requires SameRest(s1, s)
    requires Darker(s1.heap, s.heap) && AllMarked(s1.heap, [Ptr(L), s1.registry] + s1.mt)
    requires StartMarked(s1) && RefsMarked(s.heap, s.tobefnz)
    ensures RootSet(s) + {L} <= MarkedSet(s.heap)
  {
    hide AllMarked, MarkedSet, RootSet, RefsMarked;
    RootsMarkedNow(s1, s, L);
  }
}
