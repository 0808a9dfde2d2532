/** What a collection does to the entries of weak tables: exactly those go whose object is lost. */
module GcWeak {
  import opened GcHeap
  import opened GcState
  import opened GcPaint
  import opened GcWalk
  import opened GcSettle
  import opened GcEphemeron
  import opened GcAtomic
  import opened GcComplete

  predicate HasWeakValues(m: Mode) { m.WeakValues? || m.AllWeak? }

  predicate HasWeakKeys(m: Mode) { m.WeakKeys? || m.AllWeak? }

  /** A pointer to an object outside `S`; strings are never lost. */
  predicate Lost(h: Heap, S: set<Ref>, v: Value) {
    v.Ptr? && v.r in h && !h[v.r].body.Str? && v.r !in S
  }

  predicate EntryLost(h: Heap, M: set<Ref>, K: set<Ref>, m: Mode, n: Node) {
    (HasWeakValues(m) && Lost(h, M, n.val)) || (HasWeakKeys(m) && Lost(h, K, n.key))
  }

  /** Only what is lost was removed: `M` decides about values, `K` about keys. */
  ghost predicate Weeded(h: Heap, M: set<Ref>, K: set<Ref>, b: Body, b': Body) {
    b.Table? ==>
      && b'.Table? && b'.mode == b.mode && |b'.arr| == |b.arr| && |b'.nodes| == |b.nodes|
      && (forall i :: 0 <= i < |b.arr| ==> b'.arr[i] == b.arr[i] || (HasWeakValues(b.mode) && Lost(h, M, b.arr[i])))
      && (forall i :: 0 <= i < |b.nodes| ==>
            b'.nodes[i] == b.nodes[i] || b.nodes[i].val.Nil? || EntryLost(h, M, K, b.mode, b.nodes[i]))
  }

  /** No lost value is left. */
  ghost predicate Clean(h: Heap, M: set<Ref>, b: Body) {
    b.Table? && HasWeakValues(b.mode) ==>
      (forall v :: v in b.arr ==> !Lost(h, M, v)) && forall n :: n in b.nodes ==> !Lost(h, M, n.val)
  }

  /** Between the heaps `h` and `h'`: a table in `M` lost the values outside `M`, other tables those outside
      `K`, and all tables lost the keys outside `K`. */
  ghost predicate Entries(h: Heap, h': Heap, M: set<Ref>, K: set<Ref>) {
    forall r :: r in h && r in h' ==>
      Weeded(h, if r in M then M else K, K, h[r].body, h'[r].body) && (r in M ==> Clean(h, M, h'[r].body))
  }

  /** The table lost exactly the entries that are lost. */
  ghost predicate Pruned(h: Heap, M: set<Ref>, K: set<Ref>, b: Body, b': Body) {
    b.Table? ==>
      && b'.Table? && |b'.arr| == |b.arr| && |b'.nodes| == |b.nodes|
      && (forall i :: 0 <= i < |b.arr| ==> b'.arr[i] == if HasWeakValues(b.mode) && Lost(h, M, b.arr[i]) then Nil else b.arr[i])
      && (forall i :: 0 <= i < |b.nodes| ==>
            if b.nodes[i].val.Nil? || EntryLost(h, M, K, b.mode, b.nodes[i]) then b'.nodes[i].val.Nil? else b'.nodes[i] == b.nodes[i])
  }

  lemma PrunedBy(h: Heap, M: set<Ref>, K: set<Ref>, b: Body, b': Body)
    requires Weeded(h, M, K, b, b') && Clean(h, M, b') && Shrunk(b, b') && forall v: Value :: v.Ptr? && Holds(b', v) ==> v.r in K
    ensures Pruned(h, M, K, b, b')
  {
    if b.Table? {
      forall i | 0 <= i < |b.arr| ensures b'.arr[i] == if HasWeakValues(b.mode) && Lost(h, M, b.arr[i]) then Nil else b.arr[i] {
        assert b'.arr[i] in b'.arr;
      }
      forall i | 0 <= i < |b.nodes|
        ensures if b.nodes[i].val.Nil? || EntryLost(h, M, K, b.mode, b.nodes[i]) then b'.nodes[i].val.Nil? else b'.nodes[i] == b.nodes[i]
      {
        assert ShrunkNode(b.nodes[i], b'.nodes[i]) && b'.nodes[i] in b'.nodes;
        assert Holds(b', b'.nodes[i].key);
      }
    }
  }

  /** Only objects that are not strings matter. */
  lemma CleanSame(h: Heap, M: set<Ref>, M': set<Ref>, b: Body)
    requires Clean(h, M, b) && forall r :: r in h && !h[r].body.Str? && r in M ==> r in M'
    ensures Clean(h, M', b)
  {
  }

  lemma EntriesPruned(h: Heap, c: Heap, M0: set<Ref>, M: set<Ref>)
    requires Entries(h, c, M0, c.Keys) && NoDangling(c) && forall r :: r in c ==> r in h && Shrunk(h[r].body, c[r].body)
    requires forall r :: r in h && !h[r].body.Str? ==> (r in M <==> r in M0)
    ensures forall r :: r in c ==> Pruned(h, if r in M then M else c.Keys, c.Keys, h[r].body, c[r].body)
  {
    hide Weeded, Clean, Shrunk, Pruned;
    assert SameKinds(h, h);
    forall r | r in c ensures Pruned(h, if r in M then M else c.Keys, c.Keys, h[r].body, c[r].body) {
      if h[r].body.Table? {
        var N0, N := if r in M0 then M0 else c.Keys, if r in M then M else c.Keys;
        WeededLess(h, h, N0, c.Keys, N, c.Keys, h[r].body, c[r].body);
        if r in M { CleanSame(h, M0, M, c[r].body); } else { DanglingClean(h, c, r); }
        forall v: Value | v.Ptr? && Holds(c[r].body, v) ensures v.r in c { assert Points(c, v); }
        PrunedBy(h, N, c.Keys, h[r].body, c[r].body);
      } else {
        PrunedOther(h, if r in M then M else c.Keys, c.Keys, h[r].body, c[r].body);
      }
    }
  }

  lemma DanglingClean(h: Heap, c: Heap, r: Ref)
    requires NoDangling(c) && r in c
    ensures Clean(h, c.Keys, c[r].body)
  {
    var b := c[r].body;
    if b.Table? {
      forall v | v in b.arr ensures !Lost(h, c.Keys, v) { assert Holds(b, v) && Points(c, v); }
      forall n | n in b.nodes ensures !Lost(h, c.Keys, n.val) { assert Holds(b, n.val) && Points(c, n.val); }
    }
  }

  lemma PrunedOther(h: Heap, M: set<Ref>, K: set<Ref>, b: Body, b': Body)
    requires !b.Table?
    ensures Pruned(h, M, K, b, b')
  {
  }

  // ----- one clearing pass --------------------------------------------------------------------------------

  ghost predicate WeededHeap(h: Heap, h': Heap, M: set<Ref>, K: set<Ref>) {
    h'.Keys == h.Keys && forall r :: r in h ==> Weeded(h, M, K, h[r].body, h'[r].body)
  }

  /** The fewer objects are kept, the more is lost. */
  lemma WeededLess(h: Heap, h': Heap, M: set<Ref>, K: set<Ref>, M': set<Ref>, K': set<Ref>, b: Body, b': Body)
    requires Weeded(h, M, K, b, b') && SameKinds(h, h')
    requires forall r :: r in h && !h[r].body.Str? && r in M' ==> r in M
    requires forall r :: r in h && !h[r].body.Str? && r in K' ==> r in K
    ensures Weeded(h', M', K', b, b')
  {
  }

  ghost predicate SameKinds(h: Heap, h': Heap) {
    forall r :: r in h ==> r in h' && (h'[r].body.Str? <==> h[r].body.Str?)
  }

  lemma WeededTrans(h: Heap, M: set<Ref>, K: set<Ref>, a: Body, b: Body, c: Body)
    requires Weeded(h, M, K, a, b) && Weeded(h, M, K, b, c)
    ensures Weeded(h, M, K, a, c)
  {
  }

  lemma TrimmedWeeded(h: Heap, M: set<Ref>, K: set<Ref>, b: Body, b': Body)
    requires Trimmed(b, b')
    ensures Weeded(h, M, K, b, b')
    ensures Clean(h, M, b) ==> Clean(h, M, b')
  {
    if b.Table? && Clean(h, M, b) {
      forall n | n in b'.nodes && HasWeakValues(b.mode) ensures !Lost(h, M, n.val) {
        var i :| 0 <= i < |b'.nodes| && b'.nodes[i] == n;
        assert b.nodes[i] in b.nodes;
      }
    }
  }

  lemma ValuesWeeded(s: State, s': State, l: seq<Ref>)
    requires WipedIn(s, s', ToSet(l)) && ValuesDone(s'.heap, l, s.heap)
    ensures WeededHeap(s.heap, s'.heap, MarkedSet(s'.heap), s'.heap.Keys)
  {
    hide ShrunkHeap;
    KindsKept(s, s');
    forall r | r in s.heap ensures Weeded(s.heap, MarkedSet(s'.heap), s'.heap.Keys, s.heap[r].body, s'.heap[r].body) {
      if s'.heap[r].body != s.heap[r].body {
        assert ValuesCleared(s'.heap, s.heap[r].body, s'.heap[r].body);
        ModeKept(s, s', r);
      }
    }
  }

  lemma KeysWeeded(s: State, s': State, l: seq<Ref>)
    requires Wiped(s, s') && KeysDone(s'.heap, l, s.heap) && Untouched(s.heap, s'.heap, l) && KeyClearable(s, l)
    ensures WeededHeap(s.heap, s'.heap, MarkedSet(s'.heap), MarkedSet(s'.heap))
  {
    hide ShrunkHeap;
    KindsKept(s, s');
    forall r | r in s.heap ensures Weeded(s.heap, MarkedSet(s'.heap), MarkedSet(s'.heap), s.heap[r].body, s'.heap[r].body) {
      if r in l {
        assert KeysCleared(s'.heap, s.heap[r].body, s'.heap[r].body);
        ModeKept(s, s', r);
      }
    }
  }

  lemma KindsKept(s: State, s': State)
    requires Wiped(s, s')
    ensures SameKinds(s.heap, s'.heap) && SameKinds(s'.heap, s.heap) && s'.heap.Keys == s.heap.Keys
    ensures forall r :: r in s.heap && !s.heap[r].body.Str? ==> (r in MarkedSet(s.heap) <==> r in MarkedSet(s'.heap))
  {
    forall r | r in s.heap ensures s'.heap[r].body.Str? <==> s.heap[r].body.Str? { assert Shrunk(s.heap[r].body, s'.heap[r].body); }
  }

  lemma ModeKept(s: State, s': State, r: Ref)
    requires Wiped(s, s') && r in s.heap && s.heap[r].body.Table?
    ensures r in s'.heap && s'.heap[r].body.Table? && s'.heap[r].body.mode == s.heap[r].body.mode
  {
    assert Shrunk(s.heap[r].body, s'.heap[r].body);
  }

  /** Clearing passes, judged by the marks at their end. */
  ghost predicate Culled(s: State, s': State) {
    Wiped(s, s') && WeededHeap(s.heap, s'.heap, MarkedSet(s'.heap), MarkedSet(s'.heap))
  }

  ghost predicate CulledValues(s: State, s': State) {
    Wiped(s, s') && WeededHeap(s.heap, s'.heap, MarkedSet(s'.heap), s'.heap.Keys)
  }

  lemma ValuesCulled(s: State, s': State, l: seq<Ref>)
    requires WipedIn(s, s', ToSet(l)) && ValuesDone(s'.heap, l, s.heap)
    ensures CulledValues(s, s')
  {
    hide WeededHeap, Wiped;
    ValuesWeeded(s, s', l);
    WipedOf(s, s', ToSet(l));
  }

  lemma KeysCulled(s: State, s': State, l: seq<Ref>)
    requires Wiped(s, s') && KeysDone(s'.heap, l, s.heap) && Untouched(s.heap, s'.heap, l) && KeyClearable(s, l)
    ensures Culled(s, s')
  {
    hide WeededHeap, Wiped;
    KeysWeeded(s, s', l);
  }

  lemma CulledTrans(a: State, b: State, c: State)
    ensures Culled(a, b) && Culled(b, c) ==> Culled(a, c)
    ensures CulledValues(a, b) && CulledValues(b, c) ==> CulledValues(a, c)
  {
    hide Weeded, MarkedSet, Wiped;
    if Wiped(a, b) && Wiped(b, c) {
      KindsKept(a, b);
      KindsKept(b, c);
      WipedTrans(a, b, c);
      if WeededHeap(a.heap, b.heap, MarkedSet(b.heap), MarkedSet(b.heap)) && WeededHeap(b.heap, c.heap, MarkedSet(c.heap), MarkedSet(c.heap)) {
        WeededHeapTrans(a.heap, b.heap, c.heap, MarkedSet(b.heap), MarkedSet(b.heap), MarkedSet(c.heap), MarkedSet(c.heap));
      }
      if WeededHeap(a.heap, b.heap, MarkedSet(b.heap), b.heap.Keys) && WeededHeap(b.heap, c.heap, MarkedSet(c.heap), c.heap.Keys) {
        WeededHeapTrans(a.heap, b.heap, c.heap, MarkedSet(b.heap), b.heap.Keys, MarkedSet(c.heap), c.heap.Keys);
      }
    }
  }

  lemma WeededHeapTrans(a: Heap, b: Heap, c: Heap, M: set<Ref>, K: set<Ref>, M': set<Ref>, K': set<Ref>)
    requires WeededHeap(a, b, M, K) && WeededHeap(b, c, M', K') && SameKinds(a, b) && SameKinds(b, a)
    requires forall r :: r in a && !a[r].body.Str? && r in M' ==> r in M
    requires forall r :: r in a && !a[r].body.Str? && r in K' ==> r in K
    ensures WeededHeap(a, c, M', K')
  {
    hide Weeded;
    forall r | r in a ensures Weeded(a, M', K', a[r].body, c[r].body) {
      WeededLess(a, a, M, K, M', K', a[r].body, b[r].body);
      WeededLess(b, a, M', K', M', K', b[r].body, c[r].body);
      WeededTrans(a, M', K', a[r].body, b[r].body, c[r].body);
    }
  }

  lemma CulledKeys(s: State, s': State)
    requires CulledValues(s, s')
    ensures Culled(s, s')
  {
    hide Weeded;
    KindsKept(s, s');
    forall r | r in s.heap ensures Weeded(s.heap, MarkedSet(s'.heap), MarkedSet(s'.heap), s.heap[r].body, s'.heap[r].body) {
      WeededLess(s.heap, s.heap, MarkedSet(s'.heap), s'.heap.Keys, MarkedSet(s'.heap), MarkedSet(s'.heap), s.heap[r].body, s'.heap[r].body);
    }
  }

  // ----- the atomic phase ------------------------------------------------------------------------------------

  /** When marking has converged and the values of weak tables are cleared, none of them holds a lost value. */
  lemma ConvergedClean(s: State)
    requires Quiet(s) && ValsClean(s.heap, s.weak) && ValsClean(s.heap, s.allweak) && s.blind == {}
    ensures forall r :: r in MarkedSet(s.heap) ==> r in s.heap && Clean(s.heap, MarkedSet(s.heap), s.heap[r].body)
  {
    hide HeapInv, ListInv;
    forall r | r in MarkedSet(s.heap) ensures Clean(s.heap, MarkedSet(s.heap), s.heap[r].body) {
      assert Covered(s, r);
      FullParts(s.heap, s.heap[r].body);
    }
  }

  /** A table that was clean stays so when more is removed. */
  lemma CleanShrunk(h: Heap, h': Heap, M: set<Ref>, b: Body, b': Body)
    requires Clean(h, M, b) && Shrunk(b, b') && SameKinds(h', h)
    ensures Clean(h', M, b')
  {
    if b.Table? && HasWeakValues(b.mode) {
      forall v | v in b'.arr ensures !Lost(h', M, v) {
        var i :| 0 <= i < |b'.arr| && b'.arr[i] == v;
        assert b.arr[i] in b.arr;
      }
      forall n | n in b'.nodes ensures !Lost(h', M, n.val) {
        var i :| 0 <= i < |b'.nodes| && b'.nodes[i] == n;
        assert ShrunkNode(b.nodes[i], n) && b.nodes[i] in b.nodes;
      }
    }
  }

  /** `s0` at the start of the phase, `s1` when marking first converged, `s2` after the first clearing, `s3` when
      it converged again, `s4` after the last clearing. */
  lemma AtomicEntries(s0: State, s1: State, s2: State, s3: State, s4: State)
    requires TrimmedHeap(s0.heap, s1.heap) && Quiet(s1) && CulledValues(s1, s2) && WipedIn(s1, s2, ToSet(s1.weak) + ToSet(s1.allweak))
    requires Quiet(s2) && ValsClean(s2.heap, s2.weak) && ValsClean(s2.heap, s2.allweak) && s2.blind == {}
    requires TrimmedHeap(s2.heap, s3.heap) && Darker(s2.heap, s3.heap) && Culled(s3, s4)
    ensures Entries(s0.heap, s4.heap, MarkedSet(s2.heap), MarkedSet(s4.heap))
  {
    hide Weeded, Clean, MarkedSet, Wiped, WipedIn, Quiet, ValsClean, Darker, TrimmedHeap;
    var M, K := MarkedSet(s2.heap), MarkedSet(s4.heap);
    ConvergedClean(s2);
    AtomicKinds(s0, s1, s2, s3, s4);
    forall r | r in s0.heap
      ensures Weeded(s0.heap, if r in M then M else K, K, s0.heap[r].body, s4.heap[r].body)
      ensures r in M ==> Clean(s0.heap, M, s4.heap[r].body)
    {
      AtomicEntry(s0, s1, s2, s3, s4, r);
      if r in M { CleanShrunk(s2.heap, s0.heap, M, s2.heap[r].body, s4.heap[r].body); }
    }
  }

  lemma AtomicKinds(s0: State, s1: State, s2: State, s3: State, s4: State)
    requires TrimmedHeap(s0.heap, s1.heap) && Quiet(s1) && WipedIn(s1, s2, ToSet(s1.weak) + ToSet(s1.allweak))
    requires TrimmedHeap(s2.heap, s3.heap) && Darker(s2.heap, s3.heap) && Wiped(s3, s4)
    ensures SameKinds(s0.heap, s1.heap) && SameKinds(s1.heap, s0.heap) && SameKinds(s0.heap, s2.heap) && SameKinds(s2.heap, s0.heap)
    ensures SameKinds(s0.heap, s3.heap) && SameKinds(s3.heap, s0.heap)
    ensures s0.heap.Keys == s1.heap.Keys == s2.heap.Keys == s3.heap.Keys == s4.heap.Keys
    ensures forall r :: r in s0.heap ==> Trimmed(s0.heap[r].body, s1.heap[r].body) && Trimmed(s2.heap[r].body, s3.heap[r].body)
    ensures forall r :: r in s0.heap ==> Shrunk(s2.heap[r].body, s4.heap[r].body)
    ensures MarkedSet(s1.heap) <= MarkedSet(s2.heap) <= MarkedSet(s4.heap)
    ensures forall r :: r in s1.heap && r !in MarkedSet(s1.heap) ==> s2.heap[r].body == s1.heap[r].body
  {
    hide Quiet, WipedIn, Darker, MarkedSet, TrimmedHeap, Trimmed, Shrunk, Wiped, SameKinds;
    WipedOf(s1, s2, ToSet(s1.weak) + ToSet(s1.allweak));
    KindsKept(s1, s2);
    KindsKept(s3, s4);
    TrimmedKinds(s0.heap, s1.heap);
    TrimmedKinds(s2.heap, s3.heap);
    KindsTrans(s0.heap, s1.heap, s2.heap);
    KindsTrans(s2.heap, s1.heap, s0.heap);
    KindsTrans(s0.heap, s2.heap, s3.heap);
    KindsTrans(s3.heap, s2.heap, s0.heap);
    WipedListed(s1, s2);
    DarkerSet(s2.heap, s3.heap);
    WipedOwners(s3, s4);
    DarkerSet(s3.heap, s4.heap);
    forall r | r in s0.heap ensures Shrunk(s2.heap[r].body, s4.heap[r].body) {
      TrimmedIsShrunk(s2.heap[r].body, s3.heap[r].body);
      WipedShrunk(s3, s4, r);
      ShrunkTrans(s2.heap[r].body, s3.heap[r].body, s4.heap[r].body);
    }
  }

  lemma WipedShrunk(s: State, s': State, r: Ref)
    requires Wiped(s, s') && r in s.heap
    ensures r in s'.heap && Shrunk(s.heap[r].body, s'.heap[r].body)
  {
  }

  lemma KindsTrans(a: Heap, b: Heap, c: Heap)
    requires SameKinds(a, b) && SameKinds(b, c)
    ensures SameKinds(a, c)
  {
  }

  lemma TrimmedKinds(h: Heap, h': Heap)
    requires TrimmedHeap(h, h')
    ensures SameKinds(h, h') && SameKinds(h', h) && h'.Keys == h.Keys
    ensures forall r :: r in h ==> Trimmed(h[r].body, h'[r].body)
  {
    forall r | r in h ensures h'[r].body.Str? <==> h[r].body.Str? { assert Trimmed(h[r].body, h'[r].body); }
  }

  lemma AtomicEntry(s0: State, s1: State, s2: State, s3: State, s4: State, r: Ref)
    requires r in s0.heap && s0.heap.Keys == s1.heap.Keys == s2.heap.Keys == s3.heap.Keys == s4.heap.Keys
    requires SameKinds(s1.heap, s0.heap) && SameKinds(s3.heap, s0.heap) && SameKinds(s0.heap, s1.heap) && SameKinds(s0.heap, s3.heap)
    requires Trimmed(s0.heap[r].body, s1.heap[r].body) && Trimmed(s2.heap[r].body, s3.heap[r].body)
    requires Weeded(s1.heap, MarkedSet(s2.heap), s2.heap.Keys, s1.heap[r].body, s2.heap[r].body)
    requires r !in MarkedSet(s2.heap) ==> s2.heap[r].body == s1.heap[r].body
    requires Weeded(s3.heap, MarkedSet(s4.heap), MarkedSet(s4.heap), s3.heap[r].body, s4.heap[r].body)
    requires MarkedSet(s2.heap) <= MarkedSet(s4.heap)
    ensures var M, K := MarkedSet(s2.heap), MarkedSet(s4.heap);
            Weeded(s0.heap, if r in M then M else K, K, s0.heap[r].body, s4.heap[r].body)
  {
    hide Weeded, Trimmed, MarkedSet, Clean;
    var h, K := s0.heap, MarkedSet(s4.heap);
    var M := if r in MarkedSet(s2.heap) then MarkedSet(s2.heap) else K;
    TrimmedWeeded(h, M, K, h[r].body, s1.heap[r].body);
    TrimmedWeeded(h, M, K, s2.heap[r].body, s3.heap[r].body);
    if r in MarkedSet(s2.heap) {
      WeededLess(s1.heap, h, M, s2.heap.Keys, M, K, s1.heap[r].body, s2.heap[r].body);
    }
    WeededLess(s3.heap, h, K, K, M, K, s3.heap[r].body, s4.heap[r].body);
    WeededTrans(h, M, K, h[r].body, s1.heap[r].body, s2.heap[r].body);
    WeededTrans(h, M, K, h[r].body, s2.heap[r].body, s3.heap[r].body);
    WeededTrans(h, M, K, h[r].body, s3.heap[r].body, s4.heap[r].body);
  }

  // ----- before and after -----------------------------------------------------------------------------------

  /** Trimming before the entries were looked at makes no difference, nor does the garbage in `h`. */
  lemma EntriesBefore(h: Heap, h1: Heap, h2: Heap, M: set<Ref>, K: set<Ref>)
    requires Entries(h1, h2, M, K) && h2.Keys <= h1.Keys && (h1.Keys == h.Keys || NoDangling(h2))
    requires forall r :: r in h1 ==> r in h && Trimmed(h[r].body, h1[r].body)
    ensures Entries(h, h2, M, K)
  {
    hide Weeded, Trimmed, Clean, Lost;
    SameKindsIn(h, h1);
    forall r | r in h && r in h2
      ensures Weeded(h, if r in M then M else K, K, h[r].body, h2[r].body) && (r in M ==> Clean(h, M, h2[r].body))
    {
      var N := if r in M then M else K;
      TrimmedWeeded(h, N, K, h[r].body, h1[r].body);
      WeededLess(h1, h, N, K, N, K, h1[r].body, h2[r].body);
      WeededTrans(h, N, K, h[r].body, h1[r].body, h2[r].body);
      if r in M {
        forall v | NoDangling(h2) && Holds(h2[r].body, v) ensures Points(h1, v) { assert Points(h2, v); }
        CleanIn(h, h1, M, h2[r].body);
      }
    }
  }

  lemma SameKindsIn(h: Heap, h1: Heap)
    requires forall r :: r in h1 ==> r in h && Trimmed(h[r].body, h1[r].body)
    ensures SameKinds(h1, h)
  {
    forall r | r in h1 ensures h[r].body.Str? <==> h1[r].body.Str? { assert Trimmed(h[r].body, h1[r].body); }
  }

  lemma CleanIn(h: Heap, h1: Heap, M: set<Ref>, b: Body)
    requires SameKinds(h1, h) && Clean(h1, M, b) && (h1.Keys == h.Keys || forall v :: Holds(b, v) ==> Points(h1, v))
    ensures Clean(h, M, b)
  {
    if b.Table? && HasWeakValues(b.mode) {
      forall v | v in b.arr ensures !Lost(h, M, v) { assert Holds(b, v); }
      forall n | n in b.nodes ensures !Lost(h, M, n.val) { assert Holds(b, n.val); }
    }
  }

  lemma EntriesAfter(h: Heap, h1: Heap, h2: Heap, M: set<Ref>, K: set<Ref>)
    requires Entries(h, h1, M, K)
    requires forall r :: r in h2 ==> r in h1 && Trimmed(h1[r].body, h2[r].body)
    ensures Entries(h, h2, M, K)
  {
    hide Weeded, Trimmed, Clean, Lost;
    forall r | r in h && r in h2
      ensures Weeded(h, if r in M then M else K, K, h[r].body, h2[r].body) && (r in M ==> Clean(h, M, h2[r].body))
    {
      var N := if r in M then M else K;
      TrimmedWeeded(h, N, K, h1[r].body, h2[r].body);
      TrimmedWeeded(h, M, K, h1[r].body, h2[r].body);
      WeededTrans(h, N, K, h[r].body, h1[r].body, h2[r].body);
    }
  }
}
