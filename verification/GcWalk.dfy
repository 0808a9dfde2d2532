/** Visiting an object: its slots are marked one after the other, and it leaves its place on a list. */
module GcWalk {
  import opened Options
  import opened GcHeap
  import opened GcState
  import opened GcPaint

  // ----- bodies change -------------------------------------------------------------------------------

  ghost function SetBody(s: State, o: Ref, b: Body): State
    requires o in s.heap
  {
    s.(heap := s.heap[o := s.heap[o].(body := b)])
  }

  lemma SetBodyHeap(s: State, o: Ref, b: Body)
    requires o in s.heap && Shrunk(s.heap[o].body, b)
    ensures ShrunkHeap(s.heap, SetBody(s, o, b).heap) && Darker(s.heap, SetBody(s, o, b).heap)
    ensures WhiteSet(SetBody(s, o, b).heap) == WhiteSet(s.heap)
    ensures HeapInv(s) ==> HeapInv(SetBody(s, o, b))
    ensures Links(SetBody(s, o, b)) == Links(s)
  {
    var h' := SetBody(s, o, b).heap;
    forall r | r in s.heap ensures Shrunk(s.heap[r].body, h'[r].body) { }
    if HeapInv(s) {
      ShrunkNoDangling(s.heap, h');
      BoundedShrunk(s.heap, h', s.blind, s.bound);
    }
  }

  lemma SetBodyLists(s: State, o: Ref, b: Body)
    requires ListInv(s) && o in s.heap && Shrunk(s.heap[o].body, b)
    ensures ListInv(SetBody(s, o, b))
  {
    SetBodyKinds(s, o, b);
    hide KindsOK;
    assert Links(SetBody(s, o, b)) == Links(s);
  }

  lemma SetBodyKinds(s: State, o: Ref, b: Body)
    requires KindsOK(s) && o in s.heap && Shrunk(s.heap[o].body, b)
    ensures KindsOK(SetBody(s, o, b))
  {
    hide Shrunk, Visitable;
    ShrunkKind(s.heap[o].body, b);
  }

  lemma ShrunkKind(b: Body, b': Body)
    requires Shrunk(b, b')
    ensures Visitable(b) ==> Visitable(b')
    ensures b'.Table? == b.Table? && (b.Table? ==> b'.mode == b.mode)
  {
  }

  lemma SetBodyCovers(s: State, o: Ref, b: Body, skip: set<Ref>)
    requires CoverInv(s, skip) && o in s.heap && Shrunk(s.heap[o].body, b)
    ensures CoverInv(SetBody(s, o, b), skip)
  {
    var s' := SetBody(s, o, b);
    SetBodyHeap(s, o, b);
    forall r | r in s'.heap && !s'.heap[r].colour.White? && r !in skip ensures Covered(s', r) {
      assert Covered(s, r) && Shrunk(s.heap[r].body, s'.heap[r].body);
      if Settled(s, r) {
        hide Settled;
        SettledGrows(s, s', r);
      }
    }
  }

  /** The collector may shrink any object and keep the marking invariant. */
  lemma SetBodyInv(s: State, o: Ref, b: Body, skip: set<Ref>)
    requires MarkInv(s, skip) && o in s.heap && Shrunk(s.heap[o].body, b)
    ensures MarkInv(SetBody(s, o, b), skip)
  {
    hide HeapInv, ListInv, CoverInv;
    SetBodyHeap(s, o, b);
    SetBodyLists(s, o, b);
    SetBodyCovers(s, o, b, skip);
  }

  lemma SetBodyGrew(s: State, o: Ref, b: Body)
    requires o in s.heap && Trimmed(s.heap[o].body, b)
    ensures Grew(s, SetBody(s, o, b))
  {
    TrimmedIsShrunk(s.heap[o].body, b);
    SetBodyHeap(s, o, b);
    var s' := SetBody(s, o, b);
    forall r | r in s.heap ensures Trimmed(s.heap[r].body, s'.heap[r].body) { }
  }

  // ----- walking over a table ----------------------------------------------------------------------------

  ghost predicate ArrUpTo(h: Heap, b: Body, i: nat) {
    b.Table? && i <= |b.arr| && forall k :: 0 <= k < i ==> Marked(h, b.arr[k])
  }

  ghost predicate KeysUpTo(h: Heap, b: Body, i: nat) {
    b.Table? && i <= |b.nodes| && forall k :: 0 <= k < i ==> Marked(h, b.nodes[k].key)
  }

  ghost predicate ValsUpTo(h: Heap, b: Body, i: nat) {
    b.Table? && i <= |b.nodes| && forall k :: 0 <= k < i ==> Marked(h, b.nodes[k].val)
  }

  lemma UpToAll(h: Heap, b: Body)
    requires b.Table?
    ensures ArrUpTo(h, b, |b.arr|) ==> ArrMarked(h, b)
    ensures KeysUpTo(h, b, |b.nodes|) ==> KeysMarked(h, b)
    ensures ValsUpTo(h, b, |b.nodes|) ==> ValsMarked(h, b)
    ensures Marked(h, b.meta) && ArrMarked(h, b) && KeysMarked(h, b) && ValsMarked(h, b) ==> Full(h, b)
  {
  }

  /** What stays true of an object being walked over while other objects are marked. */
  ghost predicate Walking(s0: State, s: State, o: Ref, skip: set<Ref>) {
    && MarkInv(s, skip) && Grew(s0, s)
    && o in skip && o in s0.heap && o in s.heap && o !in Links(s) && o !in s.blind
    && !s.heap[o].colour.White?
    && Trimmed(s0.heap[o].body, s.heap[o].body)
  }

  lemma WalkStart(s: State, o: Ref, skip: set<Ref>)
    requires MarkInv(s, skip) && o in skip && o in s.heap && o !in Links(s) && o !in s.blind && !s.heap[o].colour.White?
    ensures Walking(s, s, o, skip)
  {
    hide MarkInv, WhiteSet, Links;
    forall r | r in s.heap ensures Trimmed(s.heap[r].body, s.heap[r].body) { }
  }

  /** One more value marked. */
  lemma WalkMark(s0: State, s: State, s': State, o: Ref, skip: set<Ref>)
    requires Walking(s0, s, o, skip) && Painted(s, s') && MarkInv(s', skip)
    ensures Walking(s0, s', o, skip) && s'.heap[o] == s.heap[o]
    ensures forall v :: Marked(s.heap, v) ==> Marked(s'.heap, v)
  {
    hide MarkInv, Links, Grew;
    PaintedGrew(s, s');
    GrewTrans(s0, s, s');
    PaintedAt(s, s', o);
    forall v | Marked(s.heap, v) ensures Marked(s'.heap, v) { MarkedStays(s, s', v); }
  }

  /** One empty entry buried. */
  lemma WalkTrim(s0: State, s: State, o: Ref, b: Body, skip: set<Ref>)
    requires Walking(s0, s, o, skip) && Trimmed(s.heap[o].body, b)
    ensures Walking(s0, SetBody(s, o, b), o, skip)
    ensures forall v :: Marked(s.heap, v) ==> Marked(SetBody(s, o, b).heap, v)
  {
    hide MarkInv, Links, Grew;
    TrimmedIsShrunk(s.heap[o].body, b);
    SetBodyInv(s, o, b, skip);
    SetBodyHeap(s, o, b);
    SetBodyGrew(s, o, b);
    GrewTrans(s0, s, SetBody(s, o, b));
    TrimmedTrans(s0.heap[o].body, s.heap[o].body, b);
  }

  /** Slots of the object being walked over can be marked. */
  lemma WalkSlot(s0: State, s: State, o: Ref, v: Value, skip: set<Ref>)
    requires Walking(s0, s, o, skip) && Holds(s.heap[o].body, v)
    ensures Points(s.heap, v)
    ensures StrongHolds(s.heap[o].body, v) ==> In(s.bound.now, v)
    ensures EntryHolds(s.heap[o].body, v) && IsString(s.heap, v) ==> In(s.bound.now, v)
  {
    assert o in s.bound.now;
    hide MarkInv;
  }

  lemma WalkArr(s0: State, s: State, o: Ref, i: nat, skip: set<Ref>)
    requires Walking(s0, s, o, skip) && s.heap[o].body.Table? && i < |s.heap[o].body.arr|
    ensures Points(s.heap, s.heap[o].body.arr[i])
    ensures s.heap[o].body.mode.Strong? || s.heap[o].body.mode.WeakKeys? || IsString(s.heap, s.heap[o].body.arr[i])
            ==> In(s.bound.now, s.heap[o].body.arr[i])
  {
    var b := s.heap[o].body;
    assert b.arr[i] in b.arr;
    assert Holds(b, b.arr[i]) && EntryHolds(b, b.arr[i]);
    hide Walking;
    WalkSlot(s0, s, o, b.arr[i], skip);
  }

  lemma WalkDom(s0: State, s: State, o: Ref, skip: set<Ref>)
    requires Walking(s0, s, o, skip)
    ensures o in s.heap && !s.heap[o].colour.White? && o !in s.blind && MarkInv(s, skip)
  {
  }

  /** A non-empty entry: its key and value may be read, and marked as its table's mode demands. */
  lemma WalkNode(s0: State, s: State, o: Ref, i: nat, skip: set<Ref>)
    requires Walking(s0, s, o, skip) && s.heap[o].body.Table? && i < |s.heap[o].body.nodes|
    ensures var b, n := s.heap[o].body, s.heap[o].body.nodes[i];
            && Points(s.heap, n.key) && Points(s.heap, n.val)
            && (!n.val.Nil? ==>
                 && (b.mode.Strong? || b.mode.WeakValues? || IsString(s.heap, n.key) ==> In(s.bound.now, n.key))
                 && (b.mode.Strong? || IsString(s.heap, n.val) ==> In(s.bound.now, n.val))
                 && (b.mode.WeakKeys? && KeyHeld(s.heap, s.bound.now, n.key) ==> In(s.bound.now, n.val)))
  {
    var b, n := s.heap[o].body, s.heap[o].body.nodes[i];
    assert n in b.nodes;
    assert o in s.bound.now;
    SeenAt(s.heap, s.blind, s.bound.now, true, o);
    assert Holds(b, n.key) && Holds(b, n.val);
    assert !n.val.Nil? ==> EntryHolds(b, n.key) && EntryHolds(b, n.val);
    assert Points(s.heap, n.key) && Points(s.heap, n.val);
  }

  /** The table with the key of entry `i` buried. */
  function Buried(b: Body, i: nat): Body
    requires b.Table? && i < |b.nodes|
  {
    b.(nodes := b.nodes[i := Node(DeadKey, Nil)])
  }

  lemma WalkBury(s0: State, s: State, o: Ref, i: nat, skip: set<Ref>)
    requires Walking(s0, s, o, skip)
    requires s.heap[o].body.Table? && i < |s.heap[o].body.nodes| && s.heap[o].body.nodes[i].val.Nil?
    ensures var s' := SetBody(s, o, Buried(s.heap[o].body, i));
            Walking(s0, s', o, skip) && WhiteSet(s'.heap) == WhiteSet(s.heap) && Darker(s.heap, s'.heap)
  {
    hide Walking, Trimmed, WhiteSet, Darker;
    WalkDom(s0, s, o, skip);
    var b := s.heap[o].body;
    BuriedTrimmed(b, i);
    SetBodyWhites(s, o, Buried(b, i));
    SetBodyDarker(s, o, Buried(b, i));
    WalkTrim(s0, s, o, Buried(b, i), skip);
  }

  lemma BuriedTrimmed(b: Body, i: nat)
    requires b.Table? && i < |b.nodes| && b.nodes[i].val.Nil?
    ensures Trimmed(b, Buried(b, i))
  {
  }

  lemma SetBodyDarker(s: State, o: Ref, b: Body)
    requires o in s.heap
    ensures Darker(s.heap, SetBody(s, o, b).heap)
  {
  }

  /** Array slot `i` has just been marked. */
  lemma StepArr(s0: State, s: State, s': State, o: Ref, i: nat, skip: set<Ref>)
    requires Walking(s0, s, o, skip) && Painted(s, s') && MarkInv(s', skip)
    requires ArrUpTo(s.heap, s.heap[o].body, i) && i < |s.heap[o].body.arr|
    requires Marked(s'.heap, s.heap[o].body.arr[i])
    ensures Walking(s0, s', o, skip) && o in s'.heap && s'.heap[o] == s.heap[o]
    ensures ArrUpTo(s'.heap, s'.heap[o].body, i + 1)
    ensures Marked(s.heap, s.heap[o].body.meta) ==> Marked(s'.heap, s'.heap[o].body.meta)
  {
    hide MarkInv, Painted;
    WalkMark(s0, s, s', o, skip);
    hide Walking;
  }

  /** What a walk over the entries knows of the rest of the table. */
  ghost predicate Prefix(h: Heap, b: Body) {
    b.Table? && (Marked(h, b.meta)) && (b.mode.Strong? || b.mode.WeakKeys? ==> ArrMarked(h, b))
  }

  /** Entry `i` has just been dealt with. */
  lemma StepNode(h: Heap, h': Heap, b: Body, b': Body, i: nat)
    requires Darker(h, h') && Prefix(h, b) && i < |b.nodes|
    requires b' == b || (b.nodes[i].val.Nil? && b' == Buried(b, i))
    ensures Prefix(h', b') && |b'.nodes| == |b.nodes| && b'.mode == b.mode
    ensures KeysUpTo(h, b, i) && Marked(h', b'.nodes[i].key) ==> KeysUpTo(h', b', i + 1)
    ensures ValsUpTo(h, b, i) && Marked(h', b'.nodes[i].val) ==> ValsUpTo(h', b', i + 1)
  {
    assert Trimmed(b, b');
    TrimmedIsShrunk(b, b');
  }

  lemma DarkerTrans(a: Heap, b: Heap, c: Heap)
    requires Darker(a, b) && Darker(b, c)
    ensures Darker(a, c)
  {
  }

  lemma UpToZero(h: Heap, b: Body)
    requires b.Table?
    ensures ArrUpTo(h, b, 0) && KeysUpTo(h, b, 0) && ValsUpTo(h, b, 0)
  {
  }

  /** One value marked during a walk. */
  lemma WalkOne(s0: State, s: State, s': State, o: Ref, skip: set<Ref>)
    requires Walking(s0, s, o, skip) && Painted(s, s') && MarkInv(s', skip)
    ensures Walking(s0, s', o, skip) && o in s'.heap && s'.heap[o] == s.heap[o]
    ensures Darker(s.heap, s'.heap) && s'.bound == s.bound && s'.heap.Keys == s.heap.Keys && s'.phase == s.phase
    ensures s'.stopped == s.stopped && s'.ephemeron == s.ephemeron
  {
    hide MarkInv;
    WalkMark(s0, s, s', o, skip);
    hide Walking;
  }

  /** Only strings changed colour. */
  ghost predicate OnlyStrings(h: Heap, h': Heap) {
    h'.Keys == h.Keys && forall r :: r in h ==> h'[r] == h[r] || h[r].body.Str?
  }

  lemma SetBodyWhites(s: State, o: Ref, b: Body)
    requires o in s.heap
    ensures WhiteSet(SetBody(s, o, b).heap) == WhiteSet(s.heap)
  {
  }
}
