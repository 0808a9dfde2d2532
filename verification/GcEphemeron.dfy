/** Ephemeron tables, and the convergence of their marks. */
module GcEphemeron {
  import opened Options
  import opened GcHeap
  import opened GcState
  import opened GcPaint
  import opened GcWalk
  import opened GcSettle

  // ----- ephemeron tables ---------------------------------------------------------------------------------

  /** No object other than a string changed colour. */
  ghost predicate SameButStrings(h: Heap, h': Heap) {
    && h'.Keys == h.Keys && Darker(h, h')
    && forall r :: r in h ==>
         h'[r].body.Str? == h[r].body.Str? && (!h[r].body.Str? ==> h'[r].colour == h[r].colour)
  }

  /** The entry asks for no more marking: a marked key has a marked value. */
  ghost predicate StableNode(h: Heap, n: Node) {
    !n.val.Nil? ==> (IsString(h, n.key) ==> Marked(h, n.key)) && (Marked(h, n.key) ==> Marked(h, n.val))
  }

  ghost predicate StableUpTo(h: Heap, b: Body, i: nat) {
    b.Table? && i <= |b.nodes| && forall k :: 0 <= k < i ==> StableNode(h, b.nodes[k])
  }

  ghost predicate Stable(h: Heap, b: Body) {
    b.Table? && forall n :: n in b.nodes ==> StableNode(h, n)
  }

  lemma StableStep(h: Heap, h': Heap, b: Body, b': Body, i: nat)
    requires SameButStrings(h, h') && StableUpTo(h, b, i) && i < |b.nodes|
    requires forall k :: 0 <= k < i ==> Points(h, b.nodes[k].key)
    requires b' == b || (b.nodes[i].val.Nil? && b' == Buried(b, i))
    requires StableNode(h', b'.nodes[i])
    ensures StableUpTo(h', b', i + 1)
  {
    forall k | 0 <= k < i + 1 ensures StableNode(h', b'.nodes[k]) {
    }
  }

  lemma SameButStringsTrans(a: Heap, b: Heap, c: Heap)
    requires SameButStrings(a, b) && SameButStrings(b, c)
    ensures SameButStrings(a, c)
  {
  }

  lemma OnlyStringsSame(s: State, s': State)
    requires Painted(s, s') && OnlyStrings(s.heap, s'.heap)
    ensures SameButStrings(s.heap, s'.heap)
  {
  }

  lemma BuriedSame(s: State, o: Ref, i: nat)
    requires o in s.heap && s.heap[o].body.Table? && i < |s.heap[o].body.nodes|
    ensures SameButStrings(s.heap, SetBody(s, o, Buried(s.heap[o].body, i)).heap)
  {
  }

  lemma MarkedInBound(s: State, v: Value, skip: set<Ref>)
    requires MarkInv(s, skip) && Marked(s.heap, v)
    ensures In(s.bound.now, v)
  {
  }

  lemma StableAll(h: Heap, b: Body)
    requires b.Table? && StableUpTo(h, b, |b.nodes|)
    ensures Stable(h, b)
  {
  }

  lemma EphemeronDone(s0: State, s: State, o: Ref, hasclears: bool, hasww: bool)
    requires Walking(s0, s, o, {o}) && s.heap[o].body.Table? && s.heap[o].body.mode.WeakKeys?
    requires Prefix(s.heap, s.heap[o].body)
    requires !hasclears ==> KeysUpTo(s.heap, s.heap[o].body, |s.heap[o].body.nodes|)
    requires !hasww ==> ValsUpTo(s.heap, s.heap[o].body, |s.heap[o].body.nodes|)
    ensures Marked(s.heap, s.heap[o].body.meta) && ArrMarked(s.heap, s.heap[o].body)
    requires StrKeysUpTo(s.heap, s.heap[o].body, |s.heap[o].body.nodes|)
    ensures StringKeys(s.heap, s.heap[o].body)
    ensures !hasww ==> ValsMarked(s.heap, s.heap[o].body)
    ensures !hasclears && !hasww && s.stopped && s.heap[o].colour.Gray? ==> Settled(s, o)
  {
    hide MarkInv, Grew;
    UpToAll(s.heap, s.heap[o].body);
  }

  lemma SameRefl(h: Heap)
    ensures SameButStrings(h, h)
  {
  }

  /** Objects stay what they are: strings stay strings. */
  ghost predicate StrSame(h: Heap, h': Heap) {
    h'.Keys == h.Keys && forall r :: r in h ==> h'[r].body.Str? == h[r].body.Str?
  }

  ghost predicate StrKeysUpTo(h: Heap, b: Body, i: nat) {
    b.Table? && i <= |b.nodes| &&
    forall k :: 0 <= k < i && !b.nodes[k].val.Nil? && IsString(h, b.nodes[k].key) ==> Marked(h, b.nodes[k].key)
  }

  lemma StrKeysStep(h: Heap, h': Heap, b: Body, b': Body, i: nat)
    requires Darker(h, h') && StrSame(h, h') && StrKeysUpTo(h, b, i) && i < |b.nodes|
    requires b' == b || (b.nodes[i].val.Nil? && b' == Buried(b, i))
    requires !b'.nodes[i].val.Nil? && IsString(h', b'.nodes[i].key) ==> Marked(h', b'.nodes[i].key)
    ensures StrKeysUpTo(h', b', i + 1)
  {
  }

  lemma StrSameFacts(h: Heap, h': Heap)
    requires SameButStrings(h, h')
    ensures StrSame(h, h')
  {
  }

  lemma StrSamePainted(s: State, s': State)
    requires Painted(s, s')
    ensures StrSame(s.heap, s'.heap)
  {
  }

  lemma StrSameTrans(a: Heap, b: Heap, c: Heap)
    requires StrSame(a, b) && StrSame(b, c)
    ensures StrSame(a, c)
  {
  }

  lemma StableZero(h: Heap, b: Body)
    requires b.Table?
    ensures StableUpTo(h, b, 0) && StrKeysUpTo(h, b, 0)
  {
  }

  // ----- closures and threads ---------------------------------------------------------------------------

  ghost predicate AllPoint(s: State, vs: seq<Value>) {
    forall v :: v in vs ==> Points(s.heap, v) && In(s.bound.now, v)
  }

  lemma AllPointStays(s: State, s': State, vs: seq<Value>)
    requires Painted(s, s') && AllPoint(s, vs)
    ensures AllPoint(s', vs)
  {
  }

  /** The live slots of a closure or thread may be marked. */
  lemma LivePoint(s: State, o: Ref, vs: seq<Value>, skip: set<Ref>)
    requires MarkInv(s, skip) && o in s.heap && o !in s.blind && !s.heap[o].colour.White?
    requires match s.heap[o].body
             case Closure(vals) => vs == vals
             case Thread(stack, top) => vs == stack[..Min(top, |stack|)]
             case _ => false
    ensures AllPoint(s, vs)
  {
    assert o in s.bound.now;
    forall v | v in vs ensures Points(s.heap, v) && In(s.bound.now, v) {
      assert Holds(s.heap[o].body, v) && StrongHolds(s.heap[o].body, v);
    }
  }

  ghost predicate AllMarked(h: Heap, vs: seq<Value>) {
    forall v :: v in vs ==> Marked(h, v)
  }

  /** The stack with every slot above the top cleared. */
  function Cleared(b: Body): (b': Body)
    requires b.Thread?
  {
    var live := b.stack[..Min(b.top, |b.stack|)];
    b.(stack := live + seq(|b.stack| - |live|, _ => Nil))
  }

  lemma ThreadSettled(s0: State, s: State, o: Ref)
    requires Walking(s0, s, o, {o}) && s.heap[o].body.Thread? && s.heap[o].colour.Gray? && s.phase.InsideAtomic?
    requires AllMarked(s.heap, s.heap[o].body.stack[..Min(s.heap[o].body.top, |s.heap[o].body.stack|)])
    ensures var s' := SetBody(s, o, Cleared(s.heap[o].body));
            MarkInv(s', {}) && Grew(s0, s') && WhiteSet(s'.heap) == WhiteSet(s.heap)
  {
    hide MarkInv, Grew;
    var b := s.heap[o].body;
    var b' := Cleared(b);
    assert Trimmed(b, b');
    WalkTrim(s0, s, o, b', {o});
    var s' := SetBody(s, o, b');
    assert Settled(s', o) by {
      forall v | Holds(b', v) ensures Marked(s'.heap, v) {
        var i :| 0 <= i < |b'.stack| && b'.stack[i] == v;
        if i < Min(b.top, |b.stack|) { assert v in b.stack[..Min(b.top, |b.stack|)]; }
      }
    }
    SetBodyWhites(s, o, b');
    WalkSettled(s0, s', o);
  }

  lemma PopLists(s: State, s': State, o: Ref)
    requires ListInv(s) && s' == s.(gray := s'.gray, held := s'.held) && Links(s) == Links(s') + multiset{o}
    requires (forall r :: r in s'.gray ==> r in s.gray) && (forall r :: r in s'.held ==> r in s.held)
    ensures ListInv(s') && o !in Links(s') && o in s.heap && s.heap[o].colour.Gray?
  {
    hide Links;
    assert o in Links(s);
    forall r | r in Links(s') ensures Links(s')[r] == 1 && r in s'.heap && s'.heap[r].colour.Gray? {
      assert r in Links(s) && Links(s)[r] == 1;
    }
    assert Links(s)[o] == 1;
  }

  lemma PopCovers(s: State, s': State, o: Ref)
    requires CoverInv(s, {}) && s' == s.(gray := s'.gray, held := s'.held)
    requires forall r :: r in s.gray && r != o ==> r in s'.gray
    requires forall r :: r in s.held && r != o ==> r in s'.held
    ensures CoverInv(s', {o})
  {
    hide Settled;
    forall r | r in s'.heap && !s'.heap[r].colour.White? && r !in {o} ensures Covered(s', r) {
      assert Covered(s, r);
      PopSettled(s, s', r);
    }
  }

  lemma PopWalk(s: State, s': State, o: Ref)
    requires MarkInv(s, {}) && s' == s.(gray := s'.gray, held := s'.held) && Links(s) == Links(s') + multiset{o}
    requires (forall r :: r in s'.gray ==> r in s.gray) && (forall r :: r in s'.held ==> r in s.held)
    requires forall r :: r in s.gray && r != o ==> r in s'.gray
    requires (forall r :: r in s.held && r != o ==> r in s'.held) && o !in s.blind
    ensures o in s'.heap && s'.heap[o].colour.Gray? && Walking(s', s', o, {o})
  {
    hide ListInv, CoverInv, Links, NoDangling, Closed;
    PopLists(s, s', o);
    PopCovers(s, s', o);
    assert MarkInv(s', {o});
    WalkStart(s', o, {o});
  }

  /** Taking the first object off the gray list starts a walk. */
  lemma PopGray(s: State)
    requires MarkInv(s, {}) && s.gray != []
    ensures var o, s' := s.gray[0], s.(gray := s.gray[1..]);
            && o in s.heap && s.heap[o].colour.Gray? && Visitable(s.heap[o].body) && Walking(s', s', o, {o})
  {
    hide HeapInv, CoverInv, LinksOK;
    var o, s' := s.gray[0], s.(gray := s.gray[1..]);
    assert s.gray == [o] + s.gray[1..];
    assert Links(s) == Links(s') + multiset{o};
    PopWalk(s, s', o);
  }

  lemma PopSettled(s: State, s': State, r: Ref)
    requires r in s.heap && s' == s.(gray := s'.gray, held := s'.held)
    ensures Settled(s, r) ==> Settled(s', r)
  {
  }

  lemma WalkBlacken(s0: State, s: State, o: Ref, c: Colour)
    requires Walking(s0, s, o, {o}) && !c.White?
    ensures Walking(s0, Paint(s, o, c), o, {o}) && WhiteSet(Paint(s, o, c).heap) == WhiteSet(s.heap)
    ensures Darker(s.heap, Paint(s, o, c).heap)
  {
    hide MarkInv, Grew;
    PaintVisited(s, o, c, {o});
    GrewTrans(s0, s, Paint(s, o, c));
  }

  /** What a step of propagation did, seen from before the pop. */
  lemma PopGrew(s: State, s': State)
    requires s.gray != [] && Grew(s.(gray := s.gray[1..]), s')
    ensures Grew(s, s') && (WhiteSet(s'.heap) < WhiteSet(s.heap) || |s'.gray| < |s.gray|)
  {
    hide WhiteSet;
  }

  lemma GrewRefl(s: State)
    ensures Grew(s, s)
  {
    SuffixRefl(s.weak); SuffixRefl(s.allweak); SuffixRefl(s.ephemeron);
    forall r | r in s.heap ensures Trimmed(s.heap[r].body, s.heap[r].body) { }
  }

  lemma GrewKeeps(s: State, s': State)
    requires Grew(s, s')
    ensures s'.phase == s.phase && s'.stopped == s.stopped && WhiteSet(s'.heap) <= WhiteSet(s.heap)
  {
  }

  lemma StrongSettled(s0: State, s: State, o: Ref)
    requires Walking(s0, s, o, {o}) && s.heap[o].body.Table? && s.heap[o].body.mode.Strong?
    requires s.heap[o].colour.Black? && Full(s.heap, s.heap[o].body)
    ensures MarkInv(s, {}) && Grew(s0, s)
  {
    assert Settled(s, o);
    WalkSettled(s0, s, o);
  }

  // ----- convergence of ephemerons -----------------------------------------------------------------------

  /** What a run of the marking machinery may change. */
  ghost predicate Spread(s: State, s': State) {
    && s' == s.(heap := s'.heap, gray := s'.gray, grayagain := s'.grayagain, weak := s'.weak,
                allweak := s'.allweak, ephemeron := s'.ephemeron, held := s'.held)
    && TrimmedHeap(s.heap, s'.heap)
    && Darker(s.heap, s'.heap)
    && Suffix(s.weak, s'.weak) && Suffix(s.allweak, s'.allweak)
    && WhiteSet(s'.heap) <= WhiteSet(s.heap)
  }

  lemma SpreadRefl(s: State)
    ensures Spread(s, s)
  {
    hide WhiteSet;
    SuffixRefl(s.weak); SuffixRefl(s.allweak);
    forall r | r in s.heap ensures Trimmed(s.heap[r].body, s.heap[r].body) { }
  }

  lemma SpreadTrans(a: State, b: State, c: State)
    requires Spread(a, b) && Spread(b, c)
    ensures Spread(a, c)
  {
    hide WhiteSet;
    SuffixTrans(a.weak, b.weak, c.weak);
    SuffixTrans(a.allweak, b.allweak, c.allweak);
    forall r | r in a.heap ensures Trimmed(a.heap[r].body, c.heap[r].body) {
      TrimmedTrans(a.heap[r].body, b.heap[r].body, c.heap[r].body);
    }
  }

  lemma GrewSpread(a: State, b: State)
    requires Grew(a, b)
    ensures Spread(a, b)
  {
    hide WhiteSet;
  }

  /** The ephemeron tables a convergence round still has to revisit. */
  ghost predicate HeldOK(s: State) {
    forall r :: r in s.held ==>
      r in s.heap && s.heap[r].body.Table? && s.heap[r].body.mode.WeakKeys? && Marked(s.heap, s.heap[r].body.meta)
  }

  lemma HeldStays(s: State, s': State)
    requires Grew(s, s') && HeldOK(s)
    ensures HeldOK(s')
  {
    hide WhiteSet;
    forall r | r in s'.held ensures s'.heap[r].body.Table? && s'.heap[r].body.mode.WeakKeys? && Marked(s'.heap, s'.heap[r].body.meta) {
      assert Trimmed(s.heap[r].body, s'.heap[r].body);
      MarkedGrows(s.heap, s'.heap, s.heap[r].body.meta);
    }
  }

  lemma EphemeronMeta(s: State)
    requires MarkInv(s, {}) && s.gray == [] && s.held == [] && s.phase.InsideAtomic?
    ensures forall r :: r in s.ephemeron ==>
      r in s.heap && s.heap[r].body.Table? && s.heap[r].body.mode.WeakKeys? && Marked(s.heap, s.heap[r].body.meta)
  {
    hide NoDangling, Closed;
    forall r | r in s.ephemeron ensures r in s.heap && Marked(s.heap, s.heap[r].body.meta) {
      assert r in Links(s);
      assert Covered(s, r);
    }
  }

  /** A round starts by taking the whole ephemeron list. */
  lemma TakeEphemerons(s: State)
    requires MarkInv(s, {}) && s.gray == [] && s.held == [] && s.phase.InsideAtomic?
    ensures var s' := s.(ephemeron := [], held := s.ephemeron);
            MarkInv(s', {}) && HeldOK(s') && Spread(s, s') && AllStable(s')
  {
    hide MarkInv, Spread;
    EphemeronMeta(s);
    TakeLists(s);
    TakeCovers(s);
    SpreadRefl(s);
    TakeSpread(s);
    TakeInv(s);
  }

  lemma TakeInv(s: State)
    requires MarkInv(s, {}) && s.held == []
    requires var s' := s.(ephemeron := [], held := s.ephemeron); ListInv(s') && CoverInv(s', {})
    ensures MarkInv(s.(ephemeron := [], held := s.ephemeron), {})
  {
    hide ListInv, CoverInv, NoDangling, Closed;
  }

  lemma TakeSpread(s: State)
    requires Spread(s, s)
    ensures Spread(s, s.(ephemeron := [], held := s.ephemeron))
  {
    hide WhiteSet, TrimmedHeap, Darker;
  }

  lemma TakeLists(s: State)
    requires MarkInv(s, {}) && s.held == []
    ensures ListInv(s.(ephemeron := [], held := s.ephemeron))
  {
    hide HeapInv, CoverInv, KindsOK;
    assert Links(s.(ephemeron := [], held := s.ephemeron)) == Links(s);
    TakeKinds(s);
  }

  lemma TakeKinds(s: State)
    requires KindsOK(s) && s.held == []
    ensures KindsOK(s.(ephemeron := [], held := s.ephemeron))
  {
  }

  lemma TakeCovers(s: State)
    requires MarkInv(s, {}) && s.held == []
    ensures CoverInv(s.(ephemeron := [], held := s.ephemeron), {})
  {
    hide HeapInv, ListInv, Full, KeysMarked, ArrMarked, ValsMarked, StringKeys;
  }

  /** Taking the next held object starts a walk. */
  lemma PopHeld(s: State)
    requires MarkInv(s, {}) && s.held != []
    ensures var o, s' := s.held[0], s.(held := s.held[1..]);
            && o in s.heap && s.heap[o].colour.Gray? && Walking(s', s', o, {o})
    ensures HeldOK(s) ==> HeldOK(s.(held := s.held[1..]))
  {
    hide HeapInv, CoverInv, LinksOK;
    var o, s' := s.held[0], s.(held := s.held[1..]);
    assert s.held == [o] + s.held[1..];
    assert Links(s) == Links(s') + multiset{o};
    PopWalk(s, s', o);
  }

  ghost predicate AllStable(s: State) {
    forall r :: r in s.ephemeron ==> r in s.heap && Stable(s.heap, s.heap[r].body)
  }

  /** A table stays stable while only strings change colour. */
  lemma StableStays(h: Heap, h': Heap, b: Body, b': Body)
    requires SameButStrings(h, h') && Trimmed(b, b') && Stable(h, b)
    requires forall n :: n in b.nodes ==> Points(h, n.key)
    ensures Stable(h', b')
  {
    forall n' | n' in b'.nodes ensures StableNode(h', n') {
      var i :| 0 <= i < |b'.nodes| && b'.nodes[i] == n';
      assert b.nodes[i] in b.nodes;
    }
  }

  lemma RoundStep(s: State, s': State, o: Ref)
    requires Grew(s, s') && SameButStrings(s.heap, s'.heap) && NoDangling(s.heap)
    requires AllStable(s) && o in s'.heap && Stable(s'.heap, s'.heap[o].body)
    requires s'.ephemeron == s.ephemeron || s'.ephemeron == [o] + s.ephemeron
    ensures AllStable(s')
  {
    hide WhiteSet, Stable;
    forall r | r in s'.ephemeron && r != o ensures r in s'.heap && Stable(s'.heap, s'.heap[r].body) {
      var b := s.heap[r].body;
      assert Stable(s.heap, b);
      StableTable(s.heap, b);
      forall n | n in b.nodes ensures Points(s.heap, n.key) { assert Holds(s.heap[r].body, n.key); }
      StableStays(s.heap, s'.heap, b, s'.heap[r].body);
    }
  }

  lemma StableTable(h: Heap, b: Body)
    requires Stable(h, b)
    ensures b.Table?
  {
  }

  lemma InvNoDangling(s: State, skip: set<Ref>)
    requires MarkInv(s, skip)
    ensures NoDangling(s.heap)
  {
  }

  function MarkedSet(h: Heap): set<Ref> {
    set r | r in h && !h[r].colour.White?
  }

  /** Once the ephemeron tables are stable, the marked objects form a closed set. */
  lemma ConvergedClosed(s: State)
    requires MarkInv(s, {}) && s.gray == [] && s.held == [] && s.phase.InsideAtomic? && AllStable(s)
    ensures Closed(SeenHeap(s.heap, s.blind), MarkedSet(s.heap), false)
  {
    hide NoDangling, Closed, Full;
    forall r | r in MarkedSet(s.heap) && r in s.heap
      ensures ClosedAt(s.heap, MarkedSet(s.heap), if r in s.blind then Seen(s.heap[r].body) else s.heap[r].body, false)
    {
      assert Covered(s, r);
      if r !in s.blind {
        assert Settled(s, r);
        SettledClosed(s, r);
      }
    }
    SeenFrom(s.heap, s.blind, MarkedSet(s.heap), false);
  }

  lemma SettledClosed(s: State, r: Ref)
    requires r in s.heap && Settled(s, r) && AllStable(s)
    ensures ClosedAt(s.heap, MarkedSet(s.heap), s.heap[r].body, false)
  {
    var h, b := s.heap, s.heap[r].body;
    if Full(h, b) {
      forall v | StrongHolds(b, v) || EntryHolds(b, v) ensures In(MarkedSet(h), v) {
        HeldSomewhere(b, v);
      }
      assert ClosedAt(h, MarkedSet(h), b, false);
    } else if b.Table? && b.mode.WeakKeys? {
      hide Full;
      if r in s.ephemeron {
        assert Stable(h, b);
      }
    }
  }

  lemma SpreadWhites(s: State, s': State)
    requires Spread(s, s')
    ensures WhiteSet(s'.heap) <= WhiteSet(s.heap) && s'.phase == s.phase && s'.stopped == s.stopped
  {
  }

  lemma PoppedStable(s: State, s': State)
    requires s' == s.(held := s'.held)
    ensures AllStable(s) ==> AllStable(s')
  {
  }

  lemma PopSpread(s: State, s0: State, s1: State)
    requires s.held != [] && s0 == s.(held := s.held[1..]) && Grew(s0, s1)
    ensures Spread(s, s1)
  {
    hide WhiteSet;
  }

  lemma GrewKeep2(s: State, s': State)
    requires Grew(s, s')
    ensures s'.phase == s.phase && s'.stopped == s.stopped && s'.held == s.held
    ensures WhiteSet(s'.heap) <= WhiteSet(s.heap)
  {
  }
}
