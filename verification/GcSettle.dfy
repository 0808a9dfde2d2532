/** An object that was visited goes to its list, or needs no more. */
module GcSettle {
  import opened Options
  import opened GcHeap
  import opened GcState
  import opened GcPaint
  import opened GcWalk

  // ----- leaving an object after a walk ----------------------------------------------------------------------

  lemma WalkSettled(s0: State, s: State, o: Ref)
    requires Walking(s0, s, o, {o}) && Settled(s, o)
    ensures MarkInv(s, {}) && Grew(s0, s)
  {
    hide HeapInv, ListInv;
    assert CoverInv(s, {});
  }

  /** Longer lists cover no less. */
  lemma LinkCovers(s: State, s': State, o: Ref)
    requires CoverInv(s, {o}) && o in s.heap
    requires s' == s.(grayagain := s'.grayagain, weak := s'.weak, allweak := s'.allweak, ephemeron := s'.ephemeron)
    requires (forall r :: r in s.grayagain ==> r in s'.grayagain) && (forall r :: r in s.weak ==> r in s'.weak)
    requires (forall r :: r in s.allweak ==> r in s'.allweak) && (forall r :: r in s.ephemeron ==> r in s'.ephemeron)
    ensures CoverInv(s', {o})
    ensures Covered(s', o) ==> CoverInv(s', {})
  {
    forall r | r in s'.heap && !s'.heap[r].colour.White? && r != o ensures Covered(s', r) {
      assert Covered(s, r);
    }
  }

  /** Inside the atomic phase threads are pushed back too, but that list is dead by then. */
  lemma LinkAgainInside(s0: State, s: State, o: Ref)
    requires Walking(s0, s, o, {o}) && s.phase.InsideAtomic?
    ensures Walking(s0, s.(grayagain := [o] + s.grayagain), o, {o})
  {
    hide HeapInv, CoverInv, TrimmedHeap, Darker, WhiteSet;
    var s' := s.(grayagain := [o] + s.grayagain);
    assert Links(s') == Links(s);
    LinkHeap(s, s');
    LinkCovers(s, s', o);
  }

  ghost predicate LongerLists(s: State, s': State) {
    && s' == s.(grayagain := s'.grayagain, weak := s'.weak, allweak := s'.allweak, ephemeron := s'.ephemeron)
    && Suffix(s.grayagain, s'.grayagain) && Suffix(s.weak, s'.weak)
    && Suffix(s.allweak, s'.allweak) && Suffix(s.ephemeron, s'.ephemeron)
  }

  lemma LinkLists(s: State, s': State, o: Ref)
    requires ListInv(s) && o in s.heap && o !in Links(s) && s.heap[o].colour.Gray? && LongerLists(s, s')
    requires Links(s') == Links(s) + multiset{o} && KindsOK(s')
    ensures ListInv(s')
  {
    hide KindsOK, Links;
  }

  lemma LinkHeap(s: State, s': State)
    requires HeapInv(s) && LongerLists(s, s')
    ensures HeapInv(s')
  {
    hide NoDangling, Closed;
  }

  /** Linking the object just walked over to the list that covers it ends the walk. */
  lemma LinkOne(s0: State, s: State, s': State, o: Ref)
    requires Walking(s0, s, o, {o}) && s.heap[o].colour.Gray? && LongerLists(s, s')
    requires Links(s') == Links(s) + multiset{o} && KindsOK(s') && Covered(s', o)
    ensures MarkInv(s', {}) && Grew(s0, s')
  {
    hide KindsOK, Covered, HeapInv, ListInv, CoverInv, Links, Grew;
    LinkLists(s, s', o);
    LinkHeap(s, s');
    LinkCovers(s, s', o);
    LinkGrew(s0, s, s');
  }

  lemma LinkGrew(s0: State, s: State, s': State)
    requires Grew(s0, s) && LongerLists(s, s')
    ensures Grew(s0, s')
  {
    SuffixTrans(s0.weak, s.weak, s'.weak);
    SuffixTrans(s0.allweak, s.allweak, s'.allweak);
    SuffixTrans(s0.ephemeron, s.ephemeron, s'.ephemeron);
  }

  /** The object is pushed on exactly one of the four lists. */
  lemma LinkLonger(s: State, s': State, o: Ref)
    requires || (s' == s.(grayagain := [o] + s.grayagain) && !s.phase.InsideAtomic?)
             || s' == s.(weak := [o] + s.weak)
             || s' == s.(allweak := [o] + s.allweak)
             || s' == s.(ephemeron := [o] + s.ephemeron)
    ensures LongerLists(s, s') && Links(s') == Links(s) + multiset{o}
  {
    hide Suffix;
    PushSuffix(o, s.grayagain); PushSuffix(o, s.weak); PushSuffix(o, s.allweak); PushSuffix(o, s.ephemeron);
    SuffixRefl(s.grayagain); SuffixRefl(s.weak); SuffixRefl(s.allweak); SuffixRefl(s.ephemeron);
  }

  lemma LinkAgainReady(s0: State, s: State, o: Ref)
    requires Walking(s0, s, o, {o}) && s.heap[o].colour.Gray? && !s.phase.InsideAtomic? && Visitable(s.heap[o].body) && !AllWeakTable(s.heap[o].body)
    ensures var s' := s.(grayagain := [o] + s.grayagain);
            LongerLists(s, s') && Links(s') == Links(s) + multiset{o} && KindsOK(s') && Covered(s', o)
  {
    hide HeapInv, CoverInv, LinksOK, Grew, Links, KindsOK, Covered;
    var s' := s.(grayagain := [o] + s.grayagain);
    LinkLonger(s, s', o);
    LinkAgainKinds(s, o);
    LinkAgainCovers(s, o);
  }

  lemma LinkAgainKinds(s: State, o: Ref)
    requires KindsOK(s) && o in s.heap && o !in s.blind && Visitable(s.heap[o].body) && !AllWeakTable(s.heap[o].body)
    ensures KindsOK(s.(grayagain := [o] + s.grayagain))
  {
  }

  lemma LinkAgainCovers(s: State, o: Ref)
    requires o in s.heap && s.heap[o].colour.Gray? && !s.phase.InsideAtomic?
    ensures Covered(s.(grayagain := [o] + s.grayagain), o)
  {
  }

  lemma LinkAgain(s0: State, s: State, o: Ref)
    requires Walking(s0, s, o, {o}) && s.heap[o].colour.Gray? && !s.phase.InsideAtomic? && Visitable(s.heap[o].body) && !AllWeakTable(s.heap[o].body)
    ensures MarkInv(s.(grayagain := [o] + s.grayagain), {}) && Grew(s0, s.(grayagain := [o] + s.grayagain))
  {
    hide MarkInv, Grew;
    var s' := s.(grayagain := [o] + s.grayagain);
    LinkAgainReady(s0, s, o);
    LinkOne(s0, s, s', o);
  }

  lemma LinkWeakReady(s0: State, s: State, o: Ref)
    requires Walking(s0, s, o, {o}) && s.stopped && s.heap[o].colour.Gray?
    requires s.heap[o].body.Table? && s.heap[o].body.mode.WeakValues?
    requires Marked(s.heap, s.heap[o].body.meta) && KeysMarked(s.heap, s.heap[o].body)
    ensures var s' := s.(weak := [o] + s.weak);
            LongerLists(s, s') && Links(s') == Links(s) + multiset{o} && KindsOK(s') && Covered(s', o)
  {
    hide HeapInv, CoverInv, LinksOK, Grew, Links, KindsOK, Covered;
    var s' := s.(weak := [o] + s.weak);
    LinkLonger(s, s', o);
    LinkWeakKinds(s, o);
    LinkWeakCovers(s, o);
  }

  lemma LinkWeakKinds(s: State, o: Ref)
    requires KindsOK(s) && o in s.heap && o !in s.blind && s.heap[o].body.Table? && s.heap[o].body.mode.WeakValues?
    ensures KindsOK(s.(weak := [o] + s.weak))
  {
  }

  lemma LinkWeakCovers(s: State, o: Ref)
    requires o in s.heap && s.heap[o].colour.Gray? && s.stopped && s.heap[o].body.Table? && s.heap[o].body.mode.WeakValues?
    requires Marked(s.heap, s.heap[o].body.meta) && KeysMarked(s.heap, s.heap[o].body)
    ensures Covered(s.(weak := [o] + s.weak), o)
  {
  }

  lemma LinkWeak(s0: State, s: State, o: Ref)
    requires Walking(s0, s, o, {o}) && s.stopped && s.heap[o].colour.Gray?
    requires s.heap[o].body.Table? && s.heap[o].body.mode.WeakValues?
    requires Marked(s.heap, s.heap[o].body.meta) && KeysMarked(s.heap, s.heap[o].body)
    ensures MarkInv(s.(weak := [o] + s.weak), {}) && Grew(s0, s.(weak := [o] + s.weak))
  {
    hide MarkInv, Grew;
    var s' := s.(weak := [o] + s.weak);
    LinkWeakReady(s0, s, o);
    LinkOne(s0, s, s', o);
  }

  lemma LinkEphemeronReady(s0: State, s: State, o: Ref)
    requires Walking(s0, s, o, {o}) && s.stopped && s.heap[o].colour.Gray?
    requires s.heap[o].body.Table? && s.heap[o].body.mode.WeakKeys?
    requires Marked(s.heap, s.heap[o].body.meta) && ArrMarked(s.heap, s.heap[o].body)
    ensures var s' := s.(ephemeron := [o] + s.ephemeron);
            LongerLists(s, s') && Links(s') == Links(s) + multiset{o} && KindsOK(s') && Covered(s', o)
  {
    hide HeapInv, CoverInv, LinksOK, Grew, Links, KindsOK, Covered;
    var s' := s.(ephemeron := [o] + s.ephemeron);
    LinkLonger(s, s', o);
    LinkEphemeronKinds(s, o);
    LinkEphemeronCovers(s, o);
  }

  lemma LinkEphemeronKinds(s: State, o: Ref)
    requires KindsOK(s) && o in s.heap && o !in s.blind && s.heap[o].body.Table? && s.heap[o].body.mode.WeakKeys?
    ensures KindsOK(s.(ephemeron := [o] + s.ephemeron))
  {
  }

  lemma LinkEphemeronCovers(s: State, o: Ref)
    requires o in s.heap && s.heap[o].colour.Gray? && s.stopped && s.heap[o].body.Table? && s.heap[o].body.mode.WeakKeys?
    requires Marked(s.heap, s.heap[o].body.meta) && ArrMarked(s.heap, s.heap[o].body)
    ensures Covered(s.(ephemeron := [o] + s.ephemeron), o)
  {
  }

  lemma LinkEphemeron(s0: State, s: State, o: Ref)
    requires Walking(s0, s, o, {o}) && s.stopped && s.heap[o].colour.Gray?
    requires s.heap[o].body.Table? && s.heap[o].body.mode.WeakKeys?
    requires Marked(s.heap, s.heap[o].body.meta) && ArrMarked(s.heap, s.heap[o].body)
    ensures MarkInv(s.(ephemeron := [o] + s.ephemeron), {}) && Grew(s0, s.(ephemeron := [o] + s.ephemeron))
  {
    hide MarkInv, Grew;
    var s' := s.(ephemeron := [o] + s.ephemeron);
    LinkEphemeronReady(s0, s, o);
    LinkOne(s0, s, s', o);
  }

  lemma LinkAllWeakReady(s0: State, s: State, o: Ref)
    requires Walking(s0, s, o, {o}) && s.heap[o].colour.Gray?
    requires s.heap[o].body.Table? && Marked(s.heap, s.heap[o].body.meta)
    requires s.heap[o].body.mode.AllWeak? ||
             (s.heap[o].body.mode.WeakKeys? && s.stopped &&
              ArrMarked(s.heap, s.heap[o].body) && ValsMarked(s.heap, s.heap[o].body) &&
              StringKeys(s.heap, s.heap[o].body))
    ensures var s' := s.(allweak := [o] + s.allweak);
            LongerLists(s, s') && Links(s') == Links(s) + multiset{o} && KindsOK(s') && Covered(s', o)
  {
    hide HeapInv, CoverInv, LinksOK, Grew, Links, KindsOK, Covered;
    var s' := s.(allweak := [o] + s.allweak);
    LinkLonger(s, s', o);
    LinkAllWeakKinds(s, o);
    LinkAllWeakCovers(s, o);
  }

  lemma LinkAllWeakKinds(s: State, o: Ref)
    requires KindsOK(s) && o in s.heap && o !in s.blind && s.heap[o].body.Table? && (s.heap[o].body.mode.AllWeak? || s.heap[o].body.mode.WeakKeys?)
    ensures KindsOK(s.(allweak := [o] + s.allweak))
  {
  }

  lemma LinkAllWeakCovers(s: State, o: Ref)
    requires o in s.heap && s.heap[o].colour.Gray? && s.heap[o].body.Table? && Marked(s.heap, s.heap[o].body.meta)
    requires s.heap[o].body.mode.AllWeak? ||
             (s.heap[o].body.mode.WeakKeys? && s.stopped && ArrMarked(s.heap, s.heap[o].body)
              && ValsMarked(s.heap, s.heap[o].body) && StringKeys(s.heap, s.heap[o].body))
    ensures Covered(s.(allweak := [o] + s.allweak), o)
  {
  }

  lemma LinkAllWeak(s0: State, s: State, o: Ref)
    requires Walking(s0, s, o, {o}) && s.heap[o].colour.Gray?
    requires s.heap[o].body.Table? && Marked(s.heap, s.heap[o].body.meta)
    requires s.heap[o].body.mode.AllWeak? ||
             (s.heap[o].body.mode.WeakKeys? && s.stopped &&
              ArrMarked(s.heap, s.heap[o].body) && ValsMarked(s.heap, s.heap[o].body) &&
              StringKeys(s.heap, s.heap[o].body))
    ensures MarkInv(s.(allweak := [o] + s.allweak), {}) && Grew(s0, s.(allweak := [o] + s.allweak))
  {
    hide MarkInv, Grew;
    var s' := s.(allweak := [o] + s.allweak);
    LinkAllWeakReady(s0, s, o);
    LinkOne(s0, s, s', o);
  }

  lemma PrefixFull(h: Heap, b: Body)
    requires b.Table? && Prefix(h, b) && b.mode.Strong? && KeysUpTo(h, b, |b.nodes|) && ValsUpTo(h, b, |b.nodes|)
    ensures Full(h, b)
  {
    UpToAll(h, b);
  }

  lemma PaintedRefl(s: State)
    ensures Painted(s, s)
  {
    SuffixRefl(s.gray);
  }

  lemma PrefixWeak(h: Heap, b: Body)
    requires b.Table? && Marked(h, b.meta) && (b.mode.WeakValues? || b.mode.AllWeak?)
    ensures Prefix(h, b)
  {
  }

  lemma WeakValueDone(s0: State, s: State, o: Ref, hasclears: bool)
    requires Walking(s0, s, o, {o}) && s.heap[o].body.Table? && s.heap[o].body.mode.WeakValues?
    requires Prefix(s.heap, s.heap[o].body) && KeysUpTo(s.heap, s.heap[o].body, |s.heap[o].body.nodes|)
    requires !hasclears ==> s.heap[o].body.arr == [] && ValsUpTo(s.heap, s.heap[o].body, |s.heap[o].body.nodes|)
    ensures Marked(s.heap, s.heap[o].body.meta) && KeysMarked(s.heap, s.heap[o].body)
    ensures !hasclears && s.stopped && s.heap[o].colour.Gray? ==> Settled(s, o)
  {
    hide MarkInv, Grew;
    UpToAll(s.heap, s.heap[o].body);
  }
}
