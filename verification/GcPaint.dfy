/** Marking one object: what turning it gray or black keeps. */
module GcPaint {
  import opened Options
  import opened GcHeap
  import opened GcState

  // ----- painting one object ---------------------------------------------------------------------------

  ghost function Paint(s: State, o: Ref, c: Colour): State
    requires o in s.heap
  {
    s.(heap := s.heap[o := s.heap[o].(colour := c)])
  }

  lemma PaintHeap(s: State, o: Ref, c: Colour)
    requires o in s.heap && !c.White? && HeapInv(s) && o in s.bound.now
    ensures HeapInv(Paint(s, o, c))
  {
    var h' := Paint(s, o, c).heap;
    ShrunkNoDangling(s.heap, h');
    BoundedShrunk(s.heap, h', s.blind, s.bound);
  }

  lemma PaintCovers(s: State, s': State, o: Ref, c: Colour, skip: set<Ref>)
    requires CoverInv(s, skip) && o in s.heap && !c.White?
    requires s' == Paint(s, o, c) || s' == Paint(s, o, c).(gray := [o] + s.gray)
    ensures CoverInv(s', skip + {o})
  {
    hide Settled;
    forall r | r in s'.heap && !s'.heap[r].colour.White? && r !in skip && r != o ensures Covered(s', r) {
      assert s'.heap[r] == s.heap[r] && Covered(s, r);
      if Settled(s, r) {
        SettledGrows(s, s', r);
      }
    }
  }

  lemma PaintPainted(s: State, o: Ref, c: Colour)
    requires o in s.heap && s.heap[o].colour.White? && !c.White?
    ensures Painted(s, Paint(s, o, c))
    ensures Painted(s, Paint(s, o, c).(gray := [o] + s.gray))
  {
    hide Painted;
    PaintOne(s, o, c);
    PaintPush(s, o, c);
  }

  lemma PaintOne(s: State, o: Ref, c: Colour)
    requires o in s.heap && s.heap[o].colour.White? && !c.White?
    ensures Painted(s, Paint(s, o, c))
  {
    PaintWhites(s, o, c);
    PaintLinks(s, o, c);
    SuffixRefl(s.gray);
    hide WhiteSet, Links, Suffix;
  }

  lemma PaintPush(s: State, o: Ref, c: Colour)
    requires o in s.heap && s.heap[o].colour.White? && !c.White?
    ensures Painted(s, Paint(s, o, c).(gray := [o] + s.gray))
  {
    hide Links, WhiteSet, Suffix, SameBodies, NewLinks;
    PaintOne(s, o, c);
    PaintLess(s, o, c);
    PushLinks(s, o, c);
    PushSuffix(o, s.gray);
  }

  lemma PaintLess(s: State, o: Ref, c: Colour)
    requires o in s.heap && s.heap[o].colour.White? && !c.White?
    ensures WhiteSet(Paint(s, o, c).heap) < WhiteSet(s.heap)
  {
    PaintWhites(s, o, c);
    assert o in WhiteSet(s.heap);
  }

  lemma PushLinks(s: State, o: Ref, c: Colour)
    requires o in s.heap && s.heap[o].colour.White? && NewLinks(s, Paint(s, o, c))
    ensures NewLinks(s, Paint(s, o, c).(gray := [o] + s.gray))
  {
    PaintLinks(s, o, c);
    hide Links;
  }

  lemma PushSuffix(o: Ref, l: seq<Ref>)
    ensures Suffix(l, [o] + l)
  {
    assert ([o] + l)[1..] == l;
  }

  lemma PaintLinks(s: State, o: Ref, c: Colour)
    requires o in s.heap
    ensures Links(Paint(s, o, c)) == Links(s)
    ensures Links(Paint(s, o, c).(gray := [o] + s.gray)) == Links(s) + multiset{o}
  {
  }

  lemma PaintWhites(s: State, o: Ref, c: Colour)
    requires o in s.heap && !c.White?
    ensures WhiteSet(Paint(s, o, c).heap) == WhiteSet(s.heap) - {o}
  {
  }

  lemma RepaintPainted(s: State, s': State, o: Ref, c: Colour)
    requires Painted(s, s') && o in s.heap && s.heap[o].colour.White? && !c.White?
    ensures o in s'.heap && Painted(s, Paint(s', o, c))
  {
    assert Links(Paint(s', o, c)) == Links(s');
    PaintWhites(s', o, c);
    assert o !in WhiteSet(s'.heap) || o in WhiteSet(s.heap);
  }

  /** An object that is already marked keeps body, colour and place under marking. */
  lemma PaintedAt(s: State, s': State, o: Ref)
    requires Painted(s, s') && o in s.heap && !s.heap[o].colour.White?
    ensures o in s'.heap && s'.heap[o] == s.heap[o]
    ensures o !in Links(s) ==> o !in Links(s')
  {
  }

  lemma UdataSlots(s: State, o: Ref, skip: set<Ref>)
    requires MarkInv(s, skip) && o in s.heap && s.heap[o].body.Udata? && o in s.bound.now && o !in s.blind
    ensures Points(s.heap, s.heap[o].body.umeta) && In(s.bound.now, s.heap[o].body.umeta)
    ensures Points(s.heap, s.heap[o].body.uv) && In(s.bound.now, s.heap[o].body.uv)
  {
    var b := s.heap[o].body;
    assert Holds(b, b.umeta) && StrongHolds(b, b.umeta) && Holds(b, b.uv) && StrongHolds(b, b.uv);
    hide MarkInv;
  }

  lemma PaintMarked(s: State, o: Ref, c: Colour, v: Value)
    requires o in s.heap && !c.White? && Marked(s.heap, v)
    ensures Marked(Paint(s, o, c).heap, v)
  {
  }

  lemma MarkedStays(s: State, s': State, v: Value)
    requires Painted(s, s') && Marked(s.heap, v)
    ensures Marked(s'.heap, v)
  {
  }

  lemma WhiteUnlinked(s: State, o: Ref)
    requires ListInv(s) && o in s.heap && s.heap[o].colour.White?
    ensures o !in Links(s)
  {
  }

  lemma PaintLists(s: State, o: Ref, c: Colour)
    requires ListInv(s) && o in s.heap && o !in Links(s) && !c.White?
    ensures ListInv(Paint(s, o, c)) && Links(Paint(s, o, c)) == Links(s)
  {
    assert Links(Paint(s, o, c)) == Links(s);
  }

  lemma PushLists(s: State, o: Ref)
    requires ListInv(s) && o in s.heap && o !in Links(s) && Visitable(s.heap[o].body) && s.heap[o].colour.White?
    ensures ListInv(Paint(s, o, Gray).(gray := [o] + s.gray))
  {
    var s' := Paint(s, o, Gray).(gray := [o] + s.gray);
    assert Links(s') == Links(s) + multiset{o};
  }

  /** Marking a white object: a string turns black, an object being visited takes any colour. */
  lemma PaintWhite(s: State, o: Ref, c: Colour, skip: set<Ref>)
    requires MarkInv(s, skip) && o in s.heap && s.heap[o].colour.White? && o in s.bound.now && !c.White?
    requires s.heap[o].body.Str? || o in skip
    ensures MarkInv(Paint(s, o, c), skip) && Painted(s, Paint(s, o, c))
    ensures WhiteSet(Paint(s, o, c).heap) == WhiteSet(s.heap) - {o}
    ensures o !in Links(Paint(s, o, c))
  {
    hide HeapInv, ListInv, Painted, Links, WhiteSet;
    var s' := Paint(s, o, c);
    WhiteUnlinked(s, o);
    PaintHeap(s, o, c);
    PaintLists(s, o, c);
    PaintCovers(s, s', o, c, skip);
    PaintPainted(s, o, c);
    PaintWhites(s, o, c);
  }

  /** Any other object goes to the gray list. */
  lemma PushWhite(s: State, o: Ref, skip: set<Ref>)
    requires MarkInv(s, skip) && o in s.heap && s.heap[o].colour.White? && o in s.bound.now
    requires Visitable(s.heap[o].body)
    ensures var s' := Paint(s, o, Gray).(gray := [o] + s.gray);
            MarkInv(s', skip) && Painted(s, s') && WhiteSet(s'.heap) == WhiteSet(s.heap) - {o}
  {
    var p := Paint(s, o, Gray);
    var s' := p.(gray := [o] + s.gray);
    WhiteUnlinked(s, o);
    PaintHeap(s, o, Gray);
    assert HeapInv(s');
    hide HeapInv, ListInv, Painted, Links, WhiteSet;
    PushLists(s, o);
    PaintCovers(s, s', o, Gray, skip);
    PaintPainted(s, o, Gray);
    PaintWhites(s, o, Gray);
  }

  /** An object being visited, on no list, changes between gray and black. */
  lemma PaintVisited(s: State, o: Ref, c: Colour, skip: set<Ref>)
    requires MarkInv(s, skip) && o in s.heap && !s.heap[o].colour.White? && o in skip && o !in Links(s)
    requires !c.White?
    ensures MarkInv(Paint(s, o, c), skip) && Grew(s, Paint(s, o, c))
    ensures WhiteSet(Paint(s, o, c).heap) == WhiteSet(s.heap)
    ensures Links(Paint(s, o, c)) == Links(s)
  {
    hide HeapInv, ListInv, CoverInv, Grew;
    var s' := Paint(s, o, c);
    PaintGrew(s, o, c);
    InBoundIfMarked(s, o);
    PaintHeap(s, o, c);
    PaintLists(s, o, c);
    PaintCovers(s, s', o, c, skip);
    assert skip + {o} == skip;
  }

  lemma InBoundIfMarked(s: State, o: Ref)
    requires HeapInv(s) && o in s.heap && !s.heap[o].colour.White?
    ensures o in s.bound.now
  {
  }

  lemma PaintGrew(s: State, o: Ref, c: Colour)
    requires o in s.heap && !s.heap[o].colour.White? && !c.White?
    ensures Grew(s, Paint(s, o, c)) && WhiteSet(Paint(s, o, c).heap) == WhiteSet(s.heap)
  {
    var s' := Paint(s, o, c);
    forall r | r in s.heap ensures Trimmed(s.heap[r].body, s'.heap[r].body) { }
    PaintWhites(s, o, c);
    assert WhiteSet(s'.heap) == WhiteSet(s.heap);
  }

  /** A settled object needs no exemption any more. */
  lemma Release(s: State, o: Ref, skip: set<Ref>)
    requires MarkInv(s, skip + {o})
    requires o in s.heap && !s.heap[o].colour.White? ==> Covered(s, o)
    ensures MarkInv(s, skip)
  {
  }

  lemma Exempt(s: State, skip: set<Ref>, skip': set<Ref>)
    requires MarkInv(s, skip) && skip <= skip'
    ensures MarkInv(s, skip')
  {
  }

  // ----- the userdata case of marking, in three stages -----------------------------------------------

  lemma UdataBegin(s: State, o: Ref, skip: set<Ref>)
    requires MarkInv(s, skip) && o in s.heap && s.heap[o].colour.White? && o in s.bound.now && s.heap[o].body.Udata?
    ensures MarkInv(Paint(s, o, Gray), skip + {o}) && Painted(s, Paint(s, o, Gray))
    ensures WhiteSet(Paint(s, o, Gray).heap) < WhiteSet(s.heap)
    ensures Points(Paint(s, o, Gray).heap, s.heap[o].body.umeta) && In(s.bound.now, s.heap[o].body.umeta)
  {
    assert o in WhiteSet(s.heap);
    Exempt(s, skip, skip + {o});
    PaintWhite(s, o, Gray, skip + {o});
    UdataSlots(Paint(s, o, Gray), o, skip + {o});
  }

  lemma UdataMiddle(s: State, s2: State, o: Ref, skip: set<Ref>)
    requires MarkInv(s, skip) && o in s.heap && s.heap[o].colour.White? && o in s.bound.now && s.heap[o].body.Udata?
    requires Painted(Paint(s, o, Gray), s2) && MarkInv(s2, skip + {o})
    ensures o in s2.heap && s2.heap[o] == s.heap[o].(colour := Gray)
    ensures MarkInv(Paint(s2, o, Black), skip + {o}) && WhiteSet(Paint(s2, o, Black).heap) == WhiteSet(s2.heap)
    ensures Points(Paint(s2, o, Black).heap, s.heap[o].body.uv) && In(s2.bound.now, s.heap[o].body.uv)
  {
    hide MarkInv, Painted, Links;
    Exempt(s, skip, skip + {o});
    PaintWhite(s, o, Gray, skip + {o});
    PaintedAt(Paint(s, o, Gray), s2, o);
    PaintVisited(s2, o, Black, skip + {o});
    assert o in s2.bound.now && s2.blind == s.blind by { PaintedBound(Paint(s, o, Gray), s2); }
    NotBlind(s, o, skip);
    UdataSlots(Paint(s2, o, Black), o, skip + {o});
  }

  lemma PaintedBound(s: State, s': State)
    requires Painted(s, s')
    ensures s'.bound == s.bound && s'.phase == s.phase && s'.heap.Keys == s.heap.Keys && s'.blind == s.blind
  {
  }

  lemma NotBlind(s: State, o: Ref, skip: set<Ref>)
    requires MarkInv(s, skip) && o in s.heap && s.heap[o].colour.White?
    ensures o !in s.blind
  {
  }

  lemma UdataEnd(s: State, s2: State, s4: State, o: Ref, skip: set<Ref>)
    requires MarkInv(s, skip) && o in s.heap && s.heap[o].colour.White? && o in s.bound.now && s.heap[o].body.Udata?
    requires Painted(Paint(s, o, Gray), s2) && MarkInv(s2, skip + {o}) && Marked(s2.heap, s.heap[o].body.umeta)
    requires o in s2.heap && Painted(Paint(s2, o, Black), s4) && MarkInv(s4, skip + {o})
    requires Marked(s4.heap, s.heap[o].body.uv)
    ensures MarkInv(s4, skip) && Painted(s, s4) && o in s4.heap && !s4.heap[o].colour.White?
  {
    hide MarkInv, Painted, Links, Marked;
    var s1, s3 := Paint(s, o, Gray), Paint(s2, o, Black);
    PaintPainted(s, o, Gray);
    PaintedTrans(s, s1, s2);
    RepaintPainted(s, s2, o, Black);
    PaintedTrans(s, s3, s4);
    PaintedAt(s1, s2, o);
    PaintedAt(s3, s4, o);
    PaintMarked(s2, o, Black, s.heap[o].body.umeta);
    MarkedStays(s3, s4, s.heap[o].body.umeta);
    Release(s4, o, skip);
  }
}
