/** What the running program does between two steps of the collector, and why barriers suffice. */
module GcMutator {
  import opened Options
  import opened GcHeap
  import opened GcState
  import opened GcPaint
  import opened GcWalk
  import opened GcSettle
  import opened GcEphemeron
  import opened GcAtomic
  import opened GcComplete
  import opened GcSweep
  import opened GcPhases
  import opened GcFinalize
  import opened GcStep

  // ----- storing into an object -----------------------------------------------------------------

  predicate LiveValue(h: Heap, white: bool, v: Value) {
    v.Ptr? ==> LiveRef(h, white, v.r)
  }

  /** The same kind of object; a table keeps its mode, a string has no slots to write. */
  predicate SameKind(b: Body, b': Body) {
    match b
    case Str => false
    case Closure(_) => b'.Closure?
    case Table(mode, _, _, _) => b'.Table? && b'.mode == mode
    case Thread(_, _) => b'.Thread?
    case Udata(_, _) => b'.Udata?
  }

  /** Every pointer of `b'` was in `b` already or is one of `vs`. */
  ghost predicate Adds(b: Body, b': Body, vs: seq<Value>) {
    forall v: Value :: v.Ptr? && Holds(b', v) ==> Holds(b, v) || v in vs
  }

  /** The program may store the live values `vs` into a live object. */
  ghost predicate CanWrite(s: State, o: Ref, b: Body, vs: seq<Value>) {
    && LiveRef(s.heap, s.white, o) && SameKind(s.heap[o].body, b) && Adds(s.heap[o].body, b, vs)
    && forall v :: v in vs ==> LiveValue(s.heap, s.white, v)
  }

  /** The store itself. The bound is widened: what the program stores during a cycle is not garbage
      of that cycle. */
  ghost function Wrote(s: State, o: Ref, b: Body): State
    requires o in s.heap
  {
    SetBody(s, o, b).(bound := Everything(s.heap))
  }

  /** A black object gets no white value, and a table with weak keys and values that will not be visited
      again gets no white metatable. */
  ghost predicate NeedsNoBarrier(s: State, o: Ref, b: Body, vs: seq<Value>)
    requires o in s.heap
  {
    KeepInvariant(s.phase) ==>
      && (s.heap[o].colour.Black? ==> AllMarked(s.heap, vs))
      && (!s.heap[o].colour.White? && b.Table? && b.mode.AllWeak? ==>
            o in s.gray || o in s.grayagain || Marked(s.heap, b.meta))
  }

  lemma WriteDom(s: State, o: Ref, b: Body, vs: seq<Value>)
    requires CanWrite(s, o, b, vs)
    ensures o in s.heap
  {
  }

  lemma WriteLive(s: State, o: Ref, b: Body, vs: seq<Value>)
    requires CanWrite(s, o, b, vs) && LiveClosed(s) && LiveRoots(s)
    ensures LiveClosed(Wrote(s, o, b)) && LiveRoots(Wrote(s, o, b)) && LiveSet(Wrote(s, o, b)) == LiveSet(s)
  {
    var s' := Wrote(s, o, b);
    forall r, v | LiveRef(s'.heap, s'.white, r) && Holds(s'.heap[r].body, v) ensures Live(s', v) {
      assert LiveRef(s.heap, s.white, r);
      if r == o {
        if v.Ptr? && v !in vs { assert Live(s, v); }
        if v in vs { assert LiveValue(s.heap, s.white, v); }
      } else {
        assert Live(s, v);
      }
    }
    forall v | v in s.mt ensures Live(s', v) { assert Live(s, v); }
    assert Live(s, s.registry);
  }

  lemma WriteOwners(s: State, o: Ref, b: Body, vs: seq<Value>)
    requires CanWrite(s, o, b, vs) && OwnInv(s) && FixedOK(s) && s.mainthread in s.heap && s.heap[s.mainthread].body.Thread?
    ensures var s' := Wrote(s, o, b);
            OwnInv(s') && FixedOK(s') && s'.mainthread in s'.heap && s'.heap[s'.mainthread].body.Thread?
  {
    assert Owners(Wrote(s, o, b)) == Owners(s);
  }

  lemma WriteSwept(s: State, o: Ref, b: Body)
    requires o in s.heap && SweptSoFar(s)
    ensures SweptSoFar(Wrote(s, o, b))
  {
    var s' := Wrote(s, o, b);
    forall l | AllWhite(s, l) ensures AllWhite(s', l) { }
    hide AllWhite;
  }

  /** Outside the marking phases a store needs no care. */
  lemma WriteResting(s: State, o: Ref, b: Body, vs: seq<Value>)
    requires Inv(s) && !KeepInvariant(s.phase) && CanWrite(s, o, b, vs)
    ensures Inv(Wrote(s, o, b)) && LiveSet(Wrote(s, o, b)) == LiveSet(s)
  {
    hide LiveClosed, LiveRoots, OwnInv, FixedOK, SweptSoFar, CanWrite, LiveSet;
    WriteDom(s, o, b, vs);
    LiveInAllPhases(s);
    WriteLive(s, o, b, vs);
    WriteOwners(s, o, b, vs);
    if SweptSoFar(s) { WriteSwept(s, o, b); }
  }

  // ----- storing while marking -----------------------------------------------------------------------

  lemma WriteHeap(s: State, o: Ref, b: Body, vs: seq<Value>)
    requires HeapInv(s) && CanWrite(s, o, b, vs)
    ensures HeapInv(Wrote(s, o, b))
  {
    hide Bounded;
    WriteDangling(s, o, b, vs);
    assert Wrote(s, o, b).heap.Keys == s.heap.Keys;
    EverythingBounds(Wrote(s, o, b).heap, s.blind);
    hide NoDangling;
  }

  lemma WriteDangling(s: State, o: Ref, b: Body, vs: seq<Value>)
    requires NoDangling(s.heap) && CanWrite(s, o, b, vs)
    ensures NoDangling(Wrote(s, o, b).heap)
  {
    var s' := Wrote(s, o, b);
    forall r, v | r in s'.heap && Holds(s'.heap[r].body, v) ensures Points(s'.heap, v) {
      if r == o {
        if v.Ptr? && v !in vs { assert Holds(s.heap[o].body, v) && Points(s.heap, v); }
        if v in vs { assert LiveValue(s.heap, s.white, v); }
      } else {
        assert Points(s.heap, v);
      }
    }
  }

  /** The whole heap is closed. */
  lemma AllClosed(h: Heap)
    requires NoDangling(h)
    ensures Closed(h, h.Keys, true)
  {
    forall r | r in h ensures ClosedAt(h, h.Keys, h[r].body, true) {
      var b := h[r].body;
      forall v | StrongHolds(b, v) || EntryHolds(b, v) ensures In(h.Keys, v) {
        HeldSomewhere(b, v);
        assert Points(h, v);
      }
      if b.Table? {
        forall n | n in b.nodes ensures In(h.Keys, n.key) && In(h.Keys, n.val) {
          assert Holds(b, n.key) && Holds(b, n.val);
          assert Points(h, n.key) && Points(h, n.val);
        }
      }
    }
  }

  /** The whole heap bounds any marking. */
  lemma EverythingBounds(h: Heap, blind: set<Ref>)
    requires NoDangling(h)
    ensures Bounded(h, blind, Everything(h))
  {
    hide Closed, NoDangling;
    SeenDangling(h, blind);
    SeenSame(h, blind);
    AllClosed(SeenHeap(h, blind));
  }

  lemma WriteLists(s: State, o: Ref, b: Body, vs: seq<Value>)
    requires ListInv(s) && CanWrite(s, o, b, vs)
    ensures ListInv(Wrote(s, o, b)) && Links(Wrote(s, o, b)) == Links(s)
  {
    var s' := Wrote(s, o, b);
    assert Links(s') == Links(s);
    assert Visitable(s.heap[o].body) ==> Visitable(b);
  }

  lemma WriteCovers(s: State, o: Ref, b: Body, vs: seq<Value>)
    requires CoverInv(s, {}) && CanWrite(s, o, b, vs)
    ensures CoverInv(Wrote(s, o, b), {o})
  {
    var s' := Wrote(s, o, b);
    assert s'.heap.Keys == s.heap.Keys;
    assert forall v :: Marked(s.heap, v) == Marked(s'.heap, v);
    assert forall v :: IsString(s.heap, v) == IsString(s'.heap, v);
    forall r | r in s'.heap && !s'.heap[r].colour.White? && r !in {o} ensures Covered(s', r) {
      assert Covered(s, r);
    }
  }

  /** Right after a store during marking, only the object stored into may be out of order. */
  lemma WriteMark(s: State, o: Ref, b: Body, vs: seq<Value>)
    requires MarkInv(s, {}) && CanWrite(s, o, b, vs)
    ensures MarkInv(Wrote(s, o, b), {o}) && Links(Wrote(s, o, b)) == Links(s)
  {
    hide HeapInv, ListInv, CoverInv, CanWrite;
    WriteHeap(s, o, b, vs);
    WriteLists(s, o, b, vs);
    WriteCovers(s, o, b, vs);
  }

  /** When no barrier is needed, the object is still in order. */
  lemma WriteCovered(s: State, s': State, o: Ref, b: Body, vs: seq<Value>)
    requires MarkPhaseInv(s) && KeepInvariant(s.phase) && CanWrite(s, o, b, vs) && !s.heap[o].colour.White?
    requires s'.gray == s.gray && s'.grayagain == s.grayagain && s'.allweak == s.allweak && s'.phase == s.phase
    requires s.blind == {}
    requires s.heap.Keys == s'.heap.Keys && Darker(s.heap, s'.heap) && s'.heap[o] == Obj(s.heap[o].colour, b)
    requires s.heap[o].colour.Black? ==> AllMarked(s'.heap, vs)
    requires b.Table? && b.mode.AllWeak? ==> o in s.gray || o in s.grayagain || Marked(s'.heap, b.meta)
    ensures Covered(s', o)
  {
    assert Covered(s, o);
    if s.heap[o].colour.Black? && Settled(s, o) {
      assert Full(s'.heap, b) by {
        forall v | Holds(b, v) ensures Marked(s'.heap, v) {
          if v.Ptr? && v !in vs { assert Holds(s.heap[o].body, v) && Marked(s.heap, v); }
        }
      }
    }
  }

  lemma WriteRoots(s: State, o: Ref, b: Body, vs: seq<Value>)
    requires RootsOK(s) && StartMarked(s) && CanWrite(s, o, b, vs)
    ensures RootsOK(Wrote(s, o, b)) && StartMarked(Wrote(s, o, b))
  {
  }

  lemma SkipNone(s: State, o: Ref)
    requires MarkInv(s, {o}) && (o in s.heap && !s.heap[o].colour.White? ==> Covered(s, o))
    ensures MarkInv(s, {})
  {
    hide HeapInv, ListInv, Covered;
  }

  lemma MarkPhaseIs(s: State)
    requires Inv(s) && KeepInvariant(s.phase)
    ensures MarkPhaseInv(s) && OwnInv(s) && FixedOK(s) && s.mainthread in s.heap && s.heap[s.mainthread].body.Thread?
    ensures (s.tobefnz != [] ==> s.finnum > 0) && s.blind == {}
  {
  }

  lemma IsMarkPhase(s: State)
    requires s.blind == {} && MarkPhaseInv(s) && OwnInv(s) && FixedOK(s) && s.mainthread in s.heap && s.heap[s.mainthread].body.Thread?
    requires (s.tobefnz != [] ==> s.finnum > 0) && KeepInvariant(s.phase)
    ensures Inv(s)
  {
    hide MarkPhaseInv, OwnInv, FixedOK;
  }

  /** A store that needs no barrier keeps the invariant. */
  lemma StoredPlain(s: State, o: Ref, b: Body, vs: seq<Value>)
    requires Inv(s) && CanWrite(s, o, b, vs) && NeedsNoBarrier(s, o, b, vs)
    ensures Inv(Wrote(s, o, b)) && LiveSet(Wrote(s, o, b)) == LiveSet(s)
  {
    hide Inv, CanWrite, MarkInv, LiveSet, Covered, OwnInv, FixedOK, RootsOK, StartMarked, LiveClosed, LiveRoots, Wrote;
    WriteDom(s, o, b, vs);
    if !KeepInvariant(s.phase) {
      WriteResting(s, o, b, vs);
    } else {
      MarkPhaseIs(s);
      LiveInAllPhases(s);
      WriteLive(s, o, b, vs);
      var s' := Wrote(s, o, b);
      WriteMark(s, o, b, vs);
      WriteShape(s, o, b, vs);
      if !s.heap[o].colour.White? { WriteCovered(s, s', o, b, vs); }
      SkipNone(s', o);
      WriteRoots(s, o, b, vs);
      WriteOwners(s, o, b, vs);
      IsMarkPhase(s');
    }
  }

  lemma WriteShape(s: State, o: Ref, b: Body, vs: seq<Value>)
    requires CanWrite(s, o, b, vs)
    ensures var s' := Wrote(s, o, b);
            && s' == s.(heap := s'.heap, bound := s'.bound) && s'.heap.Keys == s.heap.Keys && Darker(s.heap, s'.heap)
            && o in s.heap && s'.heap[o] == Obj(s.heap[o].colour, b) && s'.bound == Everything(s.heap)
            && (forall v :: Marked(s'.heap, v) == Marked(s.heap, v))
  {
  }

  // ----- the backward barrier ----------------------------------------------------------------------------

  /** `luaC_barrierback_`: the table turns gray and is linked for the atomic phase to visit again. */
  ghost function BarredBack(s: State, o: Ref): State
    requires o in s.heap
  {
    Paint(s, o, Gray).(grayagain := [o] + s.grayagain)
  }

  lemma BlackUnlinked(s: State, o: Ref)
    requires MarkInv(s, {o}) && o in s.heap && s.heap[o].colour.Black?
    ensures o !in Links(s)
  {
  }

  lemma BackMark(s: State, o: Ref, b: Body, vs: seq<Value>)
    requires s.blind == {} && MarkPhaseInv(s) && KeepInvariant(s.phase) && CanWrite(s, o, b, vs)
    requires s.heap[o].colour.Black? && b.Table?
    ensures MarkInv(BarredBack(Wrote(s, o, b), o), {})
  {
    hide MarkInv, CanWrite, Grew, Links;
    WriteDom(s, o, b, vs);
    var w := Wrote(s, o, b);
    WriteMark(s, o, b, vs);
    WriteShape(s, o, b, vs);
    BlackUnlinked(w, o);
    BlackNotAllWeak(s, o, b, vs);
    WalkStart(w, o, {o});
    WalkBlacken(w, w, o, Gray);
    LinkAgain(w, Paint(w, o, Gray), o);
  }

  lemma BlackNotAllWeak(s: State, o: Ref, b: Body, vs: seq<Value>)
    requires s.blind == {} && MarkPhaseInv(s) && KeepInvariant(s.phase) && CanWrite(s, o, b, vs) && s.heap[o].colour.Black?
    ensures !AllWeakTable(b)
  {
    BlackUnlinked2(s, o);
    CoveredAt(s, o);
    hide MarkInv, Full, KeysMarked, ArrMarked, ValsMarked, StringKeys;
  }

  /** Turning a live object gray. */
  lemma GrayLive(s: State, o: Ref)
    requires LiveRef(s.heap, s.white, o)
    ensures var s' := BarredBack(s, o);
            LiveSet(s') == LiveSet(s) && (LiveClosed(s) ==> LiveClosed(s')) && (LiveRoots(s) ==> LiveRoots(s'))
  {
    var s' := BarredBack(s, o);
    if LiveClosed(s) {
      forall r, v | LiveRef(s'.heap, s'.white, r) && Holds(s'.heap[r].body, v) ensures Live(s', v) {
        assert LiveRef(s.heap, s.white, r);
        assert Live(s, v);
      }
    }
    if LiveRoots(s) {
      forall v | v in s.mt ensures Live(s', v) { assert Live(s, v); }
    }
  }

  lemma GrayOwners(s: State, o: Ref)
    requires o in s.heap && !s.heap[o].body.Str?
    ensures var s' := BarredBack(s, o);
            && (OwnInv(s) ==> OwnInv(s')) && (FixedOK(s) ==> FixedOK(s'))
            && (StartMarked(s) && !s.heap[o].colour.White? ==> StartMarked(s')) && (RootsOK(s) ==> RootsOK(s'))
  {
    assert Owners(BarredBack(s, o)) == Owners(s);
  }

  lemma GraySwept(s: State, o: Ref)
    requires o in s.heap && s.heap[o].colour.Black? && SweptSoFar(s)
    ensures SweptSoFar(BarredBack(s, o))
  {
    var s' := BarredBack(s, o);
    forall l | AllWhite(s, l) ensures AllWhite(s', l) {
      assert forall r :: r in l ==> r != o;
    }
    hide AllWhite;
  }

  lemma RestingWhite(s: State, o: Ref)
    requires Inv(s) && (s.phase.CallFin? || s.phase.Pause?) && o in s.heap && !s.heap[o].body.Str?
    ensures s.heap[o].colour.White?
  {
  }

  /** With the backward barrier, any store into a black table keeps the invariant. */
  lemma StoredBack(s: State, o: Ref, b: Body, vs: seq<Value>)
    requires Inv(s) && CanWrite(s, o, b, vs) && s.heap[o].colour.Black? && b.Table?
    ensures Inv(BarredBack(Wrote(s, o, b), o)) && LiveSet(BarredBack(Wrote(s, o, b), o)) == LiveSet(s)
  {
    hide Inv, CanWrite, MarkInv, LiveSet, Covered, OwnInv, FixedOK, RootsOK, StartMarked, LiveClosed, LiveRoots, Wrote, SweptSoFar;
    WriteDom(s, o, b, vs);
    var w := Wrote(s, o, b);
    WriteShape(s, o, b, vs);
    var s' := BarredBack(w, o);
    LiveInAllPhases(s);
    WriteLive(s, o, b, vs);
    WriteKind(s, o, b, vs);
    GrayLive(w, o);
    GrayOwners(w, o);
    if KeepInvariant(s.phase) {
      MarkPhaseIs(s);
      BackMark(s, o, b, vs);
      WriteRoots(s, o, b, vs);
      WriteOwners(s, o, b, vs);
      IsMarkPhase(s');
    } else {
      WriteResting(s, o, b, vs);
      if s.phase.CallFin? || s.phase.Pause? { RestingWhite(s, o); }
      BackSweep(w, o);
    }
  }

  lemma WriteKind(s: State, o: Ref, b: Body, vs: seq<Value>)
    requires CanWrite(s, o, b, vs)
    ensures LiveRef(s.heap, s.white, o) && !s.heap[o].body.Str? && !b.Str? && (b.Table? ==> s.heap[o].body.Table?)
    ensures LiveRef(Wrote(s, o, b).heap, s.white, o)
  {
  }

  lemma BackSweep(s: State, o: Ref)
    requires Inv(s) && !KeepInvariant(s.phase) && !s.phase.CallFin? && !s.phase.Pause?
    requires LiveRef(s.heap, s.white, o) && !s.heap[o].body.Str? && s.heap[o].colour.Black?
    ensures Inv(BarredBack(s, o))
  {
    GrayLive(s, o);
    GrayOwners(s, o);
    GraySwept(s, o);
    hide LiveClosed, LiveRoots, OwnInv, FixedOK, SweptSoFar, LiveSet;
  }

  // ----- the forward barrier -----------------------------------------------------------------------------------

  /** Marking the stored value restores order at the black object that holds it. */
  lemma StoredForward(s: State, s': State, o: Ref, b: Body, v: Value)
    requires Inv(s) && KeepInvariant(s.phase) && CanWrite(s, o, b, [v]) && s.heap[o].colour.Black?
    requires Painted(Wrote(s, o, b), s') && MarkInv(s', {o}) && Marked(s'.heap, v)
    requires s'.grayagain == s.grayagain
    ensures Inv(s') && LiveSet(s') == LiveSet(s)
  {
    hide Inv, CanWrite, MarkInv, LiveSet, Covered, OwnInv, FixedOK, RootsOK, StartMarked, LiveClosed, LiveRoots, Wrote, Painted;
    WriteDom(s, o, b, [v]);
    var w := Wrote(s, o, b);
    MarkPhaseIs(s);
    LiveInAllPhases(s);
    WriteLive(s, o, b, [v]);
    WriteShape(s, o, b, [v]);
    WriteRoots(s, o, b, [v]);
    WriteOwners(s, o, b, [v]);
    PaintedRan(w, s');
    RanOwners(w, s');
    RanKeeps(w, s');
    BlackStays(w, s', o);
    assert Covered(s', o) by { ForwardCovered(s, s', o, b, v); }
    SkipNone(s', o);
    RanFacts(w, s');
    IsMarkPhase(s');
    assert NoneDead(s') by { MarkHeap(s'); }
    MarkHeap(s);
    LiveAll(s);
    LiveAll(s');
  }

  lemma RanFacts(s: State, s': State)
    requires Painted(s, s')
    ensures s'.phase == s.phase && s'.held == s.held && s'.stopped == s.stopped && s'.sweep == s.sweep && s'.blind == s.blind
    ensures s.gray != [] ==> s'.gray != []
    ensures s'.heap.Keys == s.heap.Keys
  {
    hide WhiteSet, Links;
  }

  lemma BlackStays(s: State, s': State, o: Ref)
    requires Painted(s, s') && o in s.heap && s.heap[o].colour.Black?
    ensures o in s'.heap && s'.heap[o] == s.heap[o]
  {
    hide WhiteSet, Links;
  }

  lemma ForwardCovered(s: State, s': State, o: Ref, b: Body, v: Value)
    requires s.blind == {} && MarkPhaseInv(s) && KeepInvariant(s.phase) && CanWrite(s, o, b, [v]) && s.heap[o].colour.Black?
    requires Painted(Wrote(s, o, b), s') && Marked(s'.heap, v)
    ensures Covered(s', o)
  {
    hide Painted, CanWrite;
    WriteDom(s, o, b, [v]);
    WriteShape(s, o, b, [v]);
    WriteAdds(s, o, b, [v]);
    CoveredAt(s, o);
    BlackUnlinked2(s, o) by { MarkInvLists(s); }
    PaintedDark(Wrote(s, o, b), s');
    BlackStays(Wrote(s, o, b), s', o);
    hide MarkInv;
    BlackSettled(s, s', o, b, v);
  }

  lemma WriteAdds(s: State, o: Ref, b: Body, vs: seq<Value>)
    requires CanWrite(s, o, b, vs)
    ensures o in s.heap && Adds(s.heap[o].body, b, vs) && SameKind(s.heap[o].body, b)
  {
  }

  lemma PaintedDark(s: State, s': State)
    requires Painted(s, s')
    ensures Darker(s.heap, s'.heap)
  {
    hide WhiteSet, Links;
  }

  lemma BlackSettled(s: State, s': State, o: Ref, b: Body, v: Value)
    requires o in s.heap && Settled(s, o) && s.heap[o].colour.Black? && SameKind(s.heap[o].body, b) && Adds(s.heap[o].body, b, [v])
    requires forall u :: Marked(s.heap, u) ==> Marked(s'.heap, u)
    requires Marked(s'.heap, v) && o in s'.heap && s'.heap[o] == Obj(Black, b)
    ensures Settled(s', o)
  {
    hide Marked;
    assert Full(s'.heap, b) by {
      forall u | Holds(b, u) ensures Marked(s'.heap, u) {
        if u.Ptr? && u != v { assert Holds(s.heap[o].body, u) && Marked(s.heap, u); }
        if !u.Ptr? { PlainMarked(s'.heap, u); }
      }
    }
  }

  lemma PlainMarked(h: Heap, u: Value)
    requires !u.Ptr?
    ensures Marked(h, u)
  {
  }

  lemma BlackUnlinked2(s: State, o: Ref)
    requires ListInv(s) && o in s.heap && s.heap[o].colour.Black?
    ensures o !in s.gray && o !in s.held && (!s.phase.InsideAtomic? ==> o !in s.grayagain)
  {
    assert o !in Links(s);
  }

  /** While sweeping, the forward barrier turns the object white: it counts as swept. */
  lemma StoredWhite(s: State, o: Ref, b: Body, vs: seq<Value>)
    requires Inv(s) && !KeepInvariant(s.phase) && CanWrite(s, o, b, vs)
    ensures o in s.heap && Inv(Whitened(Wrote(s, o, b), o)) && LiveSet(Whitened(Wrote(s, o, b), o)) == LiveSet(s)
  {
    hide CanWrite, Wrote, Inv;
    WriteKind(s, o, b, vs);
    WriteShape(s, o, b, vs);
    WriteResting(s, o, b, vs);
    var w := Wrote(s, o, b);
    NotFixed(w, o);
    WhitenInv(w, o);
    WhitenedLive(w, o);
  }

  lemma NotFixed(s: State, o: Ref)
    requires Inv(s) && o in s.heap && !s.heap[o].body.Str?
    ensures o !in s.fixedgc
  {
  }

  lemma WhitenInv(s: State, o: Ref)
    requires Inv(s) && !KeepInvariant(s.phase) && o in s.heap && o !in s.fixedgc
    requires LiveRef(s.heap, s.white, o) || s.heap[o].body.Str?
    ensures Inv(Whitened(s, o))
  {
    hide LiveClosed, LiveRoots, AllWhite, OwnInv, FixedOK;
    var s' := Whitened(s, o);
    WhitenedLive(s, o);
    WhitenOwners(s, o);
  }

  lemma WhitenOwners(s: State, o: Ref)
    requires o in s.heap && o !in s.fixedgc && OwnInv(s) && FixedOK(s)
    ensures OwnInv(Whitened(s, o)) && FixedOK(Whitened(s, o))
  {
    assert Owners(Whitened(s, o)) == Owners(s);
  }

  lemma MarkInvLists(s: State)
    requires MarkInv(s, {})
    ensures ListInv(s)
  {
  }

  lemma CoveredAt(s: State, o: Ref)
    requires MarkPhaseInv(s) && o in s.heap && !s.heap[o].colour.White?
    ensures Covered(s, o)
  {
  }
}
