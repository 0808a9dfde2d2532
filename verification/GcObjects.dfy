/** New objects, fixed strings, objects with finalizers, and roots, in any phase. */
module GcObjects {
  import opened Options
  import opened GcHeap
  import opened GcState
  import opened GcPaint
  import opened GcWalk
  import opened GcSettle
  import opened GcEphemeron
  import opened GcAtomic
  import opened GcComplete
  import opened GcSweep
  import opened GcPhases
  import opened GcFinalize
  import opened GcStep
  import opened GcMutator

  // ----- the bound -----------------------------------------------------------------------------------------------

  /** The bound may be widened to the whole heap at any time. */
  lemma WidenInv(s: State)
    requires Inv(s)
    ensures Inv(s.(bound := Everything(s.heap))) && LiveSet(s.(bound := Everything(s.heap))) == LiveSet(s)
  {
    hide LiveClosed, LiveRoots, OwnInv, FixedOK, SweptSoFar, MarkInv, RootsOK, StartMarked;
    var s' := s.(bound := Everything(s.heap));
    SameButBound(s, s');
    if KeepInvariant(s.phase) {
      WidenMark(s);
    }
  }

  lemma SameButBound(s: State, s': State)
    requires s' == s.(bound := s'.bound)
    ensures OwnInv(s) ==> OwnInv(s')
    ensures LiveClosed(s) ==> LiveClosed(s')
    ensures LiveRoots(s) ==> LiveRoots(s')
    ensures SweptSoFar(s) ==> SweptSoFar(s')
    ensures FixedOK(s) ==> FixedOK(s')
    ensures StartMarked(s) ==> StartMarked(s')
  {
    assert Owners(s') == Owners(s);
    if LiveClosed(s) {
      forall r, v | LiveRef(s'.heap, s'.white, r) && Holds(s'.heap[r].body, v) ensures Live(s', v) {
        assert Live(s, v);
      }
    }
    if LiveRoots(s) {
      forall v | v in s.mt ensures Live(s', v) { assert Live(s, v); }
    }
    forall l | AllWhite(s, l) ensures AllWhite(s', l) { }
    hide AllWhite, LiveClosed, LiveRoots, OwnInv;
  }

  lemma WidenMark(s: State)
    requires MarkInv(s, {}) && RootsOK(s)
    ensures MarkInv(s.(bound := Everything(s.heap)), {}) && RootsOK(s.(bound := Everything(s.heap)))
  {
    hide Closed, NoDangling;
    EverythingBounds(s.heap, s.blind);
    RelistedMark(s, s.(bound := Everything(s.heap)), {});
    WidenRoots(s);
  }

  lemma WidenRoots(s: State)
    requires RootsOK(s)
    ensures RootsOK(s.(bound := Everything(s.heap)))
  {
  }

  // ----- new objects ------------------------------------------------------------------------------------------------

  /** No pointer in it yet. */
  ghost predicate Blank(b: Body) {
    forall v :: Holds(b, v) ==> !v.Ptr?
  }

  /** `luaC_newobj`. */
  ghost function Created(s: State, r: Ref, b: Body): State {
    s.(heap := s.heap[r := Obj(White(s.white), b)], allgc := [r] + s.allgc, bound := Everything(s.heap[r := Obj(White(s.white), b)]),
       sweep := if s.phase.SwpAllGc? && s.sweep.Some? && s.sweep.value > 0 then Some(s.sweep.value + 1) else s.sweep)
  }

  lemma CreatedOwners(s: State, r: Ref, b: Body)
    requires OwnInv(s) && FixedOK(s) && r !in s.heap && s.mainthread in s.heap
    ensures OwnInv(Created(s, r, b)) && FixedOK(Created(s, r, b))
  {
    forall q ensures Owners(Created(s, r, b))[q] == Owners(s)[q] + (if q == r then 1 else 0) {
      assert multiset([r] + s.allgc) == multiset{r} + multiset(s.allgc);
    }
  }

  lemma CreatedLive(s: State, r: Ref, b: Body)
    requires LiveClosed(s) && LiveRoots(s) && r !in s.heap && Blank(b)
    ensures var s' := Created(s, r, b);
            && LiveClosed(s') && LiveRoots(s') && LiveSet(s') == LiveSet(s) + {r}
            && (forall l :: AllWhite(s, l) ==> AllWhite(s', l)) && AllWhite(s', [r])
  {
    var s' := Created(s, r, b);
    forall v | Live(s, v) ensures Live(s', v) { }
    forall q, v | LiveRef(s'.heap, s'.white, q) && Holds(s'.heap[q].body, v) ensures Live(s', v) {
      if q != r {
        assert LiveRef(s.heap, s.white, q);
        assert Live(s, v);
      }
    }
    forall v | v in s.mt ensures Live(s', v) { assert Live(s, v); }
    forall l | AllWhite(s, l) ensures AllWhite(s', l) { }
  }

  lemma CreatedSwept(s: State, r: Ref, b: Body)
    requires SweptSoFar(s) && LiveClosed(s) && LiveRoots(s) && r !in s.heap && Blank(b)
    ensures SweptSoFar(Created(s, r, b))
  {
    var s' := Created(s, r, b);
    CreatedLive(s, r, b);
    hide AllWhite, LiveClosed, LiveRoots;
    if s.phase.SwpAllGc? && s.sweep.Some? {
      var i := s.sweep.value;
      AllWhitePlus(s', [r], s.allgc[..i]);
      assert s'.allgc[..i + 1] == [r] + s.allgc[..i];
      assert s'.allgc[..0] == s.allgc[..0];
    } else if AllWhite(s, s.allgc) {
      AllWhitePlus(s', [r], s.allgc);
    }
  }

  lemma CreatedMark(s: State, r: Ref, b: Body)
    requires MarkPhaseInv(s) && r !in s.heap && Blank(b) && KeepInvariant(s.phase)
    ensures MarkPhaseInv(Created(s, r, b))
  {
    hide HeapInv, ListInv, CoverInv, RootsOK, StartMarked, Blank;
    CreatedHeap(s, r, b);
    CreatedLists(s, r, b);
    CreatedCovers(s, r, b) by { DanglingFree(s); }
    CreatedRoots(s, r, b);
  }

  lemma DanglingFree(s: State)
    requires HeapInv(s)
    ensures NoDangling(s.heap)
  {
  }

  lemma CreatedLists(s: State, r: Ref, b: Body)
    requires ListInv(s) && r !in s.heap
    ensures ListInv(Created(s, r, b))
  {
    CreatedKinds(s, r, b);
    hide KindsOK;
    assert Links(Created(s, r, b)) == Links(s);
  }

  lemma CreatedKinds(s: State, r: Ref, b: Body)
    requires KindsOK(s) && r !in s.heap
    ensures KindsOK(Created(s, r, b))
  {
    hide Visitable;
  }

  lemma CreatedRoots(s: State, r: Ref, b: Body)
    requires RootsOK(s) && StartMarked(s) && r !in s.heap
    ensures RootsOK(Created(s, r, b)) && StartMarked(Created(s, r, b))
  {
  }

  lemma CreatedHeap(s: State, r: Ref, b: Body)
    requires HeapInv(s) && r !in s.heap && Blank(b)
    ensures HeapInv(Created(s, r, b))
  {
    var s' := Created(s, r, b);
    forall q, v | q in s'.heap && Holds(s'.heap[q].body, v) ensures Points(s'.heap, v) {
      if q != r { assert Points(s.heap, v); }
    }
    EverythingBounds(s'.heap, s'.blind);
    assert s'.bound == Everything(s'.heap);
  }

  lemma CreatedCovers(s: State, r: Ref, b: Body)
    requires CoverInv(s, {}) && NoDangling(s.heap) && r !in s.heap
    ensures CoverInv(Created(s, r, b), {})
  {
    var s' := Created(s, r, b);
    forall q | q in s'.heap && !s'.heap[q].colour.White? && q !in {} ensures Covered(s', q) {
      assert Covered(s, q);
      if Settled(s, q) { SettledCreated(s, s', q, r); }
    }
  }

  lemma SettledCreated(s: State, s': State, q: Ref, r: Ref)
    requires q in s.heap && q in s'.heap && s'.heap[q] == s.heap[q] && Settled(s, q) && NoDangling(s.heap) && r !in s.heap
    requires s' == s.(heap := s'.heap, bound := s'.bound, allgc := s'.allgc, sweep := s'.sweep)
    requires r in s'.heap && s'.heap[r].colour.White? && forall x :: x in s.heap ==> x in s'.heap && s'.heap[x] == s.heap[x]
    ensures Settled(s', q)
  {
    var b := s.heap[q].body;
    forall v | Holds(b, v) ensures Marked(s.heap, v) == Marked(s'.heap, v) ensures IsString(s.heap, v) == IsString(s'.heap, v) {
      assert Points(s.heap, v);
    }
    if b.Table? {
      assert Holds(b, b.meta);
      forall v | v in b.arr ensures Holds(b, v) { }
      forall n | n in b.nodes ensures Holds(b, n.key) && Holds(b, n.val) { }
    }
    hide Marked, IsString, NoDangling;
  }

  /** A new object is white and at the head of `allgc`: allocation keeps the invariant in every phase. */
  lemma CreatedInv(s: State, r: Ref, b: Body)
    requires Inv(s) && r !in s.heap && Blank(b)
    ensures Inv(Created(s, r, b)) && LiveSet(Created(s, r, b)) == LiveSet(s) + {r}
  {
    hide LiveClosed, LiveRoots, OwnInv, FixedOK, SweptSoFar, MarkPhaseInv, LiveSet;
    LiveInAllPhases(s);
    CreatedOwners(s, r, b);
    CreatedLive(s, r, b);
    if KeepInvariant(s.phase) { CreatedMark(s, r, b); }
    if SweptSoFar(s) { CreatedSwept(s, r, b); }
  }

  // ----- fixed strings ------------------------------------------------------------------------------------------------

  /** `luaC_fix`: the first object of `allgc` becomes gray for ever and moves to `fixedgc`. */
  ghost function Fixed(s: State): State
    requires s.allgc != [] && s.allgc[0] in s.heap
  {
    var o := s.allgc[0];
    s.(heap := s.heap[o := s.heap[o].(colour := if s.heap[o].colour.White? then Gray else s.heap[o].colour)],
       allgc := s.allgc[1..], fixedgc := [o] + s.fixedgc, bound := Everything(s.heap),
       sweep := if s.phase.SwpAllGc? && s.sweep.Some? && s.sweep.value > 0 then Some(s.sweep.value - 1) else s.sweep)
  }

  ghost predicate CanFix(s: State) {
    && s.allgc != [] && LiveRef(s.heap, s.white, s.allgc[0]) && s.heap[s.allgc[0]].body.Str?
    && !(s.phase.SwpAllGc? && s.sweep == Some(1))
  }

  lemma FirstThere(s: State)
    requires Inv(s) && s.allgc != []
    ensures s.allgc[0] in s.heap
  {
    assert multiset(s.allgc)[s.allgc[0]] > 0;
  }

  lemma FixedOwners(s: State)
    requires OwnInv(s) && FixedOK(s) && CanFix(s) && s.mainthread in s.heap && s.heap[s.mainthread].body.Thread?
    ensures var s' := Fixed(s); OwnInv(s') && FixedOK(s') && s'.mainthread in s'.heap && s'.heap[s'.mainthread].body.Thread?
  {
    forall q ensures Owners(Fixed(s))[q] == Owners(s)[q] {
      MoveCount(s.allgc, s.fixedgc, q);
    }
    hide Owners;
  }

  lemma FixedLive(s: State)
    requires LiveClosed(s) && LiveRoots(s) && CanFix(s)
    ensures var s' := Fixed(s); LiveClosed(s') && LiveRoots(s') && LiveSet(s') == LiveSet(s)
  {
    var s' := Fixed(s);
    forall q, v | LiveRef(s'.heap, s'.white, q) && Holds(s'.heap[q].body, v) ensures Live(s', v) {
      assert LiveRef(s.heap, s.white, q);
      assert Live(s, v);
    }
    forall v | v in s.mt ensures Live(s', v) { assert Live(s, v); }
  }

  lemma FixedSwept(s: State)
    requires OwnInv(s) && SweptSoFar(s) && CanFix(s)
    ensures SweptSoFar(Fixed(s))
  {
    var s', o := Fixed(s), s.allgc[0];
    OwnedOnce(s, s.allgc);
    NotElsewhere(s, o);
    assert forall r :: r in s.allgc[1..] ==> r != o;
    hide AllWhite, OwnInv;
    if s.phase.SwpAllGc? {
      if s.sweep.Some? {
        var i := s.sweep.value;
        if i > 0 {
          FixedPart(s, s.allgc[..i], s'.allgc[..i - 1]);
        } else {
          assert s.allgc[..0] == s'.allgc[..0];
        }
      } else {
        FixedPart(s, s.allgc, s.allgc[1..]);
      }
    } else if IsSweepPhase(s.phase) {
      FixedPart(s, s.allgc, s.allgc[1..]);
    }
  }

  lemma FixedPart(s: State, l: seq<Ref>, l': seq<Ref>)
    requires CanFix(s) && AllWhite(s, l) && (forall r :: r in l' ==> r in l && r != s.allgc[0])
    ensures AllWhite(Fixed(s), l')
  {
    AllWhitePart(s, l, l');
  }

  lemma NotElsewhere(s: State, o: Ref)
    requires OwnInv(s) && o in s.allgc
    ensures o !in s.finobj && o !in s.tobefnz && o !in s.fixedgc && o != s.mainthread
  {
    assert Owners(s)[o] <= 1;
    assert multiset(s.allgc)[o] >= 1;
    assert o in s.finobj ==> multiset(s.finobj)[o] >= 1;
    assert o in s.tobefnz ==> multiset(s.tobefnz)[o] >= 1;
    assert o in s.fixedgc ==> multiset(s.fixedgc)[o] >= 1;
  }

  lemma FixedMark(s: State)
    requires MarkPhaseInv(s) && CanFix(s) && KeepInvariant(s.phase)
    ensures MarkPhaseInv(Fixed(s))
  {
    hide MarkInv, RootsOK, StartMarked;
    var s', o := Fixed(s), s.allgc[0];
    WidenMark(s);
    var w := s.(bound := Everything(s.heap));
    var p := Paint(w, o, if s.heap[o].colour.White? then Gray else s.heap[o].colour);
    FixedPaint(w, o, p);
    assert MarkFields(p, s');
    OwnersInv(p, s', {});
    FixedRoots(s);
  }

  lemma FixedRoots(s: State)
    requires RootsOK(s) && StartMarked(s) && CanFix(s)
    ensures RootsOK(Fixed(s)) && StartMarked(Fixed(s))
  {
  }

  lemma FixedPaint(s: State, o: Ref, p: State)
    requires MarkInv(s, {}) && o in s.heap && s.heap[o].body.Str? && o in s.bound.now
    requires p == Paint(s, o, if s.heap[o].colour.White? then Gray else s.heap[o].colour)
    ensures MarkInv(p, {})
  {
    hide MarkInv;
    var c := if s.heap[o].colour.White? then Gray else s.heap[o].colour;
    if s.heap[o].colour.White? {
      StringPaint(s, o);
    } else {
      assert p == s;
    }
  }

  lemma StringPaint(s: State, o: Ref)
    requires MarkInv(s, {}) && o in s.heap && s.heap[o].body.Str? && o in s.bound.now && s.heap[o].colour.White?
    ensures MarkInv(Paint(s, o, Gray), {})
  {
    hide HeapInv, ListInv, CoverInv;
    PaintHeap(s, o, Gray);
    StringCovers(s, o);
    StringLists(s, o);
  }

  lemma StringCovers(s: State, o: Ref)
    requires CoverInv(s, {}) && o in s.heap && s.heap[o].body.Str?
    ensures CoverInv(Paint(s, o, Gray), {})
  {
    var p := Paint(s, o, Gray);
    PaintCovers(s, p, o, Gray, {});
    assert Settled(p, o);
    hide Settled;
    assert {} + {o} == {o};
  }

  lemma StringLists(s: State, o: Ref)
    requires ListInv(s) && o in s.heap
    ensures ListInv(Paint(s, o, Gray))
  {
    assert Links(Paint(s, o, Gray)) == Links(s);
  }

  /** Fixing keeps the invariant, unless the sweep stands right behind the object that moves. */
  lemma FixedInv(s: State)
    requires Inv(s) && CanFix(s)
    ensures Inv(Fixed(s)) && LiveSet(Fixed(s)) == LiveSet(s)
  {
    hide LiveClosed, LiveRoots, OwnInv, FixedOK, SweptSoFar, MarkPhaseInv, LiveSet;
    LiveInAllPhases(s);
    FixedOwners(s);
    FixedLive(s);
    if KeepInvariant(s.phase) { FixedMark(s); }
    if SweptSoFar(s) { FixedSwept(s); }
  }

  // ----- objects with finalizers ----------------------------------------------------------------------------------------

  /** `luaC_checkfinalizer` moves the object at `i` from `allgc` to `finobj`. */
  ghost function MovedToFin(s: State, i: nat): State
    requires i < |s.allgc|
  {
    s.(allgc := s.allgc[..i] + s.allgc[i + 1..], finobj := [s.allgc[i]] + s.finobj, bound := Everything(s.heap),
       sweep := MovedSweep(s.phase, s.sweep, i))
  }

  /** The sweep position stays behind the elements it has passed. */
  function MovedSweep(p: Phase, sweep: Option<nat>, i: nat): Option<nat> {
    match sweep
    case None => None
    case Some(k) => if p.SwpAllGc? && k > i then Some(k - 1) else if p.SwpFinObj? && k > 0 then Some(k + 1) else sweep
  }

  ghost predicate CanMove(s: State, i: nat) {
    && i < |s.allgc| && LiveRef(s.heap, s.white, s.allgc[i]) && !s.heap[s.allgc[i]].body.Str?
    && (IsSweepPhase(s.phase) ==> s.heap[s.allgc[i]].colour == White(s.white))
    && !(s.phase.SwpAllGc? && s.sweep == Some(i + 1))
  }

  lemma MovedOwners(s: State, i: nat)
    requires OwnInv(s) && i < |s.allgc|
    ensures OwnInv(MovedToFin(s, i))
  {
    assert s.allgc == s.allgc[..i] + [s.allgc[i]] + s.allgc[i + 1..];
    forall q ensures Owners(MovedToFin(s, i))[q] == Owners(s)[q] {
      assert multiset(s.allgc) == multiset(s.allgc[..i]) + multiset{s.allgc[i]} + multiset(s.allgc[i + 1..]);
      assert multiset([s.allgc[i]] + s.finobj) == multiset{s.allgc[i]} + multiset(s.finobj);
    }
  }

  lemma MovedSwept(s: State, i: nat)
    requires SweptSoFar(s) && CanMove(s, i) && IsSweepPhase(s.phase)
    ensures SweptSoFar(MovedToFin(s, i))
  {
    var s', o := MovedToFin(s, i), s.allgc[i];
    forall l | AllWhite(s, l) ensures AllWhite(s', l) { }
    assert AllWhite(s', [o]);
    var l, l' := s.allgc, s'.allgc;
    hide AllWhite;
    if s.phase.SwpAllGc? {
      if s.sweep.Some? {
        var k := s.sweep.value;
        if k > i {
          assert l'[..k - 1] == l[..i] + l[i + 1..k];
          AllWhitePart(s', l[..k], l'[..k - 1]);
        } else {
          assert l'[..k] == l[..k];
        }
      } else {
        AllWhitePart(s', l, l');
      }
    } else {
      AllWhitePart(s', l, l');
      if s.phase.SwpFinObj? && s.sweep.Some? {
        var k := s.sweep.value;
        AllWhitePlus(s', [o], s.finobj[..k]);
        assert s'.finobj[..k + 1] == [o] + s.finobj[..k];
        assert s'.finobj[..0] == s.finobj[..0];
      } else if AllWhite(s', s.finobj) {
        AllWhitePlus(s', [o], s.finobj);
      }
    }
  }

  lemma MovedMark(s: State, i: nat)
    requires MarkPhaseInv(s) && CanMove(s, i) && KeepInvariant(s.phase)
    ensures MarkPhaseInv(MovedToFin(s, i))
  {
    hide MarkInv, RootsOK, StartMarked;
    var s' := MovedToFin(s, i);
    WidenMark(s);
    assert MarkFields(s.(bound := Everything(s.heap)), s');
    OwnersInv(s.(bound := Everything(s.heap)), s', {});
    MovedRoots(s, i);
  }

  lemma MovedRoots(s: State, i: nat)
    requires RootsOK(s) && StartMarked(s) && CanMove(s, i)
    ensures RootsOK(MovedToFin(s, i)) && StartMarked(MovedToFin(s, i))
  {
    var s' := MovedToFin(s, i);
    forall r | r in s'.finobj ensures r in s'.heap && r in s'.bound.later {
      if r != s.allgc[i] { assert r in s.finobj; }
    }
  }

  lemma MovedFacts(s: State, i: nat)
    requires LiveClosed(s) && LiveRoots(s) && CanMove(s, i)
    ensures var s' := MovedToFin(s, i);
            LiveClosed(s') && LiveRoots(s') && LiveSet(s') == LiveSet(s) && (FixedOK(s) ==> FixedOK(s'))
  {
    var s' := MovedToFin(s, i);
    forall q, v | LiveRef(s'.heap, s'.white, q) && Holds(s'.heap[q].body, v) ensures Live(s', v) {
      assert LiveRef(s.heap, s.white, q);
      assert Live(s, v);
    }
    forall v | v in s.mt ensures Live(s', v) { assert Live(s, v); }
    forall r | r in s'.finobj + s'.tobefnz ensures LiveRef(s'.heap, s'.white, r) {
      if r != s.allgc[i] { assert r in s.finobj + s.tobefnz; }
    }
  }

  lemma MovedInv(s: State, i: nat)
    requires Inv(s) && CanMove(s, i)
    ensures Inv(MovedToFin(s, i)) && LiveSet(MovedToFin(s, i)) == LiveSet(s)
  {
    hide LiveClosed, LiveRoots, OwnInv, FixedOK, SweptSoFar, MarkPhaseInv, LiveSet, CanMove;
    LiveInAllPhases(s);
    CanMoveIn(s, i);
    MovedOwners(s, i);
    MovedFacts(s, i);
    if KeepInvariant(s.phase) { MovedMark(s, i); }
    if IsSweepPhase(s.phase) { MovedSwept(s, i); }
  }

  lemma CanMoveIn(s: State, i: nat)
    requires CanMove(s, i)
    ensures i < |s.allgc| && s.allgc[i] in s.heap
  {
  }

  // ----- roots and strings --------------------------------------------------------------------------------------------------

  /** The registry and the metatables of the basic types are written without a barrier. */
  ghost function NewRoots(s: State, registry: Value, mt: seq<Value>): State {
    s.(registry := registry, mt := mt, bound := Everything(s.heap))
  }

  lemma NewRootsInv(s: State, registry: Value, mt: seq<Value>)
    requires Inv(s) && LiveValue(s.heap, s.white, registry) && forall v :: v in mt ==> LiveValue(s.heap, s.white, v)
    ensures Inv(NewRoots(s, registry, mt)) && LiveSet(NewRoots(s, registry, mt)) == LiveSet(s)
  {
    hide LiveClosed, OwnInv, FixedOK, SweptSoFar, MarkInv, StartMarked;
    var w, s' := s.(bound := Everything(s.heap)), NewRoots(s, registry, mt);
    WidenInv(s);
    SameButBound(s, w);
    RootsMoved(w, s');
    LiveInAllPhases(s);
    if KeepInvariant(s.phase) {
      assert MarkFields(w, s');
      OwnersInv(w, s', {});
    }
  }

  lemma RootsMoved(s: State, s': State)
    requires s' == s.(registry := s'.registry, mt := s'.mt)
    ensures OwnInv(s) ==> OwnInv(s')
    ensures LiveClosed(s) ==> LiveClosed(s')
    ensures SweptSoFar(s) ==> SweptSoFar(s')
    ensures FixedOK(s) ==> FixedOK(s')
    ensures StartMarked(s) ==> StartMarked(s')
  {
    assert Owners(s') == Owners(s);
    if LiveClosed(s) {
      forall r, v | LiveRef(s'.heap, s'.white, r) && Holds(s'.heap[r].body, v) ensures Live(s', v) {
        assert Live(s, v);
      }
    }
    forall l | AllWhite(s, l) ensures AllWhite(s', l) { }
    hide AllWhite, LiveClosed, OwnInv;
  }

  lemma DeadSweeps(s: State, r: Ref)
    requires Inv(s) && r in s.heap && IsDead(s.white, s.heap[r].colour)
    ensures !KeepInvariant(s.phase) && r !in s.fixedgc
  {
    hide LiveClosed, LiveRoots, OwnInv, RootsOK, StartMarked;
    if KeepInvariant(s.phase) { MarkHeap(s); }
  }
}
