/** What the methods that store something use, the state at the start, and finalizers in a row. */
module GcStores {
  import opened Options
  import opened GcHeap
  import opened GcState
  import opened GcPaint
  import opened GcWalk
  import opened GcSettle
  import opened GcEphemeron
  import opened GcAtomic
  import opened GcComplete
  import opened GcSweep
  import opened GcPhases
  import opened GcFinalize
  import opened GcStep
  import opened GcMutator
  import opened GcObjects

  // ----- facts the methods use ------------------------------------------------------------------------------------------------

  predicate SameFront(l: seq<Ref>, l': seq<Ref>, at: nat) {
    at <= |l| && at <= |l'| && l'[..at] == l[..at]
  }

  /** A sweep only moves on, and leaves alone what it has passed. */
  ghost predicate SweptOn(s: State, s': State) {
    s.sweep.Some? && (s'.sweep.Some? ==> s'.sweep.value >= s.sweep.value) &&
    (s.phase.SwpAllGc? ==>
      SameFront(s.allgc, s'.allgc, s.sweep.value) && (s'.sweep == s.sweep ==> |s'.allgc| < |s.allgc|))
  }

  lemma FrontKept(s: State, at: nat, k: nat)
    requires Sweeping(s.phase) && s.sweep == Some(at) && at + k <= |CurList(s)| && (k > 0 || at == |CurList(s)|)
    ensures SweptOn(s, SweptState(s, at, k))
  {
    hide Survivors, SweptHeap;
    SurvivorsIn(s.heap, s.white, CurList(s)[at..at + k]);
  }

  function ShiftedAt(p: Phase, sweep: Option<nat>, i: nat, step: int): Option<nat>
    requires step >= -1
  {
    if p.SwpAllGc? && sweep.Some? && sweep.value > i then Some(sweep.value + step) else sweep
  }

  /** Nothing but the body of `o` changed. */
  ghost predicate SameBut(h: Heap, h': Heap, o: Ref) {
    h'.Keys == h.Keys && forall r :: r in h && r != o ==> h'[r].body == h[r].body
  }

  /** The store does not change the metatable of a table with weak keys and values, or need not be seen. */
  ghost predicate NoWeakMeta(s: State, o: Ref, b: Body, v: Value) {
    b.Table? && b.mode.AllWeak? ==>
      o in s.heap && s.heap[o].body.Table? &&
      (KeepInvariant(s.phase) && !s.heap[o].colour.White? && o !in s.gray && o !in s.grayagain ==> Marked(s.heap, b.meta))
  }

  lemma MetaMarked(s: State, o: Ref)
    requires MarkPhaseInv(s) && KeepInvariant(s.phase) && o in s.heap && !s.heap[o].colour.White? && o !in s.blind
    requires s.heap[o].body.Table? && s.heap[o].body.mode.AllWeak? && o !in s.gray && o !in s.grayagain
    ensures Marked(s.heap, s.heap[o].body.meta)
  {
    CoveredAt(s, o);
  }

  lemma StoreBackReady(s: State, o: Ref, b: Body, v: Value)
    requires Inv(s) && CanWrite(s, o, b, [v]) && b.Table? && o in s.heap && s.heap[o].body.Table? ==> b.meta == s.heap[o].body.meta
    requires Inv(s) && CanWrite(s, o, b, [v]) && b.Table? && o in s.heap
    ensures s.heap[o].colour.Black? ==>
              Inv(BarredBack(Wrote(s, o, b), o)) && LiveSet(BarredBack(Wrote(s, o, b), o)) == LiveSet(s)
    ensures !(v.Ptr? && s.heap[o].colour.Black? && v.r in s.heap && s.heap[v.r].colour.White?) ==>
              Inv(Wrote(s, o, b)) && LiveSet(Wrote(s, o, b)) == LiveSet(s)
    ensures forall c :: SameBut(s.heap, s.heap[o := Obj(c, b)], o)
  {
    hide Inv, LiveSet, Covered, MarkInv, NeedsNoBarrier, CanWrite, Wrote;
    if s.heap[o].colour.Black? { StoredBack(s, o, b, [v]); }
    if !(v.Ptr? && s.heap[o].colour.Black? && v.r in s.heap && s.heap[v.r].colour.White?) {
      BackNeedless(s, o, b, v);
      StoredPlain(s, o, b, [v]);
    }
  }

  lemma BackNeedless(s: State, o: Ref, b: Body, v: Value)
    requires Inv(s) && CanWrite(s, o, b, [v]) && b.Table? && o in s.heap && s.heap[o].body.Table? ==> b.meta == s.heap[o].body.meta
    requires Inv(s) && CanWrite(s, o, b, [v]) && b.Table? && o in s.heap
    requires !(v.Ptr? && s.heap[o].colour.Black? && v.r in s.heap && s.heap[v.r].colour.White?)
    ensures NeedsNoBarrier(s, o, b, [v])
  {
    hide Inv, LiveSet, Covered, MarkInv, MarkPhaseInv, OwnInv, FixedOK, Adds;
    if KeepInvariant(s.phase) {
      MarkPhaseIs(s);
      assert LiveValue(s.heap, s.white, v);
      if !s.heap[o].colour.White? && b.mode.AllWeak? && o !in s.gray && o !in s.grayagain { MetaMarked(s, o); }
    }
  }

  lemma StoreForwardReady(s: State, o: Ref, b: Body, v: Value)
    requires Inv(s) && CanWrite(s, o, b, [v]) && NoWeakMeta(s, o, b, v) && o in s.heap
    ensures v.Ptr? ==> v.r in s.heap
    ensures !(v.Ptr? && s.heap[o].colour.Black? && v.r in s.heap && s.heap[v.r].colour.White?) ==>
              Inv(Wrote(s, o, b)) && LiveSet(Wrote(s, o, b)) == LiveSet(s)
    ensures KeepInvariant(s.phase) ==> MarkInv(Wrote(s, o, b), {o})
    ensures !KeepInvariant(s.phase) ==> Inv(Whitened(Wrote(s, o, b), o)) && LiveSet(Whitened(Wrote(s, o, b), o)) == LiveSet(s)
    ensures forall c :: SameBut(s.heap, s.heap[o := Obj(c, b)], o)
  {
    hide Inv, LiveSet, Covered, MarkInv, Wrote, NoWeakMeta;
    assert LiveValue(s.heap, s.white, v) by { assert v in [v]; }
    WriteShape(s, o, b, [v]);
    if KeepInvariant(s.phase) {
      MarkPhaseIs(s);
      WriteMark(s, o, b, [v]);
    } else {
      StoredWhite(s, o, b, [v]);
    }
    ForwardPlain(s, o, b, v);
  }

  lemma WeakMetaGray(s: State, o: Ref, b: Body, v: Value)
    requires Inv(s) && CanWrite(s, o, b, [v]) && !NoWeakMeta(s, o, b, v)
    ensures o in s.heap && s.heap[o].colour.Gray?
  {
    hide OwnInv, FixedOK, Adds, LinksOK, KindsOK, CoverInv;
    MarkPhaseIs(s);
    CoveredAt(s, o);
  }

  lemma ForwardPlain(s: State, o: Ref, b: Body, v: Value)
    requires Inv(s) && CanWrite(s, o, b, [v]) && NoWeakMeta(s, o, b, v) && o in s.heap
    ensures !(v.Ptr? && s.heap[o].colour.Black? && v.r in s.heap && s.heap[v.r].colour.White?) ==>
              Inv(Wrote(s, o, b)) && LiveSet(Wrote(s, o, b)) == LiveSet(s)
  {
    hide Inv, LiveSet, Wrote;
    if !(v.Ptr? && s.heap[o].colour.Black? && v.r in s.heap && s.heap[v.r].colour.White?) {
      assert v in [v];
      StoredPlain(s, o, b, [v]);
    }
  }

  lemma PutSame(s: State, o: Ref, b: Body, vs: seq<Value>)
    requires CanWrite(s, o, b, vs)
    ensures o in s.heap && SameBut(s.heap, Wrote(s, o, b).heap, o)
    ensures SameBut(s.heap, Whitened(Wrote(s, o, b), o).heap, o) && Whitened(Wrote(s, o, b), o).heap[o].body == b
  {
  }

  lemma ForwardDone(s: State, s': State, o: Ref, b: Body, v: Value)
    requires Inv(s) && KeepInvariant(s.phase) && CanWrite(s, o, b, [v]) && s.heap[o].colour.Black?
    requires Painted(Wrote(s, o, b), s') && MarkInv(s', {o}) && Marked(s'.heap, v)
    ensures Inv(s') && LiveSet(s') == LiveSet(s)
    ensures o in s'.heap && s'.heap[o].body == b && SameBut(s.heap, s'.heap, o)
  {
    hide Inv, LiveSet, MarkInv, WhiteSet, Links;
    StoredForward(s, s', o, b, v);
  }

  lemma StoreThreadReady(s: State, o: Ref, b: Body, v: Value)
    requires Inv(s) && CanWrite(s, o, b, [v]) && b.Thread? && o in s.heap
    ensures Inv(Wrote(s, o, b)) && LiveSet(Wrote(s, o, b)) == LiveSet(s)
    ensures forall c :: SameBut(s.heap, s.heap[o := Obj(c, b)], o)
  {
    hide Inv, LiveSet, Covered, MarkInv;
    if KeepInvariant(s.phase) {
      MarkPhaseIs(s);
      if s.heap[o].colour.Black? {
        BlackUnlinked2(s, o) by { MarkInvLists(s); }
        CoveredAt(s, o);
        ThreadNotBlack(s, o);
      }
    }
    StoredPlain(s, o, b, [v]);
  }

  lemma ThreadNotBlack(s: State, o: Ref)
    requires KeepInvariant(s.phase) && s.held == [] && o in s.heap && s.heap[o].body.Thread? && s.heap[o].colour.Black?
    requires o !in s.gray && o !in s.grayagain && o !in s.blind
    ensures !Covered(s, o)
  {
  }

  lemma LiveIsRef(s: State, o: Ref)
    requires o in LiveSet(s)
    ensures LiveRef(s.heap, s.white, o)
  {
  }

  lemma WhitenForSweep(s: State, o: Ref)
    requires Inv(s) && LiveRef(s.heap, s.white, o) && o in s.allgc && IsSweepPhase(s.phase)
    ensures Inv(Whitened(s, o)) && LiveSet(Whitened(s, o)) == LiveSet(s)
  {
    NotElsewhere(s, o);
    WhitenedLive(s, o);
    WhitenInv(s, o);
    hide Inv;
    assert o in LiveSet(s);
  }

  /** Once the object is white and the sweep position is not right behind it, it can move. */
  lemma MoveReady(s: State, m: State, c: State, o: Ref, i: nat)
    requires Inv(s) && Inv(m) && LiveSet(m) == LiveSet(s) && LiveRef(s.heap, s.white, o) && !s.heap[o].body.Str?
    requires m == if IsSweepPhase(s.phase) then Whitened(s, o) else s
    requires SweptTo(m, c) && c.phase == m.phase && i < |m.allgc| && m.allgc[i] == o && Inv(c)
    requires if m.phase.SwpAllGc? && m.sweep == Some(i + 1) then
               (c.sweep.Some? ==> c.sweep.value > i + 1) && SameFront(m.allgc, c.allgc, i + 1)
             else c == m
    ensures CanMove(c, i) && c.allgc[i] == o
  {
    hide Inv, LiveSet;
    if m.phase.SwpAllGc? && m.sweep == Some(i + 1) {
      assert c.allgc[..i + 1][i] == c.allgc[i];
      assert m.allgc[..i + 1][i] == m.allgc[i];
      SweptWhite(c, m, o, i);
      assert c.heap[o].body == m.heap[o].body;
    }
  }

  lemma SweptWhite(c: State, m: State, o: Ref, i: nat)
    requires Inv(c) && Inv(m) && c.phase.SwpAllGc? && i < |c.allgc| && c.allgc[i] == o && LiveSet(c) == LiveSet(m)
    requires LiveRef(m.heap, m.white, o) && (c.sweep.Some? ==> i < c.sweep.value)
    ensures o in c.heap && c.heap[o].colour == White(c.white) && LiveRef(c.heap, c.white, o)
  {
    hide LiveClosed, LiveRoots, OwnInv;
    assert o in LiveSet(m);
    assert o in LiveSet(c);
    if c.sweep.Some? && i < c.sweep.value { assert c.allgc[..c.sweep.value][i] == o; }
  }

  lemma MoveFacts(s: State, m: State, c: State, o: Ref, i: nat)
    requires m == (if IsSweepPhase(s.phase) && o in s.heap then Whitened(s, o) else s)
    requires Inv(c) && SweptTo(m, c) && i < |c.allgc| && c.allgc[i] == o && LiveSet(m) == LiveSet(s)
    ensures var c' := MovedToFin(c, i);
            && (forall r :: r in c'.heap ==> r in s.heap && c'.heap[r].body == s.heap[r].body)
            && c'.finobj == [o] + s.finobj && o !in c'.allgc && LiveSet(c) == LiveSet(s)
            && c'.fixedgc == s.fixedgc && c'.mainthread == s.mainthread && c'.registry == s.registry && c'.mt == s.mt
            && c'.tobefnz == s.tobefnz
  {
    OwnedOnce(c, c.allgc) by { InvOwners(c); }
    hide Inv, LiveSet, OwnInv;
  }

  // ----- the invariant in plain words ------------------------------------------------------------------------------------

  /** While marking, no black object leads to a white one, through any slot. */
  lemma NoBlackToWhite(s: State, r: Ref, v: Value)
    requires Inv(s) && KeepInvariant(s.phase) && r in s.heap && s.heap[r].colour.Black? && Holds(s.heap[r].body, v)
    ensures Marked(s.heap, v)
  {
    hide Inv, MarkInv;
    MarkPhaseIs(s);
    CoveredAt(s, r);
    BlackUnlinked2(s, r) by { MarkInvLists(s); }
  }

  /** `lua_newstate`: the main thread, with an empty stack, is the only object. */
  function Fresh(main: Ref, size: nat): State {
    State(map[main := Obj(White(false), Thread(seq(size, _ => Nil), 0))],
          [], [], [], [], main, Nil, [], [], [], [], [], [], Pause, false, None, 0, [], false, {}, Bound({}, {}))
  }

  lemma FreshInv(main: Ref, size: nat)
    ensures Inv(Fresh(main, size)) && LiveSet(Fresh(main, size)) == {main}
  {
    var s := Fresh(main, size);
    assert s.finobj + s.tobefnz == [];
    assert Owners(s) == multiset{main};
  }

  /** Lists and roots are as before. */
  ghost predicate SameLists(s: State, s': State) {
    && s'.allgc == s.allgc && s'.finobj == s.finobj && s'.tobefnz == s.tobefnz && s'.fixedgc == s.fixedgc
    && s'.mainthread == s.mainthread && s'.registry == s.registry && s'.mt == s.mt
  }

  lemma PaintedSame(s: State, s': State)
    requires Painted(s, s')
    ensures SameLists(s, s') && s'.phase == s.phase
  {
    hide WhiteSet, Links;
  }

  // ----- a sweep position that goes along ------------------------------------------------------------------------------------

  /** Objects with the current white are neither freed nor changed by a sweep. */
  lemma WhiteSweep(s: State, l: seq<Ref>)
    requires AllWhite(s, l)
    ensures Survivors(s.heap, s.white, l) == l && SweptHeap(s.heap, s.white, ToSet(l)) == s.heap
  {
    hide Survivors;
    SurvivorsAll(s.heap, s.white, l);
  }

  lemma Sliced<T>(l: seq<T>, at: nat, k: nat)
    requires at + k <= |l|
    ensures l[..at] + l[at..at + k] + l[at + k..] == l
    ensures forall x :: x in l[at..at + k] ==> x in l
  {
  }

  lemma AllWhiteSame(s: State, s': State, l: seq<Ref>)
    requires AllWhite(s, l) && s'.heap == s.heap && s'.white == s.white
    ensures AllWhite(s', l)
  {
  }

  /** These finalizers do not take the object that the sweep stands behind. */
  predicate Spared(s: State) {
    s.phase.SwpToBeFnz? && s.sweep.Some? && 0 < s.sweep.value <= s.finnum ==> |s.tobefnz| < s.sweep.value
  }

  /** Not the case that goes wrong, see GcLost. */
  predicate CanFinalize(s: State) {
    && s.tobefnz != []
    && (s.phase.SwpToBeFnz? && s.sweep == Some(1) ==>
          forall r :: r in s.tobefnz[1..] ==> r in s.heap && s.heap[r].colour == White(s.white))
  }

  /** Where the sweep stands after `i` finalizers. */
  predicate Behind(s: State, m: State, i: nat) {
    s.phase.SwpToBeFnz? ==> m.sweep == if s.sweep.Some? && s.sweep.value >= i then (if s.sweep.value > 0 then Some(s.sweep.value - i) else s.sweep) else s.sweep
  }

  lemma BehindStart(s: State)
    ensures Behind(s, s, 0)
  {
  }

  /** One of the finalizers that run in a row from `s`. */
  lemma PopOne(s: State, m: State, i: nat)
    requires m.tobefnz != [] && (Inv(m) || m.sweep.None?) && m.tobefnz[0] in m.heap && i < m.finnum == s.finnum
    requires |m.tobefnz| == |s.tobefnz| - i
    requires Spared(s) ==> Inv(m) && Gentle(s, m) && m.phase == s.phase && Behind(s, m, i)
    ensures var c := Finalizing(m);
            && Finalized(m, m.finnum - i) == Finalized(c, m.finnum - i - 1) && (Inv(c) || c.sweep.None?)
            && c.tobefnz == m.tobefnz[1..] && c.heap.Keys == m.heap.Keys && c.finnum == m.finnum
            && (Spared(s) ==> Inv(c) && Gentle(s, c) && c.phase == s.phase && c.bound == m.bound && Behind(s, c, i + 1))
  {
    hide Inv, LiveSet, Gentle;
    if !(m.phase.SwpToBeFnz? && m.sweep == Some(1)) && Inv(m) {
      PoppedInv(m);
      PopFacts(m);
      if Spared(s) { PopGentle(s, m); }
    }
  }

  lemma FinalizedMore(s: State, n: nat)
    requires n > 0 && s.tobefnz != [] && s.tobefnz[0] in s.heap
    ensures Finalized(s, n) == Finalized(Finalizing(s), n - 1)
  {
  }

  lemma FinalizedAll(s: State, n: nat)
    requires n == 0 || s.tobefnz == []
    ensures Finalized(s, n) == s
  {
  }

  lemma WaitingHere(s: State)
    requires Inv(s)
    ensures forall r :: r in s.tobefnz ==> r in s.heap
  {
    hide Inv;
    LiveInAllPhases(s);
    forall r | r in s.tobefnz ensures r in s.heap { assert r in s.finobj + s.tobefnz; }
  }

  lemma FinalizingInv(s: State)
    requires Inv(s) && s.tobefnz != []
    ensures s.tobefnz[0] in s.heap
    ensures CanFinalize(s) ==> Inv(Finalizing(s)) && LiveSet(Finalizing(s)) == LiveSet(s)
    ensures s.phase.SwpToBeFnz? && s.sweep == Some(1) ==> Whitened(s, s.tobefnz[0]) == s && AllWhite(s, [s.tobefnz[0]] + s.allgc)
  {
    FirstHere(s);
    if s.phase.SwpToBeFnz? && s.sweep == Some(1) {
      FirstWhite(s);
      WhitenedSame(s, s.tobefnz[0]);
      SweptAllGc(s);
      AllWhitePlus(s, [s.tobefnz[0]], s.allgc);
      if CanFinalize(s) {
        assert AllWhite(s, s.tobefnz[1..]);
        CarriedKeeps(s);
      }
      hide Inv;
    } else {
      hide Inv, LiveSet;
      PoppedInv(s);
    }
  }

  lemma FinalizingOnce(s: State)
    requires Inv(s) && s.tobefnz != []
    ensures var l := [s.tobefnz[0]] + s.allgc; forall i, j :: 0 <= i < j < |l| ==> l[i] != l[j]
  {
    var o := s.tobefnz[0];
    var l := [o] + s.allgc;
    InvOwners(s) by { hide *; }
    assert s.tobefnz == [o] + s.tobefnz[1..];
    forall r ensures multiset(l)[r] <= 1 {
      assert multiset(l) == multiset{o} + multiset(s.allgc);
      assert multiset{o}[r] <= multiset(s.tobefnz)[r];
      assert Owners(s)[r] <= 1;
    }
    hide Inv;
    OnlyOnce(l);
  }

  lemma SweptAllGc(s: State)
    requires Inv(s) && s.phase.SwpToBeFnz?
    ensures AllWhite(s, s.allgc)
  {
    hide LiveClosed, LiveRoots, OwnInv, AllWhite;
  }

  lemma FirstHere(s: State)
    requires Inv(s) && s.tobefnz != []
    ensures s.tobefnz[0] in s.heap
  {
    hide Inv;
    LiveInAllPhases(s);
    FirstLive(s);
  }

  lemma CarriedKeeps(s: State)
    requires Inv(s) && s.phase.SwpToBeFnz? && s.sweep == Some(1) && s.tobefnz != [] && AllWhite(s, s.tobefnz[1..])
    requires s.tobefnz[0] in s.heap
    ensures Inv(CarriedAway(s))
  {
    hide Inv, LiveSet;
    var o := s.tobefnz[0];
    FirstWhite(s);
    AllWhitePlus(s, [o], s.tobefnz[1..]);
    var m := s.(sweep := Some(0));
    SkipBack(s, m);
    PoppedInv(m);
    var p := Popped(m);
    WhitenedSame(s, o);
    SkipOn(p);
  }

  lemma FirstWhite(s: State)
    requires Inv(s) && s.phase.SwpToBeFnz? && s.sweep == Some(1) && s.tobefnz != []
    ensures s.tobefnz[0] in s.heap && s.heap[s.tobefnz[0]].colour == White(s.white) && AllWhite(s, [s.tobefnz[0]])
  {
    hide LiveClosed, LiveRoots, OwnInv;
    assert s.tobefnz[..1] == [s.tobefnz[0]];
    assert s.tobefnz[0] in s.tobefnz[..1];
  }

  lemma WhitenedSame(s: State, o: Ref)
    requires o in s.heap && s.heap[o].colour == White(s.white)
    ensures Whitened(s, o) == s
  {
  }

  lemma SkipBack(s: State, m: State)
    requires Inv(s) && s.phase.SwpToBeFnz? && m == s.(sweep := Some(0))
    ensures Inv(m)
  {
    MovedLive(s, m);
    AbandonOwners(s, m);
    assert m.tobefnz[..0] == [];
    hide LiveClosed, LiveRoots, OwnInv, LiveSet;
  }

  lemma SkipOn(p: State)
    requires Inv(p) && p.phase.SwpToBeFnz? && AllWhite(p, p.tobefnz)
    ensures Inv(p.(sweep := None))
  {
    var m := p.(sweep := None);
    MovedLive(p, m);
    AbandonOwners(p, m);
    hide LiveClosed, LiveRoots, OwnInv, LiveSet;
  }
}
