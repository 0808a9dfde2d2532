/** Objects that wait for their finalizers return to the ordinary objects; how close a collection is to its end. */
module GcFinalize {
  import opened Options
  import opened GcHeap
  import opened GcState
  import opened GcPaint
  import opened GcWalk
  import opened GcSettle
  import opened GcEphemeron
  import opened GcAtomic
  import opened GcComplete
  import opened GcWeak
  import opened GcSweep
  import opened GcPhases

  // ----- finalizers -------------------------------------------------------------------------------------------

  /** `udata2finalize`: the first object waiting for its finalizer goes back to the ordinary objects. */
  function Popped(s: State): State
    requires s.tobefnz != [] && s.tobefnz[0] in s.heap
  {
    Shifted(Returned(s))
  }

  function Returned(s: State): State
    requires s.tobefnz != [] && s.tobefnz[0] in s.heap
  {
    var o := s.tobefnz[0];
    var s1 := s.(tobefnz := s.tobefnz[1..], allgc := [o] + s.allgc);
    if IsSweepPhase(s.phase) then Whitened(s1, o) else s1
  }

  /** A sweep position past the insertion or the removal moves with the elements behind it. */
  function Shifted(s: State): State {
    match s.sweep
    case Some(i) =>
      if i > 0 && s.phase.SwpAllGc? then s.(sweep := Some(i + 1))
      else if i > 0 && s.phase.SwpToBeFnz? then s.(sweep := Some(i - 1))
      else s
    case None => s
  }

  /** `udata2finalize` when the sweep stands right behind the first object of the list it is popped
      from: the sweep position goes along into `allgc`, where everything is white already, so the
      sweep runs to its end without effect. */
  function CarriedAway(s: State): State
    requires s.tobefnz != [] && s.tobefnz[0] in s.heap
  {
    Returned(s).(sweep := None)
  }

  /** `udata2finalize`. */
  function Finalizing(s: State): State
    requires s.tobefnz != [] && s.tobefnz[0] in s.heap
  {
    if s.phase.SwpToBeFnz? && s.sweep == Some(1) then CarriedAway(s) else Popped(s)
  }

  /** `n` finalizers in a row. */
  function Finalized(s: State, n: nat): State
    decreases n
  {
    if n == 0 || s.tobefnz == [] || s.tobefnz[0] !in s.heap then s else Finalized(Finalizing(s), n - 1)
  }

  /** `runafewfinalizers`: as many as `gcfinnum` says, and twice as many the next time. */
  function SomeFinalized(s: State): State {
    var d := Finalized(s, s.finnum);
    d.(finnum := if d.tobefnz == [] then 0 else s.finnum * 2)
  }

  lemma MoveCount(a: seq<Ref>, b: seq<Ref>, r: Ref)
    requires a != []
    ensures multiset(a[1..])[r] + multiset([a[0]] + b)[r] == multiset(a)[r] + multiset(b)[r]
  {
    assert a == [a[0]] + a[1..];
  }

  lemma PopCount(s: State)
    requires s.tobefnz != [] && s.tobefnz[0] in s.heap
    ensures forall r :: Owners(Popped(s))[r] == Owners(s)[r]
  {
    hide Popped;
    PopHeap(s);
    forall r ensures Owners(Popped(s))[r] == Owners(s)[r] {
      MoveCount(s.tobefnz, s.allgc, r);
    }
  }

  lemma PopHeap(s: State)
    requires s.tobefnz != [] && s.tobefnz[0] in s.heap
    ensures Popped(s).heap.Keys == s.heap.Keys && Popped(s).fixedgc == s.fixedgc && Popped(s).mainthread == s.mainthread
    ensures Popped(s).allgc == [s.tobefnz[0]] + s.allgc && Popped(s).tobefnz == s.tobefnz[1..] && Popped(s).finobj == s.finobj
    ensures forall r :: r in s.heap ==> Popped(s).heap[r].body == s.heap[r].body
    ensures forall r :: r in s.heap && r != s.tobefnz[0] ==> Popped(s).heap[r] == s.heap[r]
  {
  }

  lemma PopOwners(s: State)
    requires OwnInv(s) && FixedOK(s) && s.tobefnz != [] && s.tobefnz[0] in s.heap
    requires s.mainthread in s.heap && s.heap[s.mainthread].body.Thread?
    ensures OwnInv(Popped(s)) && FixedOK(Popped(s))
    ensures Popped(s).mainthread in Popped(s).heap && Popped(s).heap[Popped(s).mainthread].body.Thread?
  {
    PopCount(s);
    PopHeap(s);
    FirstNotFixed(s);
    hide Popped, Owners;
  }

  lemma FirstNotFixed(s: State)
    requires OwnInv(s) && s.tobefnz != []
    ensures s.tobefnz[0] !in s.fixedgc
  {
    var r := s.tobefnz[0];
    assert Owners(s)[r] <= 1;
    assert multiset(s.tobefnz)[r] >= 1;
    assert r in s.fixedgc ==> multiset(s.fixedgc)[r] >= 1;
  }

  lemma PopLive(s: State)
    requires LiveClosed(s) && LiveRoots(s) && s.tobefnz != [] && s.tobefnz[0] in s.heap
    ensures LiveClosed(Popped(s)) && LiveRoots(Popped(s)) && LiveSet(Popped(s)) == LiveSet(s)
  {
    var o := s.tobefnz[0];
    assert o in s.finobj + s.tobefnz;
    var s1 := s.(tobefnz := s.tobefnz[1..], allgc := [o] + s.allgc);
    assert LiveClosed(s1) by {
      forall r, v | LiveRef(s1.heap, s1.white, r) && Holds(s1.heap[r].body, v) ensures Live(s1, v) {
        assert LiveRef(s.heap, s.white, r);
        assert Live(s, v);
      }
    }
    assert LiveRoots(s1) by {
      forall v | v in s1.mt ensures Live(s1, v) { assert Live(s, v); }
      forall r | r in s1.finobj + s1.tobefnz ensures LiveRef(s1.heap, s1.white, r) { assert r in s.finobj + s.tobefnz; }
    }
    assert o in LiveSet(s1);
    var s2 := if IsSweepPhase(s.phase) then Whitened(s1, o) else s1;
    WhitenedLive(s1, o);
    MovedLive(s2, Popped(s));
  }

  lemma PopSwept(s: State)
    requires SweptSoFar(s) && s.tobefnz != [] && s.tobefnz[0] in s.heap && IsSweepPhase(s.phase)
    requires !(s.phase.SwpToBeFnz? && s.sweep == Some(1))
    ensures SweptSoFar(Popped(s))
  {
    var o, s' := s.tobefnz[0], Popped(s);
    PopWhite(s);
    PopHeap(s);
    hide AllWhite;
    match s.phase {
      case SwpAllGc =>
        match s.sweep {
          case None => AllWhitePlus(s', [o], s.allgc);
          case Some(i) =>
            if i > 0 {
              AllWhitePlus(s', [o], s.allgc[..i]);
              assert s'.allgc[..i + 1] == [o] + s.allgc[..i];
            } else {
              assert s'.allgc[..0] == s.allgc[..0];
            }
        }
      case SwpToBeFnz =>
        AllWhitePlus(s', [o], s.allgc);
        match s.sweep {
          case None => AllWhitePart(s', s.tobefnz, s'.tobefnz);
          case Some(i) =>
            if i > 0 {
              AllWhitePart(s', s.tobefnz[..i], s'.tobefnz[..i - 1]);
            } else {
              assert s'.tobefnz[..0] == s.tobefnz[..0];
            }
        }
      case SwpEnd =>
        AllWhitePlus(s', [o], s.allgc);
        AllWhitePart(s', s.tobefnz, s'.tobefnz);
      case _ =>
        AllWhitePlus(s', [o], s.allgc);
    }
  }

  lemma AllWhitePart(s: State, l: seq<Ref>, l': seq<Ref>)
    requires AllWhite(s, l) && forall r :: r in l' ==> r in l
    ensures AllWhite(s, l')
  {
  }

  lemma PopWhite(s: State)
    requires s.tobefnz != [] && s.tobefnz[0] in s.heap && IsSweepPhase(s.phase)
    ensures AllWhite(Popped(s), [s.tobefnz[0]]) && forall l :: AllWhite(s, l) ==> AllWhite(Popped(s), l)
  {
    forall l | AllWhite(s, l) ensures AllWhite(Popped(s), l) { }
  }

  /** Popping keeps the invariant in every phase, except when the sweep stands right behind the first
      object of the very list it is popped from. */
  lemma PoppedInv(s: State)
    requires Inv(s) && s.tobefnz != [] && !(s.phase.SwpToBeFnz? && s.sweep == Some(1))
    ensures s.tobefnz[0] in s.heap && Inv(Popped(s)) && LiveSet(Popped(s)) == LiveSet(s)
  {
    hide LiveClosed, LiveRoots, OwnInv, FixedOK, LiveSet, SweptSoFar, MarkInv, RootsOK, StartMarked;
    LiveInAllPhases(s);
    FirstLive(s);
    PopOwners(s);
    PopLive(s);
    PopFields(s);
    if IsSweepPhase(s.phase) {
      PopSwept(s);
    } else if s.phase.CallFin? || s.phase.Pause? {
      PopRest(s);
    } else {
      PopMark(s);
    }
  }

  lemma FirstLive(s: State)
    requires LiveRoots(s) && s.tobefnz != []
    ensures s.tobefnz[0] in s.heap
  {
    assert s.tobefnz[0] in s.finobj + s.tobefnz;
    assert LiveRef(s.heap, s.white, s.tobefnz[0]);
  }

  lemma PopFields(s: State)
    requires s.tobefnz != [] && s.tobefnz[0] in s.heap
    ensures Popped(s).phase == s.phase && Popped(s).stopped == s.stopped && Popped(s).finnum == s.finnum
    ensures Popped(s).tobefnz == s.tobefnz[1..]
    ensures s.sweep.None? ==> Popped(s).sweep.None?
  {
  }

  lemma PopRest(s: State)
    requires s.tobefnz != [] && s.tobefnz[0] in s.heap && !IsSweepPhase(s.phase)
    requires forall r :: r in s.heap && r !in s.fixedgc ==> s.heap[r].colour == White(s.white)
    ensures forall r :: r in Popped(s).heap && r !in Popped(s).fixedgc ==> Popped(s).heap[r].colour == White(Popped(s).white)
  {
  }

  lemma PopMark(s: State)
    requires MarkPhaseInv(s) && s.tobefnz != [] && s.tobefnz[0] in s.heap && (s.phase.Propagate? || s.phase.Atomic?)
    ensures MarkPhaseInv(Popped(s))
  {
    hide MarkInv;
    var s' := Popped(s);
    assert MarkFields(s, s');
    OwnersInv(s, s', {});
    forall r | r in s'.tobefnz ensures r in s'.heap && r in s'.bound.now { assert r in s.tobefnz; }
  }

  lemma SweepBegin(h: Heap, white: bool, l: seq<Ref>, at: nat)
    requires at <= |l|
    ensures Sweep(h, white, l, at, 0, l, at, h)
  {
    assert l[at..at + 0] == [];
  }

  lemma OwnedOnce(s: State, l: seq<Ref>)
    requires OwnInv(s) && (l == s.allgc || l == s.finobj || l == s.tobefnz)
    ensures (forall i, j :: 0 <= i < j < |l| ==> l[i] != l[j]) && (forall r :: r in l ==> r in s.heap)
  {
    forall r ensures multiset(l)[r] <= 1 {
      assert multiset(l)[r] <= Owners(s)[r] <= 1;
    }
    hide Owners;
    OnlyOnce(l);
    forall r | r in l ensures r in s.heap { OwnedIn(s, r); }
  }

  lemma OnlyOnce(l: seq<Ref>)
    requires forall r :: multiset(l)[r] <= 1
    ensures forall i, j :: 0 <= i < j < |l| ==> l[i] != l[j]
  {
    forall i, j | 0 <= i < j < |l| ensures l[i] != l[j] {
      var a, b := l[..j], l[j..];
      assert l == a + b;
      assert multiset(l) == multiset(a) + multiset(b);
      assert a[i] == l[i] && b[0] == l[j];
      assert a[i] in multiset(a) && b[0] in multiset(b);
      assert multiset(l)[l[i]] == multiset(a)[l[i]] + multiset(b)[l[i]];
    }
  }

  /** How far a collection is from the pause: phase first. */
  function Rank(p: Phase): nat {
    match p
    case Pause => 0
    case CallFin => 1
    case SwpEnd => 2
    case SwpToBeFnz => 3
    case SwpFinObj => 4
    case SwpAllGc => 5
    case InsideAtomic => 6
    case Atomic => 7
    case Propagate => 8
  }

  /** Within a phase: what marking or sweeping still has in front of it. */
  function Whites(s: State): set<Ref> {
    if s.phase.Propagate? then WhiteSet(s.heap) else {}
  }

  function Todo(s: State): nat {
    match s.phase
    case Propagate => |s.gray|
    case SwpAllGc => Left(s.sweep, s.allgc)
    case SwpFinObj => Left(s.sweep, s.finobj)
    case SwpToBeFnz => Left(s.sweep, s.tobefnz)
    case CallFin => |s.tobefnz|
    case _ => 0
  }

  function Left(at: Option<nat>, l: seq<Ref>): nat {
    if at.Some? && at.value <= |l| then 1 + |l| - at.value else 0
  }

  /** Strictly closer to the pause. */
  predicate Closer(s: State, s': State) {
    || Rank(s'.phase) < Rank(s.phase)
    || (s'.phase == s.phase && Whites(s') < Whites(s))
    || (s'.phase == s.phase && Whites(s') == Whites(s) && Todo(s') < Todo(s))
  }

  /** Everything reachable is kept, with its contents: live objects stay, strong slots are untouched. */
  ghost predicate Kept(s: State, s': State) {
    && LiveSet(s') <= s.heap.Keys
    && forall r :: r in s'.heap ==> r in s.heap && Shrunk(s.heap[r].body, s'.heap[r].body)
  }

  /** What the step that ends marking guarantees: the live set becomes a closed set that contains the
      roots and everything with a finalizer, and lies within the bound. What waits for a finalizer and was
      not reached from the roots is handed over to be finalized, in order. */
  ghost predicate Exact(s: State, s': State, L: Ref) {
    && Closed(s.heap, LiveSet(s'), false)
    && RootSet(s') + {L} + ToSet(s'.finobj) + ToSet(s'.fixedgc) <= LiveSet(s') <= s.bound.later
    && (exists M :: Found(s, s', L, s.bound.now, M))
    && s'.tobefnz == s.tobefnz + Without(s.finobj, ToSet(s'.finobj)) && RefsMarked(s'.heap, s'.tobefnz) && s'.finnum == 1
    && Rooted(s, s')
  }

  /** The roots are as before. */
  ghost predicate Rooted(s: State, s': State) {
    s'.fixedgc == s.fixedgc && s'.mainthread == s.mainthread && s'.registry == s.registry && s'.mt == s.mt
  }

  /** `M` is what was marked when finalizers were looked at: closed, with the roots, within `now`. Objects in
      it keep their place in `finobj`. Weak tables lost exactly the values outside it (those only reached from
      finalizers: the values that are not live), and the keys that are not live. */
  ghost predicate Found(s: State, c: State, L: Ref, now: set<Ref>, M: set<Ref>) {
    && Closed(s.heap, M, false) && RootSet(s) + {L} <= M <= now
    && c.finobj == Only(s.finobj, M) && Entries(s.heap, c.heap, M, LiveSet(c))
  }

  /** The objects that keep their place in `finobj` are those reached: all that the roots hold strongly,
      nothing beyond the bound. */
  lemma FoundSorted(s: State, c: State, L: Ref, now: set<Ref>, M: set<Ref>)
    requires Found(s, c, L, now, M)
    ensures c.finobj == Only(s.finobj, ToSet(c.finobj)) && ToSet(c.finobj) <= now && Without(s.finobj, ToSet(c.finobj)) == Without(s.finobj, M)
    ensures forall r :: r in s.finobj && r in Least(s.heap, RootSet(s) + {L}, false) ==> r in c.finobj
  {
    hide Closed, Least, RootSet, Entries;
    OnlyIn(s.finobj, M);
    OnlySame(s.finobj, M, ToSet(c.finobj));
    LeastBelow(s.heap, RootSet(s) + {L}, false, M);
  }

  ghost predicate SameRoots(s: State, s': State) {
    && Rooted(s, s') && s'.bound == s.bound && s'.white == s.white
  }

  /** A sweep step seen from outside. */
  ghost predicate SweptTo(s: State, s': State) {
    && Inv(s') && LiveSet(s') == LiveSet(s) && s'.heap.Keys <= s.heap.Keys
    && (forall r :: r in s'.heap ==> s'.heap[r].body == s.heap[r].body)
    && SameRoots(s, s') && s'.finobj == s.finobj && s'.tobefnz == s.tobefnz && s'.finnum == s.finnum
  }

  /** Before its turn comes, nothing that waits for its finalizer is touched by the sweep. */
  ghost predicate Beside(s: State, s': State) {
    s.phase.SwpToBeFnz? || forall r :: r in s.tobefnz && r in s.heap ==> r in s'.heap && s'.heap[r] == s.heap[r]
  }

  // maximum number of elements swept in one step: (100 * 24) / ((24 + 4) / 4) / 4
  const GCSWEEPMAX := 85

  /** As long as the list is long enough, a fixed number of elements is swept. */
  ghost predicate SweepsOn(s: State, s': State) {
    Sweeping(s.phase) && s.sweep.Some? && s.sweep.value + GCSWEEPMAX < |CurList(s)| ==>
      s' == SweptState(s, s.sweep.value, GCSWEEPMAX)
  }

  /** A sweep that stops before the end of its list has a position. */
  lemma SweptMore(s: State, at: nat, k: nat)
    requires Sweeping(s.phase)
    ensures at + k < |CurList(s)| ==> SweptState(s, at, k).sweep.Some?
  {
    hide Survivors, SweptHeap;
  }

  lemma BesideAdvanced(s: State, m: State)
    requires Sweeping(m.phase) && Beside(s, m)
    ensures Beside(s, Advanced(m))
  {
  }

  lemma RegistryMarked(s: State)
    requires AllMarked(s.heap, [Ptr(s.mainthread), s.registry] + s.mt)
    ensures Marked(s.heap, s.registry)
  {
    assert s.registry in [Ptr(s.mainthread), s.registry] + s.mt;
  }

  lemma SweptBeside(s: State, at: nat, k: nat)
    requires Sweeping(s.phase) && at + k <= |CurList(s)| && OwnInv(s)
    ensures Beside(s, SweptState(s, at, k))
  {
    if !s.phase.SwpToBeFnz? {
      SweptLive(s, at, k);
      hide SweptState, LiveSet;
      forall r | r in s.tobefnz ensures r !in CurList(s)[at..at + k] {
        assert Owners(s)[r] <= 1;
        assert multiset(CurList(s)[at..at + k])[r] <= multiset(CurList(s))[r] by { SliceCount(CurList(s), [], at, k, r); }
      }
    }
  }

  lemma {:induction false} SurvivorsAll(h: Heap, white: bool, part: seq<Ref>)
    requires forall r :: r in part ==> !DeadRef(h, white, r)
    ensures Survivors(h, white, part) == part
  {
    if part != [] {
      SurvivorsAll(h, white, part[..|part| - 1]);
    }
  }

  lemma SweptFin(s: State, at: nat, k: nat)
    requires Sweeping(s.phase) && at + k <= |CurList(s)| && LiveRoots(s)
    ensures SweptState(s, at, k).finobj == s.finobj && SweptState(s, at, k).tobefnz == s.tobefnz
  {
    hide SweptHeap, Survivors;
    var l := CurList(s);
    if !s.phase.SwpAllGc? {
      forall r | r in l[at..at + k] ensures !DeadRef(s.heap, s.white, r) {
        assert r in l && r in s.finobj + s.tobefnz;
        assert LiveRef(s.heap, s.white, r);
      }
      SurvivorsAll(s.heap, s.white, l[at..at + k]);
      assert l == l[..at] + l[at..at + k] + l[at + k..];
    }
  }

  lemma SweptAll(s: State, at: nat, k: nat)
    requires Inv(s) && Sweeping(s.phase) && s.sweep == Some(at) && at + k <= |CurList(s)|
    ensures SweptTo(s, SweptState(s, at, k))
  {
    hide Inv, LiveSet, SweptState, LiveRoots, LiveClosed;
    LiveInAllPhases(s);
    SweptInv(s, at, k);
    SweptLive(s, at, k);
    SweptLists(s, at, k);
    SweptFin(s, at, k);
  }

  lemma SweptToTrans(a: State, b: State, c: State)
    requires SweptTo(a, b) && SweptTo(b, c)
    ensures SweptTo(a, c)
  {
    hide Inv, LiveSet;
  }

  lemma AdvancedTo(s: State)
    requires Inv(s) && Sweeping(s.phase) && s.sweep.None?
    ensures SweptTo(s, Advanced(s)) && Closer(s, Advanced(s))
  {
    hide Inv, LiveSet;
    AdvancedInv(s);
  }

  /** Sweeping at least one element, or reaching the end, is progress. */
  lemma SweptCloser(s: State, at: nat, k: nat)
    requires Inv(s) && Sweeping(s.phase) && s.sweep == Some(at) && at + k <= |CurList(s)|
    requires k > 0 || at == |CurList(s)|
    ensures Closer(s, SweptState(s, at, k))
  {
    hide Inv, SweptHeap, Survivors;
    SurvivorsIn(s.heap, s.white, CurList(s)[at..at + k]);
  }

  lemma SweepBounds(s: State)
    requires Inv(s) && Sweeping(s.phase) && s.sweep.Some?
    ensures s.sweep.value <= |CurList(s)| && OwnInv(s)
  {
    hide OwnInv, LiveClosed, LiveRoots, AllWhite;
  }

  lemma SweptToRefl(s: State)
    requires Inv(s)
    ensures SweptTo(s, s)
  {
    hide Inv;
  }

  lemma SweptToInv(s: State, s': State)
    requires SweptTo(s, s')
    ensures Inv(s')
  {
    hide Inv;
  }

  lemma AdvancedCloser(s: State, m: State)
    requires Sweeping(m.phase) && m.phase == s.phase
    ensures Closer(s, Advanced(m))
  {
  }

  lemma SweptStateIs(s: State, at: nat, k: nat)
    requires Sweeping(s.phase) && at + k <= |CurList(s)|
    ensures var l := CurList(s);
            var live := Survivors(s.heap, s.white, l[at..at + k]);
            SweptState(s, at, k) == WithList(s, l[..at] + live + l[at + k..])
              .(heap := SweptHeap(s.heap, s.white, ToSet(l[at..at + k])), sweep := if at + k == |l| then None else Some(at + |live|))
  {
    hide SweptHeap, Survivors, CurList, WithList;
  }

  lemma WithListMoves(s: State, h: Heap, l: seq<Ref>, at: Option<nat>)
    ensures WithList(s.(heap := h), l).(sweep := at) == WithList(s, l).(heap := h, sweep := at)
  {
    if s.phase.SwpAllGc? {
      AllGcMoves(s, h, l, at);
    } else if s.phase.SwpFinObj? {
      FinObjMoves(s, h, l, at);
    } else if s.phase.SwpToBeFnz? {
      ToBeFnzMoves(s, h, l, at);
    }
  }

  lemma AllGcMoves(s: State, h: Heap, l: seq<Ref>, at: Option<nat>)
    ensures s.(heap := h).(allgc := l).(sweep := at) == s.(allgc := l).(heap := h, sweep := at)
  {
  }

  lemma FinObjMoves(s: State, h: Heap, l: seq<Ref>, at: Option<nat>)
    ensures s.(heap := h).(finobj := l).(sweep := at) == s.(finobj := l).(heap := h, sweep := at)
  {
  }

  lemma ToBeFnzMoves(s: State, h: Heap, l: seq<Ref>, at: Option<nat>)
    ensures s.(heap := h).(tobefnz := l).(sweep := at) == s.(tobefnz := l).(heap := h, sweep := at)
  {
  }
}
