/** Sweeping: what one call of `sweeplist` does, and the invariant of a whole collection cycle. */
module GcSweep {
  import opened Options
  import opened GcHeap
  import opened GcState
  import opened GcPaint
  import opened GcWalk
  import opened GcSettle
  import opened GcEphemeron
  import opened GcAtomic
  import opened GcComplete
  import opened GcWeak

  // ----- one sweep over part of a list ---------------------------------------------------------

  predicate DeadRef(h: Heap, white: bool, r: Ref) {
    r in h && IsDead(white, h[r].colour)
  }

  predicate LiveRef(h: Heap, white: bool, r: Ref) {
    r in h && !IsDead(white, h[r].colour)
  }

  /** The elements that survive a sweep of `part`. */
  function Survivors(h: Heap, white: bool, part: seq<Ref>): (r: seq<Ref>) {
    if part == [] then []
    else Survivors(h, white, part[..|part| - 1]) +
         (if DeadRef(h, white, part[|part| - 1]) then [] else [part[|part| - 1]])
  }

  /** The heap after `part` was swept: its dead objects are gone, its live ones have the current white. */
  function SweptHeap(h: Heap, white: bool, part: set<Ref>): Heap {
    map r | r in h && !(r in part && IsDead(white, h[r].colour)) ::
      if r in part then h[r].(colour := White(white)) else h[r]
  }

  lemma SurvivorsIn(h: Heap, white: bool, part: seq<Ref>)
    ensures forall r :: r in Survivors(h, white, part) <==> r in part && !DeadRef(h, white, r)
    ensures forall r :: multiset(Survivors(h, white, part))[r] == (if DeadRef(h, white, r) then 0 else multiset(part)[r])
    ensures |Survivors(h, white, part)| <= |part|
  {
    hide DeadRef, Survivors;
    var live := Survivors(h, white, part);
    forall r ensures multiset(live)[r] == (if DeadRef(h, white, r) then 0 else multiset(part)[r]) {
      SurvivorsCount(h, white, part, r);
    }
    forall r ensures r in live <==> r in part && !DeadRef(h, white, r) {
      assert r in live <==> multiset(live)[r] > 0;
      assert r in part <==> multiset(part)[r] > 0;
    }
    SurvivorsCount(h, white, part, 0);
  }

  lemma {:induction false} SurvivorsCount(h: Heap, white: bool, part: seq<Ref>, r: Ref)
    ensures multiset(Survivors(h, white, part))[r] == (if DeadRef(h, white, r) then 0 else multiset(part)[r])
    ensures |Survivors(h, white, part)| <= |part|
  {
    hide DeadRef;
    if part != [] {
      var k := |part| - 1;
      var front, c := part[..k], part[k];
      SurvivorsCount(h, white, front, r);
      assert front + [c] == part;
      assert multiset(part) == multiset(front) + multiset{c};
      if DeadRef(h, white, c) {
        assert Survivors(h, white, part) == Survivors(h, white, front);
      } else {
        assert multiset(Survivors(h, white, part)) == multiset(Survivors(h, white, front)) + multiset{c};
      }
    }
  }

  lemma SweptStep(h: Heap, white: bool, part: seq<Ref>, c: Ref)
    requires c in h && c !in part
    ensures Survivors(h, white, part + [c]) ==
            Survivors(h, white, part) + (if DeadRef(h, white, c) then [] else [c])
    ensures c in SweptHeap(h, white, ToSet(part)) && SweptHeap(h, white, ToSet(part))[c] == h[c]
    ensures var h' := SweptHeap(h, white, ToSet(part));
            SweptHeap(h, white, ToSet(part + [c])) ==
            if DeadRef(h, white, c) then h' - {c} else h'[c := h[c].(colour := White(white))]
  {
    assert (part + [c])[..|part|] == part;
  }

  /** A list with `k` elements from `at` on replaced by `live`, and the next element. */
  lemma Spliced(l: seq<Ref>, live: seq<Ref>, at: nat, k: nat)
    requires at + k <= |l| && |l[..at] + live + l[at + k..]| > at + |live|
    requires forall i, j :: 0 <= i < j < |l| ==> l[i] != l[j]
    ensures at + k < |l|
    ensures var l', p, c := l[..at] + live + l[at + k..], at + |live|, l[at + k];
            && l'[p] == c && c !in l[at..at + k] && l[at..at + k + 1] == l[at..at + k] + [c]
            && l'[..p] + l'[p + 1..] == l[..at] + live + l[at + k + 1..]
            && l' == l[..at] + (live + [c]) + l[at + k + 1..]
  {
    var c := l[at + k];
    assert l[at + k..] == [c] + l[at + k + 1..];
  }

  /** In the loop of `sweeplist`: `k` elements from `at` on were swept; `m` and `h` are what the list and the heap
      have become, `p` is the position. */
  ghost predicate Sweep(h0: Heap, white: bool, l: seq<Ref>, at: nat, k: nat, m: seq<Ref>, p: nat, h: Heap) {
    && at + k <= |l| && p <= |m| && h == SweptHeap(h0, white, ToSet(l[at..at + k]))
    && var live := Survivors(h0, white, l[at..at + k]); m == l[..at] + live + l[at + k..] && p == at + |live|
  }

  lemma SweepTurn(h0: Heap, white: bool, l: seq<Ref>, at: nat, k: nat, m: seq<Ref>, p: nat, h: Heap)
    requires Sweep(h0, white, l, at, k, m, p, h) && p < |m|
    requires (forall i, j :: 0 <= i < j < |l| ==> l[i] != l[j]) && forall r :: r in l ==> r in h0
    ensures var c := m[p];
            && at + k < |l| && c in h
            && if IsDead(white, h[c].colour) then Sweep(h0, white, l, at, k + 1, m[..p] + m[p + 1..], p, h - {c})
               else Sweep(h0, white, l, at, k + 1, m, p + 1, h[c := h[c].(colour := White(white))])
  {
    hide Survivors, SweptHeap;
    var done := l[at..at + k];
    Spliced(l, Survivors(h0, white, done), at, k);
    var c := m[p];
    assert c in l;
    SweptStep(h0, white, done, c);
  }

  lemma SweepIn(h0: Heap, white: bool, l: seq<Ref>, at: nat, k: nat, m: seq<Ref>, p: nat, h: Heap)
    requires Sweep(h0, white, l, at, k, m, p, h)
    ensures p <= |m| && at + k <= |l|
  {
  }

  lemma SweepEnd(h0: Heap, white: bool, l: seq<Ref>, at: nat, k: nat, m: seq<Ref>, p: nat, h: Heap)
    requires Sweep(h0, white, l, at, k, m, p, h)
    ensures p == |m| <==> at + k == |l|
    ensures at + k <= |l| && h == SweptHeap(h0, white, ToSet(l[at..at + k]))
    ensures var live := Survivors(h0, white, l[at..at + k]); m == l[..at] + live + l[at + k..] && p == at + |live|
  {
    hide Survivors, SweptHeap;
  }

  // ----- who owns the objects ---------------------------------------------------------------------

  ghost function Owners(s: State): multiset<Ref> {
    multiset(s.allgc) + multiset(s.finobj) + multiset(s.tobefnz) + multiset(s.fixedgc) + multiset{s.mainthread}
  }

  /** Every object is on exactly one list (the main thread counts as its own). */
  ghost predicate OwnInv(s: State) {
    forall r :: Owners(s)[r] == (if r in s.heap then 1 else 0)
  }

  /** Fixed objects are strings that never turn white. */
  ghost predicate FixedOK(s: State) {
    forall r :: r in s.fixedgc ==> r in s.heap && s.heap[r].body.Str? && !s.heap[r].colour.White?
  }

  ghost predicate Live(s: State, v: Value) {
    v.Ptr? ==> LiveRef(s.heap, s.white, v.r)
  }

  ghost predicate LiveValues(s: State, vs: seq<Value>) {
    forall v :: v in vs ==> Live(s, v)
  }

  /** No live object leads to a dead one. */
  ghost predicate LiveClosed(s: State) {
    forall r, v :: LiveRef(s.heap, s.white, r) && Holds(s.heap[r].body, v) ==> Live(s, v)
  }

  ghost predicate LiveRoots(s: State) {
    && LiveRef(s.heap, s.white, s.mainthread) && Live(s, s.registry) && LiveValues(s, s.mt)
    && forall r :: r in s.finobj + s.tobefnz ==> LiveRef(s.heap, s.white, r)
  }

  ghost predicate AllWhite(s: State, l: seq<Ref>) {
    forall r :: r in l ==> r in s.heap && s.heap[r].colour == White(s.white)
  }

  /** The part of the list being swept that was already dealt with is white. */
  ghost predicate SweptPart(s: State, l: seq<Ref>) {
    match s.sweep
    case None => AllWhite(s, l)
    case Some(i) => i <= |l| && AllWhite(s, l[..i])
  }

  ghost predicate SweptSoFar(s: State) {
    match s.phase
    case SwpAllGc => SweptPart(s, s.allgc)
    case SwpFinObj => AllWhite(s, s.allgc) && SweptPart(s, s.finobj)
    case SwpToBeFnz => AllWhite(s, s.allgc) && AllWhite(s, s.finobj) && SweptPart(s, s.tobefnz)
    case SwpEnd => AllWhite(s, s.allgc) && AllWhite(s, s.finobj) && AllWhite(s, s.tobefnz) && s.sweep.None?
    case _ => true
  }

  /** While sweeping. */
  ghost predicate SweepInv(s: State) {
    LiveClosed(s) && LiveRoots(s) && SweptSoFar(s)
  }

  /** Between cycles everything that can be collected is white again. */
  ghost predicate RestInv(s: State) {
    && LiveClosed(s) && LiveRoots(s)
    && forall r :: r in s.heap && r !in s.fixedgc && r !in s.blind ==> s.heap[r].colour == White(s.white)
  }

  /** A pause, except that the blind objects were left marked. */
  ghost predicate Resting(s: State) {
    && s.phase.Pause? && RestInv(s) && FixedOK(s) && s.sweep.None? && !s.stopped
    && s.mainthread in s.heap && s.heap[s.mainthread].body.Thread? && s.mainthread !in s.blind
    && forall r :: r in s.blind ==> r in s.heap && !s.heap[r].colour.White?
  }

  /** While marking, between two steps. */
  ghost predicate MarkPhaseInv(s: State) {
    && MarkInv(s, {}) && !s.stopped && s.held == []
    && RootsOK(s) && StartMarked(s) && (s.phase.Propagate? ==> s.gray != [])
    && s.sweep.None?
  }

  /** The invariant of the collector, whatever it is doing and whatever the program did in between. */
  ghost predicate Inv(s: State) {
    && OwnInv(s) && FixedOK(s) && s.blind == {}
    && s.mainthread in s.heap && s.heap[s.mainthread].body.Thread?
    && (s.tobefnz != [] ==> s.finnum > 0)
    && match s.phase
       case Propagate => MarkPhaseInv(s)
       case Atomic => MarkPhaseInv(s)
       case InsideAtomic => false
       case SwpAllGc => SweepInv(s) && !s.stopped
       case SwpFinObj => SweepInv(s) && !s.stopped
       case SwpToBeFnz => SweepInv(s) && !s.stopped
       case SwpEnd => SweepInv(s) && !s.stopped
       case CallFin => RestInv(s) && !s.stopped && s.sweep.None?
       case Pause => RestInv(s) && !s.stopped && s.sweep.None?
  }

  // ----- safety --------------------------------------------------------------------------------------

  /** Whatever the program can reach, through any pointer, is allocated and not dead. */
  lemma LiveInAllPhases(s: State)
    requires Inv(s)
    ensures LiveClosed(s) && LiveRoots(s)
  {
    if s.phase.Propagate? || s.phase.Atomic? {
      assert NoneDead(s) && NoDangling(s.heap);
      forall r, v | LiveRef(s.heap, s.white, r) && Holds(s.heap[r].body, v) ensures Live(s, v) {
        assert Points(s.heap, v);
      }
    }
  }

  /** A path of pointers from a root, weak and stale slots included. */
  ghost predicate Path(h: Heap, p: seq<Ref>) {
    && p != []
    && (forall i :: 0 <= i < |p| - 1 ==> p[i] in h && Holds(h[p[i]].body, Ptr(p[i + 1])))
  }

  lemma {:induction false} PathAlive(s: State, p: seq<Ref>)
    requires Inv(s) && Path(s.heap, p) && p[0] in RootSet(s)
    ensures LiveRef(s.heap, s.white, p[|p| - 1])
  {
    LiveInAllPhases(s);
    if |p| == 1 {
      RootAlive(s, p[0]);
    } else {
      var q := p[..|p| - 1];
      forall i | 0 <= i < |q| - 1 ensures q[i] in s.heap && Holds(s.heap[q[i]].body, Ptr(q[i + 1])) {
        assert q[i + 1] == p[i + 1];
      }
      PathAlive(s, q);
      assert Holds(s.heap[p[|p| - 2]].body, Ptr(p[|p| - 1]));
      assert Live(s, Ptr(p[|p| - 1]));
    }
  }

  lemma RootAlive(s: State, r: Ref)
    requires LiveRoots(s) && r in RootSet(s)
    ensures LiveRef(s.heap, s.white, r)
  {
    if r in RefsOf(s.mt) {
      assert Ptr(r) in s.mt && Live(s, Ptr(r));
    } else if r in RefsOf([s.registry]) {
      assert Ptr(r) == s.registry;
    }
  }

  /** What is neither dead nor freed. */
  function LiveSet(s: State): set<Ref> {
    set r | r in s.heap && !IsDead(s.white, s.heap[r].colour)
  }

  lemma LiveSetClosed(s: State, strings: bool)
    requires LiveClosed(s)
    ensures Closed(s.heap, LiveSet(s), strings)
  {
    forall r | r in LiveSet(s) && r in s.heap ensures ClosedAt(s.heap, LiveSet(s), s.heap[r].body, strings) {
      forall v | StrongHolds(s.heap[r].body, v) || EntryHolds(s.heap[r].body, v) ensures In(LiveSet(s), v) {
        HeldSomewhere(s.heap[r].body, v);
        assert Live(s, v);
      }
      if s.heap[r].body.Table? {
        forall n | n in s.heap[r].body.nodes ensures In(LiveSet(s), n.key) && In(LiveSet(s), n.val) {
          assert Holds(s.heap[r].body, n.key) && Holds(s.heap[r].body, n.val);
          assert Live(s, n.key) && Live(s, n.val);
        }
      }
    }
  }

  // ----- one sweep step ---------------------------------------------------------------------------------

  function CurList(s: State): seq<Ref> {
    match s.phase
    case SwpAllGc => s.allgc
    case SwpFinObj => s.finobj
    case SwpToBeFnz => s.tobefnz
    case _ => []
  }

  function WithList(s: State, l: seq<Ref>): State {
    match s.phase
    case SwpAllGc => s.(allgc := l)
    case SwpFinObj => s.(finobj := l)
    case SwpToBeFnz => s.(tobefnz := l)
    case _ => s
  }

  predicate Sweeping(p: Phase) { p.SwpAllGc? || p.SwpFinObj? || p.SwpToBeFnz? }

  /** `sweeplist` from position `at` over the next `k` elements of the current list. */
  function SweptState(s: State, at: nat, k: nat): State
    requires Sweeping(s.phase) && at + k <= |CurList(s)|
  {
    var l := CurList(s);
    var part := l[at..at + k];
    var live := Survivors(s.heap, s.white, part);
    WithList(s, l[..at] + live + l[at + k..])
    .(heap := SweptHeap(s.heap, s.white, ToSet(part)),
      sweep := if at + k == |l| then None else Some(at + |live|))
  }

  lemma SliceCount(l: seq<Ref>, mid: seq<Ref>, at: nat, k: nat, r: Ref)
    requires at + k <= |l|
    ensures multiset(l[..at] + mid + l[at + k..])[r] + multiset(l[at..at + k])[r] == multiset(l)[r] + multiset(mid)[r]
  {
    assert l == l[..at] + l[at..at + k] + l[at + k..];
    assert multiset(l) == multiset(l[..at]) + multiset(l[at..at + k]) + multiset(l[at + k..]);
  }

  lemma OwnersWith(s: State, l: seq<Ref>, r: Ref)
    requires Sweeping(s.phase)
    ensures Owners(WithList(s, l))[r] + multiset(CurList(s))[r] == Owners(s)[r] + multiset(l)[r]
  {
  }

  lemma OwnersOf(s: State, s': State)
    requires s' == s.(heap := s'.heap, sweep := s'.sweep)
    ensures Owners(s') == Owners(s)
  {
  }

  lemma SweptCount(s: State, s': State, part: seq<Ref>, at: nat, k: nat, r: Ref)
    requires Sweeping(s.phase) && at + k <= |CurList(s)| && s' == SweptState(s, at, k) && part == CurList(s)[at..at + k]
    ensures Owners(s')[r] + multiset(part)[r] == Owners(s)[r] + multiset(Survivors(s.heap, s.white, part))[r]
  {
    hide SweptHeap, Survivors, Owners, WithList;
    var l := CurList(s);
    var live := Survivors(s.heap, s.white, part);
    SliceCount(l, live, at, k, r);
    OwnersWith(s, l[..at] + live + l[at + k..], r);
    OwnersOf(WithList(s, l[..at] + live + l[at + k..]), s');
  }

  lemma SweptOwners(s: State, at: nat, k: nat)
    requires Sweeping(s.phase) && at + k <= |CurList(s)| && OwnInv(s)
    ensures OwnInv(SweptState(s, at, k))
  {
    hide Owners, SweptState, Survivors, SweptHeap;
    var part, s' := CurList(s)[at..at + k], SweptState(s, at, k);
    SurvivorsIn(s.heap, s.white, part);
    SweptKeys(s, at, k);
    forall r ensures Owners(s')[r] == (if r in s'.heap then 1 else 0) {
      SweptCount(s, s', part, at, k, r);
      PartOwned(s, at, k, r);
    }
  }

  lemma SweptKeys(s: State, at: nat, k: nat)
    requires Sweeping(s.phase) && at + k <= |CurList(s)|
    ensures forall r :: r in SweptState(s, at, k).heap <==>
              r in s.heap && !(r in CurList(s)[at..at + k] && DeadRef(s.heap, s.white, r))
  {
  }

  lemma PartOwned(s: State, at: nat, k: nat, r: Ref)
    requires Sweeping(s.phase) && at + k <= |CurList(s)|
    ensures multiset(CurList(s)[at..at + k])[r] <= Owners(s)[r]
  {
    hide SweptHeap, Survivors;
    var l := CurList(s);
    SliceCount(l, [], at, k, r);
    assert multiset(s.allgc)[r] <= Owners(s)[r] && multiset(s.finobj)[r] <= Owners(s)[r] && multiset(s.tobefnz)[r] <= Owners(s)[r];
  }

  lemma SweptLive(s: State, at: nat, k: nat)
    requires Sweeping(s.phase) && at + k <= |CurList(s)|
    ensures var s' := SweptState(s, at, k);
            && LiveSet(s') == LiveSet(s) && s'.heap.Keys <= s.heap.Keys && s'.white == s.white
            && (forall r :: r in s'.heap ==> s'.heap[r].body == s.heap[r].body)
            && (forall r :: r in s.heap && r !in s'.heap ==> DeadRef(s.heap, s.white, r))
            && (forall v :: Live(s, v) ==> Live(s', v))
            && (forall r :: r in s'.heap && s.heap[r].colour == White(s.white) ==> s'.heap[r].colour == White(s.white))
            && (forall r :: r in CurList(s)[at..at + k] && r in s'.heap ==> s'.heap[r].colour == White(s.white))
            && (forall r :: r !in CurList(s)[at..at + k] && r in s.heap ==> r in s'.heap && s'.heap[r] == s.heap[r])
  {
  }

  lemma SweptClosed(s: State, at: nat, k: nat)
    requires Sweeping(s.phase) && at + k <= |CurList(s)| && LiveClosed(s)
    ensures LiveClosed(SweptState(s, at, k))
  {
    hide SweptHeap, Survivors, SweptState;
    var s' := SweptState(s, at, k);
    SweptLive(s, at, k);
    forall r, v | LiveRef(s'.heap, s'.white, r) && Holds(s'.heap[r].body, v) ensures Live(s', v) {
      assert r in LiveSet(s');
      assert LiveRef(s.heap, s.white, r);
      assert Live(s, v);
    }
  }

  lemma SliceIn(l: seq<Ref>, mid: seq<Ref>, at: nat, k: nat)
    requires at + k <= |l| && forall r :: r in mid ==> r in l[at..at + k]
    ensures forall r :: r in l[..at] + mid + l[at + k..] ==> r in l
  {
  }

  lemma SweptLists(s: State, at: nat, k: nat)
    requires Sweeping(s.phase) && at + k <= |CurList(s)|
    ensures var s' := SweptState(s, at, k);
            && s'.mainthread == s.mainthread && s'.registry == s.registry && s'.mt == s.mt && s'.phase == s.phase
            && s'.fixedgc == s.fixedgc && s'.white == s.white && s'.stopped == s.stopped && s'.finnum == s.finnum
            && s'.bound == s.bound
            && (forall r :: r in s'.finobj ==> r in s.finobj) && (forall r :: r in s'.tobefnz ==> r in s.tobefnz)
  {
    hide SweptHeap, Survivors;
    SurvivorsIn(s.heap, s.white, CurList(s)[at..at + k]);
    SliceIn(CurList(s), Survivors(s.heap, s.white, CurList(s)[at..at + k]), at, k);
  }

  lemma SweptRoots(s: State, at: nat, k: nat)
    requires Sweeping(s.phase) && at + k <= |CurList(s)| && LiveRoots(s)
    ensures LiveRoots(SweptState(s, at, k))
  {
    hide SweptHeap, Survivors, SweptState;
    var s' := SweptState(s, at, k);
    SweptLive(s, at, k);
    SweptLists(s, at, k);
    forall r | r in s'.finobj + s'.tobefnz ensures LiveRef(s'.heap, s'.white, r) {
      assert r in s'.finobj || r in s'.tobefnz;
      assert r in s.finobj + s.tobefnz;
      assert r in LiveSet(s);
      assert r in LiveSet(s');
    }
    assert s.mainthread in LiveSet(s);
    assert s.mainthread in LiveSet(s');
  }

  /** The part of the list up to the new position is white. */
  lemma SweptPrefix(s: State, at: nat, k: nat)
    requires Sweeping(s.phase) && at + k <= |CurList(s)| && AllWhite(s, CurList(s)[..at])
    requires forall r :: r in CurList(s) ==> r in s.heap
    ensures SweptPart(SweptState(s, at, k), CurList(SweptState(s, at, k)))
  {
    hide SweptHeap, Survivors, AllWhite;
    var s', l := SweptState(s, at, k), CurList(s);
    var live := Survivors(s.heap, s.white, l[at..at + k]);
    WhiteStays(s, at, k, l[..at]);
    SurvivorsWhite(s, at, k);
    var l' := CurList(s');
    assert l'[..at + |live|] == l[..at] + live;
    AllWhitePlus(s', l[..at], live);
    if at + k == |l| { assert l'[..at + |live|] == l'; }
  }

  lemma AllWhitePlus(s: State, a: seq<Ref>, b: seq<Ref>)
    requires AllWhite(s, a) && AllWhite(s, b)
    ensures AllWhite(s, a + b)
  {
  }

  lemma SurvivorsWhite(s: State, at: nat, k: nat)
    requires Sweeping(s.phase) && at + k <= |CurList(s)|
    requires forall r :: r in CurList(s) ==> r in s.heap
    ensures AllWhite(SweptState(s, at, k), Survivors(s.heap, s.white, CurList(s)[at..at + k]))
  {
    hide SweptHeap, Survivors, SweptState;
    var part := CurList(s)[at..at + k];
    SurvivorsIn(s.heap, s.white, part);
    SweptLive(s, at, k);
    forall r | r in Survivors(s.heap, s.white, part) ensures r in SweptState(s, at, k).heap {
      assert r in part && r in CurList(s) && r in LiveSet(s);
    }
  }

  lemma SweptSwept(s: State, at: nat, k: nat)
    requires Sweeping(s.phase) && at + k <= |CurList(s)| && SweptSoFar(s) && s.sweep == Some(at)
    requires forall r :: r in CurList(s) ==> r in s.heap
    ensures SweptSoFar(SweptState(s, at, k))
  {
    hide SweptHeap, Survivors, AllWhite;
    SweptPrefix(s, at, k);
    if !s.phase.SwpAllGc? { WhiteStays(s, at, k, s.allgc); }
    if s.phase.SwpToBeFnz? { WhiteStays(s, at, k, s.finobj); }
  }

  lemma WhiteStays(s: State, at: nat, k: nat, l: seq<Ref>)
    requires Sweeping(s.phase) && at + k <= |CurList(s)| && AllWhite(s, l)
    ensures AllWhite(SweptState(s, at, k), l)
  {
    SweptLive(s, at, k);
    forall r | r in l ensures r in SweptState(s, at, k).heap { assert r in LiveSet(s); }
  }

  lemma OwnedIn(s: State, r: Ref)
    requires OwnInv(s)
    ensures r in s.allgc || r in s.finobj || r in s.tobefnz || r in s.fixedgc || r == s.mainthread <==> r in s.heap
  {
    assert Owners(s)[r] == (if r in s.heap then 1 else 0);
  }

  lemma SweptFixed(s: State, at: nat, k: nat)
    requires Sweeping(s.phase) && at + k <= |CurList(s)| && OwnInv(s) && FixedOK(s)
    requires s.mainthread in s.heap && s.heap[s.mainthread].body.Thread?
    ensures var s' := SweptState(s, at, k);
            FixedOK(s') && s'.mainthread in s'.heap && s'.heap[s'.mainthread].body.Thread?
  {
    hide SweptHeap, Survivors, LiveSet;
    SweptLists(s, at, k);
    SweptLive(s, at, k);
    forall r | r in s.fixedgc || r == s.mainthread ensures r !in CurList(s)[at..at + k] {
      assert Owners(s)[r] <= 1;
      assert multiset(CurList(s)[at..at + k])[r] <= multiset(CurList(s))[r] by { SliceCount(CurList(s), [], at, k, r); }
    }
  }

  /** One call of `sweeplist` keeps the invariant, and frees dead objects only. */
  lemma SweptInv(s: State, at: nat, k: nat)
    requires Inv(s) && Sweeping(s.phase) && s.sweep == Some(at) && at + k <= |CurList(s)|
    ensures Inv(SweptState(s, at, k)) && LiveSet(SweptState(s, at, k)) == LiveSet(s)
  {
    hide OwnInv, FixedOK, LiveClosed, LiveRoots, SweptSoFar, LiveSet;
    forall r | r in CurList(s) ensures r in s.heap { OwnedIn(s, r); }
    SweptOwners(s, at, k);
    SweptLive(s, at, k);
    SweptClosed(s, at, k);
    SweptRoots(s, at, k);
    SweptLists(s, at, k);
    SweptSwept(s, at, k);
    SweptFixed(s, at, k);
    SurvivorsIn(s.heap, s.white, CurList(s)[at..at + k]);
  }
}
