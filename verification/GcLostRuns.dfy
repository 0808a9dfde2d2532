/** Runs from the initial state that end with a live object referring to a freed one. */
module GcLostRuns {
  import opened Options
  import opened GcHeap
  import opened GcState
  import opened GcPaint
  import opened GcWalk
  import opened GcSettle
  import opened GcEphemeron
  import opened GcAtomic
  import opened GcComplete
  import opened GcWeak
  import opened GcSweep
  import opened GcPhases
  import opened GcFinalize
  import opened GcStep
  import opened GcCycle
  import opened GcMutator
  import opened GcObjects
  import opened GcStores
  import opened Collector
  import GcRun
  import opened GcLost

  // ----- collections without a step of the program ----------------------------------------------

  /** The first step of a collection marks what the registry holds. */
  lemma FirstMarked(p: State, t: seq<State>, L: Ref, B: Bound)
    requires Inv(p) && p.phase.Pause? && Running(t, AllPhases() - {Pause}, L, B, false) && t[0] == p
    requires t[|t| - 1].phase in AllPhases() - {Pause}
    ensures var c := t[|t| - 1];
            && InCycle(p, c, L, B) && c.phase.Propagate? && Marked(c.heap, c.registry) && Inv(c) && SameNames(p, c)
            && c.tobefnz == p.tobefnz && KeptBodies(p, c) && c.bound == B
  {
    hide Inv, InCycle, Gentle, Exact, Kept, Closer, KeptBodies;
    FirstStep(p, t, L, B, false);
    assert |t| > 1 && Stepped(t[0], t[1], L, B, false);
    GentleKept(p, t[1]);
  }

  /** Everything is still allocated, with its contents trimmed at most. */
  ghost predicate KeptBodies(s: State, c: State) {
    LiveSet(s) <= LiveSet(c) && forall r :: r in c.heap ==> r in s.heap && Trimmed(s.heap[r].body, c.heap[r].body)
  }

  lemma GentleKept(s: State, c: State)
    requires Gentle(s, c)
    ensures KeptBodies(s, c) && Inv(c) && SameNames(s, c)
  {
    hide Inv, LiveSet;
  }

  lemma KeptTrans(a: State, b: State, c: State)
    requires KeptBodies(a, b) && KeptBodies(b, c)
    ensures KeptBodies(a, c)
  {
    hide LiveSet;
    forall r | r in c.heap ensures r in a.heap && Trimmed(a.heap[r].body, c.heap[r].body) {
      TrimmedTrans(a.heap[r].body, b.heap[r].body, c.heap[r].body);
    }
  }

  lemma KeptRefl(s: State)
    ensures KeptBodies(s, s)
  {
    forall r | r in s.heap ensures Trimmed(s.heap[r].body, s.heap[r].body) { }
  }

  /** Propagation up to the atomic phase. */
  lemma {:induction false} MarkRun(t: seq<State>, L: Ref, B: Bound)
    requires Running(t, {Atomic, CallFin}, L, B, false) && t[0].phase.Propagate? && Marked(t[0].heap, t[0].registry)
    ensures var c := t[|t| - 1];
            && (c.phase.Propagate? || c.phase.Atomic?) && Marked(c.heap, c.registry) && SameNames(t[0], c)
            && (c.phase.Atomic? ==> c.gray == []) && KeptBodies(t[0], c)
  {
    hide Inv, Gentle, Exact, Kept, Closer, KeptBodies;
    if |t| == 1 {
      KeptRefl(t[0]);
    } else {
      MarkRun(t[..|t| - 1], L, B);
      var m, c := t[|t| - 2], t[|t| - 1];
      GentleKept(m, c);
      KeptTrans(t[0], m, c);
      if m.registry.Ptr? { assert m.registry.r in MarkedSet(m.heap); }
    }
  }

  // ----- the lost metatable ---------------------------------------------------------------------------

  /** The bodies the run begins with: "__mode", "kv", a metatable with that entry, and a table under it. */
  ghost predicate Tables(h: Heap) {
    && h.Keys == {0, 1, 2, 3, 4} && h[0].body.Thread? && h[1].body.Str? && h[2].body.Str?
    && h[3].body == Table(Strong, Nil, [], [Node(Ptr(1), Ptr(2))])
    && h[4].body == Table(AllWeak, Ptr(3), [], [])
  }

  method BuildTables() returns (g: GlobalState)
    ensures fresh(g) && Inv(g.Snap()) && g.gcstate.Pause? && Tables(g.heap) && g.registry == Ptr(4) && g.mainthread == 0
  {
    hide Inv, LiveSet, Tables;
    g := BuildObjects();
    Fill(g);
    RestLive(g.Snap());
    TablesHave(g.heap);
    g.SetRoots(Ptr(4), []);
  }

  method BuildObjects() returns (g: GlobalState)
    ensures fresh(g) && Inv(g.Snap()) && g.gcstate.Pause? && g.heap.Keys == {0, 1, 2, 3, 4} && g.mainthread == 0
    ensures g.heap[0].body.Thread? && g.heap[1].body.Str? && g.heap[2].body.Str?
    ensures g.heap[3].body == Table(Strong, Nil, [], [Node(Nil, Nil)]) && g.heap[4].body == Table(AllWeak, Nil, [], [])
  {
    hide Inv, LiveSet, Blank, Fresh;
    g := NewGlobalState();
    BlankBodies();
    Allocate(g, 1, Str);
    Allocate(g, 2, Str);
    Allocate(g, 3, Table(Strong, Nil, [], [Node(Nil, Nil)]));
    Allocate(g, 4, Table(AllWeak, Nil, [], []));
  }

  method NewGlobalState() returns (g: GlobalState)
    ensures fresh(g) && Inv(g.Snap()) && g.gcstate.Pause? && g.heap.Keys == {0} && g.mainthread == 0
    ensures g.heap[0].body == Thread([], 0) && g.finobj == [] && g.tobefnz == [] && g.allgc == [] && g.mt == [] && g.registry == Nil
    ensures g.fixedgc == []
  {
    hide Inv, LiveSet;
    g := new GlobalState(0, 0);
  }

  lemma BlankBodies()
    ensures Blank(Str) && Blank(Table(Strong, Nil, [], [Node(Nil, Nil)])) && Blank(Table(AllWeak, Nil, [], []))
    ensures Blank(Table(Strong, Nil, [], [])) && Blank(Udata(Nil, Nil))
  {
  }

  /** A new object between two collections. */
  method Allocate(g: GlobalState, r: Ref, b: Body)
    requires Inv(g.Snap()) && g.gcstate.Pause? && r !in g.heap && Blank(b)
    modifies g
    ensures Inv(g.Snap()) && g.gcstate.Pause? && g.heap.Keys == old(g.heap).Keys + {r} && g.heap[r].body == b
    ensures forall q :: q in old(g.heap) ==> g.heap[q].body == old(g.heap)[q].body
    ensures g.registry == old(g.registry) && g.mainthread == old(g.mainthread) && g.finobj == old(g.finobj)
    ensures g.tobefnz == old(g.tobefnz) && g.allgc == [r] + old(g.allgc) && g.fixedgc == old(g.fixedgc) && g.mt == old(g.mt)
  {
    hide Inv, LiveSet, Blank;
    g.NewObj(r, b);
  }

  /** The mode entry of the metatable, and the metatable of the table. */
  method Fill(g: GlobalState)
    requires Inv(g.Snap()) && g.gcstate.Pause? && g.heap.Keys == {0, 1, 2, 3, 4} && g.mainthread == 0
    requires g.heap[0].body.Thread? && g.heap[1].body.Str? && g.heap[2].body.Str?
    requires g.heap[3].body == Table(Strong, Nil, [], [Node(Nil, Nil)]) && g.heap[4].body == Table(AllWeak, Nil, [], [])
    modifies g
    ensures Inv(g.Snap()) && g.gcstate.Pause? && Tables(g.heap) && g.mainthread == 0
  {
    hide Inv, LiveSet, CanWrite, NoWeakMeta;
    RestLive(g.Snap());
    GcRun.PutNode(g, 3, 0, Node(Ptr(1), Nil), Ptr(1));
    RestLive(g.Snap());
    GcRun.PutNode(g, 3, 0, Node(Ptr(1), Ptr(2)), Ptr(2));
    RestLive(g.Snap());
    GcRun.MetaWrite(g.Snap(), 4, Ptr(3));
    WeakAtRest(g.Snap(), 4, g.heap[4].body.(meta := Ptr(3)), Ptr(3));
    g.StoreForward(4, g.heap[4].body.(meta := Ptr(3)), Ptr(3));
  }

  lemma RestLive(s: State)
    requires Inv(s) && s.phase.Pause?
    ensures LiveSet(s) == s.heap.Keys && forall r :: r in s.heap ==> LiveRef(s.heap, s.white, r)
  {
    RestAllLive(s);
    forall r | r in s.heap ensures LiveRef(s.heap, s.white, r) { assert r in LiveSet(s); }
  }

  lemma WeakAtRest(s: State, o: Ref, b: Body, v: Value)
    requires s.phase.Pause? && o in s.heap && s.heap[o].body.Table?
    ensures NoWeakMeta(s, o, b, v)
  {
  }

  lemma TablesKept(s: State, c: State)
    requires KeptBodies(s, c) && Tables(s.heap) && LiveSet(s) == s.heap.Keys
    ensures Tables(c.heap)
  {
    assert c.heap.Keys == s.heap.Keys by {
      forall r | r in s.heap ensures r in c.heap { assert r in LiveSet(s) && r in LiveSet(c); }
    }
    var n := Node(Ptr(1), Ptr(2));
    assert Trimmed(s.heap[3].body, c.heap[3].body) && Trimmed(s.heap[4].body, c.heap[4].body);
    assert c.heap[3].body.nodes == [n] by { assert |c.heap[3].body.nodes| == 1 && c.heap[3].body.nodes[0] == n; }
    assert Trimmed(s.heap[0].body, c.heap[0].body) && Trimmed(s.heap[1].body, c.heap[1].body) && Trimmed(s.heap[2].body, c.heap[2].body);
  }

  lemma VisitedNow(s: State, o: Ref)
    requires Inv(s) && s.phase.Atomic? && s.gray == [] && o in s.heap && AllWeakTable(s.heap[o].body) && !s.heap[o].colour.White?
    ensures Visited(s, o) && LiveSet(s) == s.heap.Keys && NoDangling(s.heap) && RootSet(s) <= s.heap.Keys
    ensures forall r :: r in s.finobj ==> r in s.heap
  {
    hide OwnInv, FixedOK, Closed, CoverInv, LinksOK;
    InvNoneDead(s);
    LiveAll(s);
  }

  /** A table with weak keys and values, held by the registry, gets a new metatable while the collector is
      about to end its mark: the metatable is freed and the table keeps referring to it. */
  method MetatableRun() returns (g: GlobalState, o: Ref, m: Ref)
    ensures fresh(g) && o in g.heap && g.registry == Ptr(o) && g.heap[o].body.Table?
    ensures g.heap[o].body.meta == Ptr(m) && m !in g.heap
  {
    hide Inv, LiveSet, Tables, InCycle, Running, Least, SeenHeap, AllMarks, Visited, BoundOK, KeptBodies;
    g := BuildTables();
    ghost var p := g.Snap();
    RestLive(p);
    assert 0 in p.heap by { TablesHave(p.heap); }
    GcRun.PauseBound(p, 0);
    WideBound(p);
    ghost var B := Everything(g.heap);
    ghost var t := g.RunTilState(0, AllPhases() - {Pause}, false, B);
    FirstMarked(p, t, 0, B);
    ghost var q := g.Snap();
    t := g.RunTilState(0, {Phase.Atomic, CallFin}, false, B);
    MarkRun(t, 0, B);
    ghost var c := g.Snap();
    KeptTrans(p, q, c);
    TablesKept(p, c);
    TablesHave(c.heap);
    VisitedNow(c, 4);
    o, m := 4, 5;
    NewMetatable(g, o, m);
    LoseMetatable(g, 0, o, m);
  }

  lemma TablesHave(h: Heap)
    requires Tables(h)
    ensures 0 in h && 1 in h && 2 in h && 4 in h && 5 !in h && AllWeakTable(h[4].body)
  {
  }

  lemma WideBound(s: State)
    requires BoundOK(GcRun.Widest(s), Everything(s.heap))
    ensures BoundOK(s, Everything(s.heap))
  {
    SameRootSet(s, GcRun.Widest(s));
  }

  /** A new table with the same mode entry; only the C stack refers to it. */
  method NewMetatable(g: GlobalState, o: Ref, m: Ref)
    requires Inv(g.Snap()) && g.gcstate.Atomic? && Visited(g.Snap(), o) && m !in g.heap && 0 in g.heap && m != 0
    requires 1 in g.heap && 2 in g.heap && LiveSet(g.Snap()) == g.heap.Keys && NoDangling(g.heap)
    requires RootSet(g.Snap()) <= g.heap.Keys && forall r :: r in g.finobj ==> r in g.heap
    modifies g
    ensures Inv(g.Snap()) && g.gcstate.Atomic? && Visited(g.Snap(), o) && g.registry == old(g.registry) && 0 in g.heap
    ensures m in g.heap && g.heap[m].body.Table? && g.heap[m].colour.White?
    ensures m !in Least(SeenHeap(g.heap, {o}), AllMarks(g.Snap(), 0), false)
  {
    hide Inv, LiveSet, Least, SeenHeap, AllMarks, NoDangling, RootSet;
    ghost var s := g.Snap();
    BlankBodies();
    g.NewObj(m, Table(Strong, Nil, [], [Node(Nil, Nil)]));
    AllLive(g.Snap());
    GcRun.PutNode(g, m, 0, Node(Ptr(1), Nil), Ptr(1));
    AllLive(g.Snap());
    GcRun.PutNode(g, m, 0, Node(Ptr(1), Ptr(2)), Ptr(2));
    SameRootSet(s, g.Snap());
    Unreferenced(s, g.Snap(), o, m);
  }

  lemma AllLive(s: State)
    requires Inv(s) && KeepInvariant(s.phase)
    ensures LiveSet(s) == s.heap.Keys && forall r :: r in s.heap ==> LiveRef(s.heap, s.white, r)
  {
    InvNoneDead(s);
    LiveAll(s);
    forall r | r in s.heap ensures LiveRef(s.heap, s.white, r) { assert r in LiveSet(s); }
  }

  /** Nothing that existed before a new object refers to it. */
  lemma Unreferenced(s: State, c: State, o: Ref, m: Ref)
    requires NoDangling(s.heap) && m !in s.heap && m != 0 && c.heap.Keys == s.heap.Keys + {m} && c.heap[m].colour.White?
    requires forall r :: r in s.heap ==> c.heap[r].body == s.heap[r].body
    requires RootSet(c) == RootSet(s) <= s.heap.Keys && c.finobj == s.finobj && forall r :: r in s.finobj ==> r in s.heap
    ensures m !in Least(SeenHeap(c.heap, {o}), AllMarks(c, 0), false)
  {
    hide Least, RootSet;
    var S := s.heap.Keys + {0};
    var h := SeenHeap(c.heap, {o});
    forall r | r in S && r in h ensures ClosedAt(h, S, h[r].body, false) {
      ApartFrom(s.heap, r, c.heap, h[r].body, S);
    }
    assert AllMarks(c, 0) <= S;
    LeastBelow(h, AllMarks(c, 0), false, S);
  }

  lemma ApartFrom(h: Heap, r: Ref, c: Heap, b: Body, S: set<Ref>)
    requires NoDangling(h) && h.Keys <= S && (r !in h || (r in h && (b == h[r].body || b == Seen(h[r].body))))
    requires r in h
    ensures forall g: Heap :: ClosedAt(g, S, b, false)
  {
    forall g: Heap ensures ClosedAt(g, S, b, false) {
      forall v | StrongHolds(b, v) || EntryHolds(b, v) ensures In(S, v) {
        HeldSomewhere(b, v);
        if v.Ptr? { assert Holds(h[r].body, v) && Points(h, v); }
      }
      if b.Table? {
        forall n | n in b.nodes ensures In(S, n.key) && In(S, n.val) {
          assert Holds(h[r].body, n.key) && Holds(h[r].body, n.val);
          assert Points(h, n.key) && Points(h, n.val);
        }
      }
    }
  }

  // ----- the lost referent --------------------------------------------------------------------------------

  const COUNT: nat := 1024

  /** Main thread, metatable, a table, and `n` userdata with that metatable of which the first holds the table. */
  ghost predicate Objects(h: Heap, n: nat) {
    && (forall r: Ref :: r in h <==> r < 3 + n)
    && h[0].body == Thread([], 0) && h[1].body == Table(Strong, Nil, [], []) && h[2].body == Table(Strong, Nil, [], [])
    && forall r :: 3 <= r < 3 + n ==> h[r].body == if r == 3 then Udata(Ptr(1), Ptr(2)) else Udata(Ptr(1), Nil)
  }

  /** They wait for their finalizers, the youngest first. */
  ghost predicate Waiting(l: seq<Ref>, n: nat) {
    |l| == n && forall i :: 0 <= i < n ==> l[i] == 2 + n - i
  }

  ghost predicate Built(s: State, n: nat) {
    && Inv(s) && s.phase.Pause? && Objects(s.heap, n) && Waiting(s.finobj, n) && s.tobefnz == []
    && s.registry == Ptr(1) && s.mainthread == 0 && s.mt == [] && s.fixedgc == []
  }

  method BuildUserdata() returns (g: GlobalState)
    ensures fresh(g) && Built(g.Snap(), COUNT)
  {
    hide Built;
    g := BuildNone();
    var n := 0;
    while n < COUNT
      invariant n <= COUNT && Built(g.Snap(), n)
    {
      AddUserdata(g, n);
      n := n + 1;
    }
  }

  method BuildNone() returns (g: GlobalState)
    ensures fresh(g) && Built(g.Snap(), 0)
  {
    hide Inv, LiveSet, Blank, Objects;
    g := NewGlobalState();
    BlankBodies();
    Allocate(g, 1, Table(Strong, Nil, [], []));
    Allocate(g, 2, Table(Strong, Nil, [], []));
    RestLive(g.Snap());
    g.SetRoots(Ptr(1), []);
    NoObjects(g.heap);
  }

  lemma NoObjects(h: Heap)
    requires h.Keys == {0, 1, 2} && h[0].body == Thread([], 0)
    requires h[1].body == Table(Strong, Nil, [], []) && h[2].body == Table(Strong, Nil, [], [])
    ensures Objects(h, 0)
  {
    forall r: Ref ensures r in h <==> r < 3 {
      assert r in h.Keys <==> r == 0 || r == 1 || r == 2;
    }
  }

  /** A userdata with a finalizer. */
  method AddUserdata(g: GlobalState, n: nat)
    requires Built(g.Snap(), n)
    modifies g
    ensures Built(g.Snap(), n + 1)
  {
    hide Inv, LiveSet, Objects, Waiting;
    var r := 3 + n;
    ghost var s0 := g.Snap();
    assert r !in g.heap && 1 in g.heap && 2 in g.heap by { ObjectsHave(g.heap, n); }
    PlaceUserdata(g, n, r);
    ghost var s := g.Snap();
    PlacedObjects(s0.heap, s.heap, n);
    RestLive(s);
    g.CheckFinalizer(r);
    RestLive(g.Snap());
    AddedOne(s, g.Snap(), n);
  }

  lemma ObjectsHave(h: Heap, n: nat)
    requires Objects(h, n)
    ensures 3 + n !in h && 1 in h && 2 in h
  {
  }

  method PlaceUserdata(g: GlobalState, n: nat, r: Ref)
    requires Inv(g.Snap()) && g.gcstate.Pause? && r !in g.heap && 1 in g.heap && 2 in g.heap
    modifies g
    ensures Inv(g.Snap()) && g.gcstate.Pause? && g.heap.Keys == old(g.heap).Keys + {r} && r in g.allgc
    ensures forall q :: q in old(g.heap) ==> g.heap[q].body == old(g.heap)[q].body
    ensures g.heap[r].body == if n == 0 then Udata(Ptr(1), Ptr(2)) else Udata(Ptr(1), Nil)
    ensures g.registry == old(g.registry) && g.mainthread == old(g.mainthread) && g.finobj == old(g.finobj)
    ensures g.tobefnz == old(g.tobefnz) && g.fixedgc == old(g.fixedgc) && g.mt == old(g.mt)
  {
    hide Inv, LiveSet, Blank;
    BlankBodies();
    Allocate(g, r, Udata(Nil, Nil));
    StoreUdata(g, r, Udata(Ptr(1), Nil), Ptr(1));
    if n == 0 {
      StoreUdata(g, r, Udata(Ptr(1), Ptr(2)), Ptr(2));
    }
  }

  lemma PlacedObjects(h: Heap, h': Heap, n: nat)
    requires Objects(h, n) && h'.Keys == h.Keys + {3 + n} && forall q :: q in h ==> h'[q].body == h[q].body
    requires h'[3 + n].body == if n == 0 then Udata(Ptr(1), Ptr(2)) else Udata(Ptr(1), Nil)
    ensures Objects(h', n + 1)
  {
    assert forall r :: r in h' <==> r in h || r == 3 + n;
  }

  method StoreUdata(g: GlobalState, r: Ref, b: Body, v: Value)
    requires Inv(g.Snap()) && g.gcstate.Pause? && r in g.heap && g.heap[r].body.Udata? && b.Udata? && v.Ptr? && v.r in g.heap
    requires b == g.heap[r].body.(umeta := v) || b == g.heap[r].body.(uv := v)
    modifies g
    ensures Inv(g.Snap()) && g.gcstate.Pause? && SameBut(old(g.heap), g.heap, r) && r in g.heap && g.heap[r].body == b
    ensures SameLists(old(g.Snap()), g.Snap())
  {
    hide Inv, LiveSet, CanWrite;
    RestLive(g.Snap());
    GcRun.MetaWrite(g.Snap(), r, v);
    g.StoreForward(r, b, v);
  }

  lemma AddedOne(s: State, c: State, n: nat)
    requires Objects(s.heap, n + 1) && Waiting(s.finobj, n) && s.tobefnz == [] && s.registry == Ptr(1) && s.mainthread == 0
    requires s.mt == [] && s.fixedgc == [] && LiveSet(s) == s.heap.Keys && LiveSet(c) == c.heap.Keys && LiveSet(c) == LiveSet(s)
    requires Inv(c) && c.phase.Pause? && c.finobj == [3 + n] + s.finobj && c.tobefnz == [] && c.registry == Ptr(1)
    requires c.mainthread == 0 && c.mt == [] && c.fixedgc == []
    requires forall r :: r in c.heap ==> r in s.heap && c.heap[r].body == s.heap[r].body
    ensures Built(c, n + 1)
  {
    hide Inv, LiveSet;
    assert forall r :: r in c.heap <==> r in s.heap;
  }

  /** What becomes of the objects with finalizers: those not reached are handed over when marking ends. */
  ghost predicate FinPart(p: State, c: State) {
    && c.registry == p.registry && c.mainthread == p.mainthread && c.mt == p.mt && c.fixedgc == p.fixedgc
    && if KeepInvariant(c.phase) then c.finobj == p.finobj && c.tobefnz == []
       else c.tobefnz == Without(p.finobj, ToSet(c.finobj)) && RefsMarked(c.heap, c.tobefnz) && c.finnum == 1
  }

  lemma FinBegin(p: State, c: State)
    requires c.phase.Propagate? && Gentle(p, c) && c.tobefnz == []
    ensures FinPart(p, c)
  {
    hide Inv, LiveSet;
  }

  lemma FinStep(p: State, m: State, c: State, L: Ref, B: Bound)
    requires FinPart(p, m) && Stepped(m, c, L, B, false) && KeepInvariant(m.phase)
    ensures FinPart(p, c) && (KeepInvariant(c.phase) || c.phase.SwpAllGc?)
  {
    hide Inv, Kept, Closer, LiveSet, Closed, Least, Trimmed, Found;
    assert [] + Without(p.finobj, ToSet(c.finobj)) == Without(p.finobj, ToSet(c.finobj));
  }

  /** All the objects are allocated and live, `n` of them wait for their finalizers, and the last is marked. */
  ghost predicate Pending(s: State, n: nat, f: nat) {
    && Inv(s) && LiveSet(s) == s.heap.Keys && Objects(s.heap, COUNT) && n <= COUNT && Waiting(s.tobefnz, n)
    && 3 in s.heap && !s.heap[3].colour.White? && s.finobj == [] && s.finnum == f
    && s.registry == Ptr(1) && s.mainthread == 0 && s.mt == [] && s.fixedgc == []
  }

  // how long the steps of a run go on

  predicate WhileMarking(n: nat, p: Phase) { KeepInvariant(p) }

  predicate BeforeLast(n: nat, p: Phase) { !p.SwpToBeFnz? }

  function Within(k: nat): (nat, Phase) -> bool { (n, p) => n < k }

  /** One `luaC_step` that marks everything, enters the sweep and runs the first finalizer. */
  method MarkUserdata(g: GlobalState)
    requires Built(g.Snap(), COUNT)
    modifies g
    ensures Pending(g.Snap(), COUNT - 1, 2) && g.gcstate.SwpAllGc?
  {
    hide Inv, LiveSet, BoundOK, Turns, Pending, SomeFinalized, KeepInvariant, Built;
    ghost var p := g.Snap();
    ghost var B := Bound({0, 1}, p.heap.Keys);
    BuiltReady(p);
    ghost var t := g.LuaStep(0, WhileMarking, B);
    MarkTurns(p, t, B);
    FinalizePending(t[|t| - 1], COUNT, 1);
  }

  lemma BuiltReady(p: State)
    requires Built(p, COUNT)
    ensures Inv(p) && 0 in LiveSet(p) && p.phase.Pause? && !KeepInvariant(p.phase) && BoundOK(p, Bound({0, 1}, p.heap.Keys))
  {
    hide Inv, LiveSet;
    ObjectsBound(p);
    RestLive(p);
  }

  lemma MarkTurns(p: State, t: seq<State>, B: Bound)
    requires Built(p, COUNT) && B == Bound({0, 1}, p.heap.Keys) && Turns(t, WhileMarking, 0, B) && t[0] == p
    ensures Pending(t[|t| - 1], COUNT, 1) && t[|t| - 1].phase.SwpAllGc?
  {
    hide Inv, InCycle, FinPart, Stepped, Built, Pending;
    var k := |t| - 1;
    MarkTurn(p, t, B, k);
    MarkedPending(p, t[k], B);
  }

  lemma {:induction false} MarkTurn(p: State, t: seq<State>, B: Bound, i: nat)
    requires Built(p, COUNT) && TurnsOn(t, WhileMarking, 0, B) && t[0] == p && 0 < i < |t|
    ensures InCycle(p, t[i], 0, B) && FinPart(p, t[i]) && (KeepInvariant(t[i].phase) || t[i].phase.SwpAllGc?)
  {
    hide Inv, InCycle, FinPart, Stepped, Objects, Waiting;
    assert Stepped(t[i - 1], t[i], 0, B, false);
    if i == 1 {
      CycleStart(p, t[1], 0, B, false);
      MarkFirst(p, t[1], B);
    } else {
      MarkTurn(p, t, B, i - 1);
      CycleStep(p, t[i - 1], t[i], 0, B, false);
      FinStep(p, t[i - 1], t[i], 0, B);
    }
  }

  lemma MarkFirst(p: State, c: State, B: Bound)
    requires p.phase.Pause? && Stepped(p, c, 0, B, false) && p.tobefnz == []
    ensures FinPart(p, c) && c.phase.Propagate?
  {
    hide Inv, Gentle, FinPart, Closer;
    FinBegin(p, c);
  }

  lemma ObjectsBound(p: State)
    requires Built(p, COUNT)
    ensures BoundOK(p, Bound({0, 1}, p.heap.Keys)) && 0 in p.heap
  {
    hide Inv;
    InvOwners(p);
    PauseHeap(p);
    SeenNone(p.heap);
    EverythingBounds(p.heap, p.blind);
    hide Closed, NoDangling;
    assert Closed(p.heap, {0, 1}, true);
    assert RefsOf([p.registry]) == {1} by { assert p.registry in [p.registry]; }
    assert RefsOf(p.mt) == {};
  }

  lemma MarkedPending(p: State, c: State, B: Bound)
    requires Built(p, COUNT) && B.now == {0, 1} && FinPart(p, c) && InCycle(p, c, 0, B) && c.phase.SwpAllGc?
    ensures Pending(c, COUNT, 1)
  {
    hide Inv, Least, Closed, Shrunk, LiveSet, Objects, CycleRoots, Found;
    var M :| Found(p, c, 0, B.now, M);
    FoundSorted(p, c, 0, B.now, M);
    NoneOf(p.finobj, ToSet(c.finobj));
    StillThere(p, c);
    SameObjects(p.heap, c.heap);
    LiveKeys(c);
    assert c.tobefnz[COUNT - 1] == 3 && 3 in c.tobefnz;
  }

  lemma LiveKeys(c: State)
    ensures LiveSet(c) <= c.heap.Keys
  {
  }

  lemma {:induction false} NoneOf(l: seq<Ref>, S: set<Ref>)
    requires forall r :: r in l ==> r !in S
    ensures Without(l, S) == l && Only(l, S) == []
  {
    if l != [] {
      var k := |l| - 1;
      assert l[k] in l;
      NoneOf(l[..k], S);
      assert l == l[..k] + [l[k]];
    }
  }

  /** Everything is reached, once the objects to finalize count. */
  lemma StillThere(p: State, c: State)
    requires Objects(p.heap, COUNT) && Waiting(p.finobj, COUNT) && p.registry == Ptr(1) && p.mainthread == 0
    requires Closed(p.heap, LiveSet(c), false) && CycleRoots(p, 0) <= LiveSet(c)
    ensures forall r :: r in p.heap ==> r in LiveSet(c) && r in c.heap
  {
    forall r | r in p.heap ensures r in LiveSet(c) {
      if r == 1 {
        assert p.registry in [p.registry] && 1 in RefsOf([p.registry]);
      } else if r == 2 {
        assert p.finobj[COUNT - 1] == 3 && 3 in ToSet(p.finobj);
        assert ClosedAt(p.heap, LiveSet(c), p.heap[3].body, false) && StrongHolds(p.heap[3].body, Ptr(2));
      } else if r >= 3 {
        assert p.finobj[COUNT + 2 - r] == r && r in ToSet(p.finobj);
      }
    }
  }

  lemma SameObjects(h: Heap, h': Heap)
    requires Objects(h, COUNT) && (forall r :: r in h ==> r in h') && forall r :: r in h' ==> r in h && Shrunk(h[r].body, h'[r].body)
    ensures Objects(h', COUNT)
  {
    assert Shrunk(h[0].body, h'[0].body) && Shrunk(h[1].body, h'[1].body) && Shrunk(h[2].body, h'[2].body);
    assert forall r :: r in h' <==> r in h;
    hide Trimmed;
    assert h'[0].body == h[0].body by { EmptyShrunk(h[0].body, h'[0].body); }
    assert h'[1].body == h[1].body by { EmptyShrunk(h[1].body, h'[1].body); }
    assert h'[2].body == h[2].body by { EmptyShrunk(h[2].body, h'[2].body); }
    forall r | 3 <= r < 3 + COUNT ensures h'[r].body == h[r].body {
      assert Shrunk(h[r].body, h'[r].body);
      EmptyShrunk(h[r].body, h'[r].body);
    }
  }

  lemma EmptyShrunk(b: Body, b': Body)
    requires Shrunk(b, b') && (b == Thread([], 0) || b == Table(Strong, Nil, [], []) || b.Udata?)
    ensures b' == b
  {
  }

  // ----- finalizers in a row -----------------------------------------------------------------------------------

  lemma PendingPop(s: State, n: nat, f: nat)
    requires Pending(s, n, f) && n > 1 && !(s.phase.SwpToBeFnz? && s.sweep == Some(1))
    ensures s.tobefnz[0] in s.heap && Finalizing(s) == Popped(s) && Pending(Popped(s), n - 1, f) && Popped(s).phase == s.phase
    ensures s.phase.SwpToBeFnz? && s.sweep.Some? && s.sweep.value > 0 ==> Popped(s).sweep == Some(s.sweep.value - 1)
    ensures s.sweep == Some(0) ==> Popped(s).sweep == s.sweep
  {
    hide Inv, LiveSet, Objects;
    PoppedInv(s);
    PopFacts(s);
    PoppedObjects(s.heap, Popped(s).heap);
  }

  lemma PoppedObjects(h: Heap, h': Heap)
    requires Objects(h, COUNT) && h'.Keys == h.Keys && forall r :: r in h ==> h'[r].body == h[r].body
    ensures Objects(h', COUNT)
  {
  }

  lemma {:induction false} PendingPops(s: State, n: nat, f: nat, k: nat)
    requires Pending(s, n, f) && k < n && (s.phase.SwpToBeFnz? ==> s.sweep.Some? && (s.sweep.value == 0 || k < s.sweep.value))
    ensures Pending(Finalized(s, k), n - k, f) && Finalized(s, k).phase == s.phase
    ensures s.phase.SwpToBeFnz? ==> Finalized(s, k).sweep == if s.sweep == Some(0) then s.sweep else Some(s.sweep.value - k)
    decreases k
  {
    hide Pending, Finalized;
    if k == 0 {
      FinalizedAll(s, 0);
    } else {
      var p := PendingNext(s, n, f, k);
      PendingPops(p, n - 1, f, k - 1);
    }
  }

  lemma PendingNext(s: State, n: nat, f: nat, k: nat) returns (p: State)
    requires Pending(s, n, f) && n > 1 && k > 0 && !(s.phase.SwpToBeFnz? && s.sweep == Some(1))
    ensures Pending(p, n - 1, f) && p.phase == s.phase && Finalized(s, k) == Finalized(p, k - 1)
    ensures s.phase.SwpToBeFnz? && s.sweep.Some? && s.sweep.value > 0 ==> p.sweep == Some(s.sweep.value - 1)
    ensures s.sweep == Some(0) ==> p.sweep == s.sweep
  {
    hide Pending, Finalizing, Popped, Finalized;
    PendingFirst(s, n, f);
    PendingPop(s, n, f);
    FinalizedMore(s, k);
    p := Popped(s);
  }

  lemma PendingFirst(s: State, n: nat, f: nat)
    requires Pending(s, n, f) && n > 0
    ensures |s.tobefnz| == n && s.tobefnz[0] in s.heap && s.finnum == f && Inv(s)
  {
    hide Inv, LiveSet;
  }

  /** All the finalizers of one step, when they end short of the sweep position. */
  lemma FinalizePending(s: State, n: nat, f: nat)
    requires Pending(s, n, f) && 0 < f < n && (s.phase.SwpToBeFnz? ==> s.sweep.Some? && (s.sweep.value == 0 || f < s.sweep.value))
    ensures Pending(SomeFinalized(s), n - f, 2 * f) && SomeFinalized(s).phase == s.phase
    ensures s.phase.SwpToBeFnz? ==> SomeFinalized(s).sweep == if s.sweep == Some(0) then s.sweep else Some(s.sweep.value - f)
  {
    hide Inv, LiveSet, Objects, Finalized;
    PendingPops(s, n, f, f);
    var d := Finalized(s, f);
    FinNumInv(d, SomeFinalized(s));
    MovedLiveSet(d, SomeFinalized(s));
  }

  lemma MovedLiveSet(d: State, d': State)
    requires d'.heap == d.heap && d'.white == d.white
    ensures LiveSet(d') == LiveSet(d)
  {
  }

  // ----- the sweep up to the objects to finalize ---------------------------------------------------------------

  /** The rest of the sweep of other objects, and two more finalizers. */
  method SweepOthers(g: GlobalState)
    requires Pending(g.Snap(), COUNT - 1, 2) && g.gcstate.SwpAllGc?
    modifies g
    ensures At(g.Snap(), COUNT - 3, 0, 4)
  {
    hide Inv, LiveSet, BoundOK, Turns, Pending, SomeFinalized;
    ghost var s := g.Snap();
    PendingLive(s, COUNT - 1, 2);
    ghost var t := g.LuaStep(0, BeforeLast, s.bound);
    ghost var k := |t| - 1;
    assert Pending(t[k], COUNT - 1, 2) && t[k].phase.SwpToBeFnz? && t[k].sweep == Some(0) by {
      hide *;
      OthersTurns(t, s.bound);
    }
    FinalizePending(t[k], COUNT - 1, 2);
  }

  lemma PendingLive(s: State, n: nat, f: nat)
    requires Pending(s, n, f)
    ensures Inv(s) && 0 in LiveSet(s)
  {
    hide Inv, LiveSet;
  }

  lemma OthersTurns(t: seq<State>, B: Bound)
    requires Turns(t, BeforeLast, 0, B) && Pending(t[0], COUNT - 1, 2) && t[0].phase.SwpAllGc?
    ensures var c := t[|t| - 1]; Pending(c, COUNT - 1, 2) && c.phase.SwpToBeFnz? && c.sweep == Some(0)
  {
    hide Inv, Stepped, Pending;
    OthersTurn(t, B, |t| - 1);
  }

  lemma {:induction false} OthersTurn(t: seq<State>, B: Bound, i: nat)
    requires TurnsOn(t, BeforeLast, 0, B) && Pending(t[0], COUNT - 1, 2) && t[0].phase.SwpAllGc? && i < |t|
    ensures Pending(t[i], COUNT - 1, 2) && (t[i].phase.SwpAllGc? || t[i].phase.SwpFinObj? || (t[i].phase.SwpToBeFnz? && t[i].sweep == Some(0)))
  {
    hide Inv, Stepped, Pending;
    if i > 0 {
      OthersTurn(t, B, i - 1);
      assert Stepped(t[i - 1], t[i], 0, B, false);
      SweptPending(t[i - 1], t[i], COUNT - 1, 2, B);
    }
  }

  /** A sweep step on one of the other lists. */
  lemma SweptPending(s: State, c: State, n: nat, f: nat, B: Bound)
    requires Pending(s, n, f) && n > 0 && Stepped(s, c, 0, B, false) && (s.phase.SwpAllGc? || s.phase.SwpFinObj?)
    ensures Pending(c, n, f) && (c.phase == s.phase || c.phase == NextPhase(s.phase))
    ensures c.phase != s.phase && c.phase.SwpToBeFnz? ==> c.sweep == Some(0)
  {
    hide Inv, LiveSet, Objects, Closer, SweptState;
    LiveKeys(c);
    GentleObjects(s, c);
    assert s.tobefnz[n - 1] == 3 && 3 in s.tobefnz;
  }

  /** No step but the one that ends marking frees any of the objects. */
  lemma GentleObjects(s: State, c: State)
    requires Gentle(s, c) && LiveSet(s) == s.heap.Keys && Objects(s.heap, COUNT) && LiveSet(c) <= c.heap.Keys
    ensures c.heap.Keys == s.heap.Keys && Objects(c.heap, COUNT)
  {
    hide Inv, LiveSet, Trimmed;
    forall r | r in c.heap ensures Shrunk(s.heap[r].body, c.heap[r].body) { TrimmedIsShrunk(s.heap[r].body, c.heap[r].body); }
    SameObjects(s.heap, c.heap);
  }

  // ----- the sweep of the objects to finalize --------------------------------------------------------------------

  /** The sweep has passed `i` of them. */
  ghost predicate At(s: State, n: nat, i: nat, f: nat) {
    Pending(s, n, f) && s.phase.SwpToBeFnz? && s.sweep == Some(i)
  }

  lemma SweptAt(s: State, c: State, n: nat, i: nat, f: nat, B: Bound)
    requires At(s, n, i, f) && i + GCSWEEPMAX < n && Stepped(s, c, 0, B, false)
    ensures At(c, n, i + GCSWEEPMAX, f)
  {
    hide Inv, LiveSet, Objects, Closer, SweptHeap, Survivors;
    LiveKeys(c);
    GentleObjects(s, c);
    AllSurvive(s, s.tobefnz[i..i + GCSWEEPMAX]);
    SweptRest(s, i, GCSWEEPMAX);
  }

  lemma AllSurvive(s: State, part: seq<Ref>)
    requires Inv(s) && LiveSet(s) == s.heap.Keys && forall r :: r in part ==> r in s.tobefnz
    ensures Survivors(s.heap, s.white, part) == part
  {
    hide Inv;
    WaitingHere(s);
    forall r | r in part ensures !DeadRef(s.heap, s.white, r) { assert r in LiveSet(s); }
    SurvivorsAll(s.heap, s.white, part);
  }

  lemma SweptRest(s: State, i: nat, k: nat)
    requires s.phase.SwpToBeFnz? && i + k < |s.tobefnz| && Survivors(s.heap, s.white, s.tobefnz[i..i + k]) == s.tobefnz[i..i + k]
    requires 3 in s.heap && 3 !in s.tobefnz[i..i + k] && !s.heap[3].colour.White?
    ensures var c := SweptState(s, i, k);
            c.sweep == Some(i + k) && c.tobefnz == s.tobefnz && c.phase == s.phase && 3 in c.heap && !c.heap[3].colour.White?
  {
    hide Survivors;
    assert s.tobefnz == s.tobefnz[..i] + s.tobefnz[i..i + k] + s.tobefnz[i + k..];
  }

  /** One `luaC_step` with `k` steps of the sweep, up to its finalizers; `m` is the state before those. */
  method SweepSome(g: GlobalState, n: nat, i: nat, f: nat, k: nat) returns (ghost m: State)
    requires At(g.Snap(), n, i, f) && k > 0 && i + GCSWEEPMAX * k < n
    modifies g
    ensures At(m, n, i + GCSWEEPMAX * k, f) && g.Snap() == SomeFinalized(m)
  {
    hide Inv, LiveSet, BoundOK, Turns, Pending, SomeFinalized;
    ghost var s := g.Snap();
    PendingLive(s, n, f);
    ghost var t := g.LuaStep(0, Within(k), s.bound);
    SweepTurns(t, s.bound, n, i, f, k);
    m := t[|t| - 1];
  }

  lemma SweepTurns(t: seq<State>, B: Bound, n: nat, i: nat, f: nat, k: nat)
    requires Turns(t, Within(k), 0, B) && At(t[0], n, i, f) && k > 0 && i + GCSWEEPMAX * k < n
    ensures |t| == k + 1 && At(t[k], n, i + GCSWEEPMAX * k, f)
  {
    hide Inv, Stepped, Pending;
    if |t| - 1 > k {
      TurnOwed(t, Within(k), 0, B, k);
      assert false;
    }
    SweepTurn(t, B, n, i, f, k, |t| - 1);
  }

  lemma {:induction false} SweepTurn(t: seq<State>, B: Bound, n: nat, i: nat, f: nat, k: nat, q: nat)
    requires TurnsOn(t, Within(k), 0, B) && At(t[0], n, i, f) && q < |t| && q <= k && i + GCSWEEPMAX * k < n
    ensures At(t[q], n, i + GCSWEEPMAX * q, f)
  {
    hide Inv, Stepped, Pending;
    if q > 0 {
      SweepTurn(t, B, n, i, f, k, q - 1);
      assert Stepped(t[q - 1], t[q], 0, B, false);
      SweptAt(t[q - 1], t[q], n, i + GCSWEEPMAX * (q - 1), f, B);
    }
  }

  /** One such step of the sweep, with the finalizers. */
  method Round(g: GlobalState, n: nat, i: nat, f: nat)
    requires At(g.Snap(), n, i, f) && i + GCSWEEPMAX < n && 0 < f < n && f < i + GCSWEEPMAX
    modifies g
    ensures At(g.Snap(), n - f, i + GCSWEEPMAX - f, 2 * f)
  {
    hide Pending, SomeFinalized;
    ghost var m := SweepSome(g, n, i, f, 1);
    FinalizePending(m, n, f);
  }

  /** Until the last of the finalizers takes the object that the sweep stands behind: the finalizers double with
      every step. `s` is the state before that one. */
  method RoundsOfFinalizers(g: GlobalState) returns (ghost s: State)
    requires At(g.Snap(), COUNT - 3, 0, 4)
    modifies g
    ensures At(s, 2, 1, 512) && s.tobefnz[0] in s.heap && g.Snap() == Finalizing(s).(finnum := g.gcfinnum)
  {
    hide At, Finalized;
    Round(g, 1021, 0, 4);
    Round(g, 1017, 81, 8);
    Round(g, 1009, 158, 16);
    Round(g, 993, 227, 32);
    Round(g, 961, 280, 64);
    Round(g, 897, 301, 128);
    Round(g, 769, 258, 256);
    ghost var m := SweepSome(g, 513, 87, 512, 5);
    LastOfRow(m);
    s := Finalized(m, 511);
  }

  lemma LastOfRow(m: State)
    requires At(m, 513, 512, 512)
    ensures var s := Finalized(m, 511);
            At(s, 2, 1, 512) && s.tobefnz[0] in s.heap && SomeFinalized(m) == Finalizing(s).(finnum := SomeFinalized(m).finnum)
  {
    hide Pending, Finalizing, Finalized;
    PendingFirst(m, 513, 512);
    PendingPops(m, 513, 512, 511);
    PendingFirst(Finalized(m, 511), 2, 512);
    FinalizedLast(m, 511);
  }

  lemma {:induction false} FinalizedLast(m: State, k: nat)
    requires var s := Finalized(m, k); s.tobefnz != [] && s.tobefnz[0] in s.heap
    ensures Finalized(m, k + 1) == Finalizing(Finalized(m, k))
    decreases k
  {
    hide Finalizing;
    if k > 0 && m.tobefnz != [] && m.tobefnz[0] in m.heap { FinalizedLast(Finalizing(m), k - 1); }
  }

  /** A userdata whose finalizer has run and that the program keeps (the registry refers to it) holds a table.
      The next collection frees the table and leaves the userdata referring to it. */
  method UserdataRun() returns (g: GlobalState, x: Ref, y: Ref)
    ensures fresh(g) && x in g.heap && g.registry == Ptr(x) && g.heap[x].body.Udata?
    ensures g.heap[x].body.uv == Ptr(y) && y !in g.heap
  {
    hide Built, Pending, At, Resting, Carried, Least, SeenHeap, AllMarks, Shrunk, Leftover, Finalizing;
    g := BuildUserdata();
    MarkUserdata(g);
    SweepOthers(g);
    ghost var s := RoundsOfFinalizers(g);
    RowLast(s);
    CarryAway(g, s);
    ghost var p := g.Snap();
    // the finalizer of the last one has stored it
    g.registry := Ptr(3);
    Stored3(s, p, g.Snap());
    BlindCycle(g, 0);
    x, y := 3, 2;
    assert g.heap[3].body == Udata(Ptr(1), Ptr(2)) by { EmptyShrunk(p.heap[3].body, g.heap[3].body); }
  }

  lemma RowLast(s: State)
    requires At(s, 2, 1, 512)
    ensures Inv(s) && s.phase.SwpToBeFnz? && s.sweep == Some(1) && s.tobefnz != []
    ensures Leftover(s.(tobefnz := s.tobefnz[1..])) == {3} && Objects(s.heap, COUNT) && s.finobj == [] && s.mt == []
    ensures s.fixedgc == [] && s.mainthread == 0
  {
    hide Inv, Objects;
    assert s.tobefnz[1..] == [3] by { assert |s.tobefnz| == 2 && s.tobefnz[1] == 3; }
  }

  lemma Stored3(s: State, p: State, q: State)
    requires Carried(s, p, p.blind) && Resting(p) && p.blind == {3} && p.tobefnz == [] && q == p.(registry := Ptr(3))
    requires Objects(s.heap, COUNT) && s.finobj == [] && s.mt == [] && s.fixedgc == [] && s.mainthread == 0
    ensures Resting(q) && OwnInv(q) && 0 in q.heap && 2 in q.heap && 3 in q.heap
    ensures q.heap[3].body == Udata(Ptr(1), Ptr(2)) && !q.heap[2].body.Str?
    ensures 3 in Least(SeenHeap(q.heap, q.blind), AllMarks(q, 0), false)
    ensures 2 !in Least(SeenHeap(q.heap, q.blind), AllMarks(q, 0), false)
  {
    hide Least, LiveSet;
    RootStored(p, q);
    RestingMarks(q);
    OnlyThree(s, p, q);
  }

  lemma RootStored(p: State, q: State)
    requires Resting(p) && OwnInv(p) && 3 in p.blind && q == p.(registry := Ptr(3))
    ensures Resting(q) && OwnInv(q)
  {
    assert Owners(q) == Owners(p);
    forall r, v | LiveRef(q.heap, q.white, r) && Holds(q.heap[r].body, v) ensures Live(q, v) {
      assert LiveRef(p.heap, p.white, r);
      assert Live(p, v);
    }
    forall v | v in q.mt ensures Live(q, v) { assert Live(p, v); }
  }

  lemma OnlyThree(s: State, p: State, q: State)
    requires Carried(s, p, p.blind) && p.blind == {3} && p.tobefnz == [] && q == p.(registry := Ptr(3))
    requires Objects(s.heap, COUNT) && s.finobj == [] && s.mt == [] && s.fixedgc == [] && s.mainthread == 0
    requires MarkedSet(q.heap) == q.blind + ToSet(q.fixedgc)
    ensures 0 in q.heap && 2 in q.heap && 3 in q.heap && q.heap[3].body == Udata(Ptr(1), Ptr(2)) && !q.heap[2].body.Str?
    ensures 3 in Least(SeenHeap(q.heap, q.blind), AllMarks(q, 0), false)
    ensures 2 !in Least(SeenHeap(q.heap, q.blind), AllMarks(q, 0), false)
  {
    hide LiveSet, LiveClosed, LiveRoots, OwnInv, FixedOK;
    assert forall r :: r in q.heap <==> r in s.heap;
    assert RefsOf([q.registry]) == {3} by { assert q.registry in [q.registry]; }
    assert RefsOf(q.mt) == {} && AllMarks(q, 0) == {0, 3};
    var h, S := SeenHeap(q.heap, {3}), q.heap.Keys - {2};
    assert Closed(h, S, false) by { ApartFromTwo(q.heap, S); }
    LeastBelow(h, {0, 3}, false, S);
    assert forall T :: Closed(h, T, false) && {0, 3} <= T ==> 3 in T;
  }

  lemma ApartFromTwo(h: Heap, S: set<Ref>)
    requires Objects(h, COUNT) && S == h.Keys - {2}
    ensures Closed(SeenHeap(h, {3}), S, false)
  {
    forall r | r in S && r in h ensures ClosedAt(h, S, if r in {3} then Seen(h[r].body) else h[r].body, false) { }
    SeenFrom(h, {3}, S, false);
  }
}
