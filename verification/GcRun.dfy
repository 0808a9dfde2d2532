/** Arbitrary interleavings of collector steps with what the program does. */
module GcRun {
  import opened Options
  import opened GcHeap
  import opened GcState
  import opened GcPaint
  import opened GcWalk
  import opened GcSettle
  import opened GcEphemeron
  import opened GcAtomic
  import opened GcComplete
  import opened GcSweep
  import opened GcPhases
  import opened GcFinalize
  import opened GcStep
  import opened GcCycle
  import opened GcMutator
  import opened GcObjects
  import opened GcStores
  import opened Collector

  datatype Kind = NewString | NewClosure(n: nat) | NewTable(mode: Mode, narr: nat, nhash: nat) | NewThread(size: nat) | NewUdata

  datatype Op =
    | New(r: Ref, kind: Kind)
    | SetArr(o: Ref, i: nat, v: Value)
    | SetEntry(o: Ref, i: nat, k: Value, v: Value)
    | SetMeta(o: Ref, v: Value)
    | SetUserValue(o: Ref, v: Value)
    | SetUpvalue(o: Ref, i: nat, v: Value)
    | SetStack(o: Ref, i: nat, v: Value)
    | SetTop(o: Ref, n: nat)
    | SetRoots(reg: Value, types: seq<Value>)
    | FixFirst
    | AddFinalizer(o: Ref)
    | Finalize
    | Reuse(r: Ref)
    | Step(L: Ref)
    | Full(L: Ref, isemergency: bool)

  function BlankBody(kind: Kind): Body {
    match kind
    case NewString => Str
    case NewClosure(n) => Closure(seq(n, _ => Nil))
    case NewTable(mode, narr, nhash) => Table(mode, Nil, seq(narr, _ => Nil), seq(nhash, _ => Node(Nil, Nil)))
    case NewThread(size) => Thread(seq(size, _ => Nil), 0)
    case NewUdata => Udata(Nil, Nil)
  }

  /** Who may be changed by the operation itself. */
  function Targets(op: Op): set<Ref> {
    match op
    case New(r, _) => {r}
    case SetArr(o, _, _) => {o}
    case SetEntry(o, _, _, _) => {o}
    case SetMeta(o, _) => {o}
    case SetUserValue(o, _) => {o}
    case SetUpvalue(o, _, _) => {o}
    case SetStack(o, _, _) => {o}
    case SetTop(o, _) => {o}
    case _ => {}
  }

  /** What the program can always name. */
  function Named(s: State): set<Ref> {
    {s.mainthread} + RefsOf([s.registry]) + RefsOf(s.mt)
  }

  /** A collector step: whatever was reachable is still there, with its contents. */
  ghost predicate Survived(s: State, s': State, L: Ref) {
    && Least(s.heap, Named(s) + {L}, false) <= LiveSet(s')
    && forall r :: r in s'.heap ==> r in s.heap && Shrunk(s.heap[r].body, s'.heap[r].body)
  }

  /** A step of the program: nothing live dies and only its target changes. */
  ghost predicate Untouched(s: State, s': State, targets: set<Ref>) {
    && LiveSet(s) <= LiveSet(s')
    && forall r :: r in LiveSet(s) && r !in targets ==> r in s'.heap && s'.heap[r].body == s.heap[r].body
  }

  /** The operands are live and of the right kind. */
  predicate Allowed(s: State, op: Op) {
    var h, w := s.heap, s.white;
    match op
    case New(r, _) => r !in h
    case SetArr(o, i, v) => LiveRef(h, w, o) && h[o].body.Table? && i < |h[o].body.arr| && LiveValue(h, w, v)
    case SetEntry(o, i, k, v) =>
      LiveRef(h, w, o) && h[o].body.Table? && i < |h[o].body.nodes| && LiveValue(h, w, k) && LiveValue(h, w, v)
    case SetMeta(o, v) =>
      LiveRef(h, w, o) && LiveValue(h, w, v) &&
      (h[o].body.Udata? || (h[o].body.Table? && !(h[o].body.mode.AllWeak? && LosesMeta(s, o, v))))
    case SetUserValue(o, v) => LiveRef(h, w, o) && LiveValue(h, w, v) && h[o].body.Udata?
    case SetUpvalue(o, i, v) => LiveRef(h, w, o) && LiveValue(h, w, v) && h[o].body.Closure? && i < |h[o].body.vals|
    case SetStack(o, i, v) => LiveRef(h, w, o) && LiveValue(h, w, v) && h[o].body.Thread? && i < |h[o].body.stack|
    case SetTop(o, _) => LiveRef(h, w, o) && h[o].body.Thread?
    case SetRoots(reg, types) => LiveValue(h, w, reg) && forall v :: v in types ==> LiveValue(h, w, v)
    case FixFirst =>
      s.allgc != [] && LiveRef(h, w, s.allgc[0]) && h[s.allgc[0]].body.Str? && !(s.phase.SwpAllGc? && s.sweep == Some(1))
    case AddFinalizer(o) => LiveRef(h, w, o) && !h[o].body.Str?
    case Finalize => CanFinalize(s)
    case Reuse(r) => r in h && h[r].body.Str?
    case Step(L) => LiveRef(h, w, L)
    case Full(L, _) => LiveRef(h, w, L)
  }

  /** The case in which storing a metatable goes wrong, see GcLost. */
  predicate LosesMeta(s: State, o: Ref, v: Value) {
    && KeepInvariant(s.phase) && o in s.heap && !s.heap[o].colour.White? && o !in s.gray && o !in s.grayagain
    && !Marked(s.heap, v)
  }

  /** The body of the target afterwards. */
  function Result(s: State, op: Op): Body
    requires Allowed(s, op) && Targets(op) != {}
  {
    match op
    case New(_, kind) => BlankBody(kind)
    case SetArr(o, i, v) => var b := s.heap[o].body; b.(arr := b.arr[i := v])
    case SetEntry(o, i, k, v) => var b := s.heap[o].body; b.(nodes := b.nodes[i := Node(k, v)])
    case SetMeta(o, v) => var b := s.heap[o].body; if b.Udata? then b.(umeta := v) else b.(meta := v)
    case SetUserValue(o, v) => var b := s.heap[o].body; b.(uv := v)
    case SetUpvalue(o, i, v) => Closure(s.heap[o].body.vals[i := v])
    case SetStack(o, i, v) => var b := s.heap[o].body; b.(stack := b.stack[i := v])
    case SetTop(o, n) => var b := s.heap[o].body; b.(top := n)
    case _ => Str
  }

  /** What a step of the program does: only the target changes, to what was stored; lists and roots change
      only as the operation says. */
  ghost predicate Stored(s: State, op: Op, s': State) {
    && Untouched(s, s', Targets(op))
    && (forall o :: o in Targets(op) ==> LiveRef(s'.heap, s'.white, o) && Allowed(s, op) && s'.heap[o].body == Result(s, op))
    && match op
       case New(r, _) => s'.allgc == [r] + s.allgc && SameRootsAnd(s, s', s.finobj, s.fixedgc)
       case SetRoots(reg, types) => s'.registry == reg && s'.mt == types && s'.finobj == s.finobj && s'.fixedgc == s.fixedgc
       case FixFirst =>
         s.allgc != [] && s'.allgc == s.allgc[1..] && SameRootsAnd(s, s', s.finobj, [s.allgc[0]] + s.fixedgc)
       case AddFinalizer(o) =>
         o !in s'.allgc && SameRootsAnd(s, s', if o in s.allgc then [o] + s.finobj else s.finobj, s.fixedgc)
       case Finalize =>
         s.tobefnz != [] && s'.tobefnz == s.tobefnz[1..] && s'.allgc == [s.tobefnz[0]] + s.allgc
         && SameRootsAnd(s, s', s.finobj, s.fixedgc)
       case Reuse(r) => LiveRef(s'.heap, s'.white, r) && SameLists(s, s')
       case _ => SameLists(s, s')
  }

  ghost predicate SameRootsAnd(s: State, s': State, finobj: seq<Ref>, fixedgc: seq<Ref>) {
    && s'.finobj == finobj && s'.fixedgc == fixedgc
    && s'.mainthread == s.mainthread && s'.registry == s.registry && s'.mt == s.mt
  }

  /** What each operation does when its operands are live; otherwise nothing happens. */
  ghost predicate Did(s: State, op: Op, s': State) {
    && Inv(s')
    && if !Allowed(s, op) then s' == s else
       match op
       case Step(L) => Survived(s, s', L) && Stepped(Widest(s), s', L, Everything(s.heap), false)
       case Full(L, isemergency) => Survived(s, s', L) && s'.phase.Pause? && FullyCollected(s, s', L, isemergency)
       case _ => Stored(s, op, s')
  }

  /** With the program running, anything allocated may get marked. */
  function Widest(s: State): State { s.(bound := Everything(s.heap)) }

  // ----- lemmas ---------------------------------------------------------------------------------

  lemma LeastMono(h: Heap, a: set<Ref>, b: set<Ref>, strings: bool)
    requires a <= b
    ensures Least(h, a, strings) <= Least(h, b, strings)
  {
  }

  lemma StepSurvives(s: State, s': State, L: Ref, B: Bound, emergency: bool)
    requires Inv(s) && Stepped(s, s', L, B, emergency) && L in LiveSet(s)
    ensures Survived(s, s', L)
  {
    hide Inv, LiveSet, Closed, Shrunk, Trimmed, Closer, Least;
    LiveInAllPhases(s);
    RootsLive(s);
    if s.phase.Atomic? {
      LeastBelow(s.heap, Named(s) + {L}, false, LiveSet(s'));
    } else {
      LiveInAllPhases(s);
      LiveSetClosed(s, false);
      LeastBelow(s.heap, (Named(s) + {L}), false, LiveSet(s));
      forall r | r in s'.heap ensures r in s.heap && Shrunk(s.heap[r].body, s'.heap[r].body) {
        TrimmedIsShrunk(s.heap[r].body, s'.heap[r].body);
      }
    }
  }

  lemma RootsLive(s: State)
    requires LiveRoots(s)
    ensures Named(s) <= LiveSet(s)
  {
    forall r | r in Named(s) ensures r in LiveSet(s) {
      assert r in RootSet(s);
      RootAlive(s, r);
    }
  }

  lemma FullSurvives(s: State, s': State, L: Ref, isemergency: bool)
    requires Inv(s') && s'.phase.Pause? && FullyCollected(s, s', L, isemergency)
    ensures Survived(s, s', L)
  {
    hide Inv, LiveSet, Shrunk, Least;
    RestAllLive(s');
    LeastMono(s.heap, Named(s) + {L}, FullRoots(s, L, isemergency), false);
  }

  lemma PauseBound(s: State, L: Ref)
    requires Inv(s) && s.phase.Pause?
    ensures BoundOK(Widest(s), Everything(s.heap))
  {
    hide Inv, LiveSet, Closed;
    PauseHeap(s);
    InvOwners(s);
    EverythingBounds(s.heap, s.blind);
    SameRootSet(s, Widest(s));
  }

  /** Whatever the program and the collector did, every path of pointers from a root leads to an
      allocated object that no sweep will free. */
  lemma AlwaysSafe(ops: seq<Op>, t: seq<State>, i: nat, p: seq<Ref>)
    requires Performed(ops, t) && i < |t| && Path(t[i].heap, p) && p[0] in RootSet(t[i])
    ensures p[|p| - 1] in t[i].heap && !IsDead(t[i].white, t[i].heap[p[|p| - 1]].colour)
  {
    hide Inv;
    if i > 0 { assert Did(t[i - 1], ops[i - 1], t[i]); }
    PathAlive(t[i], p);
  }

  ghost predicate PathSafe(s: State) {
    forall p :: Path(s.heap, p) && p[0] in RootSet(s) ==> LiveRef(s.heap, s.white, p[|p| - 1])
  }

  ghost predicate Performed(ops: seq<Op>, t: seq<State>) {
    |t| == |ops| + 1 && Inv(t[0]) && forall i :: 0 <= i < |ops| ==> Did(t[i], ops[i], t[i + 1])
  }

  // ----- writes ---------------------------------------------------------------------------------------

  lemma ArrWrite(s: State, o: Ref, i: nat, v: Value)
    requires LiveRef(s.heap, s.white, o) && s.heap[o].body.Table? && i < |s.heap[o].body.arr| && LiveValue(s.heap, s.white, v)
    ensures CanWrite(s, o, s.heap[o].body.(arr := s.heap[o].body.arr[i := v]), [v])
  {
  }

  lemma NodeWrite(s: State, o: Ref, i: nat, n: Node, v: Value)
    requires LiveRef(s.heap, s.white, o) && s.heap[o].body.Table? && i < |s.heap[o].body.nodes| && LiveValue(s.heap, s.white, v)
    requires n == Node(v, Nil) || n == Node(s.heap[o].body.nodes[i].key, v)
    ensures CanWrite(s, o, s.heap[o].body.(nodes := s.heap[o].body.nodes[i := n]), [v])
  {
    var b := s.heap[o].body;
    assert b.nodes[i] in b.nodes;
  }

  lemma MetaWrite(s: State, o: Ref, v: Value)
    requires LiveRef(s.heap, s.white, o) && LiveValue(s.heap, s.white, v)
    ensures s.heap[o].body.Table? ==> CanWrite(s, o, s.heap[o].body.(meta := v), [v])
    ensures s.heap[o].body.Udata? ==> CanWrite(s, o, s.heap[o].body.(umeta := v), [v])
    ensures s.heap[o].body.Udata? ==> CanWrite(s, o, s.heap[o].body.(uv := v), [v])
  {
  }

  lemma ClosureWrite(s: State, o: Ref, i: nat, v: Value)
    requires LiveRef(s.heap, s.white, o) && LiveValue(s.heap, s.white, v)
    requires s.heap[o].body.Closure? && i < |s.heap[o].body.vals|
    ensures CanWrite(s, o, Closure(s.heap[o].body.vals[i := v]), [v])
  {
  }

  lemma ThreadWrite(s: State, o: Ref, i: nat, v: Value, n: nat)
    requires LiveRef(s.heap, s.white, o) && LiveValue(s.heap, s.white, v) && s.heap[o].body.Thread?
    ensures i < |s.heap[o].body.stack| ==> CanWrite(s, o, s.heap[o].body.(stack := s.heap[o].body.stack[i := v]), [v])
    ensures CanWrite(s, o, s.heap[o].body.(top := n), [Nil])
  {
  }

  // ----- execution -----------------------------------------------------------------------------------------

  /** Perform one operation, provided its operands are live (whatever the program can reach is). */
  method Perform(g: GlobalState, op: Op)
    requires Inv(g.Snap())
    modifies g
    ensures Did(old(g.Snap()), op, g.Snap())
  {
    hide Inv, LiveSet, Survived, Stored, Stepped, FullyCollected;
    var allowed := IsAllowed(g, op);
    if allowed {
      match op
      case Step(L) => CollectorStep(g, L);
      case Full(L, isemergency) => CollectAll(g, L, isemergency);
      case New(r, kind) => CreateObject(g, r, kind);
      case SetArr(o, i, v) => StoreInArray(g, o, i, v);
      case SetEntry(o, i, k, v) => StoreInNode(g, o, i, k, v);
      case SetMeta(o, v) => StoreMeta(g, o, v);
      case SetUserValue(o, v) => StoreUserValue(g, o, v);
      case SetUpvalue(o, i, v) => StoreUpvalue(g, o, i, v);
      case SetStack(o, i, v) => StoreInStack(g, o, i, v);
      case SetTop(o, n) => StoreTop(g, o, n);
      case SetRoots(reg, types) => StoreRoots(g, reg, types);
      case FixFirst => FixFirstObject(g);
      case AddFinalizer(o) => GiveFinalizer(g, o);
      case Finalize => FinalizeFirst(g);
      case Reuse(r) => ReuseOld(g, r);
    }
  }

  method IsAllowed(g: GlobalState, op: Op) returns (b: bool)
    ensures b == Allowed(g.Snap(), op)
  {
    var s := State(g.heap, g.allgc, g.finobj, g.tobefnz, g.fixedgc, g.mainthread, g.registry, g.mt, g.gray, g.grayagain, g.weak,
                   g.allweak, g.ephemeron, g.gcstate, g.currentwhite, g.sweepgc, g.gcfinnum, g.held, false, {}, Bound({}, {}));
    return Allowed(s, op);
  }

  method CollectorStep(g: GlobalState, L: Ref)
    requires Inv(g.Snap()) && LiveRef(g.heap, g.currentwhite, L)
    modifies g
    ensures Inv(g.Snap()) && Survived(old(g.Snap()), g.Snap(), L)
    ensures Stepped(Widest(old(g.Snap())), g.Snap(), L, Everything(old(g.heap)), false)
  {
    hide Inv, Survived, Stepped, BoundOK, Least;
    ghost var s := g.Snap();
    WidenInv(s);
    g.bound := Everything(g.heap);
    ghost var w := g.Snap();
    if g.gcstate.Pause? { PauseBound(s, L); }
    g.SingleStep(L, false, Everything(g.heap));
    SteppedInv(w, g.Snap(), L, Everything(s.heap), false);
    StepSurvives(w, g.Snap(), L, Everything(s.heap), false);
    SurvivedWide(s, g.Snap(), L);
  }

  lemma SurvivedWide(s: State, s': State, L: Ref)
    requires Survived(Widest(s), s', L)
    ensures Survived(s, s', L)
  {
    hide Least, LiveSet, Shrunk;
  }

  method CollectAll(g: GlobalState, L: Ref, isemergency: bool)
    requires Inv(g.Snap()) && LiveRef(g.heap, g.currentwhite, L)
    modifies g
    ensures Inv(g.Snap()) && g.gcstate.Pause? && Survived(old(g.Snap()), g.Snap(), L)
    ensures FullyCollected(old(g.Snap()), g.Snap(), L, isemergency)
  {
    hide Inv, Survived, FullyCollected, Least;
    ghost var s := g.Snap();
    g.FullGc(L, isemergency);
    FullSurvives(s, g.Snap(), L, isemergency);
  }

  method CreateObject(g: GlobalState, r: Ref, kind: Kind)
    requires Inv(g.Snap()) && r !in g.heap
    modifies g
    ensures Inv(g.Snap()) && Stored(old(g.Snap()), New(r, kind), g.Snap())
  {
    hide Inv, LiveSet;
    ghost var s := g.Snap();
    LiveKnown(s);
    g.NewObj(r, BlankBody(kind));
  }

  lemma LiveKnown(s: State)
    ensures forall r :: r in LiveSet(s) ==> r in s.heap
  {
  }

  /** A store that changed one live object and nothing else. */
  lemma StoredOne(s: State, op: Op, o: Ref, s': State)
    requires Allowed(s, op) && Targets(op) == {o} && !op.New? && LiveRef(s.heap, s.white, o)
    requires LiveSet(s') == LiveSet(s) && SameBut(s.heap, s'.heap, o) && SameLists(s, s')
    requires o in s'.heap && s'.heap[o].body == Result(s, op)
    ensures Stored(s, op, s')
  {
    assert o in LiveSet(s);
    assert o in LiveSet(s');
  }

  method StoreInArray(g: GlobalState, o: Ref, i: nat, v: Value)
    requires Inv(g.Snap()) && Allowed(g.Snap(), SetArr(o, i, v))
    modifies g
    ensures Inv(g.Snap()) && Stored(old(g.Snap()), SetArr(o, i, v), g.Snap())
  {
    hide Inv, LiveSet, Stored, CanWrite;
    ghost var s := g.Snap();
    ArrWrite(s, o, i, v);
    g.StoreBack(o, g.heap[o].body.(arr := g.heap[o].body.arr[i := v]), v);
    StoredOne(s, SetArr(o, i, v), o, g.Snap());
  }

  /** A new key, then its value: each store is followed by its own barrier. */
  method StoreInNode(g: GlobalState, o: Ref, i: nat, k: Value, v: Value)
    requires Inv(g.Snap()) && Allowed(g.Snap(), SetEntry(o, i, k, v))
    modifies g
    ensures Inv(g.Snap()) && Stored(old(g.Snap()), SetEntry(o, i, k, v), g.Snap())
  {
    hide Inv, LiveSet, Stored, CanWrite;
    ghost var s := g.Snap();
    PutNode(g, o, i, Node(k, Nil), k);
    ghost var m := g.Snap();
    LiveSame(s, m, o, v);
    PutNode(g, o, i, Node(k, v), v);
    StoredOne(s, SetEntry(o, i, k, v), o, g.Snap());
  }

  /** One store into a node, with its barrier. */
  method PutNode(g: GlobalState, o: Ref, i: nat, n: Node, v: Value)
    requires Inv(g.Snap()) && LiveRef(g.heap, g.currentwhite, o) && LiveValue(g.heap, g.currentwhite, v)
    requires g.heap[o].body.Table? && i < |g.heap[o].body.nodes| && (n == Node(v, Nil) || n == Node(g.heap[o].body.nodes[i].key, v))
    modifies g
    ensures Inv(g.Snap()) && LiveSet(g.Snap()) == LiveSet(old(g.Snap()))
    ensures o in g.heap && g.heap[o].body == old(g.heap[o].body.(nodes := g.heap[o].body.nodes[i := n]))
    ensures SameBut(old(g.heap), g.heap, o) && SameLists(old(g.Snap()), g.Snap()) && g.gcstate == old(g.gcstate)
    ensures !old(g.heap)[o].colour.Black? ==> g.Snap() == Wrote(old(g.Snap()), o, g.heap[o].body)
  {
    hide Inv, LiveSet, CanWrite;
    ghost var s := g.Snap();
    NodeWrite(s, o, i, n, v);
    g.StoreBack(o, g.heap[o].body.(nodes := g.heap[o].body.nodes[i := n]), v);
  }

  lemma LiveSame(s: State, m: State, o: Ref, v: Value)
    requires LiveSet(m) == LiveSet(s) && LiveRef(s.heap, s.white, o) && LiveValue(s.heap, s.white, v)
    ensures LiveRef(m.heap, m.white, o) && LiveValue(m.heap, m.white, v)
  {
    assert o in LiveSet(s);
    assert o in LiveSet(m);
    if v.Ptr? { assert v.r in LiveSet(s); assert v.r in LiveSet(m); }
  }

  /** `setmetatable`, guarded where the code falls short. */
  method StoreMeta(g: GlobalState, o: Ref, v: Value)
    requires Inv(g.Snap()) && Allowed(g.Snap(), SetMeta(o, v))
    modifies g
    ensures Inv(g.Snap()) && Stored(old(g.Snap()), SetMeta(o, v), g.Snap())
  {
    hide Inv, LiveSet, Stored, CanWrite;
    ghost var s := g.Snap();
    MetaWrite(s, o, v);
    var b := g.heap[o].body;
    g.StoreForward(o, if b.Table? then b.(meta := v) else b.(umeta := v), v);
    StoredOne(s, SetMeta(o, v), o, g.Snap());
  }

  method StoreUserValue(g: GlobalState, o: Ref, v: Value)
    requires Inv(g.Snap()) && Allowed(g.Snap(), SetUserValue(o, v))
    modifies g
    ensures Inv(g.Snap()) && Stored(old(g.Snap()), SetUserValue(o, v), g.Snap())
  {
    hide Inv, LiveSet, Stored, CanWrite;
    ghost var s := g.Snap();
    MetaWrite(s, o, v);
    g.StoreForward(o, g.heap[o].body.(uv := v), v);
    StoredOne(s, SetUserValue(o, v), o, g.Snap());
  }

  method StoreUpvalue(g: GlobalState, o: Ref, i: nat, v: Value)
    requires Inv(g.Snap()) && Allowed(g.Snap(), SetUpvalue(o, i, v))
    modifies g
    ensures Inv(g.Snap()) && Stored(old(g.Snap()), SetUpvalue(o, i, v), g.Snap())
  {
    hide Inv, LiveSet, Stored, CanWrite;
    ghost var s := g.Snap();
    ClosureWrite(s, o, i, v);
    g.StoreForward(o, Closure(g.heap[o].body.vals[i := v]), v);
    StoredOne(s, SetUpvalue(o, i, v), o, g.Snap());
  }

  method StoreInStack(g: GlobalState, o: Ref, i: nat, v: Value)
    requires Inv(g.Snap()) && Allowed(g.Snap(), SetStack(o, i, v))
    modifies g
    ensures Inv(g.Snap()) && Stored(old(g.Snap()), SetStack(o, i, v), g.Snap())
  {
    hide Inv, LiveSet, Stored, CanWrite;
    ghost var s := g.Snap();
    ThreadWrite(s, o, i, v, 0);
    g.StoreThread(o, g.heap[o].body.(stack := g.heap[o].body.stack[i := v]), v);
    StoredOne(s, SetStack(o, i, v), o, g.Snap());
  }

  method StoreTop(g: GlobalState, o: Ref, n: nat)
    requires Inv(g.Snap()) && Allowed(g.Snap(), SetTop(o, n))
    modifies g
    ensures Inv(g.Snap()) && Stored(old(g.Snap()), SetTop(o, n), g.Snap())
  {
    hide Inv, LiveSet, Stored, CanWrite;
    ghost var s := g.Snap();
    ThreadWrite(s, o, 0, Nil, n);
    g.StoreThread(o, g.heap[o].body.(top := n), Nil);
    StoredOne(s, SetTop(o, n), o, g.Snap());
  }

  method StoreRoots(g: GlobalState, reg: Value, types: seq<Value>)
    requires Inv(g.Snap()) && Allowed(g.Snap(), SetRoots(reg, types))
    modifies g
    ensures Inv(g.Snap()) && Stored(old(g.Snap()), SetRoots(reg, types), g.Snap())
  {
    hide Inv;
    g.SetRoots(reg, types);
  }

  method FixFirstObject(g: GlobalState)
    requires Inv(g.Snap()) && Allowed(g.Snap(), FixFirst)
    modifies g
    ensures Inv(g.Snap()) && Stored(old(g.Snap()), FixFirst, g.Snap())
  {
    hide Inv;
    g.Fix();
  }

  method GiveFinalizer(g: GlobalState, o: Ref)
    requires Inv(g.Snap()) && Allowed(g.Snap(), AddFinalizer(o))
    modifies g
    ensures Inv(g.Snap()) && Stored(old(g.Snap()), AddFinalizer(o), g.Snap())
  {
    hide Inv;
    g.CheckFinalizer(o);
  }

  method FinalizeFirst(g: GlobalState)
    requires Inv(g.Snap()) && CanFinalize(g.Snap())
    modifies g
    ensures Inv(g.Snap()) && Stored(old(g.Snap()), Finalize, g.Snap())
  {
    hide Inv, CanFinalize;
    ghost var s := g.Snap();
    FirstHere(s) by { assert s.tobefnz != [] by { CanIsSome(s); } }
    CanIsSome(s);
    g.UdataToFinalize();
  }

  lemma CanIsSome(s: State)
    requires CanFinalize(s)
    ensures s.tobefnz != []
  {
  }

  method ReuseOld(g: GlobalState, r: Ref)
    requires Inv(g.Snap()) && Allowed(g.Snap(), Reuse(r))
    modifies g
    ensures Inv(g.Snap()) && Stored(old(g.Snap()), Reuse(r), g.Snap())
  {
    hide Inv;
    g.ReuseString(r);
  }

  /** Any program, with collector steps anywhere in between. */
  method RunAll(g: GlobalState, ops: seq<Op>) returns (ghost t: seq<State>)
    requires Inv(g.Snap())
    modifies g
    ensures Performed(ops, t) && t[0] == old(g.Snap()) && t[|ops|] == g.Snap()
  {
    hide Inv, Did;
    t := [g.Snap()];
    var n := 0;
    while n < |ops|
      invariant n <= |ops| && Performed(ops[..n], t) && t[0] == old(g.Snap()) && t[n] == g.Snap() && Inv(g.Snap())
    {
      ghost var s := g.Snap();
      Perform(g, ops[n]);
      DidInv(s, ops[n], g.Snap());
      t := t + [g.Snap()];
      n := n + 1;
    }
    assert ops[..n] == ops;
  }

  lemma DidInv(s: State, op: Op, s': State)
    requires Did(s, op, s')
    ensures Inv(s')
  {
    hide Inv;
  }

  /** Any program from the very start: at every moment all that the roots lead to is allocated and safe. */
  method RunProgram(main: Ref, size: nat, ops: seq<Op>) returns (g: GlobalState, ghost t: seq<State>)
    ensures fresh(g) && Performed(ops, t) && t[0] == Fresh(main, size) && t[|ops|] == g.Snap()
    ensures forall i :: 0 <= i < |t| ==> PathSafe(t[i])
  {
    hide Inv, Did, Performed;
    g := new GlobalState(main, size);
    t := RunAll(g, ops);
    forall i | 0 <= i < |t| ensures PathSafe(t[i]) {
      forall p | Path(t[i].heap, p) && p[0] in RootSet(t[i]) ensures LiveRef(t[i].heap, t[i].white, p[|p| - 1]) {
        AlwaysSafe(ops, t, i, p);
      }
    }
  }
}
