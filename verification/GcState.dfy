/** Collector states as values, the invariants of the mark and sweep phases, and how marking moves
    from one state to the next. */
module GcState {
  import opened Options
  import opened GcHeap

  datatype Phase =
    | Propagate | Atomic | InsideAtomic | SwpAllGc | SwpFinObj | SwpToBeFnz | SwpEnd | CallFin | Pause

  /** A snapshot of the global state. `held` are the objects a running loop has taken off the
      collector's lists and still has to visit. `stopped` tells that the step that ends marking is
      running, so that no program runs before the sweep. `blind` are marked objects the collector will
      not visit again in this cycle although not all they lead to is marked; there are none unless
      something went wrong. `bound` only serves to state that marking is exact. */
  datatype State = State(
    heap: Heap,
    allgc: seq<Ref>, finobj: seq<Ref>, tobefnz: seq<Ref>, fixedgc: seq<Ref>,
    mainthread: Ref, registry: Value, mt: seq<Value>,
    gray: seq<Ref>, grayagain: seq<Ref>, weak: seq<Ref>, allweak: seq<Ref>, ephemeron: seq<Ref>,
    phase: Phase, white: bool, sweep: Option<nat>, finnum: nat,
    held: seq<Ref>, stopped: bool, blind: set<Ref>, bound: Bound)

  /** Closed sets that contain everything marked so far (`now`) and everything that will be marked in the
      whole cycle (`later`), which includes what waits for a finalizer. */
  datatype Bound = Bound(now: set<Ref>, later: set<Ref>)

  function Everything(h: Heap): Bound { Bound(h.Keys, h.Keys) }

  // ----- what the collector looks at -----------------------------------------------------------------

  /** Of an object that is not visited again: the entries of a table with weak keys and values, which the
      clearing passes inspect, and nothing else. */
  function Seen(b: Body): Body {
    match b
    case Table(AllWeak, _, arr, nodes) => Table(AllWeak, Nil, arr, nodes)
    case Str => Str
    case _ => Closure([])
  }

  function SeenHeap(h: Heap, blind: set<Ref>): Heap {
    map r | r in h :: if r in blind then h[r].(body := Seen(h[r].body)) else h[r]
  }

  lemma SeenNone(h: Heap)
    ensures SeenHeap(h, {}) == h
  {
  }

  lemma SeenSame(h: Heap, blind: set<Ref>)
    ensures SeenHeap(h, blind).Keys == h.Keys
    ensures forall v :: IsString(SeenHeap(h, blind), v) == IsString(h, v)
    ensures forall v :: Points(SeenHeap(h, blind), v) == Points(h, v)
    ensures forall r :: r in h && r !in blind ==> SeenHeap(h, blind)[r] == h[r]
    ensures forall r :: r in h && r in blind ==> SeenHeap(h, blind)[r] == h[r].(body := Seen(h[r].body))
  {
  }

  lemma SeenShrunk(h: Heap, h': Heap, blind: set<Ref>)
    requires ShrunkHeap(h, h')
    ensures ShrunkHeap(SeenHeap(h, blind), SeenHeap(h', blind))
  {
    forall r | r in h ensures Shrunk(SeenHeap(h, blind)[r].body, SeenHeap(h', blind)[r].body) {
      assert Shrunk(h[r].body, h'[r].body);
    }
  }

  lemma SeenDangling(h: Heap, blind: set<Ref>)
    requires NoDangling(h)
    ensures NoDangling(SeenHeap(h, blind))
  {
    var h' := SeenHeap(h, blind);
    forall r, v | r in h' && Holds(h'[r].body, v) ensures Points(h', v) {
      if v.Ptr? { assert Holds(h[r].body, v) && Points(h, v); }
    }
  }

  /** Closedness at one object, and from every object. */
  lemma SeenAt(h: Heap, blind: set<Ref>, S: set<Ref>, strings: bool, r: Ref)
    requires Closed(SeenHeap(h, blind), S, strings) && r in S && r in h
    ensures ClosedAt(h, S, if r in blind then Seen(h[r].body) else h[r].body, strings)
  {
    SeenSame(h, blind);
    hide IsString, SeenHeap;
    var b := SeenHeap(h, blind)[r].body;
    assert ClosedAt(SeenHeap(h, blind), S, b, strings);
    SameStrings(SeenHeap(h, blind), h, S, b, strings);
  }

  lemma SeenFrom(h: Heap, blind: set<Ref>, S: set<Ref>, strings: bool)
    requires forall r :: r in S && r in h ==> ClosedAt(h, S, if r in blind then Seen(h[r].body) else h[r].body, strings)
    ensures Closed(SeenHeap(h, blind), S, strings)
  {
    SeenSame(h, blind);
    hide IsString, SeenHeap, ClosedAt;
    forall r | r in S && r in SeenHeap(h, blind) ensures ClosedAt(SeenHeap(h, blind), S, SeenHeap(h, blind)[r].body, strings) {
      SameStrings(h, SeenHeap(h, blind), S, SeenHeap(h, blind)[r].body, strings);
    }
  }

  lemma SameStrings(h: Heap, h': Heap, S: set<Ref>, b: Body, strings: bool)
    requires ClosedAt(h, S, b, strings) && forall v :: IsString(h, v) == IsString(h', v)
    ensures ClosedAt(h', S, b, strings)
  {
    hide IsString;
  }
  predicate KeepInvariant(p: Phase) { p.Propagate? || p.Atomic? }

  predicate IsSweepPhase(p: Phase) { p.SwpAllGc? || p.SwpFinObj? || p.SwpToBeFnz? || p.SwpEnd? }

  predicate IsDead(white: bool, c: Colour) { c == White(!white) }

  function WhiteSet(h: Heap): set<Ref> {
    set r | r in h && h[r].colour.White?
  }

  // ----- what "visited" means ------------------------------------------------------------------

  /** Every slot of the object leads to a marked object. */
  ghost predicate Full(h: Heap, b: Body) {
    forall v :: Holds(b, v) ==> Marked(h, v)
  }

  ghost predicate KeysMarked(h: Heap, b: Body) {
    b.Table? ==> forall n :: n in b.nodes ==> Marked(h, n.key)
  }

  ghost predicate ValsMarked(h: Heap, b: Body) {
    b.Table? ==> forall n :: n in b.nodes ==> Marked(h, n.val)
  }

  /** The string keys of non-empty entries are marked. */
  ghost predicate StringKeys(h: Heap, b: Body) {
    b.Table? ==> forall n :: n in b.nodes && !n.val.Nil? && IsString(h, n.key) ==> Marked(h, n.key)
  }

  ghost predicate ArrMarked(h: Heap, b: Body) {
    b.Table? ==> forall v :: v in b.arr ==> Marked(h, v)
  }

  /** A marked object that needs no further traversal: black with marked slots, or gray on the weak
      list that will clean what it still holds. Threads count only inside the atomic phase, and weak
      tables only once the program is stopped: both are written without a barrier. */
  ghost predicate Settled(s: State, r: Ref)
    requires r in s.heap
  {
    var o := s.heap[r];
    match o.body
    case Str => true
    case Closure(_) => o.colour.Black? && Full(s.heap, o.body)
    case Udata(_, _) => o.colour.Black? && Full(s.heap, o.body)
    case Thread(_, _) => s.phase.InsideAtomic? && o.colour.Gray? && Full(s.heap, o.body)
    case Table(mode, meta, _, _) =>
      match mode
      case Strong => o.colour.Black? && Full(s.heap, o.body)
      case AllWeak => o.colour.Gray? && Marked(s.heap, meta) && r in s.allweak
      case WeakValues =>
        && s.stopped && o.colour.Gray? && Marked(s.heap, meta) && KeysMarked(s.heap, o.body)
        && (r in s.weak || Full(s.heap, o.body))
      case WeakKeys =>
        && s.stopped && o.colour.Gray? && Marked(s.heap, meta) && ArrMarked(s.heap, o.body)
        && (|| r in s.ephemeron
            || (r in s.allweak && ValsMarked(s.heap, o.body) && StringKeys(s.heap, o.body))
            || Full(s.heap, o.body))
  }

  /** Still waiting on a list, or settled, or given up. */
  ghost predicate Covered(s: State, r: Ref)
    requires r in s.heap
  {
    r in s.blind || r in s.gray || r in s.held || (!s.phase.InsideAtomic? && r in s.grayagain) || Settled(s, r)
  }

  /** How many gray lists each object is on. Inside the atomic phase `grayagain` has no meaning. */
  ghost function Links(s: State): multiset<Ref> {
    multiset(s.gray) + multiset(s.held) + multiset(s.weak) + multiset(s.allweak) + multiset(s.ephemeron)
    + (if s.phase.InsideAtomic? then multiset{} else multiset(s.grayagain))
  }

  /** An object is linked at most once (there is one `gclist` field), and only while gray. */
  ghost predicate LinksOK(s: State) {
    forall r :: r in Links(s) ==> Links(s)[r] == 1 && r in s.heap && s.heap[r].colour.Gray?
  }

  ghost predicate Visitable(b: Body) { b.Closure? || b.Table? || b.Thread? }

  predicate AllWeakTable(b: Body) { b.Table? && b.mode.AllWeak? }

  ghost predicate KindsOK(s: State) {
    && (forall r :: r in s.gray ==> r in s.heap && Visitable(s.heap[r].body) && r !in s.blind)
    && (forall r :: r in s.held ==> r in s.heap && Visitable(s.heap[r].body) && r !in s.blind)
    && (forall r :: r in s.weak ==>
          r in s.heap && s.heap[r].body.Table? && s.heap[r].body.mode.WeakValues? && r !in s.blind)
    && (forall r :: r in s.ephemeron ==>
          r in s.heap && s.heap[r].body.Table? && s.heap[r].body.mode.WeakKeys? && r !in s.blind)
    && (forall r :: r in s.allweak ==>
          r in s.heap && s.heap[r].body.Table? && (s.heap[r].body.mode.AllWeak? || (s.heap[r].body.mode.WeakKeys? && r !in s.blind)))
    && (!s.phase.InsideAtomic? ==> forall r :: r in s.grayagain ==>
          r in s.heap && Visitable(s.heap[r].body) && !AllWeakTable(s.heap[r].body) && r !in s.blind)
    && (forall r :: r in s.blind ==> r in s.heap && !s.heap[r].colour.White?)
  }

  /** Nothing carries the old white while marking. */
  ghost predicate NoneDead(s: State) {
    forall r :: r in s.heap ==> !IsDead(s.white, s.heap[r].colour)
  }

  ghost predicate Sound(s: State) {
    && Bounded(s.heap, s.blind, s.bound)
    && forall r :: r in s.heap && !s.heap[r].colour.White? ==> r in s.bound.now
  }

  ghost predicate Bounded(h: Heap, blind: set<Ref>, bound: Bound) {
    && Closed(SeenHeap(h, blind), bound.now, true) && Closed(SeenHeap(h, blind), bound.later, true)
    && bound.now <= bound.later
  }

  lemma BoundedShrunk(h: Heap, h': Heap, blind: set<Ref>, bound: Bound)
    requires ShrunkHeap(h, h') && Bounded(h, blind, bound)
    ensures Bounded(h', blind, bound)
  {
    hide Closed, SeenHeap;
    SeenShrunk(h, h', blind);
    ShrunkClosed(SeenHeap(h, blind), SeenHeap(h', blind), bound.now, true);
    ShrunkClosed(SeenHeap(h, blind), SeenHeap(h', blind), bound.later, true);
  }

  ghost predicate HeapInv(s: State) {
    NoDangling(s.heap) && NoneDead(s) && Sound(s)
  }

  ghost predicate ListInv(s: State) {
    LinksOK(s) && KindsOK(s)
  }

  ghost predicate CoverInv(s: State, skip: set<Ref>) {
    forall r :: r in s.heap && !s.heap[r].colour.White? && r !in skip ==> Covered(s, r)
  }

  /** The invariant while marking, except for the objects in `skip`, which are being visited. */
  ghost predicate MarkInv(s: State, skip: set<Ref>) {
    HeapInv(s) && ListInv(s) && CoverInv(s, skip)
  }

  // ----- the steps of marking --------------------------------------------------------------------

  ghost predicate Suffix(a: seq<Ref>, b: seq<Ref>) {
    |a| <= |b| && b[|b| - |a|..] == a
  }

  ghost predicate TrimmedHeap(h: Heap, h': Heap) {
    h'.Keys == h.Keys && forall r :: r in h ==> Trimmed(h[r].body, h'[r].body)
  }

  ghost predicate SameBodies(h: Heap, h': Heap) {
    h'.Keys == h.Keys && forall r :: r in h ==> h'[r].body == h[r].body
  }

  /** Marked objects stay marked; white ones keep their white or become marked. */
  ghost predicate Darker(h: Heap, h': Heap) {
    h'.Keys == h.Keys &&
    forall r :: r in h ==>
      h'[r].colour == h[r].colour || (h[r].colour.White? && !h'[r].colour.White?)
      || (!h[r].colour.White? && !h'[r].colour.White?)
  }

  /** Only marking happened: same objects, more colour, longer gray list. */
  ghost predicate Painted(s: State, s': State) {
    && s' == s.(heap := s'.heap, gray := s'.gray)
    && SameBodies(s.heap, s'.heap)
    && (forall r :: r in s.heap && !s.heap[r].colour.White? ==> s'.heap[r].colour == s.heap[r].colour)
    && (forall r :: r in s.heap && s.heap[r].colour.White? && s'.heap[r].colour.White? ==>
          s'.heap[r].colour == s.heap[r].colour)
    && Suffix(s.gray, s'.gray)
    && NewLinks(s, s')
    && Progress(s, s')
  }

  /** Marking uses up white objects; when it uses none, the gray list does not grow. */
  ghost predicate Progress(s: State, s': State) {
    && WhiteSet(s'.heap) <= WhiteSet(s.heap)
    && (WhiteSet(s'.heap) < WhiteSet(s.heap) || |s'.gray| <= |s.gray|)
  }

  /** Only objects that were white get linked. */
  ghost predicate NewLinks(s: State, s': State) {
    forall r :: r in Links(s') ==> r in Links(s) || (r in s.heap && s.heap[r].colour.White?)
  }

  /** Marking and traversal happened: bodies trimmed, more colour, weak lists longer. */
  ghost predicate Grew(s: State, s': State) {
    && s' == s.(heap := s'.heap, gray := s'.gray, grayagain := s'.grayagain, weak := s'.weak,
                allweak := s'.allweak, ephemeron := s'.ephemeron)
    && TrimmedHeap(s.heap, s'.heap)
    && Darker(s.heap, s'.heap)
    && Suffix(s.weak, s'.weak) && Suffix(s.allweak, s'.allweak) && Suffix(s.ephemeron, s'.ephemeron)
    && Progress(s, s')
  }

  lemma SuffixRefl(a: seq<Ref>)
    ensures Suffix(a, a)
  {
  }

  lemma SuffixTrans(a: seq<Ref>, b: seq<Ref>, c: seq<Ref>)
    requires Suffix(a, b) && Suffix(b, c)
    ensures Suffix(a, c)
  {
    assert c[|c| - |a|..] == c[|c| - |b|..][|b| - |a|..];
  }

  lemma PaintedTrans(a: State, b: State, c: State)
    requires Painted(a, b) && Painted(b, c)
    ensures Painted(a, c)
  {
    hide Links, WhiteSet;
    SuffixTrans(a.gray, b.gray, c.gray);
  }

  lemma PaintedGrew(a: State, b: State)
    requires Painted(a, b)
    ensures Grew(a, b)
  {
    forall r | r in a.heap ensures Trimmed(a.heap[r].body, b.heap[r].body) {
    }
  }

  lemma TrimmedTrans(a: Body, b: Body, c: Body)
    requires Trimmed(a, b) && Trimmed(b, c)
    ensures Trimmed(a, c)
  {
  }

  lemma GrewTrans(a: State, b: State, c: State)
    requires Grew(a, b) && Grew(b, c)
    ensures Grew(a, c)
  {
    hide Links, WhiteSet;
    SuffixTrans(a.weak, b.weak, c.weak);
    SuffixTrans(a.allweak, b.allweak, c.allweak);
    SuffixTrans(a.ephemeron, b.ephemeron, c.ephemeron);
    forall r | r in a.heap ensures Trimmed(a.heap[r].body, c.heap[r].body) {
      TrimmedTrans(a.heap[r].body, b.heap[r].body, c.heap[r].body);
    }
  }

  // ----- settledness only grows ---------------------------------------------------------------------

  lemma MarkedGrows(h: Heap, h': Heap, v: Value)
    requires Darker(h, h') && Marked(h, v)
    ensures Marked(h', v)
  {
  }

  lemma NodesGrow(h: Heap, h': Heap, b: Body, b': Body)
    requires Darker(h, h') && Shrunk(b, b')
    ensures KeysMarked(h, b) ==> KeysMarked(h', b')
    ensures ValsMarked(h, b) ==> ValsMarked(h', b')
    ensures ArrMarked(h, b) ==> ArrMarked(h', b')
  {
    if b.Table? {
      forall n' | n' in b'.nodes
        ensures KeysMarked(h, b) ==> Marked(h', n'.key)
        ensures ValsMarked(h, b) ==> Marked(h', n'.val)
      {
        var i :| 0 <= i < |b'.nodes| && b'.nodes[i] == n';
        assert ShrunkNode(b.nodes[i], n') && b.nodes[i] in b.nodes;
      }
      forall v | v in b'.arr && ArrMarked(h, b) ensures Marked(h', v) {
        var i :| 0 <= i < |b'.arr| && b'.arr[i] == v;
        assert b.arr[i] in b.arr;
      }
    }
  }

  lemma SettledGrows(s: State, s': State, r: Ref)
    requires r in s.heap && Settled(s, r)
    requires Darker(s.heap, s'.heap) && ShrunkHeap(s.heap, s'.heap)
    requires s'.heap[r].colour == s.heap[r].colour
    requires s'.phase == s.phase && (s.stopped ==> s'.stopped)
    requires r in s.weak ==> r in s'.weak
    requires r in s.allweak ==> r in s'.allweak
    requires r in s.ephemeron ==> r in s'.ephemeron
    ensures Settled(s', r)
  {
    var b, b' := s.heap[r].body, s'.heap[r].body;
    if Full(s.heap, b) {
      forall v | Holds(b', v) ensures Marked(s'.heap, v) {
        if v.Ptr? { MarkedGrows(s.heap, s'.heap, v); }
      }
    }
    NodesGrow(s.heap, s'.heap, b, b');
  }

  // ----- bookkeeping ---------------------------------------------------------------------------------

  /** The same objects wait in the same heap; lists may have been renamed, and entering the atomic phase
      or stopping the program only makes it easier to be settled. */
  ghost predicate Relisted(s: State, s': State) {
    && s'.heap == s.heap && s'.white == s.white && s'.blind == s.blind && (s.stopped ==> s'.stopped)
    && s'.weak == s.weak && s'.allweak == s.allweak && s'.ephemeron == s.ephemeron && Links(s') == Links(s)
    && (forall r :: Waits(s', r) == Waits(s, r))
    && (s'.phase.InsideAtomic? || (!s.phase.InsideAtomic? && s'.grayagain == s.grayagain))
  }

  ghost predicate Waits(s: State, r: Ref) {
    r in s.gray || r in s.held || (!s.phase.InsideAtomic? && r in s.grayagain)
  }

  lemma RelistedMark(s: State, s': State, skip: set<Ref>)
    requires Relisted(s, s') && MarkInv(s, skip) && (s'.bound == s.bound || Sound(s'))
    ensures MarkInv(s', skip)
  {
    hide NoDangling, Closed, Bounded, Full, KeysMarked, ArrMarked, ValsMarked, StringKeys, Marked, Links;
    forall r | Waits(s', r) ensures r in s.heap && Visitable(s.heap[r].body) && r !in s.blind {
      assert Waits(s, r);
    }
    forall r | r in s'.heap && !s'.heap[r].colour.White? && r !in skip ensures Covered(s', r) {
      assert Covered(s, r);
      assert Waits(s, r) == Waits(s', r);
    }
  }
}
