/** What the atomic phase needs beyond marking: clearing weak tables, and the closed sets that show
    that marking is complete. */
module GcAtomic {
  import opened GcHeap
  import opened GcState
  import opened GcPaint
  import opened GcWalk
  import opened GcSettle
  import opened GcEphemeron

  // ----- clearing ------------------------------------------------------------------------------

  /** Only string marks and table bodies changed; other objects changed neither colour nor kind. */
  ghost predicate Wiped(s: State, s': State) {
    && s' == s.(heap := s'.heap)
    && ShrunkHeap(s.heap, s'.heap)
    && SameButStrings(s.heap, s'.heap)
  }

  lemma WipedRefl(s: State)
    ensures Wiped(s, s)
  {
    forall r | r in s.heap ensures Shrunk(s.heap[r].body, s.heap[r].body) { }
  }

  lemma WipedTrans(a: State, b: State, c: State)
    requires Wiped(a, b) && Wiped(b, c)
    ensures Wiped(a, c)
  {
    forall r | r in a.heap ensures Shrunk(a.heap[r].body, c.heap[r].body) {
      ShrunkTrans(a.heap[r].body, b.heap[r].body, c.heap[r].body);
    }
  }

  lemma PaintedWiped(s: State, s': State)
    requires Painted(s, s') && OnlyStrings(s.heap, s'.heap) && s'.gray == s.gray
    ensures Wiped(s, s')
  {
    OnlyStringsSame(s, s');
    forall r | r in s.heap ensures Shrunk(s.heap[r].body, s'.heap[r].body) { }
  }

  lemma SetBodyWiped(s: State, o: Ref, b: Body)
    requires o in s.heap && Shrunk(s.heap[o].body, b)
    ensures Wiped(s, SetBody(s, o, b))
  {
    SetBodyHeap(s, o, b);
  }

  /** Bodies that change under `clearvalues` are those of listed tables whose values are weak. */
  ghost predicate WipedIn(s: State, s': State, l: set<Ref>) {
    Wiped(s, s') &&
    forall r :: r in s.heap && s'.heap[r].body != s.heap[r].body ==>
      r in l && s.heap[r].body.Table? && (s.heap[r].body.mode.WeakValues? || s.heap[r].body.mode.AllWeak?)
  }

  lemma WipedInTrans(a: State, b: State, c: State, l: set<Ref>)
    requires WipedIn(a, b, l) && WipedIn(b, c, l)
    ensures WipedIn(a, c, l)
  {
    WipedTrans(a, b, c);
    forall r | r in a.heap && c.heap[r].body != a.heap[r].body
      ensures r in l && a.heap[r].body.Table? && (a.heap[r].body.mode.WeakValues? || a.heap[r].body.mode.AllWeak?)
    {
      assert Shrunk(a.heap[r].body, b.heap[r].body);
    }
  }

  /** An unmarked object that is not a string: what `iscleared` looks for. */
  predicate Gone(h: Heap, v: Value) {
    IsWhite(h, v) && !IsString(h, v)
  }

  /** Array slots below `i` are clean; a slot changed only because its object is gone. */
  ghost predicate ArrProg(h: Heap, b0: Body, b: Body, i: nat) {
    && b0.Table? && b.Table? && b == b0.(arr := b.arr) && |b.arr| == |b0.arr| && i <= |b.arr|
    && (forall k :: 0 <= k < i ==> Marked(h, b.arr[k]) && (b.arr[k] == b0.arr[k] || Gone(h, b0.arr[k])))
    && (forall k :: i <= k < |b.arr| ==> b.arr[k] == b0.arr[k])
  }

  /** Entries below `i` have marked values; an entry changed only because its value is gone. */
  ghost predicate ValProg(h: Heap, b0: Body, b: Body, i: nat) {
    && b0.Table? && b.Table? && b == b0.(nodes := b.nodes) && |b.nodes| == |b0.nodes| && i <= |b.nodes|
    && (forall k :: 0 <= k < i ==> Marked(h, b.nodes[k].val) && (b.nodes[k] == b0.nodes[k] || Gone(h, b0.nodes[k].val)))
    && (forall k :: i <= k < |b.nodes| ==> b.nodes[k] == b0.nodes[k])
  }

  predicate KeyGone(h: Heap, n0: Node, n: Node) {
    n == n0 || (n == Node(DeadKey, Nil) && (n0.val.Nil? || Gone(h, n0.key)))
  }

  /** Entries below `i` have marked keys; an entry changed only because it was empty or its key is gone. */
  ghost predicate KeyProg(h: Heap, b0: Body, b: Body, i: nat) {
    && b0.Table? && b.Table? && b == b0.(nodes := b.nodes) && |b.nodes| == |b0.nodes| && i <= |b.nodes|
    && (forall k :: 0 <= k < i ==> Marked(h, b.nodes[k].key) && KeyGone(h, b0.nodes[k], b.nodes[k]))
    && (forall k :: i <= k < |b.nodes| ==> b.nodes[k] == b0.nodes[k])
  }

  lemma ArrProgStep(s: State, s': State, b0: Body, b: Body, b': Body, i: nat)
    requires Wiped(s, s') && ArrProg(s.heap, b0, b, i) && i < |b.arr|
    requires b' == b || (b' == DropArr(b, i) && Gone(s'.heap, b.arr[i]))
    requires Marked(s'.heap, b'.arr[i])
    ensures ArrProg(s'.heap, b0, b', i + 1)
  {
    forall k | 0 <= k < i ensures Marked(s'.heap, b'.arr[k]) && (b'.arr[k] == b0.arr[k] || Gone(s'.heap, b0.arr[k])) {
    }
  }

  lemma ValProgStep(s: State, s': State, b0: Body, b: Body, b': Body, i: nat)
    requires Wiped(s, s') && ValProg(s.heap, b0, b, i) && i < |b.nodes|
    requires b' == b || ((b' == DropVal(b, i) || b' == Buried(b, i)) && Gone(s'.heap, b.nodes[i].val))
    requires Marked(s'.heap, b'.nodes[i].val)
    ensures ValProg(s'.heap, b0, b', i + 1)
  {
    forall k | 0 <= k < i ensures Marked(s'.heap, b'.nodes[k].val) && (b'.nodes[k] == b0.nodes[k] || Gone(s'.heap, b0.nodes[k].val)) {
    }
  }

  lemma KeyProgStep(s: State, s': State, b0: Body, b: Body, b': Body, i: nat)
    requires Wiped(s, s') && KeyProg(s.heap, b0, b, i) && i < |b.nodes|
    requires b' == b || (b' == Buried(b, i) && (b.nodes[i].val.Nil? || Gone(s'.heap, b.nodes[i].key)))
    requires Marked(s'.heap, b'.nodes[i].key)
    ensures KeyProg(s'.heap, b0, b', i + 1)
  {
    forall k | 0 <= k < i ensures Marked(s'.heap, b'.nodes[k].key) && KeyGone(s'.heap, b0.nodes[k], b'.nodes[k]) {
    }
  }

  /** A listed table after `clearvalues`: weak slots that changed had lost their object. */
  ghost predicate ValuesCleared(h: Heap, b0: Body, b: Body) {
    && b0.Table? && b.Table? && |b.arr| == |b0.arr| && |b.nodes| == |b0.nodes|
    && (forall k :: 0 <= k < |b.arr| ==> Marked(h, b.arr[k]) && (b.arr[k] == b0.arr[k] || Gone(h, b0.arr[k])))
    && (forall k :: 0 <= k < |b.nodes| ==>
          Marked(h, b.nodes[k].val) && (b.nodes[k] == b0.nodes[k] || Gone(h, b0.nodes[k].val)))
  }

  /** The entries of a marked table on a weak list may be inspected. */
  lemma TableSlots(s: State, t: Ref, v: Value)
    requires MarkInv(s, {}) && t in s.heap && !s.heap[t].colour.White? && Holds(s.heap[t].body, v)
    requires t in s.blind ==> s.heap[t].body.Table? && s.heap[t].body.mode.AllWeak?
    ensures Points(s.heap, v)
    ensures EntryHolds(s.heap[t].body, v) && IsString(s.heap, v) ==> In(s.bound.now, v)
  {
    assert t in s.bound.now && NoDangling(s.heap);
    SeenAt(s.heap, s.blind, s.bound.now, true, t);
    if t in s.blind { assert EntryHolds(s.heap[t].body, v) ==> EntryHolds(Seen(s.heap[t].body), v); }
  }

  function DropArr(b: Body, i: nat): Body
    requires b.Table? && i < |b.arr|
  {
    b.(arr := b.arr[i := Nil])
  }

  function DropVal(b: Body, i: nat): Body
    requires b.Table? && i < |b.nodes|
  {
    b.(nodes := b.nodes[i := b.nodes[i].(val := Nil)])
  }

  lemma ArrSlot(s: State, t: Ref, i: nat)
    requires MarkInv(s, {}) && t in s.heap && !s.heap[t].colour.White? && s.heap[t].body.Table?
    requires t in s.blind ==> s.heap[t].body.mode.AllWeak?
    requires i < |s.heap[t].body.arr|
    ensures var v := s.heap[t].body.arr[i]; Points(s.heap, v) && (IsString(s.heap, v) ==> In(s.bound.now, v))
  {
    hide MarkInv;
    var b := s.heap[t].body;
    assert b.arr[i] in b.arr;
    assert Holds(b, b.arr[i]) && EntryHolds(b, b.arr[i]);
    TableSlots(s, t, b.arr[i]);
  }

  lemma NodeSlot(s: State, t: Ref, i: nat)
    requires MarkInv(s, {}) && t in s.heap && !s.heap[t].colour.White? && s.heap[t].body.Table?
    requires t in s.blind ==> s.heap[t].body.mode.AllWeak?
    requires i < |s.heap[t].body.nodes|
    ensures var n := s.heap[t].body.nodes[i];
            && Points(s.heap, n.key) && Points(s.heap, n.val)
            && (!n.val.Nil? ==> (IsString(s.heap, n.val) ==> In(s.bound.now, n.val)) && (IsString(s.heap, n.key) ==> In(s.bound.now, n.key)))
  {
    hide MarkInv;
    var b := s.heap[t].body;
    var n := b.nodes[i];
    assert n in b.nodes;
    assert Holds(b, n.key) && Holds(b, n.val);
    TableSlots(s, t, n.key);
    TableSlots(s, t, n.val);
    assert !n.val.Nil? ==> EntryHolds(b, n.val) && EntryHolds(b, n.key);
  }

  /** A clearing step on table `t`: string marks from `s` to `m`, then at most one new body. */
  lemma WipeStep(s: State, m: State, t: Ref, b': Body, l: set<Ref>)
    requires MarkInv(m, {}) && Painted(s, m) && OnlyStrings(s.heap, m.heap) && m.gray == s.gray
    requires t in s.heap && !s.heap[t].colour.White? && t in l && Shrunk(s.heap[t].body, b')
    requires b' == s.heap[t].body ||
             (s.heap[t].body.Table? && (s.heap[t].body.mode.WeakValues? || s.heap[t].body.mode.AllWeak?))
    ensures t in m.heap && m.heap[t] == s.heap[t]
    ensures MarkInv(SetBody(m, t, b'), {}) && WipedIn(s, SetBody(m, t, b'), l)
    ensures OnlyBody(s.heap, SetBody(m, t, b').heap, t)
    ensures forall v :: Gone(s.heap, v) ==> Gone(SetBody(m, t, b').heap, v)
    ensures forall v :: Marked(m.heap, v) ==> Marked(SetBody(m, t, b').heap, v)
  {
    hide MarkInv, Painted;
    PaintedAt(s, m, t);
    PaintedWiped(s, m);
    SetBodyInv(m, t, b', {});
    SetBodyWiped(m, t, b');
    WipedTrans(s, m, SetBody(m, t, b'));
  }

  ghost predicate ValuesDone(h: Heap, l: seq<Ref>, h0: Heap) {
    forall r :: r in l ==> r in h && r in h0 && ValuesCleared(h, h0[r].body, h[r].body)
  }

  /** What a clearing pass needs to know of its list. */
  ghost predicate Clearable(s: State, l: seq<Ref>) {
    forall r :: r in l ==>
      r in s.heap && !s.heap[r].colour.White? && s.heap[r].body.Table? && !s.heap[r].body.mode.Strong? &&
      (s.heap[r].body.mode.WeakKeys? ==> ArrMarked(s.heap, s.heap[r].body) && ValsMarked(s.heap, s.heap[r].body)) &&
      (r in s.blind ==> s.heap[r].body.mode.AllWeak?)
  }

  lemma ClearableStays(s: State, s': State, l: seq<Ref>)
    requires Wiped(s, s') && Clearable(s, l)
    ensures Clearable(s', l)
  {
    forall r | r in l ensures s'.heap[r].body.Table? && s'.heap[r].body.mode == s.heap[r].body.mode &&
      (s'.heap[r].body.mode.WeakKeys? ==> ArrMarked(s'.heap, s'.heap[r].body) && ValsMarked(s'.heap, s'.heap[r].body))
    {
      assert Shrunk(s.heap[r].body, s'.heap[r].body);
      NodesGrow(s.heap, s'.heap, s.heap[r].body, s'.heap[r].body);
    }
  }

  lemma WipedOf(s: State, s': State, l: set<Ref>)
    requires WipedIn(s, s', l)
    ensures Wiped(s, s') && s'.gray == s.gray && s'.held == s.held && s'.phase == s.phase && s'.stopped == s.stopped
    ensures WipedIn(s, s', l) && Darker(s.heap, s'.heap) && s'.blind == s.blind
  {
  }

  lemma ProgStart(h: Heap, b: Body)
    requires b.Table?
    ensures ArrProg(h, b, b, 0) && ValProg(h, b, b, 0) && KeyProg(h, b, b, 0)
  {
  }

  lemma ProgDone(s: State, s': State, b0: Body, b1: Body, b: Body)
    requires Wiped(s, s') && b1.Table? && b.Table?
    requires ArrProg(s.heap, b0, b1, |b1.arr|) && ValProg(s'.heap, b1, b, |b.nodes|)
    ensures ValuesCleared(s'.heap, b0, b)
  {
    forall k | 0 <= k < |b.arr| ensures Marked(s'.heap, b.arr[k]) && (b.arr[k] == b0.arr[k] || Gone(s'.heap, b0.arr[k])) {
    }
  }

  lemma ValuesDoneStep(s0: State, s: State, s': State, l: seq<Ref>, i: nat)
    requires i < |l| && Wiped(s0, s) && Wiped(s, s') && ValuesDone(s.heap, l[..i], s0.heap)
    requires l[i] in s.heap && l[i] in s'.heap && OnlyBody(s.heap, s'.heap, l[i])
    requires ValuesCleared(s'.heap, s.heap[l[i]].body, s'.heap[l[i]].body)
    requires Untouched(s0.heap, s.heap, l[..i])
    ensures ValuesDone(s'.heap, l[..i + 1], s0.heap) && Untouched(s0.heap, s'.heap, l[..i + 1])
  {
    forall r | r in l[..i + 1]
      ensures r in s'.heap && r in s0.heap && ValuesCleared(s'.heap, s0.heap[r].body, s'.heap[r].body)
    {
      if r == l[i] && r in l[..i] {
      } else if r != l[i] {
        assert r in l[..i];
      }
    }
  }

  ghost predicate Untouched(h: Heap, h': Heap, l: seq<Ref>) {
    forall r :: r in h && r in h' && r !in l ==> h'[r].body == h[r].body
  }

  lemma OnlyRefl(h: Heap)
    ensures OnlyStrings(h, h)
  {
  }

  lemma ClearableOne(s: State, t: Ref)
    requires Clearable(s, [t])
    ensures t in s.heap && !s.heap[t].colour.White? && s.heap[t].body.Table? && !s.heap[t].body.mode.Strong?
    ensures t in s.blind ==> s.heap[t].body.mode.AllWeak?
    ensures s.heap[t].body.mode.WeakKeys? ==>
      forall k :: 0 <= k < |s.heap[t].body.arr| ==> Marked(s.heap, s.heap[t].body.arr[k])
    ensures s.heap[t].body.mode.WeakKeys? ==>
      forall k :: 0 <= k < |s.heap[t].body.nodes| ==> Marked(s.heap, s.heap[t].body.nodes[k].val)
  {
    assert t in [t];
    forall k | 0 <= k < |s.heap[t].body.arr| && s.heap[t].body.mode.WeakKeys? ensures Marked(s.heap, s.heap[t].body.arr[k]) {
      assert s.heap[t].body.arr[k] in s.heap[t].body.arr;
    }
    forall k | 0 <= k < |s.heap[t].body.nodes| && s.heap[t].body.mode.WeakKeys?
      ensures Marked(s.heap, s.heap[t].body.nodes[k].val)
    {
      assert s.heap[t].body.nodes[k] in s.heap[t].body.nodes;
    }
  }

  /** Only the body of `t` may have changed. */
  ghost predicate OnlyBody(h: Heap, h': Heap, t: Ref) {
    forall r :: r in h && r in h' && r != t ==> h'[r].body == h[r].body
  }

  function ToSet(l: seq<Ref>): set<Ref> {
    set r | r in l
  }

  lemma WipedInRefl(s: State, l: set<Ref>)
    ensures WipedIn(s, s, l)
  {
    WipedRefl(s);
  }

  lemma ClearableAt(s: State, l: seq<Ref>, i: nat)
    requires Clearable(s, l) && i < |l|
    ensures Clearable(s, [l[i]]) && l[i] in ToSet(l)
  {
  }

  /** A key-clearing step: string marks from `s` to `m`, then at most one buried entry. */
  lemma KeyStep(s: State, m: State, t: Ref, b': Body, i: nat)
    requires MarkInv(m, {}) && Painted(s, m) && OnlyStrings(s.heap, m.heap) && m.gray == s.gray
    requires t in s.heap && !s.heap[t].colour.White? && s.heap[t].body.Table? && !s.heap[t].body.mode.Strong?
    requires i < |s.heap[t].body.nodes|
    requires b' == s.heap[t].body || b' == Buried(s.heap[t].body, i)
    ensures t in m.heap && m.heap[t] == s.heap[t]
    ensures MarkInv(SetBody(m, t, b'), {}) && Wiped(s, SetBody(m, t, b')) && OnlyBody(s.heap, SetBody(m, t, b').heap, t)
    ensures forall v :: Gone(s.heap, v) ==> Gone(SetBody(m, t, b').heap, v)
    ensures forall v :: Marked(m.heap, v) ==> Marked(SetBody(m, t, b').heap, v)
  {
    hide MarkInv, Painted;
    assert Shrunk(s.heap[t].body, b');
    PaintedAt(s, m, t);
    PaintedWiped(s, m);
    SetBodyInv(m, t, b', {});
    SetBodyWiped(m, t, b');
    WipedTrans(s, m, SetBody(m, t, b'));
  }

  // ----- clearing keys ----------------------------------------------------------------------------------

  ghost predicate KeyClearable(s: State, l: seq<Ref>) {
    forall r :: r in l ==>
      r in s.heap && !s.heap[r].colour.White? && s.heap[r].body.Table? &&
      !s.heap[r].body.mode.Strong? && !s.heap[r].body.mode.WeakValues? && (r in s.blind ==> s.heap[r].body.mode.AllWeak?)
  }

  lemma KeyClearableAt(s: State, l: seq<Ref>, i: nat)
    requires KeyClearable(s, l) && i < |l|
    ensures KeyClearable(s, [l[i]])
  {
  }

  lemma KeyClearableStays(s: State, s': State, l: seq<Ref>)
    requires Wiped(s, s') && KeyClearable(s, l)
    ensures KeyClearable(s', l)
  {
    forall r | r in l ensures s'.heap[r].body.Table? && s'.heap[r].body.mode == s.heap[r].body.mode {
      assert Shrunk(s.heap[r].body, s'.heap[r].body);
    }
  }

  /** A table after `clearkeys`: an entry that changed was empty or its key is gone. */
  ghost predicate KeysCleared(h: Heap, b0: Body, b: Body) {
    && b0.Table? && b.Table? && b == b0.(nodes := b.nodes) && |b.nodes| == |b0.nodes|
    && (forall k :: 0 <= k < |b.nodes| ==> Marked(h, b.nodes[k].key) && KeyGone(h, b0.nodes[k], b.nodes[k]))
  }

  lemma OnlyBodyTrans(a: State, b: State, c: State, t: Ref)
    requires Wiped(a, b) && OnlyBody(a.heap, b.heap, t) && OnlyBody(b.heap, c.heap, t)
    ensures OnlyBody(a.heap, c.heap, t)
  {
  }

  lemma KeyProgDone(h: Heap, b0: Body, b: Body)
    requires b.Table? && KeyProg(h, b0, b, |b.nodes|)
    ensures KeysCleared(h, b0, b)
  {
  }

  ghost predicate KeysDone(h: Heap, l: seq<Ref>, h0: Heap) {
    forall r :: r in l ==> r in h && r in h0 && KeysCleared(h, h0[r].body, h[r].body)
  }

  lemma KeysDoneStep(s0: State, s: State, s': State, l: seq<Ref>, i: nat)
    requires i < |l| && Wiped(s0, s) && Wiped(s, s') && KeysDone(s.heap, l[..i], s0.heap)
    requires l[i] in s.heap && l[i] in s'.heap && OnlyBody(s.heap, s'.heap, l[i])
    requires KeysCleared(s'.heap, s.heap[l[i]].body, s'.heap[l[i]].body)
    requires Untouched(s0.heap, s.heap, l[..i])
    ensures KeysDone(s'.heap, l[..i + 1], s0.heap) && Untouched(s0.heap, s'.heap, l[..i + 1])
  {
    forall r | r in l[..i + 1]
      ensures r in s'.heap && r in s0.heap && KeysCleared(s'.heap, s0.heap[r].body, s'.heap[r].body)
    {
      if r != l[i] || r in l[..i] {
        assert r in l[..i];
      }
    }
  }

  // ----- roots --------------------------------------------------------------------------------------------

  function RefsOf(vs: seq<Value>): set<Ref> {
    set v | v in vs && v.Ptr? :: v.r
  }

  /** The objects the program can name directly, and those waiting to be finalized. */
  function RootSet(s: State): set<Ref> {
    {s.mainthread} + RefsOf([s.registry]) + RefsOf(s.mt) + ToSet(s.tobefnz)
  }

  ghost predicate RootsOK(s: State) {
    && s.mainthread in s.heap && s.mainthread in s.bound.now
    && AllPoint(s, s.mt) && Points(s.heap, s.registry) && In(s.bound.now, s.registry)
    && (forall r :: r in s.tobefnz ==> r in s.heap && r in s.bound.now)
    && (forall r :: r in s.finobj ==> r in s.heap && r in s.bound.later)
  }

  ghost predicate RefsMarked(h: Heap, l: seq<Ref>) {
    forall r :: r in l ==> r in h && !h[r].colour.White?
  }

  /** Marked since the cycle began: the main thread and everything waiting for its finalizer. */
  ghost predicate StartMarked(s: State) {
    s.mainthread in s.heap && !s.heap[s.mainthread].colour.White? && RefsMarked(s.heap, s.tobefnz)
  }

  /** Fields that marking never touches. */
  ghost predicate SameOwners(s: State, s': State) {
    && s'.heap.Keys == s.heap.Keys && s'.bound == s.bound && s'.blind == s.blind && s'.allgc == s.allgc && s'.fixedgc == s.fixedgc
    && s'.mainthread == s.mainthread && s'.registry == s.registry && s'.mt == s.mt && s'.white == s.white
    && s'.finobj == s.finobj && s'.tobefnz == s.tobefnz && s'.sweep == s.sweep && s'.finnum == s.finnum
  }

  lemma PaintedOwners(s: State, s': State)
    requires Painted(s, s')
    ensures SameOwners(s, s') && Darker(s.heap, s'.heap) && s'.phase == s.phase && s'.stopped == s.stopped
    ensures s'.held == s.held && s'.grayagain == s.grayagain
  {
  }

  lemma WipedOwners(s: State, s': State)
    requires Wiped(s, s')
    ensures SameOwners(s, s') && Darker(s.heap, s'.heap) && s'.phase == s.phase && s'.stopped == s.stopped
  {
  }

  lemma StartStays(s: State, s': State)
    requires SameOwners(s, s') && Darker(s.heap, s'.heap) && StartMarked(s)
    ensures StartMarked(s')
  {
  }
}
