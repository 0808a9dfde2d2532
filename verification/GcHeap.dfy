/** The heap of the Lua collector: objects, colours, and what each kind of object keeps alive.
    A pointer is an address in a finite map, so freeing an object removes its address. */
module GcHeap {
  type Ref = nat

  /** A TValue. `DeadKey` is the key of an empty entry whose object may be gone. */
  datatype Value = Nil | Plain(bits: int) | Ptr(r: Ref) | DeadKey

  /** The colour bits of `marked`; there are two whites, told apart by `bit`. */
  datatype Colour = White(bit: bool) | Gray | Black

  datatype Mode = Strong | WeakKeys | WeakValues | AllWeak

  datatype Node = Node(key: Value, val: Value)

  /** The collectable kinds. `Closure` stands for prototypes, C closures and Lua closures
      with closed upvalues: a list of strong references. */
  datatype Body =
    | Str
    | Closure(vals: seq<Value>)
    | Table(mode: Mode, meta: Value, arr: seq<Value>, nodes: seq<Node>)
    | Thread(stack: seq<Value>, top: nat)
    | Udata(umeta: Value, uv: Value)

  datatype Obj = Obj(colour: Colour, body: Body)

  type Heap = map<Ref, Obj>

  // ----- slots -------------------------------------------------------------------------

  /** `v` sits in some slot of the object, live or stale. */
  ghost predicate Holds(b: Body, v: Value) {
    match b
    case Str => false
    case Closure(vals) => v in vals
    case Table(_, meta, arr, nodes) =>
      v == meta || v in arr || exists n :: n in nodes && (n.key == v || n.val == v)
    case Thread(stack, _) => v in stack
    case Udata(m, u) => v == m || v == u
  }

  /** `v` sits in the array part or in a non-empty entry of the table. */
  ghost predicate EntryHolds(b: Body, v: Value) {
    b.Table? && (v in b.arr || exists n :: n in b.nodes && !n.val.Nil? && (n.key == v || n.val == v))
  }

  /** `v` sits in a slot that keeps it alive whatever else happens. */
  ghost predicate StrongHolds(b: Body, v: Value) {
    match b
    case Str => false
    case Closure(vals) => v in vals
    case Table(mode, meta, arr, nodes) =>
      v == meta ||
      (match mode
       case Strong => EntryHolds(b, v)
       case WeakValues => exists n :: n in nodes && !n.val.Nil? && n.key == v
       case WeakKeys => v in arr
       case AllWeak => false)
    case Thread(stack, top) => v in stack[..Min(top, |stack|)]
    case Udata(m, u) => v == m || v == u
  }

  function Min(a: int, b: int): int { if a < b then a else b }

  // ----- colours -----------------------------------------------------------------------

  predicate IsWhite(h: Heap, v: Value) {
    v.Ptr? && v.r in h && h[v.r].colour.White?
  }

  predicate IsString(h: Heap, v: Value) {
    v.Ptr? && v.r in h && h[v.r].body.Str?
  }

  /** Not a pointer, or a pointer to a marked object. */
  predicate Marked(h: Heap, v: Value) {
    v.Ptr? ==> v.r in h && !h[v.r].colour.White?
  }

  ghost predicate Points(h: Heap, v: Value) {
    v.Ptr? ==> v.r in h
  }

  /** No stored pointer leads outside the heap. */
  ghost predicate NoDangling(h: Heap) {
    forall r, v :: r in h && Holds(h[r].body, v) ==> Points(h, v)
  }

  // ----- what must survive ---------------------------------------------------------------

  ghost predicate In(S: set<Ref>, v: Value) {
    v.Ptr? ==> v.r in S
  }

  /** The key of a weak-keyed entry holds its value: it is not collectable, it is a string
      (strings are values, never weak), or it is itself alive. */
  ghost predicate KeyHeld(h: Heap, S: set<Ref>, k: Value) {
    !k.Ptr? || IsString(h, k) || k.r in S
  }

  ghost predicate ClosedAt(h: Heap, S: set<Ref>, b: Body, strings: bool) {
    && (forall v :: StrongHolds(b, v) ==> In(S, v))
    && (strings ==> forall v :: EntryHolds(b, v) && IsString(h, v) ==> In(S, v))
    && (b.Table? && b.mode.WeakKeys? ==>
          forall n :: n in b.nodes && !n.val.Nil? && KeyHeld(h, S, n.key) ==> In(S, n.key) && In(S, n.val))
  }

  /** `S` is closed under strong slots and under "a marked key marks its value". With `strings`,
      it also holds every string found in a weak slot (the collector may keep those or not). */
  ghost predicate Closed(h: Heap, S: set<Ref>, strings: bool) {
    forall r :: r in S && r in h ==> ClosedAt(h, S, h[r].body, strings)
  }

  ghost predicate InEveryClosed(h: Heap, roots: set<Ref>, strings: bool, r: Ref) {
    forall S :: Closed(h, S, strings) && roots <= S ==> r in S
  }

  /** The least closed set containing the roots. */
  ghost function Least(h: Heap, roots: set<Ref>, strings: bool): set<Ref> {
    set r | r in h.Keys + roots && InEveryClosed(h, roots, strings, r)
  }

  lemma LeastBelow(h: Heap, roots: set<Ref>, strings: bool, S: set<Ref>)
    requires Closed(h, S, strings) && roots <= S
    ensures Least(h, roots, strings) <= S
  {
  }

  lemma LeastIsClosed(h: Heap, roots: set<Ref>, strings: bool)
    requires NoDangling(h)
    ensures roots <= Least(h, roots, strings)
    ensures Closed(h, Least(h, roots, strings), strings)
  {
    var L := Least(h, roots, strings);
    forall r | r in L && r in h
      ensures ClosedAt(h, L, h[r].body, strings)
    {
      var b := h[r].body;
      forall v | StrongHolds(b, v) || (strings && EntryHolds(b, v) && IsString(h, v))
        ensures In(L, v)
      {
        if v.Ptr? {
          HeldSomewhere(b, v);
          assert Holds(h[r].body, v) && Points(h, v);
          forall S | Closed(h, S, strings) && roots <= S ensures v.r in S {
            assert r in S && ClosedAt(h, S, b, strings);
          }
          assert InEveryClosed(h, roots, strings, v.r);
        }
      }
      if b.Table? && b.mode.WeakKeys? {
        forall n, v | n in b.nodes && !n.val.Nil? && KeyHeld(h, L, n.key) && v in [n.key, n.val]
          ensures In(L, v)
        {
          if v.Ptr? {
            assert Holds(h[r].body, v) && Points(h, v);
            forall S | Closed(h, S, strings) && roots <= S ensures v.r in S {
              assert L <= S by { LeastBelow(h, roots, strings, S); }
              assert r in S && ClosedAt(h, S, b, strings);
              assert KeyHeld(h, S, n.key);
            }
            assert InEveryClosed(h, roots, strings, v.r);
          }
        }
        forall n | n in b.nodes && !n.val.Nil? && KeyHeld(h, L, n.key)
          ensures In(L, n.key) && In(L, n.val)
        {
          assert n.key in [n.key, n.val] && n.val in [n.key, n.val];
        }
      }
    }
  }

  lemma HeldSomewhere(b: Body, v: Value)
    requires StrongHolds(b, v) || EntryHolds(b, v)
    ensures Holds(b, v)
  {
  }

  /** Without weak tables both readings agree, so the live set is determined exactly. */
  lemma StrongHeapLeast(h: Heap, roots: set<Ref>)
    requires NoDangling(h)
    requires forall r :: r in h && h[r].body.Table? ==> h[r].body.mode.Strong?
    ensures Least(h, roots, true) == Least(h, roots, false)
  {
    LeastIsClosed(h, roots, true);
    LeastIsClosed(h, roots, false);
    var L := Least(h, roots, false);
    assert Closed(h, L, true) by {
      forall r | r in L && r in h ensures ClosedAt(h, L, h[r].body, true) {
        assert ClosedAt(h, L, h[r].body, false);
        assert forall v :: EntryHolds(h[r].body, v) ==> StrongHolds(h[r].body, v);
      }
    }
    LeastBelow(h, roots, true, L);
    assert Closed(h, Least(h, roots, true), false) by {
      forall r | r in Least(h, roots, true) && r in h ensures ClosedAt(h, Least(h, roots, true), h[r].body, false) {
        assert ClosedAt(h, Least(h, roots, true), h[r].body, true);
      }
    }
    LeastBelow(h, roots, false, Least(h, roots, true));
  }

  /** The two readings differ in strings only, and so do roots that differ in strings only. */
  lemma StringsOnly(h: Heap, roots: set<Ref>, extra: set<Ref>)
    requires NoDangling(h) && forall r :: r in extra ==> r in h && h[r].body.Str?
    ensures forall r :: r in Least(h, roots + extra, true) && r in h && !h[r].body.Str? ==> r in Least(h, roots, false)
    ensures Least(h, roots, false) <= Least(h, roots + extra, false)
  {
    LeastIsClosed(h, roots, false);
    var L := Least(h, roots, false);
    var S := L + set r | r in h && h[r].body.Str?;
    forall r | r in S && r in h ensures ClosedAt(h, S, h[r].body, true) {
      if r in L {
        assert ClosedAt(h, L, h[r].body, false);
        if h[r].body.Table? && h[r].body.mode.WeakKeys? {
          forall n | n in h[r].body.nodes && !n.val.Nil? && KeyHeld(h, S, n.key) ensures In(S, n.key) && In(S, n.val) {
            assert KeyHeld(h, L, n.key);
          }
        }
      }
    }
    LeastBelow(h, roots + extra, true, S);
    LeastGrows(h, roots, roots + extra, false);
  }

  lemma LeastGrows(h: Heap, a: set<Ref>, b: set<Ref>, strings: bool)
    requires a <= b
    ensures Least(h, a, strings) <= Least(h, b, strings)
  {
    hide Closed;
    forall r | r in Least(h, a, strings) ensures r in Least(h, b, strings) {
      assert InEveryClosed(h, a, strings, r);
      assert InEveryClosed(h, b, strings, r);
    }
  }

  // ----- bodies only ever shrink during a collection -------------------------------------------

  /** What the collector may do to an entry: drop the value, or bury the key of an empty entry. */
  predicate ShrunkNode(n: Node, n': Node) {
    n' == n || (n'.val.Nil? && (n'.key == n.key || n'.key.DeadKey?))
  }

  /** Every non-empty entry and every live slot is kept; only keys of empty entries are buried and
      stale stack slots are cleared. */
  ghost predicate Trimmed(b: Body, b': Body) {
    match b
    case Table(mode, meta, arr, nodes) =>
      && b'.Table? && b'.mode == mode && b'.meta == meta && b'.arr == arr && |b'.nodes| == |nodes|
      && forall i :: 0 <= i < |nodes| ==>
           b'.nodes[i] == nodes[i] || (nodes[i].val.Nil? && b'.nodes[i] == Node(DeadKey, Nil))
    case Thread(stack, top) =>
      && b'.Thread? && b'.top == top && |b'.stack| == |stack|
      && (forall i :: 0 <= i < |stack| ==> b'.stack[i] == stack[i] || (top <= i && b'.stack[i].Nil?))
    case _ => b' == b
  }

  /** Entries of weak tables may be dropped as well. */
  ghost predicate Shrunk(b: Body, b': Body) {
    match b
    case Table(mode, meta, arr, nodes) =>
      && b'.Table? && b'.mode == mode && b'.meta == meta && |b'.arr| == |arr| && |b'.nodes| == |nodes|
      && (forall i :: 0 <= i < |arr| ==>
           b'.arr[i] == arr[i] || (b'.arr[i].Nil? && (mode.WeakValues? || mode.AllWeak?)))
      && (forall i :: 0 <= i < |nodes| ==> ShrunkNode(nodes[i], b'.nodes[i]))
      && (mode.Strong? ==> Trimmed(b, b'))
    case _ => Trimmed(b, b')
  }

  lemma TrimmedIsShrunk(b: Body, b': Body)
    requires Trimmed(b, b')
    ensures Shrunk(b, b')
  {
  }

  lemma ShrunkTrans(a: Body, b: Body, c: Body)
    requires Shrunk(a, b) && Shrunk(b, c)
    ensures Shrunk(a, c)
  {
  }

  ghost predicate ShrunkHeap(h: Heap, h': Heap) {
    h'.Keys == h.Keys && forall r :: r in h ==> Shrunk(h[r].body, h'[r].body)
  }

  /** Shrinking objects keeps a closed set closed. */
  lemma ShrunkClosed(h: Heap, h': Heap, S: set<Ref>, strings: bool)
    requires ShrunkHeap(h, h') && Closed(h, S, strings)
    ensures Closed(h', S, strings)
  {
    forall r | r in S && r in h'
      ensures ClosedAt(h', S, h'[r].body, strings)
    {
      var b, b' := h[r].body, h'[r].body;
      assert ClosedAt(h, S, b, strings) && Shrunk(b, b');
      forall v | StrongHolds(b', v) ensures In(S, v) {
      }
      forall v | strings && EntryHolds(b', v) && IsString(h', v) ensures In(S, v) {
        assert IsString(h, v) by { assert Shrunk(h[v.r].body, h'[v.r].body); }
      }
      if b'.Table? && b'.mode.WeakKeys? {
        forall n | n in b'.nodes && !n.val.Nil? && KeyHeld(h', S, n.key)
          ensures In(S, n.key) && In(S, n.val)
        {
          var i :| 0 <= i < |b'.nodes| && b'.nodes[i] == n;
          assert ShrunkNode(b.nodes[i], n);
          assert n in b.nodes;
          if IsString(h', n.key) { assert Shrunk(h[n.key.r].body, h'[n.key.r].body); }
          assert KeyHeld(h, S, n.key);
        }
      }
    }
  }

  lemma ShrunkNoDangling(h: Heap, h': Heap)
    requires ShrunkHeap(h, h') && NoDangling(h)
    ensures NoDangling(h')
  {
    forall r, v | r in h' && Holds(h'[r].body, v) ensures Points(h', v) {
      assert r in h && Shrunk(h[r].body, h'[r].body);
      assert v.Ptr? ==> Points(h, v);
    }
  }
}
