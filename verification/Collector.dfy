/** lgc.c: the incremental mark-and-sweep collector. */
module Collector {
  import opened Options
  import opened GcHeap
  import opened GcState
  import opened GcPaint
  import opened GcWalk
  import opened GcSettle
  import opened GcEphemeron
  import opened GcAtomic
  import opened GcComplete
  import opened GcWeak
  import opened GcSweep
  import opened GcPhases
  import opened GcFinalize
  import opened GcStep
  import opened GcCycle
  import opened GcMutator
  import opened GcObjects
  import opened GcStores

  class GlobalState {
    var heap: Heap
    var allgc: seq<Ref>
    var finobj: seq<Ref>
    var tobefnz: seq<Ref>
    var fixedgc: seq<Ref>
    var mainthread: Ref
    var registry: Value
    var mt: seq<Value>
    var gray: seq<Ref>
    var grayagain: seq<Ref>
    var weak: seq<Ref>
    var allweak: seq<Ref>
    var ephemeron: seq<Ref>
    var gcstate: Phase
    var currentwhite: bool
    var sweepgc: Option<nat>
    var gcfinnum: nat
    var held: seq<Ref>
    ghost var stopped: bool
    ghost var blind: set<Ref>
    ghost var bound: Bound

    ghost function Snap(): State
      reads this
    {
      State(heap, allgc, finobj, tobefnz, fixedgc, mainthread, registry, mt, gray, grayagain, weak, allweak,
            ephemeron, gcstate, currentwhite, sweepgc, gcfinnum, held, stopped, blind, bound)
    }

    /** `lua_newstate`, as far as the collector is concerned. */
    constructor (main: Ref, size: nat)
      ensures Snap() == Fresh(main, size) && Inv(Snap()) && LiveSet(Snap()) == {main}
    {
      heap := map[main := Obj(White(false), Thread(seq(size, _ => Nil), 0))];
      allgc, finobj, tobefnz, fixedgc := [], [], [], [];
      mainthread, registry, mt := main, Nil, [];
      gray, grayagain, weak, allweak, ephemeron, held := [], [], [], [], [], [];
      gcstate, currentwhite, sweepgc, gcfinnum := Pause, false, None, 0;
      stopped, blind, bound := false, {}, Bound({}, {});
      new;
      FreshInv(main, size);
    }

    // ----- mark functions -----------------------------------------------------------------------

    method ReallyMarkObject(o: Ref, ghost skip: set<Ref>)
      requires MarkInv(Snap(), skip)
      requires o in heap && heap[o].colour.White? && o in bound.now
      modifies this
      ensures MarkInv(Snap(), skip) && Painted(old(Snap()), Snap())
      ensures o in heap && !heap[o].colour.White?
      ensures WhiteSet(heap) < old(WhiteSet(heap))
      ensures old(heap[o].body.Str?) ==> OnlyStrings(old(heap), heap) && gray == old(gray)
      decreases WhiteSet(heap), 1
    {
      hide MarkInv, Painted;
      ghost var s0 := Snap();
      assert o in WhiteSet(heap);
      match heap[o].body
      case Str =>
        PaintWhite(s0, o, Black, skip);
        heap := heap[o := heap[o].(colour := Black)];
      case Udata(umeta, uv) =>
        MarkUdata(o, skip);
      case _ =>
        PushWhite(s0, o, skip);
        heap := heap[o := heap[o].(colour := Gray)];
        gray := [o] + gray;
    }

    /** The userdata case: its metatable and its user value are marked at once. */
    method MarkUdata(o: Ref, ghost skip: set<Ref>)
      requires MarkInv(Snap(), skip)
      requires o in heap && heap[o].colour.White? && o in bound.now && heap[o].body.Udata?
      modifies this
      ensures MarkInv(Snap(), skip) && Painted(old(Snap()), Snap())
      ensures o in heap && !heap[o].colour.White?
      ensures WhiteSet(heap) < old(WhiteSet(heap))
      decreases WhiteSet(heap), 0
    {
      ghost var s0 := Snap();
      var b := heap[o].body;
      hide MarkInv, Painted, Points, In, Marked;
      UdataBegin(s0, o, skip);
      heap := heap[o := heap[o].(colour := Gray)];
      MarkValue(b.umeta, skip + {o});
      ghost var s2 := Snap();
      UdataMiddle(s0, s2, o, skip);
      heap := heap[o := heap[o].(colour := Black)];
      ghost var s3 := Snap();
      MarkValue(b.uv, skip + {o});
      UdataEnd(s0, s2, Snap(), o, skip);
    }

    /** `markvalue`: mark the object behind a value if it is white. */
    method MarkValue(v: Value, ghost skip: set<Ref>)
      requires MarkInv(Snap(), skip)
      requires Points(heap, v) && In(bound.now, v)
      modifies this
      ensures MarkInv(Snap(), skip) && Painted(old(Snap()), Snap())
      ensures Marked(heap, v)
      ensures WhiteSet(heap) <= old(WhiteSet(heap))
      ensures old(IsWhite(heap, v)) ==> WhiteSet(heap) < old(WhiteSet(heap))
      ensures !old(IsWhite(heap, v)) ==> Snap() == old(Snap())
      ensures old(IsString(heap, v)) ==> OnlyStrings(old(heap), heap) && gray == old(gray)
      decreases WhiteSet(heap), 2
    {
      hide MarkInv, Links;
      if v.Ptr? && heap[v.r].colour.White? {
        ReallyMarkObject(v.r, skip);
      }
    }

    // ----- traverse functions -------------------------------------------------------------------

    /** `removeentry`: bury the key of an empty entry if it is not marked. */
    method RemoveEntry(o: Ref, i: nat, ghost s0: State, ghost skip: set<Ref>)
      requires Walking(s0, Snap(), o, skip)
      requires heap[o].body.Table? && i < |heap[o].body.nodes| && heap[o].body.nodes[i].val.Nil?
      modifies this`heap
      ensures Walking(s0, Snap(), o, skip) && WhiteSet(heap) == old(WhiteSet(heap)) && Darker(old(heap), heap)
      ensures heap[o].body == old(heap[o].body) || heap[o].body == Buried(old(heap[o].body), i)
      ensures Marked(heap, heap[o].body.nodes[i].key) && heap[o].colour == old(heap[o].colour)
      ensures SameButStrings(old(heap), heap)
    {
      hide Walking, Darker, MarkInv, SameButStrings;
      SameRefl(heap);
      ghost var s := Snap();
      WalkDom(s0, s, o, skip);
      WalkNode(s0, s, o, i, skip);
      var b := heap[o].body;
      if b.nodes[i].key.Ptr? && heap[b.nodes[i].key.r].colour.White? {
        WalkBury(s0, s, o, i, skip);
        BuriedSame(s, o, i);
        heap := heap[o := heap[o].(body := Buried(b, i))];
      }
    }

    /** Entry `i` of a strong table: bury it if empty, else mark key and value. */
    method StrongEntry(o: Ref, i: nat, ghost s0: State, ghost skip: set<Ref>)
      requires Walking(s0, Snap(), o, skip)
      requires heap[o].body.Table? && heap[o].body.mode.Strong? && i < |heap[o].body.nodes|
      modifies this
      ensures Walking(s0, Snap(), o, skip) && WhiteSet(heap) <= old(WhiteSet(heap)) && Darker(old(heap), heap)
      ensures heap[o].body == old(heap[o].body) ||
              (old(heap[o].body.nodes[i].val.Nil?) && heap[o].body == Buried(old(heap[o].body), i))
      ensures Marked(heap, heap[o].body.nodes[i].key) && Marked(heap, heap[o].body.nodes[i].val)
      ensures heap[o].colour == old(heap[o].colour)
    {
      hide Walking, MarkInv, Painted, Darker;
      ghost var s := Snap();
      WalkNode(s0, s, o, i, skip);
      WalkDom(s0, s, o, skip);
      var n := heap[o].body.nodes[i];
      if n.val.Nil? {
        RemoveEntry(o, i, s0, skip);
      } else {
        MarkValue(n.key, skip);
        ghost var s1 := Snap();
        WalkOne(s0, s, s1, o, skip);
        MarkValue(n.val, skip);
        WalkOne(s0, s1, Snap(), o, skip);
        DarkerTrans(s.heap, s1.heap, heap);
        MarkedGrows(s1.heap, heap, n.key);
      }
    }

    method TraverseArray(o: Ref, ghost s0: State, ghost skip: set<Ref>)
      requires Walking(s0, Snap(), o, skip)
      requires heap[o].body.Table? && (heap[o].body.mode.Strong? || heap[o].body.mode.WeakKeys?)
      requires Marked(heap, heap[o].body.meta)
      modifies this
      ensures Walking(s0, Snap(), o, skip) && WhiteSet(heap) <= old(WhiteSet(heap))
      ensures heap[o] == old(heap[o]) && Prefix(heap, heap[o].body)
    {
      hide Walking, MarkInv, Painted, ArrUpTo, KeysUpTo, ValsUpTo;
      var i := 0;
      WalkDom(s0, Snap(), o, skip);
      var b := heap[o].body;
      UpToZero(heap, b);
      while i < |b.arr|
        invariant 0 <= i <= |b.arr| && o in heap && heap[o] == old(heap[o])
        invariant Walking(s0, Snap(), o, skip) && WhiteSet(heap) <= old(WhiteSet(heap))
        invariant ArrUpTo(heap, b, i) && Marked(heap, b.meta)
      {
        ghost var s := Snap();
        WalkDom(s0, s, o, skip);
        WalkArr(s0, s, o, i, skip);
        MarkValue(b.arr[i], skip);
        StepArr(s0, s, Snap(), o, i, skip);
        i := i + 1;
      }
      UpToAll(heap, b);
    }

    method TraverseStrongTable(o: Ref, ghost s0: State, ghost skip: set<Ref>)
      requires Walking(s0, Snap(), o, skip)
      requires heap[o].body.Table? && heap[o].body.mode.Strong? && Marked(heap, heap[o].body.meta)
      modifies this
      ensures Walking(s0, Snap(), o, skip) && WhiteSet(heap) <= old(WhiteSet(heap))
      ensures Full(heap, heap[o].body) && heap[o].colour == old(heap[o].colour)
      ensures heap[o].body.Table? && heap[o].body.mode.Strong?
    {
      hide Walking, MarkInv, Painted, KeysUpTo, ValsUpTo, Prefix, Full, Darker;
      TraverseArray(o, s0, skip);
      WalkDom(s0, Snap(), o, skip);
      UpToZero(heap, heap[o].body);
      var n := |heap[o].body.nodes|;
      ghost var c := heap[o].colour;
      var i := 0;
      while i < n
        invariant 0 <= i <= n && o in heap && heap[o].body.Table? && heap[o].body.mode.Strong?
        invariant |heap[o].body.nodes| == n && heap[o].colour == c
        invariant Walking(s0, Snap(), o, skip) && WhiteSet(heap) <= old(WhiteSet(heap))
        invariant Prefix(heap, heap[o].body) && KeysUpTo(heap, heap[o].body, i) && ValsUpTo(heap, heap[o].body, i)
      {
        ghost var h := heap;
        StrongEntry(o, i, s0, skip);
        WalkDom(s0, Snap(), o, skip);
        StepNode(h, heap, h[o].body, heap[o].body, i);
        i := i + 1;
      }
      PrefixFull(heap, heap[o].body);
    }

    /** `iscleared`: whether a weak slot has to be cleared. Strings count as values: they are marked
        here instead of being cleared. */
    method IsCleared(v: Value, ghost skip: set<Ref>) returns (cleared: bool)
      requires MarkInv(Snap(), skip)
      requires Points(heap, v) && (IsString(heap, v) ==> In(bound.now, v))
      modifies this
      ensures MarkInv(Snap(), skip) && Painted(old(Snap()), Snap()) && OnlyStrings(old(heap), heap)
      ensures cleared == (old(IsWhite(heap, v)) && !old(IsString(heap, v)))
      ensures cleared == !Marked(heap, v) && gray == old(gray)
      ensures WhiteSet(heap) <= old(WhiteSet(heap))
    {
      hide MarkInv, Painted;
      PaintedRefl(Snap());
      assert OnlyStrings(heap, heap);
      if !v.Ptr? {
        cleared := false;
      } else if heap[v.r].body.Str? {
        MarkValue(v, skip);
        cleared := false;
      } else {
        cleared := heap[v.r].colour.White?;
      }
    }

    /** A table with weak values: keys are strong, values are only looked at. */
    method TraverseWeakValue(o: Ref, ghost s0: State)
      requires Walking(s0, Snap(), o, {o}) && heap[o].colour.Gray?
      requires heap[o].body.Table? && heap[o].body.mode.WeakValues? && Marked(heap, heap[o].body.meta)
      requires gcstate.Propagate? || stopped
      modifies this
      ensures MarkInv(Snap(), {}) && Grew(s0, Snap()) && WhiteSet(heap) <= old(WhiteSet(heap))
    {
      hide Walking, MarkInv, Painted, KeysUpTo, ValsUpTo, Prefix, Full, Darker, OnlyStrings, Grew, Settled, KeysMarked;
      ghost var skip := {o};
      WalkDom(s0, Snap(), o, skip);
      var hasclears := |heap[o].body.arr| > 0;
      UpToZero(heap, heap[o].body);
      PrefixWeak(heap, heap[o].body);
      var n := |heap[o].body.nodes|;
      var i := 0;
      while i < n
        invariant 0 <= i <= n && o in heap && heap[o].body.Table? && heap[o].body.mode.WeakValues?
        invariant |heap[o].body.nodes| == n && heap[o].colour.Gray? && gcstate == old(gcstate) && stopped == old(stopped)
        invariant Walking(s0, Snap(), o, skip) && WhiteSet(heap) <= old(WhiteSet(heap))
        invariant Prefix(heap, heap[o].body) && KeysUpTo(heap, heap[o].body, i)
        invariant !hasclears ==> heap[o].body.arr == [] && ValsUpTo(heap, heap[o].body, i)
      {
        ghost var h := heap;
        hasclears := WeakValueEntry(o, i, hasclears, s0);
        WalkDom(s0, Snap(), o, skip);
        StepNode(h, heap, h[o].body, heap[o].body, i);
        i := i + 1;
      }
      WeakValueDone(s0, Snap(), o, hasclears);
      LinkWeakValue(o, hasclears, s0);
    }

    method LinkWeakValue(o: Ref, hasclears: bool, ghost s0: State)
      requires Walking(s0, Snap(), o, {o}) && heap[o].colour.Gray?
      requires heap[o].body.Table? && heap[o].body.mode.WeakValues?
      requires Marked(heap, heap[o].body.meta) && KeysMarked(heap, heap[o].body)
      requires gcstate.Propagate? || (stopped && (hasclears || Settled(Snap(), o)))
      modifies this
      ensures MarkInv(Snap(), {}) && Grew(s0, Snap()) && WhiteSet(heap) == old(WhiteSet(heap))
    {
      hide Walking, MarkInv, Grew, Settled, KeysMarked;
      WalkDom(s0, Snap(), o, {o});
      if gcstate.Propagate? {
        LinkAgain(s0, Snap(), o);
        grayagain := [o] + grayagain;
      } else if hasclears {
        LinkWeak(s0, Snap(), o);
        weak := [o] + weak;
      } else {
        WalkSettled(s0, Snap(), o);
      }
    }

    method WeakValueEntry(o: Ref, i: nat, hasclears: bool, ghost s0: State) returns (hasclears': bool)
      requires Walking(s0, Snap(), o, {o})
      requires heap[o].body.Table? && heap[o].body.mode.WeakValues? && i < |heap[o].body.nodes|
      modifies this
      ensures Walking(s0, Snap(), o, {o}) && WhiteSet(heap) <= old(WhiteSet(heap)) && Darker(old(heap), heap)
      ensures heap[o].body == old(heap[o].body) ||
              (old(heap[o].body.nodes[i].val.Nil?) && heap[o].body == Buried(old(heap[o].body), i))
      ensures Marked(heap, heap[o].body.nodes[i].key) && (hasclears ==> hasclears')
      ensures !hasclears' ==> Marked(heap, heap[o].body.nodes[i].val)
      ensures heap[o].colour == old(heap[o].colour) && gcstate == old(gcstate) && stopped == old(stopped)
    {
      hide Walking, MarkInv, Painted, Darker, OnlyStrings;
      ghost var s, skip := Snap(), {o};
      WalkNode(s0, s, o, i, skip);
      WalkDom(s0, s, o, skip);
      var n := heap[o].body.nodes[i];
      hasclears' := hasclears;
      if n.val.Nil? {
        RemoveEntry(o, i, s0, skip);
      } else {
        MarkValue(n.key, skip);
        ghost var s1 := Snap();
        WalkOne(s0, s, s1, o, skip);
        if !hasclears {
          WalkNode(s0, s1, o, i, skip);
          hasclears' := IsCleared(n.val, skip);
          WalkOne(s0, s1, Snap(), o, skip);
          DarkerTrans(s.heap, s1.heap, heap);
          MarkedGrows(s1.heap, heap, n.key);
        }
      }
    }

    /** One entry of an ephemeron table. `marked`: a value was marked; `clears`: the key is not
        marked; `ww`: neither key nor value is. */
    method EphemeronEntry(o: Ref, i: nat, ghost s0: State) returns (marked: bool, clears: bool, ww: bool)
      requires Walking(s0, Snap(), o, {o})
      requires heap[o].body.Table? && heap[o].body.mode.WeakKeys? && i < |heap[o].body.nodes|
      modifies this
      ensures Walking(s0, Snap(), o, {o}) && WhiteSet(heap) <= old(WhiteSet(heap)) && Darker(old(heap), heap)
      ensures heap[o].body == old(heap[o].body) ||
              (old(heap[o].body.nodes[i].val.Nil?) && heap[o].body == Buried(old(heap[o].body), i))
      ensures heap[o].colour == old(heap[o].colour) && gcstate == old(gcstate) && stopped == old(stopped)
      ensures (ww ==> clears) && (!clears ==> Marked(heap, heap[o].body.nodes[i].key))
      ensures !ww ==> Marked(heap, heap[o].body.nodes[i].val)
      ensures marked ==> WhiteSet(heap) < old(WhiteSet(heap))
      ensures !marked ==> SameButStrings(old(heap), heap) && StableNode(heap, heap[o].body.nodes[i]) && gray == old(gray)
      ensures StrSame(old(heap), heap) && ephemeron == old(ephemeron)
      ensures !heap[o].body.nodes[i].val.Nil? && IsString(heap, heap[o].body.nodes[i].key) ==>
                Marked(heap, heap[o].body.nodes[i].key)
    {
      hide Walking, MarkInv, Painted, Darker, OnlyStrings, SameButStrings, StrSame;
      ghost var s, skip := Snap(), {o};
      WalkNode(s0, s, o, i, skip);
      WalkDom(s0, s, o, skip);
      var n := heap[o].body.nodes[i];
      marked, clears, ww := false, false, false;
      if n.val.Nil? {
        RemoveEntry(o, i, s0, skip);
        StrSameFacts(s.heap, heap);
      } else {
        clears := IsCleared(n.key, skip);
        ghost var s1 := Snap();
        WalkOne(s0, s, s1, o, skip);
        OnlyStringsSame(s, s1);
        StrSamePainted(s, s1);
        assert !clears || !IsString(heap, n.key);
        WalkNode(s0, s1, o, i, skip);
        if clears {
          ww := n.val.Ptr? && heap[n.val.r].colour.White?;
        } else if n.val.Ptr? && heap[n.val.r].colour.White? {
          MarkedInBound(s1, n.key, skip);
          marked := true;
          ReallyMarkObject(n.val.r, skip);
          WalkOne(s0, s1, Snap(), o, skip);
          StrSamePainted(s1, Snap());
          StrSameTrans(s.heap, s1.heap, heap);
          DarkerTrans(s.heap, s1.heap, heap);
          MarkedGrows(s1.heap, heap, n.key);
        }
      }
    }

    /** `traverseephemeron`: true iff some value was marked. */
    method TraverseEphemeron(o: Ref, ghost s0: State) returns (marked: bool)
      requires Walking(s0, Snap(), o, {o}) && heap[o].colour.Gray?
      requires heap[o].body.Table? && heap[o].body.mode.WeakKeys? && Marked(heap, heap[o].body.meta)
      requires gcstate.Propagate? || stopped
      modifies this
      ensures MarkInv(Snap(), {}) && Grew(s0, Snap()) && WhiteSet(heap) <= old(WhiteSet(heap))
      ensures marked ==> WhiteSet(heap) < old(WhiteSet(heap))
      ensures !marked ==> SameButStrings(old(heap), heap) && o in heap && Stable(heap, heap[o].body) && gray == old(gray)
      ensures ephemeron == old(ephemeron) || ephemeron == [o] + old(ephemeron)
    {
      hide Walking, MarkInv, Painted, KeysUpTo, ValsUpTo, Prefix, Darker, OnlyStrings, Grew, Settled, SameButStrings,
        StableUpTo, StableNode, ValsMarked, ArrMarked, Stable, StrKeysUpTo, StringKeys, StrSame;
      ghost var skip := {o};
      SameRefl(heap);
      WalkDom(s0, Snap(), o, skip);
      marked := TraverseEphArray(o, s0);
      WalkDom(s0, Snap(), o, skip);
      UpToZero(heap, heap[o].body);
      StableZero(heap, heap[o].body);
      var hasclears, hasww := false, false;
      var n := |heap[o].body.nodes|;
      var i := 0;
      while i < n
        invariant 0 <= i <= n && o in heap && heap[o].body.Table? && heap[o].body.mode.WeakKeys?
        invariant |heap[o].body.nodes| == n && heap[o].colour.Gray? && gcstate == old(gcstate) && stopped == old(stopped)
        invariant Walking(s0, Snap(), o, skip) && WhiteSet(heap) <= old(WhiteSet(heap))
        invariant marked ==> WhiteSet(heap) < old(WhiteSet(heap))
        invariant Prefix(heap, heap[o].body) && (hasww ==> hasclears)
        invariant !hasclears ==> KeysUpTo(heap, heap[o].body, i)
        invariant !hasww ==> ValsUpTo(heap, heap[o].body, i)
        invariant !marked ==> SameButStrings(old(heap), heap) && StableUpTo(heap, heap[o].body, i) && gray == old(gray)
        invariant StrKeysUpTo(heap, heap[o].body, i) && ephemeron == old(ephemeron)
      {
        ghost var h := heap;
        WalkDom(s0, Snap(), o, skip);
        forall k | 0 <= k < |Snap().heap[o].body.nodes| ensures Points(Snap().heap, Snap().heap[o].body.nodes[k].key) {
          WalkNode(s0, Snap(), o, k, skip);
        }
        var m, c, ww := EphemeronEntry(o, i, s0);
        WalkDom(s0, Snap(), o, skip);
        StepNode(h, heap, h[o].body, heap[o].body, i);
        StrKeysStep(h, heap, h[o].body, heap[o].body, i);
        if !m && !marked {
          StableStep(h, heap, h[o].body, heap[o].body, i);
          SameButStringsTrans(old(heap), h, heap);
        }
        marked, hasclears, hasww := marked || m, hasclears || c, hasww || ww;
        i := i + 1;
      }
      EphemeronDone(s0, Snap(), o, hasclears, hasww);
      if !marked { StableAll(heap, heap[o].body); }
      LinkEphemeronTable(o, hasclears, hasww, s0);
    }

    method TraverseEphArray(o: Ref, ghost s0: State) returns (marked: bool)
      requires Walking(s0, Snap(), o, {o})
      requires heap[o].body.Table? && heap[o].body.mode.WeakKeys? && Marked(heap, heap[o].body.meta)
      modifies this
      ensures Walking(s0, Snap(), o, {o}) && heap[o] == old(heap[o]) && Prefix(heap, heap[o].body)
      ensures WhiteSet(heap) <= old(WhiteSet(heap)) && gcstate == old(gcstate) && stopped == old(stopped)
      ensures if marked then WhiteSet(heap) < old(WhiteSet(heap)) else heap == old(heap) && gray == old(gray)
      ensures ephemeron == old(ephemeron)
    {
      hide Walking, MarkInv, Painted, ArrUpTo, KeysUpTo, ValsUpTo;
      var i := 0;
      ghost var skip := {o};
      WalkDom(s0, Snap(), o, skip);
      var b := heap[o].body;
      UpToZero(heap, b);
      marked := false;
      while i < |b.arr|
        invariant 0 <= i <= |b.arr| && o in heap && heap[o] == old(heap[o]) && heap[o].body == b
        invariant gcstate == old(gcstate) && stopped == old(stopped) && ephemeron == old(ephemeron)
        invariant Walking(s0, Snap(), o, skip) && WhiteSet(heap) <= old(WhiteSet(heap))
        invariant if marked then WhiteSet(heap) < old(WhiteSet(heap)) else heap == old(heap) && gray == old(gray)
        invariant ArrUpTo(heap, b, i) && Marked(heap, b.meta)
      {
        ghost var s := Snap();
        WalkDom(s0, s, o, skip);
        WalkArr(s0, s, o, i, skip);
        if b.arr[i].Ptr? && heap[b.arr[i].r].colour.White? {
          marked := true;
        }
        MarkValue(b.arr[i], skip);
        StepArr(s0, s, Snap(), o, i, skip);
        WalkOne(s0, s, Snap(), o, skip);
        i := i + 1;
      }
      UpToAll(heap, b);
    }

    method LinkEphemeronTable(o: Ref, hasclears: bool, hasww: bool, ghost s0: State)
      requires Walking(s0, Snap(), o, {o}) && heap[o].colour.Gray?
      requires heap[o].body.Table? && heap[o].body.mode.WeakKeys?
      requires Marked(heap, heap[o].body.meta) && ArrMarked(heap, heap[o].body)
      requires !hasww ==> ValsMarked(heap, heap[o].body)
      requires StringKeys(heap, heap[o].body)
      requires gcstate.Propagate? || (stopped && (hasclears || hasww || Settled(Snap(), o)))
      modifies this
      ensures MarkInv(Snap(), {}) && Grew(s0, Snap()) && heap == old(heap) && gray == old(gray)
      ensures ephemeron == old(ephemeron) || ephemeron == [o] + old(ephemeron)
    {
      hide Walking, MarkInv, Grew, Settled, ValsMarked, ArrMarked, StringKeys;
      WalkDom(s0, Snap(), o, {o});
      if gcstate.Propagate? {
        LinkAgain(s0, Snap(), o);
        grayagain := [o] + grayagain;
      } else if hasww {
        LinkEphemeron(s0, Snap(), o);
        ephemeron := [o] + ephemeron;
      } else if hasclears {
        LinkAllWeak(s0, Snap(), o);
        allweak := [o] + allweak;
      } else {
        WalkSettled(s0, Snap(), o);
      }
    }

    /** Mark a list of values, in order. */
    method MarkValues(vs: seq<Value>, ghost skip: set<Ref>)
      requires MarkInv(Snap(), skip) && AllPoint(Snap(), vs)
      modifies this
      ensures MarkInv(Snap(), skip) && Painted(old(Snap()), Snap()) && AllMarked(heap, vs)
    {
      hide MarkInv, Painted, Points, In, Marked;
      PaintedRefl(Snap());
      var i := 0;
      while i < |vs|
        invariant 0 <= i <= |vs| && MarkInv(Snap(), skip) && Painted(old(Snap()), Snap())
        invariant AllMarked(heap, vs[..i]) && AllPoint(Snap(), vs)
      {
        ghost var s := Snap();
        assert vs[i] in vs;
        MarkValue(vs[i], skip);
        PaintedTrans(old(Snap()), s, Snap());
        forall v | v in vs[..i + 1] ensures Marked(Snap().heap, v) {
          if v in vs[..i] { MarkedStays(s, Snap(), v); } else { assert v == vs[i]; }
        }
        AllPointStays(s, Snap(), vs);
        i := i + 1;
      }
      assert vs[..i] == vs;
    }

    /** `traverseproto`, `traverseCclosure`, `traverseLclosure` with closed upvalues. */
    method TraverseClosure(o: Ref, ghost s0: State)
      requires Walking(s0, Snap(), o, {o}) && heap[o].colour.Black? && heap[o].body.Closure?
      modifies this
      ensures MarkInv(Snap(), {}) && Grew(s0, Snap())
    {
      hide Walking, MarkInv, Painted, Grew;
      ghost var s := Snap();
      WalkDom(s0, s, o, {o});
      LivePoint(s, o, heap[o].body.vals, {o});
      MarkValues(heap[o].body.vals, {o});
      WalkOne(s0, s, Snap(), o, {o});
      assert Settled(Snap(), o);
      WalkSettled(s0, Snap(), o);
    }

    /** `traversethread`, with the relinking that `propagatemark` does for threads. */
    method TraverseThread(o: Ref, ghost s0: State)
      requires Walking(s0, Snap(), o, {o}) && heap[o].colour.Gray? && heap[o].body.Thread?
      modifies this
      ensures MarkInv(Snap(), {}) && Grew(s0, Snap())
    {
      hide Walking, MarkInv, Painted, Grew, AllMarked;
      WalkDom(s0, Snap(), o, {o});
      var live := heap[o].body.stack[..Min(heap[o].body.top, |heap[o].body.stack|)];
      if gcstate.InsideAtomic? {
        LinkAgainInside(s0, Snap(), o);
        grayagain := [o] + grayagain;
        ghost var s := Snap();
        WalkDom(s0, s, o, {o});
        LivePoint(s, o, live, {o});
        MarkValues(live, {o});
        WalkOne(s0, s, Snap(), o, {o});
        ThreadSettled(s0, Snap(), o);
        ClearStack(o);
      } else {
        LinkAgain(s0, Snap(), o);
        grayagain := [o] + grayagain;
        ghost var s := Snap();
        LivePoint(s, o, live, {});
        MarkValues(live, {});
        PaintedGrew(s, Snap());
        GrewTrans(s0, s, Snap());
      }
    }

    /** Clear the part of the stack above its top. */
    method ClearStack(o: Ref)
      requires o in heap && heap[o].body.Thread?
      modifies this`heap
      ensures Snap() == SetBody(old(Snap()), o, Cleared(old(heap[o].body)))
    {
      var b := heap[o].body;
      var i := Min(b.top, |b.stack|);
      while i < |b.stack|
        invariant Min(b.top, |b.stack|) <= i <= |b.stack|
        invariant o in heap && heap[o].body.Thread?
        invariant heap == old(heap)[o := old(heap[o]).(body := b.(stack := heap[o].body.stack))]
        invariant heap[o].body.stack ==
                  b.stack[..Min(b.top, |b.stack|)] + seq(i - Min(b.top, |b.stack|), _ => Nil) + b.stack[i..]
      {
        heap := heap[o := heap[o].(body := heap[o].body.(stack := heap[o].body.stack[i := Nil]))];
        i := i + 1;
      }
      assert heap[o].body.stack == Cleared(b).stack;
    }

    method TraverseTable(o: Ref, ghost s0: State)
      requires Walking(s0, Snap(), o, {o}) && heap[o].colour.Black? && heap[o].body.Table?
      requires gcstate.Propagate? || stopped
      modifies this
      ensures MarkInv(Snap(), {}) && Grew(s0, Snap())
    {
      hide Walking, MarkInv, Painted, Grew, Full, Settled, Stable, SameButStrings, Darker;
      ghost var s := Snap();
      WalkDom(s0, s, o, {o});
      assert o in s.heap by { WalkDom(s0, s, o, {o}); }
      WalkSlot(s0, s, o, s.heap[o].body.meta, {o});
      MarkValue(heap[o].body.meta, {o});
      WalkOne(s0, s, Snap(), o, {o});
      if heap[o].body.mode.Strong? {
        TraverseStrongTable(o, s0, {o});
        WalkDom(s0, Snap(), o, {o});
        StrongSettled(s0, Snap(), o);
      } else {
        WalkBlacken(s0, Snap(), o, Gray);
        MarkedGrows(heap, Paint(Snap(), o, Gray).heap, heap[o].body.meta);
        heap := heap[o := heap[o].(colour := Gray)];
        match heap[o].body.mode {
          case WeakValues => TraverseWeakValue(o, s0);
          case WeakKeys => var _ := TraverseEphemeron(o, s0);
          case AllWeak =>
            LinkAllWeak(s0, Snap(), o);
            allweak := [o] + allweak;
        }
      }
    }

    /** `propagatemark`: traverse one gray object. */
    method PropagateMark()
      requires MarkInv(Snap(), {}) && gray != []
      requires gcstate.Propagate? || stopped
      modifies this
      ensures MarkInv(Snap(), {}) && Grew(old(Snap()), Snap())
      ensures WhiteSet(heap) < old(WhiteSet(heap)) || |gray| < old(|gray|)
    {
      hide Walking, MarkInv, Grew, Links;
      ghost var s := Snap();
      PopGray(s);
      var o := gray[0];
      gray := gray[1..];
      ghost var s0 := Snap();
      if heap[o].body.Thread? {
        TraverseThread(o, s0);
      } else {
        WalkBlacken(s0, s0, o, Black);
        heap := heap[o := heap[o].(colour := Black)];
        if heap[o].body.Table? {
          TraverseTable(o, s0);
        } else {
          TraverseClosure(o, s0);
        }
      }
      PopGrew(s, Snap());
    }

    method PropagateAll()
      requires MarkInv(Snap(), {})
      requires gcstate.Propagate? || stopped
      modifies this
      ensures MarkInv(Snap(), {}) && Grew(old(Snap()), Snap()) && gray == []
    {
      hide MarkInv, Grew;
      GrewRefl(Snap());
      while gray != []
        invariant MarkInv(Snap(), {}) && Grew(old(Snap()), Snap()) && (gcstate.Propagate? || stopped)
        decreases WhiteSet(heap), |gray|
      {
        ghost var s := Snap();
        PropagateMark();
        GrewTrans(old(Snap()), s, Snap());
        GrewKeeps(s, Snap());
      }
    }

    /** `convergeephemerons`: revisit ephemeron tables until a whole round marks nothing. */
    method ConvergeEphemerons()
      requires MarkInv(Snap(), {}) && gray == [] && held == [] && gcstate.InsideAtomic? && stopped
      modifies this
      ensures MarkInv(Snap(), {}) && Spread(old(Snap()), Snap()) && gray == [] && held == []
      ensures AllStable(Snap())
    {
      hide MarkInv, Spread, Grew, AllStable, HeldOK, WhiteSet;
      SpreadRefl(Snap());
      var changed := true;
      while changed
        invariant MarkInv(Snap(), {}) && Spread(old(Snap()), Snap()) && gray == [] && held == []
        invariant gcstate.InsideAtomic? && stopped
        invariant !changed ==> AllStable(Snap())
        decreases WhiteSet(heap), changed
      {
        ghost var s := Snap();
        changed := ConvergeRound();
        SpreadTrans(old(Snap()), s, Snap());
      }
    }

    /** One round over the ephemeron list; true iff something was marked. */
    method ConvergeRound() returns (changed: bool)
      requires MarkInv(Snap(), {}) && gray == [] && held == [] && gcstate.InsideAtomic? && stopped
      modifies this
      ensures MarkInv(Snap(), {}) && Spread(old(Snap()), Snap()) && gray == [] && held == []
      ensures gcstate.InsideAtomic? && stopped
      ensures if changed then WhiteSet(heap) < old(WhiteSet(heap)) else WhiteSet(heap) <= old(WhiteSet(heap)) && AllStable(Snap())
    {
      hide MarkInv, Spread, Grew, HeldOK, WhiteSet;
      ghost var s0 := Snap();
      TakeEphemerons(Snap());
      held, ephemeron := ephemeron, [];
      changed := false;
      SpreadWhites(s0, Snap());
      while held != []
        invariant MarkInv(Snap(), {}) && Spread(old(Snap()), Snap()) && gray == [] && HeldOK(Snap())
        invariant gcstate.InsideAtomic? && stopped && WhiteSet(heap) <= old(WhiteSet(heap))
        invariant if changed then WhiteSet(heap) < old(WhiteSet(heap)) else AllStable(Snap())
        decreases |held|
      {
        ghost var s := Snap();
        var marked := RoundOne();
        SpreadTrans(old(Snap()), s, Snap());
        SpreadWhites(s, Snap());
        changed := changed || marked;
      }
    }

    method RoundOne() returns (marked: bool)
      requires MarkInv(Snap(), {}) && gray == [] && held != [] && HeldOK(Snap()) && gcstate.InsideAtomic? && stopped
      modifies this
      ensures MarkInv(Snap(), {}) && Spread(old(Snap()), Snap()) && gray == [] && held == old(held[1..]) && HeldOK(Snap())
      ensures gcstate.InsideAtomic? && stopped
      ensures marked ==> WhiteSet(heap) < old(WhiteSet(heap))
      ensures !marked && old(AllStable(Snap())) ==> AllStable(Snap())
    {
      hide MarkInv, Spread, Grew, Walking, WhiteSet, AllStable, SameButStrings, Stable;
      ghost var s := Snap();
      PopHeld(s);
      var w := held[0];
      assert w in s.held;
      held := held[1..];
      ghost var s0 := Snap();
      InvNoDangling(s, {});
      assert AllStable(s) ==> AllStable(s0) by { PoppedStable(s, s0); }
      marked := TraverseEphemeron(w, s0);
      ghost var s1 := Snap();
      HeldStays(s0, s1);
      PopSpread(s, s0, s1);
      GrewKeep2(s0, s1);
      if marked {
        PropagateAll();
        HeldStays(s1, Snap());
        GrewSpread(s1, Snap());
        SpreadTrans(s, s1, Snap());
        GrewKeep2(s1, Snap());
      } else if AllStable(s) {
        RoundStep(s0, s1, w);
      }
    }

    // ----- clearing weak tables -----------------------------------------------------------------

    method ClearArrSlot(t: Ref, i: nat, ghost l: set<Ref>)
      requires MarkInv(Snap(), {}) && t in heap && !heap[t].colour.White? && t in l
      requires t in blind ==> heap[t].body.Table? && heap[t].body.mode.AllWeak?
      requires heap[t].body.Table? && !heap[t].body.mode.Strong? && i < |heap[t].body.arr|
      requires heap[t].body.mode.WeakKeys? ==> Marked(heap, heap[t].body.arr[i])
      modifies this
      ensures MarkInv(Snap(), {}) && WipedIn(old(Snap()), Snap(), l) && t in heap && heap[t].colour == old(heap[t].colour)
      ensures heap[t].body == old(heap[t].body) ||
              (heap[t].body == DropArr(old(heap[t].body), i) && Gone(heap, old(heap[t].body.arr[i])))
      ensures Marked(heap, heap[t].body.arr[i]) && OnlyBody(old(heap), heap, t)
    {
      hide MarkInv, Painted, WipedIn, OnlyStrings;
      ghost var s := Snap();
      ArrSlot(s, t, i);
      var b := heap[t].body;
      var cleared := IsCleared(b.arr[i], {});
      var b' := if cleared then DropArr(b, i) else b;
      WipeStep(s, Snap(), t, b', l);
      heap := heap[t := heap[t].(body := b')];
    }

    method ClearValSlot(t: Ref, i: nat, ghost l: set<Ref>)
      requires MarkInv(Snap(), {}) && t in heap && !heap[t].colour.White? && t in l
      requires t in blind ==> heap[t].body.Table? && heap[t].body.mode.AllWeak?
      requires heap[t].body.Table? && !heap[t].body.mode.Strong? && i < |heap[t].body.nodes|
      requires heap[t].body.mode.WeakKeys? ==> Marked(heap, heap[t].body.nodes[i].val)
      modifies this
      ensures MarkInv(Snap(), {}) && WipedIn(old(Snap()), Snap(), l) && t in heap && heap[t].colour == old(heap[t].colour)
      ensures heap[t].body == old(heap[t].body) ||
              ((heap[t].body == DropVal(old(heap[t].body), i) || heap[t].body == Buried(old(heap[t].body), i))
               && Gone(heap, old(heap[t].body.nodes[i].val)))
      ensures Marked(heap, heap[t].body.nodes[i].val) && OnlyBody(old(heap), heap, t)
    {
      hide MarkInv, Painted, WipedIn, OnlyStrings;
      ghost var s := Snap();
      NodeSlot(s, t, i);
      PaintedRefl(s);
      OnlyRefl(heap);
      var b := heap[t].body;
      var n := b.nodes[i];
      var b' := b;
      if !n.val.Nil? {
        var cleared := IsCleared(n.val, {});
        if cleared {
          b' := if n.key.Ptr? && n.key.r in heap && heap[n.key.r].colour.White? then Buried(b, i) else DropVal(b, i);
        }
      }
      WipeStep(s, Snap(), t, b', l);
      heap := heap[t := heap[t].(body := b')];
    }

    /** `clearvalues` for one table. */
    method ClearTableValues(t: Ref, ghost l: set<Ref>)
      requires MarkInv(Snap(), {}) && Clearable(Snap(), [t]) && t in l
      modifies this
      ensures MarkInv(Snap(), {}) && WipedIn(old(Snap()), Snap(), l) && t in heap && t in old(heap)
      ensures ValuesCleared(heap, old(heap)[t].body, heap[t].body)
      ensures OnlyBody(old(heap), heap, t)
    {
      hide MarkInv, WipedIn, Wiped, Clearable, ArrProg, ValProg, KeyProg, ValuesCleared;
      ClearTableArr(t, l);
      ghost var s1 := Snap();
      WipedOf(old(Snap()), s1, l);
      ClearableStays(old(Snap()), s1, [t]);
      ClearTableNodes(t, l);
      WipedOf(s1, Snap(), l);
      WipedInTrans(old(Snap()), s1, Snap(), l);
      ProgDone(s1, Snap(), old(heap)[t].body, s1.heap[t].body, heap[t].body);
    }

    method ClearTableArr(t: Ref, ghost l: set<Ref>)
      requires MarkInv(Snap(), {}) && Clearable(Snap(), [t]) && t in l
      modifies this
      ensures MarkInv(Snap(), {}) && WipedIn(old(Snap()), Snap(), l) && t in heap && t in old(heap)
      ensures heap[t].body.Table? && ArrProg(heap, old(heap)[t].body, heap[t].body, |heap[t].body.arr|)
      ensures OnlyBody(old(heap), heap, t)
    {
      hide MarkInv, WipedIn, Wiped, Clearable, ArrProg, ValProg, KeyProg;
      ghost var s0 := Snap();
      ClearableOne(s0, t);
      ghost var b0 := heap[t].body;
      WipedInRefl(s0, l);
      ProgStart(heap, b0);
      var n := |heap[t].body.arr|;
      var i := 0;
      while i < n
        invariant 0 <= i <= n && MarkInv(Snap(), {}) && WipedIn(s0, Snap(), l) && Clearable(Snap(), [t])
        invariant t in heap && heap[t].body.Table? && |heap[t].body.arr| == n && OnlyBody(s0.heap, heap, t)
        invariant ArrProg(heap, b0, heap[t].body, i)
      {
        ghost var s := Snap();
        ClearableOne(s, t);
        ClearArrSlot(t, i, l);
        WipedOf(s, Snap(), l);
        WipedInTrans(s0, s, Snap(), l);
        ClearableStays(s, Snap(), [t]);
        ArrProgStep(s, Snap(), b0, s.heap[t].body, heap[t].body, i);
        i := i + 1;
      }
    }

    method ClearTableNodes(t: Ref, ghost l: set<Ref>)
      requires MarkInv(Snap(), {}) && Clearable(Snap(), [t]) && t in l
      modifies this
      ensures MarkInv(Snap(), {}) && WipedIn(old(Snap()), Snap(), l) && t in heap && t in old(heap)
      ensures heap[t].body.Table? && ValProg(heap, old(heap)[t].body, heap[t].body, |heap[t].body.nodes|)
      ensures OnlyBody(old(heap), heap, t)
    {
      hide MarkInv, WipedIn, Wiped, Clearable, ArrProg, ValProg, KeyProg;
      ghost var s0 := Snap();
      ClearableOne(s0, t);
      ghost var b0 := heap[t].body;
      WipedInRefl(s0, l);
      ProgStart(heap, b0);
      var n := |heap[t].body.nodes|;
      var i := 0;
      while i < n
        invariant 0 <= i <= n && MarkInv(Snap(), {}) && WipedIn(s0, Snap(), l) && Clearable(Snap(), [t])
        invariant t in heap && heap[t].body.Table? && |heap[t].body.nodes| == n && OnlyBody(s0.heap, heap, t)
        invariant ValProg(heap, b0, heap[t].body, i)
      {
        ghost var s := Snap();
        ClearableOne(s, t);
        ClearValSlot(t, i, l);
        WipedOf(s, Snap(), l);
        WipedInTrans(s0, s, Snap(), l);
        ClearableStays(s, Snap(), [t]);
        ValProgStep(s, Snap(), b0, s.heap[t].body, heap[t].body, i);
        i := i + 1;
      }
    }

    /** `clearvalues`: drop the values that were not marked from the tables of a list. */
    method ClearValues(l: seq<Ref>)
      requires MarkInv(Snap(), {}) && Clearable(Snap(), l)
      modifies this
      ensures MarkInv(Snap(), {}) && WipedIn(old(Snap()), Snap(), ToSet(l)) && ValuesDone(heap, l, old(heap))
    {
      hide MarkInv, WipedIn, Wiped, Clearable, ValuesCleared;
      ghost var s0, ls := Snap(), ToSet(l);
      WipedInRefl(s0, ls);
      var i := 0;
      while i < |l|
        invariant 0 <= i <= |l| && MarkInv(Snap(), {}) && WipedIn(s0, Snap(), ls) && Clearable(Snap(), l)
        invariant ValuesDone(heap, l[..i], s0.heap) && Untouched(s0.heap, heap, l[..i])
      {
        ghost var s := Snap();
        ClearableAt(s, l, i);
        ClearTableValues(l[i], ls);
        WipedOf(s, Snap(), ls);
        WipedInTrans(s0, s, Snap(), ls);
        WipedOf(s0, s, ls);
        ClearableStays(s, Snap(), l);
        ValuesDoneStep(s0, s, Snap(), l, i);
        i := i + 1;
      }
      assert l[..i] == l;
    }

    method ClearKeySlot(t: Ref, i: nat)
      requires MarkInv(Snap(), {}) && t in heap && !heap[t].colour.White?
      requires t in blind ==> heap[t].body.Table? && heap[t].body.mode.AllWeak?
      requires heap[t].body.Table? && !heap[t].body.mode.Strong? && !heap[t].body.mode.WeakValues? && i < |heap[t].body.nodes|
      modifies this
      ensures MarkInv(Snap(), {}) && Wiped(old(Snap()), Snap()) && t in heap && heap[t].colour == old(heap[t].colour)
      ensures heap[t].body == old(heap[t].body) ||
              (heap[t].body == Buried(old(heap[t].body), i)
               && (old(heap[t].body.nodes[i].val.Nil?) || Gone(heap, old(heap[t].body.nodes[i].key))))
      ensures Marked(heap, heap[t].body.nodes[i].key) && OnlyBody(old(heap), heap, t)
    {
      hide MarkInv, Painted, WipedIn, Wiped;
      ghost var s := Snap();
      NodeSlot(s, t, i);
      PaintedRefl(s);
      OnlyRefl(heap);
      var b := heap[t].body;
      var n := b.nodes[i];
      var cleared := false;
      if !n.val.Nil? {
        cleared := IsCleared(n.key, {});
      }
      var b' := if (cleared || n.val.Nil?) && n.key.Ptr? && n.key.r in heap && heap[n.key.r].colour.White?
                then Buried(b, i) else b;
      assert b' == b ==> Marked(heap, n.key);
      KeyStep(s, Snap(), t, b', i);
      heap := heap[t := heap[t].(body := b')];
    }

    /** `clearkeys` for one table. */
    method ClearTableKeys(t: Ref)
      requires MarkInv(Snap(), {}) && KeyClearable(Snap(), [t])
      modifies this
      ensures MarkInv(Snap(), {}) && Wiped(old(Snap()), Snap()) && t in heap && t in old(heap)
      ensures KeysCleared(heap, old(heap)[t].body, heap[t].body) && OnlyBody(old(heap), heap, t)
    {
      hide MarkInv, Wiped, KeyProg;
      ghost var s0 := Snap();
      assert t in [t];
      ghost var b0 := heap[t].body;
      WipedRefl(s0);
      ProgStart(heap, b0);
      var n := |heap[t].body.nodes|;
      var i := 0;
      while i < n
        invariant 0 <= i <= n && MarkInv(Snap(), {}) && Wiped(s0, Snap()) && KeyClearable(Snap(), [t])
        invariant t in heap && heap[t].body.Table? && |heap[t].body.nodes| == n && OnlyBody(s0.heap, heap, t)
        invariant KeyProg(heap, b0, heap[t].body, i)
      {
        ghost var s := Snap();
        assert t in [t];
        ClearKeySlot(t, i);
        OnlyBodyTrans(s0, s, Snap(), t);
        WipedTrans(s0, s, Snap());
        KeyProgStep(s, Snap(), b0, s.heap[t].body, heap[t].body, i);
        i := i + 1;
      }
      KeyProgDone(heap, b0, heap[t].body);
    }

    /** `clearkeys`: drop the entries whose key was not marked from the tables of a list. */
    method ClearKeys(l: seq<Ref>)
      requires MarkInv(Snap(), {}) && KeyClearable(Snap(), l)
      modifies this
      ensures MarkInv(Snap(), {}) && Wiped(old(Snap()), Snap()) && KeysDone(heap, l, old(heap))
      ensures Untouched(old(heap), heap, l)
    {
      hide MarkInv, Wiped, KeysCleared, KeyClearable;
      ghost var s0 := Snap();
      WipedRefl(s0);
      var i := 0;
      while i < |l|
        invariant 0 <= i <= |l| && MarkInv(Snap(), {}) && Wiped(s0, Snap()) && KeyClearable(Snap(), l)
        invariant KeysDone(heap, l[..i], s0.heap) && Untouched(s0.heap, heap, l[..i])
      {
        ghost var s := Snap();
        KeyClearableAt(s, l, i);
        ClearTableKeys(l[i]);
        WipedTrans(s0, s, Snap());
        KeyClearableStays(s, Snap(), l);
        KeysDoneStep(s0, s, Snap(), l, i);
        i := i + 1;
      }
      assert l[..i] == l;
    }

    // ----- the atomic phase -------------------------------------------------------------------------

    /** `separatetobefnz`: move the unmarked objects of `finobj` to the end of `tobefnz`. */
    method SeparateToBeFnz()
      modifies this`finobj, this`tobefnz
      ensures finobj == Without(old(finobj), WhiteSet(heap))
      ensures tobefnz == old(tobefnz) + Only(old(finobj), WhiteSet(heap))
    {
      ghost var l, w := finobj, WhiteSet(heap);
      ghost var k := 0;
      var p := 0;
      while p < |finobj|
        invariant 0 <= k <= |l| && 0 <= p <= |finobj|
        invariant finobj[..p] == Without(l[..k], w) && finobj[p..] == l[k..]
        invariant tobefnz == old(tobefnz) + Only(l[..k], w)
        decreases |finobj| - p
      {
        OnlySnoc(l, w, k);
        var curr := finobj[p];
        assert finobj[p..][0] == l[k..][0] && finobj[p..][1..] == l[k..][1..];
        if curr in heap && heap[curr].colour.White? {
          finobj := finobj[..p] + finobj[p + 1..];
          tobefnz := tobefnz + [curr];
        } else {
          assert finobj[..p + 1] == finobj[..p] + [curr];
          p := p + 1;
        }
        k := k + 1;
      }
      assert l[..k] == l && finobj[..p] == finobj;
    }

    /** `markbeingfnz`: mark everything waiting for its finalizer. */
    method MarkBeingFnz()
      requires MarkInv(Snap(), {}) && RootsOK(Snap())
      modifies this
      ensures MarkInv(Snap(), {}) && Painted(old(Snap()), Snap()) && RefsMarked(heap, tobefnz)
    {
      hide MarkInv, Painted, Darker;
      ghost var s0 := Snap();
      PaintedRefl(s0);
      var l := tobefnz;
      var i := 0;
      while i < |l|
        invariant 0 <= i <= |l| && MarkInv(Snap(), {}) && Painted(s0, Snap()) && RootsOK(Snap())
        invariant RefsMarked(heap, l[..i]) && tobefnz == l
      {
        ghost var s := Snap();
        assert l[i] in tobefnz;
        MarkValue(Ptr(l[i]), {});
        PaintedOwners(s, Snap());
        PaintedTrans(s0, s, Snap());
        i := i + 1;
      }
      assert l[..i] == l;
    }

    /** The roots, then everything gray, then what was put off to this phase. */
    method AtomicRoots(L: Ref)
      requires MarkInv(Snap(), {}) && gcstate.InsideAtomic? && stopped && RootsOK(Snap()) && L in heap && L in bound.now
      modifies this
      ensures MarkInv(Snap(), {}) && Ran(old(Snap()), Snap()) && gray == [] && held == old(held)
      ensures gcstate.InsideAtomic? && AllMarked(heap, [Ptr(L), registry] + mt)
    {
      hide MarkInv, Painted, Grew, Ran, RootsOK, StartMarked, AllMarked;
      ghost var s0 := Snap();
      RootsPoint(s0, L);
      MarkValues([Ptr(L), registry] + mt, {});
      ghost var s1 := Snap();
      PaintedRan(s0, s1);
      RanKeeps(s0, s1);
      PropagateAll();
      GrewRan(s1, Snap());
      RanKeeps(s1, Snap());
      RanTrans(s0, s1, Snap());
    }

    /** The first half of `atomic`: mark from the roots, revisit `grayagain`, converge. */
    method AtomicMark(L: Ref)
      requires MarkInv(Snap(), {}) && gcstate.Atomic? && stopped && gray == [] && held == []
      requires RootsOK(Snap()) && L in heap && L in bound.now
      modifies this
      ensures Quiet(Snap()) && AllStable(Snap()) && Ran(old(Snap()), Snap())
      ensures AllMarked(heap, [Ptr(L), registry] + mt)
    {
      hide MarkInv, Painted, Grew, Spread, Ran, RootsOK, StartMarked, AllStable, AllMarked;
      ghost var s0 := Snap();
      EnterInside(s0);
      held := grayagain;
      gcstate := InsideAtomic;
      ListsRan(s0, Snap());
      RanKeeps(s0, Snap());
      ghost var s1 := Snap();
      AtomicRoots(L);
      ghost var s2 := Snap();
      RanTrans(s0, s1, s2);
      SwapHeld(s2);
      gray := held;
      held := [];
      ghost var s3 := Snap();
      ListsRan(s2, s3);
      RanKeeps(s1, s2);
      AtomicRest();
      RanTrans(s2, s3, Snap());
      RanTrans(s0, s2, Snap());
      RanKeeps(s3, Snap());
    }

    method AtomicRest()
      requires MarkInv(Snap(), {}) && gcstate.InsideAtomic? && stopped && held == []
      modifies this
      ensures Quiet(Snap()) && AllStable(Snap()) && Ran(old(Snap()), Snap())
      ensures Suffix(old(weak), weak) && Suffix(old(allweak), allweak)
    {
      hide MarkInv, Painted, Grew, Spread, Ran, AllStable, Suffix;
      ghost var s0 := Snap();
      PropagateAll();
      ghost var s1 := Snap();
      GrewRan(s0, s1);
      RanKeeps(s0, s1);
      ConvergeEphemerons();
      SpreadRan(s1, Snap());
      RanKeeps(s1, Snap());
      RanTrans(s0, s1, Snap());
      SuffixTrans(s0.weak, s1.weak, weak);
      SuffixTrans(s0.allweak, s1.allweak, allweak);
    }

    /** Clear the values of weak tables before finalizers are looked at. */
    method AtomicWipe()
      requires Quiet(Snap())
      modifies this
      ensures Quiet(Snap()) && WipedIn(old(Snap()), Snap(), ToSet(weak) + ToSet(allweak))
      ensures ValsClean(heap, weak) && ValsClean(heap, allweak) && CulledValues(old(Snap()), Snap())
    {
      hide MarkInv, Wiped, WipedIn, Clearable, KeyClearable, ValsClean, KeysClean, ValuesDone, CulledValues, Culled;
      ghost var s0 := Snap();
      WeakClearable(s0);
      ClearValues(weak);
      ghost var s1 := Snap();
      WipedOf(s0, s1, ToSet(s0.weak));
      ValuesCulled(s0, s1, weak);
      WipedQuiet(s0, s1);
      DoneClean(heap, weak, s0.heap);
      WeakClearable(s1);
      ClearValues(allweak);
      ghost var s2 := Snap();
      WipedOf(s1, s2, ToSet(s1.allweak));
      ValuesCulled(s1, s2, allweak);
      CulledTrans(s0, s1, s2);
      WipedQuiet(s1, s2);
      DoneClean(heap, allweak, s1.heap);
      CleanStays(s1.heap, heap, weak);
      WipedInTrans(s0, s1, s2, ToSet(weak) + ToSet(allweak));
    }

    /** Mark what is about to be finalized, with everything it leads to. */
    method AtomicResurrect()
      requires Quiet(Snap()) && RootsOK(Snap()) && ValsClean(heap, weak) && ValsClean(heap, allweak)
      modifies this
      ensures Quiet(Snap()) && AllStable(Snap()) && TrimmedHeap(old(heap), heap) && Darker(old(heap), heap)
      ensures SameOwners(Resurrecting(old(Snap())), Snap())
      ensures RefsMarked(heap, tobefnz) && RootsOK(Snap())
      ensures Suffix(old(weak), weak) && Suffix(old(allweak), allweak)
      ensures ValsClean(heap, old(weak)) && ValsClean(heap, old(allweak))
    {
      hide MarkInv, Painted, Spread, Ran, AllStable, Suffix, ValsClean, KeysClean, RefsMarked, TrimmedHeap, Darker, RootsOK,
        SameOwners, Bounded, WhiteSet;
      ghost var s0 := Snap();
      SeparateMark(s0);
      SeparateRoots(s0);
      SeparateToBeFnz();
      gcfinnum := 1;
      bound := Bound(bound.later, bound.later);
      ghost var s1 := Snap();
      assert s1 == Resurrecting(s0);
      MarkBeingFnz();
      ghost var s2 := Snap();
      PaintedRan(s1, s2);
      RanKeeps(s1, s2);
      PaintedLists(s1, s2);
      AtomicRest();
      ghost var s3 := Snap();
      RanKeeps(s2, s3);
      RanTrans(s1, s2, s3);
      ResurrectKeeps(s1, s2, s3);
      CleanStays(s1.heap, heap, s0.weak);
      CleanStays(s1.heap, heap, s0.allweak);
    }

    /** The last clearing passes of `atomic`; `nw` and `na` count the tables listed since the first. */
    method AtomicLastWipe(nw: nat, na: nat)
      requires Quiet(Snap()) && AllStable(Snap()) && nw <= |weak| && na <= |allweak|
      requires ValsClean(heap, weak[nw..]) && ValsClean(heap, allweak[na..])
      modifies this
      ensures Quiet(Snap()) && Wiped(old(Snap()), Snap()) && AllFull(heap, blind) && Culled(old(Snap()), Snap())
    {
      hide MarkInv, Wiped, WipedIn, Clearable, KeyClearable, ValsClean, KeysClean, ValuesDone, KeysDone, AllStable,
        EphValsMarked, AllFull, Darker, ShrunkHeap, SameOwners, Culled, CulledValues;
      ghost var s0 := Snap();
      WeakClearable(s0);
      ClearKeys(ephemeron);
      ghost var s1 := Snap();
      KeysCulled(s0, s1, s0.ephemeron);
      WipedQuiet(s0, s1);
      DoneClean(heap, ephemeron, s0.heap);
      EphemeronsClean(s0, s1);
      WeakClearable(s1);
      ClearKeys(allweak);
      ghost var s2 := Snap();
      KeysCulled(s1, s2, s1.allweak);
      CulledTrans(s0, s1, s2);
      WipedQuiet(s1, s2);
      DoneClean(heap, allweak, s1.heap);
      CleanStays(s1.heap, heap, ephemeron);
      CleanStays(s0.heap, s1.heap, weak[nw..]);
      CleanStays(s0.heap, s1.heap, allweak[na..]);
      CleanStays(s1.heap, heap, weak[nw..]);
      CleanStays(s1.heap, heap, allweak[na..]);
      AtomicLastValues(nw, na);
      WipedTrans(s0, s1, s2);
      WipedTrans(s0, s2, Snap());
      WipedTrans(s1, s2, Snap());
      WipedQuiet(s2, Snap());
      EphValsStay(s1, Snap(), Snap().ephemeron);
      CleanFull(Snap());
      CulledTrans(s0, s2, Snap());
    }

    method AtomicLastValues(nw: nat, na: nat)
      requires Quiet(Snap()) && nw <= |weak| && na <= |allweak|
      requires ValsClean(heap, weak[nw..]) && ValsClean(heap, allweak[na..])
      requires KeysClean(heap, ephemeron) && KeysClean(heap, allweak)
      modifies this
      ensures Quiet(Snap()) && Wiped(old(Snap()), Snap()) && Culled(old(Snap()), Snap())
      ensures ValsClean(heap, weak) && ValsClean(heap, allweak) && KeysClean(heap, ephemeron) && KeysClean(heap, allweak)
    {
      hide MarkInv, Wiped, WipedIn, Clearable, KeyClearable, ValsClean, KeysClean, ValuesDone, Darker, ShrunkHeap, SameOwners, Culled, CulledValues;
      ghost var s0 := Snap();
      WeakClearable(s0);
      ClearablePart(s0, weak, weak[..nw]);
      ghost var lw := weak[..nw];
      ClearValues(weak[..nw]);
      ghost var s1 := Snap();
      WipedOf(s0, s1, ToSet(lw));
      ValuesCulled(s0, s1, lw);
      WipedQuiet(s0, s1);
      DoneClean(heap, weak[..nw], s0.heap);
      CleanStays(s0.heap, heap, weak[nw..]);
      CleanParts(heap, weak, nw);
      WeakClearable(s1);
      ClearablePart(s1, allweak, allweak[..na]);
      ghost var la := allweak[..na];
      ClearValues(allweak[..na]);
      ghost var s2 := Snap();
      WipedOf(s1, s2, ToSet(la));
      ValuesCulled(s1, s2, la);
      CulledTrans(s0, s1, s2);
      CulledKeys(s0, s2);
      WipedQuiet(s1, s2);
      DoneClean(heap, allweak[..na], s1.heap);
      CleanStays(s0.heap, s1.heap, allweak[na..]);
      CleanStays(s1.heap, heap, allweak[na..]);
      CleanParts(heap, allweak, na);
      CleanStays(s1.heap, heap, weak);
      CleanStays(s0.heap, s1.heap, ephemeron);
      CleanStays(s1.heap, heap, ephemeron);
      CleanStays(s0.heap, s1.heap, allweak);
      CleanStays(s1.heap, heap, allweak);
      WipedTrans(s0, s1, s2);
    }

    /** `atomic`: finish marking with the program stopped, resurrect what has a finalizer, clear the
        weak tables, and flip the white. */
    method Atomic(L: Ref) returns (ghost M: set<Ref>)
      requires MarkInv(Snap(), {}) && gcstate.Atomic? && stopped && gray == [] && held == []
      requires RootsOK(Snap()) && StartMarked(Snap()) && L in heap && L in bound.now
      modifies this
      ensures currentwhite == !old(currentwhite) && Flipped(Snap())
      ensures Reached(old(Snap()), L, M) && OwnersMoved(old(Snap()), Snap(), M)
      ensures Closed(SeenHeap(old(heap), old(blind)), MarkedSet(heap), false) && RootSet(Snap()) + {L} <= MarkedSet(heap)
      ensures ShrunkHeap(old(heap), heap) && Darker(old(heap), heap)
      ensures old(blind) == {} ==> Entries(old(heap), heap, M, MarkedSet(heap))
    {
      hide MarkInv, Wiped, WipedIn, ValsClean, AllStable, AllFull, Darker, ShrunkHeap, TrimmedHeap, SameOwners, Ran,
        RootsOK, AllMarked, RefsMarked, Flipped, Suffix, Closed, SeenHeap, MarkedSet, RootSet, Culled, CulledValues, Entries;
      ghost var s0 := Snap();
      AtomicMark(L);
      ghost var s1 := Snap();
      RanKeeps(s0, s1);
      AtomicWipe();
      ghost var s2 := Snap();
      WipedOf(s1, s2, ToSet(weak) + ToSet(allweak));
      WipedQuiet(s1, s2);
      var nw, na := |weak|, |allweak|;
      AtomicResurrect();
      ghost var s3 := Snap();
      SuffixSplit(s2.weak, weak);
      SuffixSplit(s2.allweak, allweak);
      SuffixLength(s2.weak, weak);
      SuffixLength(s2.allweak, allweak);
      AtomicLastWipe(|weak| - nw, |allweak| - na);
      ghost var s4 := Snap();
      M := MarkedSet(s2.heap);
      MarkedBound(s2);
      ResurrectBlind(s2, s3);
      AtomicComplete(s0, s1, s2, s3, s4);
      AtomicOwners(s0, s1, s2, s3, s4, L);
      if s0.blind == {} {
        RanKeeps2(s0, s1);
        AtomicEntries(s0, s1, s2, s3, s4);
      }
      FlipNow(s4);
      currentwhite := !currentwhite;
    }

    // ----- sweeping -------------------------------------------------------------------------------

    /** `sweeplist`: from position `at`, free dead objects and whiten live ones, at most `count` of
        them; the new position is None at the end of the list. */
    method SweepList(l: seq<Ref>, at: nat, count: nat) returns (l': seq<Ref>, at': Option<nat>, ghost k: nat)
      requires at <= |l| && forall i, j :: 0 <= i < j < |l| ==> l[i] != l[j]
      requires forall r :: r in l ==> r in heap
      modifies this`heap
      ensures k == Min(count, |l| - at) && heap == SweptHeap(old(heap), currentwhite, ToSet(l[at..at + k]))
      ensures l' == l[..at] + Survivors(old(heap), currentwhite, l[at..at + k]) + l[at + k..]
      ensures at' == if at + k == |l| then None else Some(at + |Survivors(old(heap), currentwhite, l[at..at + k])|)
    {
      hide Survivors, SweptHeap, Sweep;
      ghost var h0 := heap;
      l' := l;
      var p: nat, n: nat := at, count;
      k := 0;
      SweepBegin(h0, currentwhite, l, at);
      while p < |l'| && n > 0
        invariant Sweep(h0, currentwhite, l, at, k, l', p, heap) && k + n == count && p <= |l'| && at + k <= |l|
        decreases n
      {
        SweepTurn(h0, currentwhite, l, at, k, l', p, heap);
        var curr := l'[p];
        if IsDead(currentwhite, heap[curr].colour) {
          l' := l'[..p] + l'[p + 1..];
          heap := heap - {curr};
        } else {
          heap := heap[curr := heap[curr].(colour := White(currentwhite))];
          p := p + 1;
        }
        n := n - 1;
        k := k + 1;
        SweepIn(h0, currentwhite, l, at, k, l', p, heap);
      }
      SweepEnd(h0, currentwhite, l, at, k, l', p, heap);
      at' := if p == |l'| then None else Some(p);
    }

    /** `entersweep`: start sweeping with one element, so that objects created later are not visited. */
    method EnterSweep()
      requires Inv(Snap().(phase := SwpAllGc, stopped := false, sweep := Some(0)))
      modifies this
      ensures SweptTo(old(Snap().(phase := SwpAllGc, stopped := false, sweep := Some(0))), Snap()) && gcstate.SwpAllGc?
      ensures Beside(old(Snap().(phase := SwpAllGc, stopped := false, sweep := Some(0))), Snap())
    {
      hide Inv, LiveSet, SweptHeap, Survivors, SweptTo, Beside;
      gcstate, stopped, sweepgc := SwpAllGc, false, Some(0);
      SweepSome(1);
    }

    /** `sweeplist` on the list of the current phase. */
    method SweepSome(count: nat)
      requires Inv(Snap()) && Sweeping(gcstate) && sweepgc.Some? && count > 0
      modifies this
      ensures SweptTo(old(Snap()), Snap()) && Closer(old(Snap()), Snap()) && gcstate == old(gcstate)
      ensures SweptOn(old(Snap()), Snap()) && Beside(old(Snap()), Snap())
      ensures var at, l := old(sweepgc.value), CurList(old(Snap()));
              at + count <= |l| ==> Snap() == SweptState(old(Snap()), at, count)
    {
      hide Inv, LiveSet, SweptTo, Closer, OwnInv, SweptState, SweptOn, Beside;
      ghost var s := Snap();
      SweepBounds(s);
      ghost var at := sweepgc.value;
      ghost var k := SweepCurrent(count);
      FrontKept(s, at, k);
      SweptBeside(s, at, k);
      SweptAll(s, at, k);
      SweptCloser(s, at, k);
    }

    method SweepCurrent(count: nat) returns (ghost k: nat)
      requires OwnInv(Snap()) && Sweeping(gcstate) && sweepgc.Some? && sweepgc.value <= |CurList(Snap())|
      modifies this
      ensures k == Min(count, |CurList(old(Snap()))| - old(sweepgc.value))
      ensures Snap() == SweptState(old(Snap()), old(sweepgc.value), k) && gcstate == old(gcstate)
    {
      hide SweptHeap, Survivors, OwnInv, SweptState, WithList, CurList;
      ghost var s := Snap();
      var at := sweepgc.value;
      var l := CurrentList();
      OwnedOnce(s, l);
      var l', at';
      l', at', k := SweepList(l, at, count);
      SweptStateIs(s, at, k);
      WithListMoves(s, heap, l', at');
      StoreList(l', at');
    }

    method CurrentList() returns (l: seq<Ref>)
      requires Sweeping(gcstate)
      ensures l == CurList(Snap()) && (l == allgc || l == finobj || l == tobefnz)
    {
      l := if gcstate.SwpAllGc? then allgc else if gcstate.SwpFinObj? then finobj else tobefnz;
    }

    method StoreList(l: seq<Ref>, at: Option<nat>)
      requires Sweeping(gcstate)
      modifies this`allgc, this`finobj, this`tobefnz, this`sweepgc
      ensures Snap() == WithList(old(Snap()), l).(sweep := at)
    {
      if gcstate.SwpAllGc? {
        allgc := l;
      } else if gcstate.SwpFinObj? {
        finobj := l;
      } else {
        tobefnz := l;
      }
      sweepgc := at;
    }

    /** `sweepstep`: sweep a few elements of the current list; at its end, go to the next list. */
    method SweepStep()
      requires Inv(Snap()) && Sweeping(gcstate)
      modifies this
      ensures SweptTo(old(Snap()), Snap()) && Closer(old(Snap()), Snap()) && Beside(old(Snap()), Snap())
      ensures gcstate == old(gcstate) || gcstate == NextPhase(old(gcstate))
      ensures gcstate != old(gcstate) && Sweeping(gcstate) ==> sweepgc == Some(0)
      ensures SweepsOn(old(Snap()), Snap())
    {
      hide Inv, LiveSet, SweptTo, Closer, Beside, SweptState;
      ghost var s := Snap();
      SweptToRefl(s);
      if sweepgc.Some? {
        SweepBounds(s);
        SweptMore(s, sweepgc.value, GCSWEEPMAX);
        SweepSome(GCSWEEPMAX);
        if sweepgc.Some? {
          return;
        }
      }
      ghost var m := Snap();
      SweptToInv(s, m);
      AdvancedTo(m);
      sweepgc := if gcstate.SwpToBeFnz? then None else Some(0);
      gcstate := NextPhase(gcstate);
      assert Snap() == Advanced(m);
      SweptToTrans(s, m, Snap());
      AdvancedCloser(s, m);
      BesideAdvanced(s, m);
    }

    // ----- control ----------------------------------------------------------------------------------

    /** `restartcollection`: forget the gray lists and mark the root set. `B` bounds what will be
        marked in this cycle. */
    method RestartCollection(ghost B: Bound)
      requires Resting(Snap()) && BoundOK(Snap(), B)
      modifies this
      ensures MarkInv(Snap(), {}) && RootsOK(Snap()) && Ran(old(Restarted(Snap(), B)), Snap()) && StartMarked(Snap()) && gcstate.Pause?
      ensures gray != [] && held == [] && sweepgc == old(sweepgc) && Marked(heap, registry)
    {
      hide Resting, MarkInv, BoundOK, Ran, RootsOK, StartMarked, Restarted;
      RestartInv(Snap(), B);
      RestartedFacts(Snap(), B);
      ForgetLists(B);
      MarkRoots();
    }

    method ForgetLists(ghost B: Bound)
      modifies this`gray, this`grayagain, this`weak, this`allweak, this`ephemeron, this`held, this`bound
      ensures Snap() == Restarted(old(Snap()), B)
    {
      ForgetWeak();
      gray, grayagain, held, bound := [], [], [], B;
    }

    method ForgetWeak()
      modifies this`weak, this`allweak, this`ephemeron
      ensures Snap() == old(Snap()).(weak := [], allweak := [], ephemeron := [])
    {
      weak, allweak, ephemeron := [], [], [];
    }

    /** The root set: main thread, registry, global metatables, objects being finalized. */
    method MarkRoots()
      requires MarkInv(Snap(), {}) && RootsOK(Snap()) && held == [] && grayagain == [] && gcstate.Pause?
      requires mainthread in heap && heap[mainthread].body.Thread? && mainthread !in blind
      modifies this
      ensures MarkInv(Snap(), {}) && RootsOK(Snap()) && Ran(old(Snap()), Snap()) && StartMarked(Snap()) && gcstate.Pause?
      ensures gray != [] && held == [] && sweepgc == old(sweepgc) && Marked(heap, registry)
    {
      hide MarkInv, Ran, RootsOK, StartMarked, Painted, AllMarked, RefsMarked, Darker, Marked;
      ghost var s0 := Snap();
      RootsMain(s0);
      RootsPoint(s0, mainthread);
      MarkValues([Ptr(mainthread), registry] + mt, {});
      ghost var s1 := Snap();
      PaintedRan(s0, s1);
      RanKeeps(s0, s1);
      MarkBeingFnz();
      ghost var s2 := Snap();
      PaintedRan(s1, s2);
      RanKeeps(s1, s2);
      RanTrans(s0, s1, s2);
      RegistryMarked(s2);
      RanThread(s0, s2);
      StartDone(s2);
      RestartGray(s2);
    }

    /** `udata2finalize`: return the first object waiting for its finalizer to the ordinary objects. */
    method UdataToFinalize()
      requires tobefnz != [] && (Inv(Snap()) || (tobefnz[0] in heap && sweepgc.None?))
      modifies this
      ensures old(tobefnz[0]) in old(heap) && Snap() == Finalizing(old(Snap()))
      ensures old(Inv(Snap()) && CanFinalize(Snap())) ==> Inv(Snap()) && LiveSet(Snap()) == LiveSet(old(Snap()))
    {
      hide Inv, LiveSet, Shifted, CanFinalize, AllWhite;
      ghost var s := Snap();
      if Inv(s) {
        FinalizingInv(s);
        FinalizingOnce(s);
      }
      ReturnFirst();
      if gcstate.SwpToBeFnz? && sweepgc == Some(1) {
        AllWhiteSame(s, Snap(), allgc);
        RunOut();
      } else {
        ShiftSweep();
      }
    }

    method ReturnFirst()
      requires tobefnz != [] && tobefnz[0] in heap
      modifies this`tobefnz, this`allgc, this`heap
      ensures Snap() == Returned(old(Snap()))
    {
      var o := tobefnz[0];
      tobefnz := tobefnz[1..];
      allgc := [o] + allgc;
      if IsSweepPhase(gcstate) {
        heap := heap[o := heap[o].(colour := White(currentwhite))];
      }
    }

    /** The sweep position was behind the object that moved, so it is in `allgc` now. Everything there is
        white: the sweep runs to the end of that list without effect. */
    method RunOut()
      requires allgc != [] && AllWhite(Snap(), allgc) && forall i, j :: 0 <= i < j < |allgc| ==> allgc[i] != allgc[j]
      modifies this`sweepgc, this`allgc, this`heap
      ensures Snap() == old(Snap()).(sweep := None)
    {
      hide Survivors, SweptHeap;
      ghost var s := Snap();
      sweepgc := Some(1);
      while sweepgc.Some?
        invariant heap == s.heap && allgc == s.allgc && (sweepgc.Some? ==> 1 <= sweepgc.value <= |allgc|)
        decreases if sweepgc.Some? then 1 + |allgc| - sweepgc.value else 0
      {
        var at := sweepgc.value;
        var l, next;
        ghost var k;
        l, next, k := SweepList(allgc, at, GCSWEEPMAX);
        Sliced(s.allgc, at, k);
        WhiteSweep(s, s.allgc[at..at + k]);
        allgc, sweepgc := l, next;
      }
    }

    method ShiftSweep()
      modifies this`sweepgc
      ensures Snap() == Shifted(old(Snap()))
    {
      if sweepgc.Some? && sweepgc.value > 0 {
        if gcstate.SwpAllGc? {
          sweepgc := Some(sweepgc.value + 1);
        } else if gcstate.SwpToBeFnz? {
          sweepgc := Some(sweepgc.value - 1);
        }
      }
    }

    /** `runafewfinalizers`, without the finalizers themselves, in any phase. */
    method RunAFewFinalizers()
      requires Inv(Snap())
      modifies this
      ensures Snap() == SomeFinalized(old(Snap()))
      ensures old(Spared(Snap())) ==> Gentle(old(Snap()), Snap()) && gcstate == old(gcstate) && bound == old(bound)
      ensures old(Spared(Snap()) && tobefnz != []) ==> |tobefnz| < old(|tobefnz|)
    {
      hide Inv, LiveSet, Gentle, Finalizing, Finalized, Spared, Behind;
      ghost var s := Snap();
      GentleRefl(s);
      WaitingHere(s);
      BehindStart(s);
      var i := 0;
      while tobefnz != [] && i < gcfinnum
        invariant i <= gcfinnum == old(gcfinnum) && Finalized(Snap(), gcfinnum - i) == Finalized(s, s.finnum)
        invariant Inv(Snap()) || sweepgc.None?
        invariant forall r :: r in tobefnz ==> r in heap
        invariant Spared(s) ==> Inv(Snap()) && Gentle(s, Snap()) && gcstate == s.phase && bound == s.bound && Behind(s, Snap(), i)
        invariant |tobefnz| == |s.tobefnz| - i
        decreases |tobefnz|
      {
        ghost var m := Snap();
        assert m.tobefnz[0] in m.tobefnz;
        UdataToFinalize();
        PopOne(s, m, i);
        i := i + 1;
      }
      InvOwners(s);
      ghost var m := Snap();
      FinalizedAll(m, gcfinnum - i);
      gcfinnum := if tobefnz == [] then 0 else gcfinnum * 2;
      if Spared(s) { FinNum(s, m, Snap()); }
    }

    /** The step that ends marking, with the program stopped throughout. */
    method StepAtomic(L: Ref)
      requires Inv(Snap()) && gcstate.Atomic? && L in heap && L in bound.now
      modifies this
      ensures Inv(Snap()) && gcstate.SwpAllGc? && Exact(old(Snap()), Snap(), L) && Kept(old(Snap()), Snap())
    {
      hide Inv, MarkInv, Grew, Exact, Kept, RootsOK, StartMarked, Flipped, Closed, ShrunkHeap, OwnersMoved, MarkedSet,
        SweptTo, RootSet, Darker, Reached, SeenHeap, Beside;
      ghost var s := Snap();
      InvNoneDead(s);
      stopped := true;
      ghost var s0 := Snap();
      PhaseInv(s, s0);
      PropagateAll();
      ghost var s1 := Snap();
      GrewRan(s0, s1);
      RanKeeps(s0, s1);
      StopRoots(s, s0);
      RanOver(s0, s1);
      ghost var M := Atomic(L);
      ghost var s2 := Snap();
      AtomicStep(s, s1, s2, s2, L, M);
      EnterSweep();
      AtomicStep(s, s1, s2, Snap(), L, M);
      SweptToInv(s2.(phase := SwpAllGc, stopped := false, sweep := Some(0)), Snap());
    }

    method StepPause(ghost B: Bound)
      requires Inv(Snap()) && gcstate.Pause? && BoundOK(Snap(), B)
      modifies this
      ensures Gentle(old(Snap()), Snap()) && gcstate.Propagate? && tobefnz == old(tobefnz) && bound == B
      ensures Marked(heap, registry)
    {
      hide Inv, MarkInv, BoundOK, Ran, StartMarked, Restarted, Gentle, Resting, RootsOK;
      ghost var s := Snap();
      RestingInv(s);
      RestartCollection(B);
      RestartDone(s, B, Snap());
      gcstate := Propagate;
    }

    method StepPropagate(L: Ref, emergency: bool, ghost B: Bound)
      requires Inv(Snap()) && gcstate.Propagate?
      modifies this
      ensures Stepped(old(Snap()), Snap(), L, B, emergency)
    {
      hide Inv, MarkInv, Grew, Stepped, RootsOK, StartMarked, NoneDead;
      ghost var s := Snap();
      InvNoneDead(s);
      PropagateMark();
      MarkingStepped(s, Snap(), L, B, emergency);
      if gray == [] {
        gcstate := Phase.Atomic;
      }
    }

    method StepEnd(L: Ref, emergency: bool, ghost B: Bound)
      requires Inv(Snap()) && gcstate.SwpEnd?
      modifies this
      ensures Stepped(old(Snap()), Snap(), L, B, emergency)
    {
      hide Inv, Stepped;
      EndStepped(Snap(), L, B, emergency);
      heap := heap[mainthread := heap[mainthread].(colour := White(currentwhite))];
      gcstate := CallFin;
    }

    method StepCallFin(L: Ref, emergency: bool, ghost B: Bound)
      requires Inv(Snap()) && gcstate.CallFin?
      modifies this
      ensures Stepped(old(Snap()), Snap(), L, B, emergency)
    {
      hide Inv, Stepped, Gentle;
      ghost var s := Snap();
      if tobefnz != [] && !emergency {
        RunAFewFinalizers();
        FinalizedStepped(s, Snap(), L, B);
      } else {
        PauseStepped(s, L, B, emergency);
        gcstate := Pause;
      }
    }

    /** `singlestep`: one step of the collector on behalf of the running thread `L`. */
    method SingleStep(L: Ref, emergency: bool, ghost B: Bound)
      requires Inv(Snap()) && L in LiveSet(Snap())
      requires gcstate.Pause? ==> BoundOK(Snap(), B)
      requires KeepInvariant(gcstate) ==> L in bound.now
      modifies this
      ensures Stepped(old(Snap()), Snap(), L, B, emergency)
    {
      hide Inv, LiveSet, Stepped, BoundOK, Gentle, SweptTo, Exact, Kept, Closer, Beside, SweptState;
      ghost var s := Snap();
      LiveIn(s, L);
      InvOwners(s) by { hide *; }
      match gcstate
      case Pause =>
        StepPause(B);
        RestartStepped(s, Snap(), L, B, emergency);
      case Propagate =>
        StepPropagate(L, emergency, B);
      case Atomic =>
        StepAtomic(L);
        AtomicStepped(s, Snap(), L, B, emergency);
      case SwpEnd =>
        StepEnd(L, emergency, B);
      case CallFin =>
        StepCallFin(L, emergency, B);
      case InsideAtomic =>
        assert false;
      case _ =>
        SweepStep();
        SweepStepped(s, Snap(), L, B, emergency);
    }

    /** `luaC_step`: single steps as long as there is debt, then a few finalizers. What is owed after so many
        steps, in a phase, depends on estimates and is a parameter. `t` is the sequence of states gone through. */
    method LuaStep(L: Ref, owing: (nat, Phase) -> bool, ghost B: Bound) returns (ghost t: seq<State>)
      requires Inv(Snap()) && L in LiveSet(Snap()) && (KeepInvariant(gcstate) ==> L in bound.now)
      requires gcstate.Pause? ==> BoundOK(Snap(), B) && L in B.now
      modifies this
      ensures |t| > 1 && Turns(t, owing, L, B) && t[0] == old(Snap())
      ensures Snap() == if t[|t| - 1].phase.Pause? then t[|t| - 1] else SomeFinalized(t[|t| - 1])
      ensures Spared(t[|t| - 1]) ==> Inv(Snap()) && LiveSet(Snap()) == LiveSet(t[|t| - 1])
    {
      hide Inv, LiveSet, Stepped, BoundOK, Whites, Todo, Rank, TurnsOn, SomeFinalized, Gentle;
      ghost var s := Snap();
      SingleStep(L, false, B);
      SteppedInv(s, Snap(), L, B, false);
      RunThread(s, Snap(), L, B, false);
      t := [s, Snap()];
      TurnsStart(s, Snap(), owing, L, B);
      var n := 1;
      while owing(n, gcstate) && !gcstate.Pause?
        invariant |t| == n + 1 && t[0] == s && t[n] == Snap() && TurnsOn(t, owing, L, B) && Inv(Snap()) && L in LiveSet(Snap())
        invariant KeepInvariant(gcstate) ==> L in bound.now
        decreases Distance(gcstate, {Pause}), Whites(Snap()), Todo(Snap())
      {
        ghost var m := Snap();
        SingleStep(L, false, B);
        SteppedInv(m, Snap(), L, B, false);
        RunThread(m, Snap(), L, B, false);
        RunMeasure(m, Snap(), {Pause}, L, B, false);
        TurnsMore(t, Snap(), owing, L, B);
        t := t + [Snap()];
        n := n + 1;
      }
      ghost var m := Snap();
      if !gcstate.Pause? {
        RunAFewFinalizers();
        if Spared(m) { GentleInv(m, Snap()); }
      }
    }

    /** `luaC_runtilstate`. `t` is the sequence of states it goes through. */
    method RunTilState(L: Ref, states: set<Phase>, emergency: bool, ghost B: Bound) returns (ghost t: seq<State>)
      requires Inv(Snap()) && L in LiveSet(Snap()) && Ahead(gcstate, states)
      requires KeepInvariant(gcstate) ==> L in bound.now
      requires gcstate.Pause? ==> gcstate in states || (BoundOK(Snap(), B) && L in B.now)
      modifies this
      ensures Running(t, states, L, B, emergency) && t[0] == old(Snap()) && t[|t| - 1] == Snap()
      ensures gcstate in states && Inv(Snap()) && L in LiveSet(Snap()) && (KeepInvariant(gcstate) ==> L in bound.now)
    {
      hide Inv, LiveSet, Stepped, BoundOK, Whites, Todo, Rank;
      t := [Snap()];
      while gcstate !in states
        invariant t != [] && t[0] == old(Snap()) && t[|t| - 1] == Snap() && Running(t, states, L, B, emergency)
        invariant Inv(Snap()) && L in LiveSet(Snap()) && Ahead(gcstate, states) && (KeepInvariant(gcstate) ==> L in bound.now)
        invariant gcstate.Pause? ==> gcstate in states || (BoundOK(Snap(), B) && L in B.now)
        decreases Distance(gcstate, states), Whites(Snap()), Todo(Snap())
      {
        ghost var s := Snap();
        SingleStep(L, emergency, B);
        SteppedInv(s, Snap(), L, B, emergency);
        RunThread(s, Snap(), L, B, emergency);
        RunMeasure(s, Snap(), states, L, B, emergency);
        t := t + [Snap()];
      }
    }

    /** The head of `luaC_fullgc`: give up an unfinished mark, then sweep up to the pause. */
    method FinishSweep(L: Ref, isemergency: bool)
      requires Inv(Snap()) && L in LiveSet(Snap())
      modifies this
      ensures Gentle(old(Snap()), Snap()) && gcstate.Pause? && L in LiveSet(Snap())
      ensures tobefnz == if isemergency || old(gcstate.Pause?) then old(tobefnz) else []
    {
      hide Inv, LiveSet, Gentle, Running;
      ghost var s := Snap();
      GentleRefl(s);
      if KeepInvariant(gcstate) {
        AbandonGentle(s);
        EnterSweep();
        AbandonSwept(s, Snap());
      }
      ghost var m := Snap();
      GentleInv(s, m);
      ghost var t := RunTilState(L, {Pause}, isemergency, Bound({}, {}));
      DrainRun(t, L, Bound({}, {}), isemergency);
      RunLength(t, {Pause}, L, Bound({}, {}), isemergency);
      GentleTrans(s, m, Snap());
    }

    /** `luaC_fullgc`: a complete collection, whatever the collector was doing before. */
    method FullGc(L: Ref, isemergency: bool)
      requires Inv(Snap()) && L in LiveSet(Snap())
      modifies this
      ensures Inv(Snap()) && gcstate.Pause?
      ensures FullyCollected(old(Snap()), Snap(), L, isemergency)
    {
      hide Inv, LiveSet, Gentle, Running, BoundOK, InCycle, Collected, FullyCollected, FullBounds;
      ghost var s := Snap();
      FinishSweep(L, isemergency);
      ghost var p := Snap();
      ghost var B := FullBounds(p.heap, s, L, isemergency);
      FullBound(s, p, L, isemergency);
      ghost var t1 := RunTilState(L, AllPhases() - {Pause}, isemergency, B);
      FirstStep(p, t1, L, B, isemergency);
      ghost var c1 := Snap();
      ghost var t2 := RunTilState(L, {CallFin}, isemergency, B);
      CycleRun(p, t2, {CallFin}, L, B, isemergency);
      ghost var t3 := RunTilState(L, {Pause}, isemergency, B);
      CycleRun(p, t3, {Pause}, L, B, isemergency);
      FullDone(s, p, Snap(), L, isemergency);
    }

    // ----- what the program does ------------------------------------------------------------------

    /** `luaC_newobj`. */
    method NewObj(r: Ref, b: Body)
      requires Inv(Snap()) && r !in heap && Blank(b)
      modifies this
      ensures Snap() == Created(old(Snap()), r, b)
      ensures Inv(Snap()) && LiveSet(Snap()) == LiveSet(old(Snap())) + {r}
    {
      hide Inv, LiveSet, Blank;
      CreatedInv(Snap(), r, b);
      ShiftAllGc(0, 1);
      LinkNew(r, b);
    }

    method LinkNew(r: Ref, b: Body)
      modifies this`heap, this`allgc, this`bound
      ensures Snap() == old(Snap()).(heap := old(heap)[r := Obj(White(currentwhite), b)], allgc := [r] + old(allgc),
                                     bound := Everything(old(heap)[r := Obj(White(currentwhite), b)]))
    {
      heap, allgc := heap[r := Obj(White(currentwhite), b)], [r] + allgc;
      bound := Everything(heap);
    }

    /** A sweep position in `allgc` past index `i` moves along with the elements behind it. */
    method ShiftAllGc(i: nat, step: int)
      requires step >= -1
      modifies this`sweepgc
      ensures Snap() == old(Snap()).(sweep := ShiftedAt(gcstate, old(sweepgc), i, step))
    {
      if gcstate.SwpAllGc? && sweepgc.Some? && sweepgc.value > i {
        sweepgc := Some(sweepgc.value + step);
      }
    }

    method Put(o: Ref, b: Body)
      requires o in heap
      modifies this`heap, this`bound
      ensures Snap() == Wrote(old(Snap()), o, b)
    {
      heap, bound := heap[o := heap[o].(body := b)], Everything(heap);
    }

    /** `luaC_barrierback_`. */
    method BarrierBack(o: Ref)
      requires o in heap
      modifies this`heap, this`grayagain
      ensures Snap() == BarredBack(old(Snap()), o)
    {
      heap, grayagain := heap[o := heap[o].(colour := Gray)], [o] + grayagain;
    }

    /** `makewhite`. */
    method MakeWhite(o: Ref)
      requires o in heap
      modifies this`heap
      ensures Snap() == Whitened(old(Snap()), o)
    {
      heap := heap[o := heap[o].(colour := White(currentwhite))];
    }

    /** Store a value into a table, followed by `luaC_barrierback`. */
    method StoreBack(o: Ref, b: Body, v: Value)
      requires Inv(Snap()) && CanWrite(Snap(), o, b, [v]) && b.Table? && o in heap && heap[o].body.Table? && b.meta == heap[o].body.meta
      modifies this`heap, this`grayagain, this`bound
      ensures Inv(Snap()) && LiveSet(Snap()) == LiveSet(old(Snap()))
      ensures o in heap && heap[o].body == b && SameBut(old(heap), heap, o)
      ensures !old(heap)[o].colour.Black? ==> Snap() == Wrote(old(Snap()), o, b)
    {
      hide Inv, LiveSet, CanWrite;
      ghost var s := Snap();
      StoreBackReady(s, o, b, v);
      Put(o, b);
      if v.Ptr? && heap[o].colour.Black? && v.r in heap && heap[v.r].colour.White? {
        BarrierBack(o);
      }
    }

    /** `luaC_barrier_`: mark the value, or count the object as swept. */
    method Barrier(o: Ref, v: Ref)
      requires o in heap && v in heap && heap[o].colour.Black? && heap[v].colour.White?
      requires KeepInvariant(gcstate) ==> MarkInv(Snap(), {o}) && v in bound.now
      modifies this
      ensures if old(KeepInvariant(gcstate)) then MarkInv(Snap(), {o}) && Painted(old(Snap()), Snap()) && Marked(heap, Ptr(v))
              else Snap() == Whitened(old(Snap()), o)
    {
      hide MarkInv, Painted;
      if KeepInvariant(gcstate) {
        ReallyMarkObject(v, {o});
      } else {
        MakeWhite(o);
      }
    }

    /** Store a value, followed by `luaC_barrier`. A metatable stored into a visited table with weak keys and
        values is just stored: the table is gray. */
    method StoreForward(o: Ref, b: Body, v: Value)
      requires Inv(Snap()) && CanWrite(Snap(), o, b, [v])
      modifies this
      ensures o in old(heap)
      ensures if NoWeakMeta(old(Snap()), o, b, v) then Inv(Snap()) && LiveSet(Snap()) == LiveSet(old(Snap()))
              else old(heap)[o].colour.Gray? && Snap() == Wrote(old(Snap()), o, b)
      ensures o in heap && heap[o].body == b && SameBut(old(heap), heap, o) && SameLists(old(Snap()), Snap())
      ensures gcstate == old(gcstate)
    {
      hide Inv, LiveSet, CanWrite, Painted, MarkInv, NoWeakMeta, Wrote;
      ghost var s := Snap();
      WriteDom(s, o, b, [v]);
      WriteShape(s, o, b, [v]);
      if NoWeakMeta(s, o, b, v) {
        StoreForwardReady(s, o, b, v);
      } else {
        WeakMetaGray(s, o, b, v);
      }
      Put(o, b);
      assert Marked(heap, v) == Marked(s.heap, v);
      PutSame(s, o, b, [v]);
      if v.Ptr? && heap[o].colour.Black? && v.r in heap && heap[v.r].colour.White? {
        ghost var w := Snap();
        Barrier(o, v.r);
        if KeepInvariant(s.phase) {
          PaintedSame(w, Snap());
          ForwardDone(s, Snap(), o, b, v);
        }
      }
    }

    /** Store into a thread: its stack is visited again in the atomic phase, so no barrier is needed. */
    method StoreThread(o: Ref, b: Body, v: Value)
      requires Inv(Snap()) && CanWrite(Snap(), o, b, [v]) && b.Thread?
      modifies this`heap, this`bound
      ensures Inv(Snap()) && LiveSet(Snap()) == LiveSet(old(Snap()))
      ensures o in heap && heap[o].body == b && SameBut(old(heap), heap, o)
    {
      hide Inv, LiveSet, CanWrite;
      ghost var s := Snap();
      WriteDom(s, o, b, [v]);
      StoreThreadReady(s, o, b, v);
      Put(o, b);
    }

    /** `luaC_fix`. */
    method Fix()
      requires Inv(Snap()) && allgc != [] && !(gcstate.SwpAllGc? && sweepgc == Some(1))
      modifies this
      ensures old(allgc[0]) in old(heap) && Snap() == Fixed(old(Snap()))
      ensures old(CanFix(Snap())) ==> Inv(Snap()) && LiveSet(Snap()) == LiveSet(old(Snap()))
    {
      hide Inv, LiveSet, CanFix;
      FirstThere(Snap());
      if CanFix(Snap()) { FixedInv(Snap()); }
      ShiftAllGc(0, -1);
      LinkFixed();
    }

    method LinkFixed()
      requires allgc != [] && allgc[0] in heap
      modifies this`heap, this`allgc, this`fixedgc, this`bound
      ensures var o, was := old(allgc[0]), old(Snap());
              Snap() == was.(heap := was.heap[o := was.heap[o].(colour := if was.heap[o].colour.White? then Gray else was.heap[o].colour)],
                             allgc := was.allgc[1..], fixedgc := [o] + was.fixedgc, bound := Everything(was.heap))
    {
      var o := allgc[0];
      bound := Everything(heap);
      heap := heap[o := heap[o].(colour := if heap[o].colour.White? then Gray else heap[o].colour)];
      allgc, fixedgc := allgc[1..], [o] + fixedgc;
    }

    /** `sweeptolive`: sweep until the position moves past a live object. */
    method SweepToLive()
      requires Inv(Snap()) && gcstate.SwpAllGc? && sweepgc.Some?
      modifies this
      ensures SweptTo(old(Snap()), Snap()) && gcstate.SwpAllGc? && (sweepgc.Some? ==> sweepgc.value > old(sweepgc.value))
      ensures SameFront(old(allgc), allgc, old(sweepgc.value))
    {
      hide Inv, LiveSet, SweptTo;
      ghost var s := Snap();
      var at := sweepgc;
      SweptToRefl(s);
      SweepBounds(s);
      while sweepgc == at
        invariant SweptTo(s, Snap()) && Inv(Snap()) && gcstate.SwpAllGc? && at == s.sweep
        invariant sweepgc.Some? ==> sweepgc.value >= at.value
        invariant SameFront(s.allgc, allgc, at.value)
        decreases if sweepgc == at then |allgc| + 1 else 0
      {
        ghost var m := Snap();
        SweepBounds(m);
        SweepSome(1);
        SweptToInv(m, Snap());
        SweptToTrans(s, m, Snap());
      }
    }

    /** `luaC_checkfinalizer` for an object whose metatable has a finalizer. */
    method CheckFinalizer(o: Ref)
      requires Inv(Snap()) && o in LiveSet(Snap()) && !heap[o].body.Str?
      modifies this
      ensures Inv(Snap()) && LiveSet(Snap()) == LiveSet(old(Snap()))
      ensures forall r :: r in heap ==> r in old(heap) && heap[r].body == old(heap[r].body)
      ensures finobj == if o in old(allgc) then [o] + old(finobj) else old(finobj)
      ensures o !in allgc && fixedgc == old(fixedgc) && mainthread == old(mainthread) && registry == old(registry) && mt == old(mt)
      ensures tobefnz == old(tobefnz) && gcstate == old(gcstate)
    {
      hide Inv, LiveSet, CanMove, SweptTo;
      ghost var s := Snap();
      LiveIsRef(s, o);
      if o in allgc {
        MakeWhiteForSweep(o);
        ghost var m := Snap();
        var i := FindInAllGc(o);
        if gcstate.SwpAllGc? && sweepgc == Some(i + 1) {
          SweepToLive();
          SweptToInv(m, Snap());
        } else {
          SweptToRefl(m);
        }
        ghost var c := Snap();
        MoveReady(s, m, c, o, i);
        MovedInv(c, i);
        MoveToFinobj(i);
        MoveFacts(s, m, c, o, i);
      }
    }

    method MakeWhiteForSweep(o: Ref)
      requires Inv(Snap()) && LiveRef(heap, currentwhite, o) && o in allgc
      modifies this`heap
      ensures Snap() == if IsSweepPhase(gcstate) then Whitened(old(Snap()), o) else old(Snap())
      ensures Inv(Snap()) && LiveSet(Snap()) == LiveSet(old(Snap()))
    {
      hide Inv, LiveSet;
      if IsSweepPhase(gcstate) {
        WhitenForSweep(Snap(), o);
        MakeWhite(o);
      }
    }

    method FindInAllGc(o: Ref) returns (i: nat)
      requires o in allgc
      ensures i < |allgc| && allgc[i] == o
    {
      i := 0;
      while allgc[i] != o
        invariant i < |allgc| && o in allgc[i..]
        decreases |allgc| - i
      {
        i := i + 1;
      }
    }

    method MoveToFinobj(i: nat)
      requires i < |allgc|
      modifies this`allgc, this`finobj, this`sweepgc, this`bound
      ensures Snap() == MovedToFin(old(Snap()), i)
    {
      sweepgc := MovedSweep(gcstate, sweepgc, i);
      bound, finobj, allgc := Everything(heap), [allgc[i]] + finobj, allgc[..i] + allgc[i + 1..];
    }

    method SetRoots(reg: Value, types: seq<Value>)
      requires Inv(Snap()) && LiveValue(heap, currentwhite, reg) && forall v :: v in types ==> LiveValue(heap, currentwhite, v)
      modifies this`registry, this`mt, this`bound
      ensures Snap() == NewRoots(old(Snap()), reg, types)
      ensures Inv(Snap()) && LiveSet(Snap()) == LiveSet(old(Snap()))
    {
      hide Inv, LiveSet;
      NewRootsInv(Snap(), reg, types);
      registry, mt, bound := reg, types, Everything(heap);
    }

    /** `internshrstr` on a string that exists: a dead one is used again. */
    method ReuseString(r: Ref)
      requires Inv(Snap()) && r in heap && heap[r].body.Str?
      modifies this`heap
      ensures Inv(Snap()) && LiveSet(Snap()) == LiveSet(old(Snap())) + {r}
      ensures heap.Keys == old(heap.Keys) && forall q :: q in heap ==> heap[q].body == old(heap[q].body)
    {
      hide Inv;
      if IsDead(currentwhite, heap[r].colour) {
        DeadSweeps(Snap(), r);
        WhitenInv(Snap(), r);
        WhitenedLive(Snap(), r);
        heap := heap[r := heap[r].(colour := White(currentwhite))];
      }
    }
  }
}
