/** snownet_mq.cc: the message queue of a service, a ring that grows. */
module MessageQueue {
  import opened Rings

  datatype Message = Message(source: int, session: int, data: int, sz: int)

  const DEFAULT_QUEUE_SIZE: nat := 64
  const MQ_OVERLOAD: nat := 1024

  /** A queue as a value. */
  datatype Queue = Queue(handle: nat, msgs: seq<Message>, inGlobal: bool, release: bool)

  function Created(handle: nat): Queue { Queue(handle, [], true, false) }

  function Pushed(q: Queue, m: Message): Queue { q.(msgs := q.msgs + [m], inGlobal := true) }

  /** Popping an empty queue takes it off the scheduler. */
  function Popped(q: Queue): Queue { if q.msgs == [] then q.(inGlobal := false) else q.(msgs := q.msgs[1..]) }

  function Marked(q: Queue): Queue { q.(release := true) }

  function Power2(k: nat): nat { if k == 0 then 1 else 2 * Power2(k - 1) }

  /** The least doubling of the threshold that `length` does not exceed. */
  ghost predicate Raised(length: nat, threshold: nat, raised: nat) {
    exists k: nat :: DoubledTo(length, threshold, raised, k)
  }

  ghost predicate DoubledTo(length: nat, threshold: nat, raised: nat, k: nat) {
    raised == threshold * Power2(k) && length <= raised && (k > 0 ==> threshold * Power2(k - 1) < length)
  }

  lemma DoubleMore(threshold: nat, k: nat)
    ensures threshold * Power2(k) * 2 == threshold * Power2(k + 1)
  {
  }

  /** Which queues wait to be served, first to last. */
  class GlobalQueue {
    var items: seq<Mq>

    constructor ()
      ensures items == []
    {
      items := [];
    }

    /** `snownet_globalmq_push`. */
    method Push(q: Mq)
      modifies this
      ensures items == old(items) + [q]
    {
      items := items + [q];
    }

    /** `snownet_globalmq_pop`. */
    method Pop() returns (q: Mq?)
      modifies this
      ensures if old(items) == [] then q == null && items == [] else q == old(items)[0] && items == old(items)[1..]
    {
      if items == [] {
        return null;
      }
      q := items[0];
      items := items[1..];
    }
  }

  class Mq {
    const handle: nat
    var queue: array<Message>
    var head: nat
    var tail: nat
    var release: bool
    var in_global: bool
    var overload: nat
    var overload_threshold: nat

    ghost predicate Valid()
      reads this, queue
    {
      queue.Length > 0 && head < queue.Length && tail < queue.Length && overload_threshold > 0
    }

    ghost function Contents(): seq<Message>
      reads this, queue
      requires Valid()
    {
      Ring(queue[..], head, tail)
    }

    ghost function View(): Queue
      reads this, queue
      requires Valid()
    {
      Queue(handle, Contents(), in_global, release)
    }

    /** `snownet_mq_create`. */
    constructor (handle: nat)
      ensures Valid() && View() == Created(handle) && this.handle == handle && fresh(queue) && overload == 0 && overload_threshold == MQ_OVERLOAD
    {
      this.handle := handle;
      queue := new Message[DEFAULT_QUEUE_SIZE](_ => Message(0, 0, 0, 0));
      head, tail := 0, 0;
      in_global, release := true, false;
      overload, overload_threshold := 0, MQ_OVERLOAD;
    }

    /** `snownet_mq_length`. */
    method Length() returns (n: nat)
      requires Valid()
      ensures n == |Contents()|
    {
      if head <= tail {
        return tail - head;
      }
      return tail + queue.Length - head;
    }

    /** `snownet_mq_pop`: true for an empty queue. */
    method Pop() returns (empty: bool, m: Message)
      requires Valid()
      modifies this
      ensures Valid() && queue == old(queue) && View() == Popped(old(View()))
      ensures empty == (old(Contents()) == []) && (!empty ==> m == old(Contents())[0])
      ensures if empty then overload_threshold == MQ_OVERLOAD && overload == old(overload)
              else Raised(|Contents()|, old(overload_threshold), overload_threshold) &&
                   overload == if |Contents()| > old(overload_threshold) then |Contents()| else old(overload)
    {
      m := Message(0, 0, 0, 0);
      empty := true;
      if head != tail {
        ghost var was := Contents();
        m := queue[head];
        head := head + 1;
        empty := false;
        if head >= queue.Length {
          head := 0;
        }
        assert Contents() == was[1..];
        var length: int := tail - head;
        if length < 0 {
          length := length + queue.Length;
        }
        assert length == |Contents()|;
        RaiseThreshold(length);
      } else {
        overload_threshold := MQ_OVERLOAD;
      }
      if empty {
        in_global := false;
      }
    }

    method RaiseThreshold(length: nat)
      requires overload_threshold > 0
      modifies this`overload, this`overload_threshold
      ensures Raised(length, old(overload_threshold), overload_threshold) && overload_threshold > 0
      ensures overload == if length > old(overload_threshold) then length else old(overload)
    {
      ghost var k: nat := 0;
      while length > overload_threshold
        invariant overload_threshold > 0 && overload_threshold == old(overload_threshold) * Power2(k)
        invariant k > 0 ==> old(overload_threshold) * Power2(k - 1) < length
        invariant overload == if overload_threshold == old(overload_threshold) then old(overload) else length
        invariant overload_threshold >= old(overload_threshold)
        invariant overload_threshold != old(overload_threshold) ==> length > old(overload_threshold)
        decreases length - overload_threshold
      {
        overload := length;
        DoubleMore(old(overload_threshold), k);
        overload_threshold := overload_threshold * 2;
        k := k + 1;
      }
      assert DoubledTo(length, old(overload_threshold), overload_threshold, k);
    }

    /** `expand_queue`: the ring is full; its contents move to the front of one twice as long. */
    method Expand()
      requires queue.Length > 0 && head < queue.Length
      modifies this`queue, this`head, this`tail
      ensures fresh(queue) && queue.Length == 2 * old(queue.Length) && head == 0 && tail == old(queue.Length)
      ensures queue[..tail] == old(queue[head..] + queue[..head])
    {
      var cap := queue.Length;
      ghost var all := queue[head..] + queue[..head];
      var bigger := new Message[cap * 2](_ => Message(0, 0, 0, 0));
      var i := 0;
      while i < cap
        invariant 0 <= i <= cap && queue == old(queue) && head == old(head) && bigger.Length == 2 * cap && queue[..] == old(queue[..])
        invariant bigger[..i] == all[..i]
      {
        RotatedAt(queue[..], head, i);
        bigger[i] := queue[(head + i) % cap];
        assert bigger[..i + 1] == bigger[..i] + [bigger[i]];
        i := i + 1;
      }
      head, tail, queue := 0, cap, bigger;
    }

    /** `snownet_mq_push`. */
    method Push(g: GlobalQueue, m: Message)
      requires Valid()
      modifies this, queue, g
      ensures Valid() && (queue == old(queue) || fresh(queue)) && View() == Pushed(old(View()), m)
      ensures g.items == if old(in_global) then old(g.items) else old(g.items) + [this]
      ensures overload == old(overload) && overload_threshold == old(overload_threshold)
    {
      Store(m);
      if head == tail {
        Expand();
        assert Contents() == queue[..tail];
      }
      if !in_global {
        in_global := true;
        g.Push(this);
      }
    }

    /** Put the message at the tail; afterwards equal ends mean that the ring is full. */
    method Store(m: Message)
      requires Valid()
      modifies this`tail, queue
      ensures head < queue.Length && tail < queue.Length
      ensures head == tail ==> queue[head..] + queue[..head] == old(Contents()) + [m]
      ensures head != tail ==> Contents() == old(Contents()) + [m]
    {
      ghost var a, n, h, t := queue[..], queue.Length, head, tail;
      queue[tail] := m;
      assert queue[..] == a[t := m];
      assert forall x, y :: 0 <= x <= y <= n ==> queue[x..y] == a[t := m][x..y];
      RingPush(a, h, t, m);
      tail := tail + 1;
      if tail >= queue.Length {
        tail := 0;
      }
    }

    /** `snownet_mq_mark_release`. The flag `in_global` is not set. */
    method MarkRelease(g: GlobalQueue)
      requires Valid() && !release
      modifies this, g
      ensures Valid() && queue == old(queue) && View() == Marked(old(View()))
      ensures g.items == if old(in_global) then old(g.items) else old(g.items) + [this]
    {
      release := true;
      if !in_global {
        g.Push(this);
      }
    }

    /** `snownet_mq_release`: drop what is left if the queue was marked, else put it back. */
    method Release(g: GlobalQueue) returns (dropped: seq<Message>, freed: bool)
      requires Valid()
      modifies this, g
      ensures freed == old(release)
      ensures freed ==> dropped == old(Contents()) && g.items == old(g.items)
      ensures queue == old(queue)
      ensures !freed ==> Valid() && View() == old(View()) && dropped == [] && g.items == old(g.items) + [this]
    {
      freed := release;
      dropped := [];
      if !release {
        g.Push(this);
        return;
      }
      dropped := DropAll();
    }

    /** `_drop_queue`, without freeing the queue. */
    method DropAll() returns (dropped: seq<Message>)
      requires Valid()
      modifies this
      ensures Valid() && queue == old(queue) && dropped == old(Contents())
    {
      hide Raised, Contents, Valid;
      dropped := [];
      ghost var all := Contents();
      var empty, m := Pop();
      while !empty
        invariant Valid() && queue == old(queue)
        invariant if empty then dropped == all else dropped + [m] + Contents() == all
        decreases !empty, |Contents()|
      {
        ghost var was := Contents();
        dropped := dropped + [m];
        assert dropped + was == all;
        empty, m := Pop();
        if !empty { assert was == [m] + Contents(); } else { assert was == []; }
      }
    }
  }
}
