/** lua-netpack.cc: packets out of the chunks that arrive on many sockets. */
module Netpack {
  import opened Options
  import opened Framing
  import opened Rings

  const QUEUESIZE: nat := 1024
  const HASHSIZE: nat := 4096

  datatype Packet = Packet(id: nat, data: seq<byte>)

  /** The beginning of a packet: only its first length byte (`read` is -1), or its length and `read` bytes. */
  datatype Uncomplete = Uncomplete(id: nat, read: int, header: int, size: nat, data: seq<byte>)

  datatype Event = Nothing | Data(id: nat, data: seq<byte>) | More

  function HashFd(fd: nat): nat { ((fd / 16777216) + (fd / 4096) + fd) % 4294967296 % HASHSIZE }

  // ----- unfinished packets --------------------------------------------------------------------------

  predicate EntryOK(u: Uncomplete) {
    if u.read < 0 then u.read == -1 && 0 <= u.header < 256
    else u.read == |u.data| && u.read < u.size < 65536
  }

  /** The bytes of the stream that the entry stands for. */
  function Bytes(u: Uncomplete): seq<byte>
    requires EntryOK(u)
  {
    if u.read < 0 then [u.header] else [u.size / 256, u.size % 256] + u.data
  }

  /** A bucket: entries of its own sockets, one each. */
  predicate BucketOK(l: seq<Uncomplete>, h: nat) {
    && (forall i :: 0 <= i < |l| ==> EntryOK(l[i]) && HashFd(l[i].id) == h)
    && (forall i, j :: 0 <= i < j < |l| ==> l[i].id != l[j].id)
  }

  /** What is pending for a socket. */
  function Held(l: seq<Uncomplete>, fd: nat): (r: seq<byte>)
    requires forall i :: 0 <= i < |l| ==> EntryOK(l[i])
  {
    if l == [] then [] else if l[0].id == fd then Bytes(l[0]) else Held(l[1..], fd)
  }

  lemma {:induction false} HeldAt(l: seq<Uncomplete>, h: nat, k: nat)
    requires BucketOK(l, h) && k < |l|
    ensures Held(l, l[k].id) == Bytes(l[k])
  {
    if k > 0 {
      assert l[0].id != l[k].id;
      assert BucketOK(l[1..], h) && l[1..][k - 1] == l[k];
      HeldAt(l[1..], h, k - 1);
    }
  }

  lemma {:induction false} HeldNone(l: seq<Uncomplete>, fd: nat)
    requires (forall i :: 0 <= i < |l| ==> EntryOK(l[i])) && forall i :: 0 <= i < |l| ==> l[i].id != fd
    ensures Held(l, fd) == []
  {
    if l != [] { HeldNone(l[1..], fd); }
  }

  /** Taking out an entry: nothing is pending for its socket any more; other sockets are not affected. */
  lemma {:induction false} HeldRemoved(l: seq<Uncomplete>, h: nat, k: nat, g: nat)
    requires BucketOK(l, h) && k < |l|
    ensures BucketOK(l[..k] + l[k + 1..], h)
    ensures Held(l[..k] + l[k + 1..], g) == if g == l[k].id then [] else Held(l, g)
  {
    RemovedOK(l, h, k);
    var l' := l[..k] + l[k + 1..];
    if k == 0 {
      assert l' == l[1..];
      if g == l[0].id { HeldNone(l', g); }
    } else {
      assert l'[0] == l[0] && l'[1..] == l[1..][..k - 1] + l[1..][k..] && l[1..][k - 1] == l[k] && l[0].id != l[k].id;
      assert BucketOK(l[1..], h);
      HeldRemoved(l[1..], h, k - 1, g);
    }
  }

  lemma RemovedOK(l: seq<Uncomplete>, h: nat, k: nat)
    requires BucketOK(l, h) && k < |l|
    ensures var l' := l[..k] + l[k + 1..];
            BucketOK(l', h) && forall i :: 0 <= i < |l'| ==> l'[i].id != l[k].id
  {
    var l' := l[..k] + l[k + 1..];
    assert forall i :: 0 <= i < |l'| ==> l'[i] == if i < k then l[i] else l[i + 1];
  }

  /** A new entry in front. */
  lemma HeldAdded(l: seq<Uncomplete>, h: nat, u: Uncomplete, g: nat)
    requires BucketOK(l, h) && EntryOK(u) && HashFd(u.id) == h && Held(l, u.id) == []
    ensures BucketOK([u] + l, h) && Held([u] + l, g) == if g == u.id then Bytes(u) else Held(l, g)
  {
    assert ([u] + l)[1..] == l;
    forall i | 0 <= i < |l| ensures l[i].id != u.id {
      if l[i].id == u.id { HeldAt(l, h, i); }
    }
    forall i, j | 0 <= i < j < |l| + 1 ensures ([u] + l)[i].id != ([u] + l)[j].id { }
  }

  // ----- what one frame leaves ------------------------------------------------------------------------------

  /** The length bytes complete a frame exactly when enough bytes follow. */
  lemma FrameOf(hi: byte, lo: byte, data: seq<byte>)
    ensures var b, n := [hi, lo] + data, (hi as int) * 256 + (lo as int);
            && SizeOf(b) == n < 65536 && n / 256 == hi && n % 256 == lo
            && (|data| < n ==> Parse(b) == Parsed([], b))
            && (|data| >= n ==> Parse(b) == Parsed([data[..n]] + Parse(data[n..]).packets, Parse(data[n..]).rest))
  {
    hide Parse;
    var b, n := [hi, lo] + data, (hi as int) * 256 + (lo as int);
    assert b[2..] == data;
    if |data| >= n {
      assert b[2..2 + n] == data[..n] && b[2 + n..] == data[n..];
      ParseStep(b);
    } else {
      ParseNothing(b);
    }
  }

  lemma ParseNothing(b: seq<byte>)
    requires !Complete(b)
    ensures Parse(b) == Parsed([], b)
  {
  }

  lemma ParseLeaves(b: seq<byte>)
    requires b != []
    ensures Parse(b).packets != [] || Parse(b).rest != []
  {
  }

  lemma ParseShort(b: seq<byte>)
    requires |b| < 2
    ensures Parse(b) == Parsed([], b)
  {
  }

  /** A chunk behind an unfinished packet: `got` was there, `buffer` is new. */
  lemma FillFacts(u: Uncomplete, chunk: seq<byte>, size: nat, got: seq<byte>, buffer: seq<byte>)
    requires EntryOK(u) && chunk != []
    requires if u.read < 0 then size == u.header * 256 + chunk[0] && got == [] && buffer == chunk[1..]
             else size == u.size && got == u.data && buffer == chunk
    ensures |got| <= size < 65536
    ensures var need := size - |got|;
            if |buffer| < need then
              var u' := Uncomplete(u.id, |got| + |buffer|, 0, size, got + buffer);
              EntryOK(u') && Parse(Bytes(u) + chunk) == Parsed([], Bytes(u'))
            else
              var more := Parse(buffer[need..]);
              Parse(Bytes(u) + chunk) == Parsed([got + buffer[..need]] + more.packets, more.rest)
    ensures size - |got| == |buffer| ==> Parse(buffer[size - |got|..]) == Parsed([], [])
  {
    hide Parse, Bytes;
    FillBytes(u, chunk, size, got, buffer);
    var hi: byte, lo: byte := size / 256, size % 256;
    FrameOf(hi, lo, got + buffer);
    var need := size - |got|;
    if |buffer| < need {
      FillRest(u.id, hi, lo, got + buffer, size);
    } else {
      assert (got + buffer)[..size] == got + buffer[..need] && (got + buffer)[size..] == buffer[need..];
      if need == |buffer| { ParseShort(buffer[need..]); }
    }
  }

  lemma FillBytes(u: Uncomplete, chunk: seq<byte>, size: nat, got: seq<byte>, buffer: seq<byte>)
    requires EntryOK(u) && chunk != []
    requires if u.read < 0 then size == u.header * 256 + chunk[0] && got == [] && buffer == chunk[1..]
             else size == u.size && got == u.data && buffer == chunk
    ensures size < 65536 && |got| <= size && Bytes(u) + chunk == [size / 256, size % 256] + (got + buffer)
  {
    if u.read < 0 {
      assert size / 256 == u.header && size % 256 == chunk[0];
      assert chunk == [chunk[0]] + chunk[1..];
      assert Bytes(u) + chunk == [u.header, chunk[0]] + chunk[1..];
    } else {
      assert Bytes(u) + chunk == [size / 256, size % 256] + (u.data + chunk);
    }
  }

  /** A chunk that starts a packet. */
  lemma ChunkFacts(id: nat, b: seq<byte>)
    requires b != []
    ensures |b| == 1 ==> (var u := Uncomplete(id, -1, b[0], 0, []); EntryOK(u) && Bytes(u) == b && Parse(b) == Parsed([], b))
    ensures |b| > 1 ==>
              var data, n := b[2..], SizeOf(b);
              && (|data| < n ==> (var u := Uncomplete(id, |data|, 0, n, data); EntryOK(u) && Bytes(u) == b && Parse(b) == Parsed([], b)))
              && (|data| >= n ==> Parse(b) == Parsed([data[..n]] + Parse(data[n..]).packets, Parse(data[n..]).rest))
              && (|data| == n ==> Parse(data[n..]) == Parsed([], []))
  {
    if |b| == 1 {
      ParseShort(b);
    } else {
      var data := b[2..];
      assert b == [b[0], b[1]] + data;
      FrameOf(b[0], b[1], data);
      if |data| < SizeOf(b) { FillRest(id, b[0], b[1], data, SizeOf(b)); }
      if |data| == SizeOf(b) { ParseShort(data[SizeOf(b)..]); }
    }
  }

  lemma FillRest(id: nat, hi: byte, lo: byte, data: seq<byte>, size: nat)
    requires size / 256 == hi && size % 256 == lo && |data| < size < 65536
    ensures var u := Uncomplete(id, |data|, 0, size, data); EntryOK(u) && Bytes(u) == [hi, lo] + data
  {
  }

  function Tagged(fd: nat, ps: seq<seq<byte>>): seq<Packet> {
    seq(|ps|, i requires 0 <= i < |ps| => Packet(fd, ps[i]))
  }

  // ----- the ring of packets -------------------------------------------------------------------------------------

  class Queue {
    var head: nat
    var tail: nat
    const hash: array<seq<Uncomplete>>
    var queue: array<Packet>

    ghost predicate Valid()
      reads this, hash, queue
    {
      && hash.Length == HASHSIZE && (forall h :: 0 <= h < HASHSIZE ==> BucketOK(hash[h], h))
      && queue.Length > 0 && head < queue.Length && tail < queue.Length
    }

    /** What was received for a socket and is not yet part of a packet. */
    ghost function Rest(fd: nat): seq<byte>
      reads this, hash, queue
      requires Valid()
    {
      Held(hash[HashFd(fd)], fd)
    }

    ghost function Waiting(): seq<Packet>
      reads this, hash, queue
      requires Valid()
    {
      Ring(queue[..], head, tail)
    }

    /** `get_queue`. */
    constructor ()
      ensures Valid() && Waiting() == [] && (forall fd :: Rest(fd) == []) && fresh(hash) && fresh(queue)
    {
      head, tail := 0, 0;
      hash := new seq<Uncomplete>[HASHSIZE](_ => []);
      queue := new Packet[QUEUESIZE](_ => Packet(0, []));
    }

    /** `find_uncomplete`: take out what is pending for a socket. */
    method FindUncomplete(fd: nat) returns (u: Option<Uncomplete>)
      requires Valid()
      modifies hash
      ensures Valid() && Waiting() == old(Waiting())
      ensures forall g :: Rest(g) == if g == fd then [] else old(Rest(g))
      ensures match u
              case None => old(Rest(fd)) == []
              case Some(v) => v.id == fd && EntryOK(v) && Bytes(v) == old(Rest(fd))
    {
      var h := HashFd(fd);
      var l := hash[h];
      var k := 0;
      while k < |l| && l[k].id != fd
        invariant 0 <= k <= |l| && forall i :: 0 <= i < k ==> l[i].id != fd
      {
        k := k + 1;
      }
      if k == |l| {
        HeldNone(l, fd);
        return None;
      }
      HeldAt(l, h, k);
      forall g ensures Held(l[..k] + l[k + 1..], g) == if g == fd then [] else Held(l, g) { HeldRemoved(l, h, k, g); }
      HeldRemoved(l, h, k, fd);
      hash[h] := l[..k] + l[k + 1..];
      return Some(l[k]);
    }

    /** `save_uncomplete`, or putting an entry back. */
    method Save(u: Uncomplete)
      requires Valid() && EntryOK(u) && Rest(u.id) == []
      modifies hash
      ensures Valid() && Waiting() == old(Waiting())
      ensures forall g :: Rest(g) == if g == u.id then Bytes(u) else old(Rest(g))
    {
      var h := HashFd(u.id);
      forall g ensures Held([u] + hash[h], g) == if g == u.id then Bytes(u) else Held(hash[h], g) { HeldAdded(hash[h], h, u, g); }
      HeldAdded(hash[h], h, u, u.id);
      hash[h] := [u] + hash[h];
    }

    /** `expand_queue`. */
    method Expand()
      requires queue.Length > 0 && head < queue.Length
      modifies this`queue, this`head, this`tail
      ensures fresh(queue) && queue.Length == old(queue.Length) + QUEUESIZE && head == 0 && tail == old(queue.Length)
      ensures queue[..tail] == old(queue[head..] + queue[..head])
    {
      var cap := queue.Length;
      ghost var all := queue[head..] + queue[..head];
      var bigger := new Packet[cap + QUEUESIZE](_ => Packet(0, []));
      var i := 0;
      while i < cap
        invariant 0 <= i <= cap && queue == old(queue) && head == old(head) && bigger.Length == cap + QUEUESIZE && queue[..] == old(queue[..])
        invariant bigger[..i] == all[..i]
      {
        RotatedAt(queue[..], head, i);
        bigger[i] := queue[(head + i) % cap];
        assert bigger[..i + 1] == bigger[..i] + [bigger[i]];
        i := i + 1;
      }
      head, tail, queue := 0, cap, bigger;
    }

    /** `push_data`. */
    method PushData(fd: nat, data: seq<byte>)
      requires Valid()
      modifies this, queue
      ensures Valid() && (queue == old(queue) || fresh(queue)) && Waiting() == old(Waiting()) + [Packet(fd, data)]
      ensures forall g :: Rest(g) == old(Rest(g))
    {
      Store(Packet(fd, data));
      if head == tail {
        Expand();
        assert queue[..][head..tail] == queue[..tail];
      }
    }

    method Store(m: Packet)
      requires Valid()
      modifies this`tail, queue
      ensures queue == old(queue) && head < queue.Length && tail < queue.Length
      ensures head == tail ==> queue[head..] + queue[..head] == old(Waiting()) + [m]
      ensures head != tail ==> Ring(queue[..], head, tail) == old(Waiting()) + [m]
    {
      ghost var a, h, t := queue[..], head, tail;
      queue[tail] := m;
      assert queue[..] == a[t := m];
      RingPush(a, h, t, m);
      assert queue[h..] == a[t := m][h..] && queue[..h] == a[t := m][..h];
      tail := tail + 1;
      if tail >= queue.Length {
        tail := 0;
      }
    }

    /** `lpop`. */
    method Pop() returns (p: Option<Packet>)
      requires Valid()
      modifies this`head
      ensures Valid() && forall g :: Rest(g) == old(Rest(g))
      ensures if old(Waiting()) == [] then p == None && Waiting() == []
              else p == Some(old(Waiting())[0]) && Waiting() == old(Waiting())[1..]
    {
      if head == tail {
        return None;
      }
      p := Some(queue[head]);
      head := head + 1;
      if head >= queue.Length {
        head := 0;
      }
    }

    /** `push_more`: all packets of a buffer go to the queue, the rest is kept. */
    method PushMore(fd: nat, buffer: seq<byte>)
      requires Valid() && buffer != [] && Rest(fd) == []
      modifies this, queue, hash
      ensures Valid() && (queue == old(queue) || fresh(queue))
      ensures Waiting() == old(Waiting()) + Tagged(fd, Parse(buffer).packets)
      ensures forall g :: Rest(g) == if g == fd then Parse(buffer).rest else old(Rest(g))
      decreases |buffer|
    {
      hide Parse, Held, BucketOK, Bytes, SizeOf, Tagged;
      ChunkFacts(fd, buffer);
      TaggedOne(fd, Nothing);
      if |buffer| == 1 {
        Save(Uncomplete(fd, -1, buffer[0], 0, []));
        return;
      }
      var pack_size := SizeOf(buffer);
      var data := buffer[2..];
      if |data| < pack_size {
        Save(Uncomplete(fd, |data|, 0, pack_size, data));
        return;
      }
      PushData(fd, data[..pack_size]);
      var more := data[pack_size..];
      TaggedMore(fd, data[..pack_size], Parse(more).packets);
      if |more| > 0 {
        PushMore(fd, more);
      }
    }

    /** `filter_data_`: a chunk arrives. One complete packet and nothing else is returned directly; if
        there is more, all packets are queued. */
    method Filter(fd: nat, chunk: seq<byte>) returns (ev: Event)
      requires Valid() && chunk != []
      modifies this, queue, hash
      ensures Valid() && (queue == old(queue) || fresh(queue))
      ensures forall g :: Rest(g) == if g == fd then Parse(old(Rest(fd)) + chunk).rest else old(Rest(g))
      ensures Answered(ev, fd, Parse(old(Rest(fd)) + chunk), old(Waiting()), Waiting())
    {
      var u := FindUncomplete(fd);
      if u.Some? {
        ev := Fill(u.value, fd, chunk);
      } else {
        assert [] + chunk == chunk;
        ev := Fresh(fd, chunk);
      }
    }

    /** The chunk continues a packet. */
    method Fill(u: Uncomplete, fd: nat, chunk: seq<byte>) returns (ev: Event)
      requires Valid() && chunk != [] && u.id == fd && EntryOK(u) && Rest(fd) == []
      modifies this, queue, hash
      ensures Valid() && (queue == old(queue) || fresh(queue))
      ensures forall g :: Rest(g) == if g == fd then Parse(Bytes(u) + chunk).rest else old(Rest(g))
      ensures Answered(ev, fd, Parse(Bytes(u) + chunk), old(Waiting()), Waiting())
    {
      hide Parse, Held, Tagged, BucketOK, Bytes;
      var size: nat, buffer, got := u.size, chunk, u.data;
      if u.read < 0 {
        size := u.header * 256 + chunk[0];
        buffer := chunk[1..];
        got := [];
      }
      FillFacts(u, chunk, size, got, buffer);
      var need := size - |got|;
      if |buffer| < need {
        Save(Uncomplete(fd, |got| + |buffer|, 0, size, got + buffer));
        return Nothing;
      }
      var packet := got + buffer[..need];
      var more := buffer[need..];
      if more == [] {
        return Data(fd, packet);
      }
      PushData(fd, packet);
      PushMore(fd, more);
      TaggedMore(fd, packet, Parse(more).packets);
      ParseLeaves(more);
      return More;
    }

    /** The chunk starts a packet. */
    method Fresh(fd: nat, chunk: seq<byte>) returns (ev: Event)
      requires Valid() && chunk != [] && Rest(fd) == []
      modifies this, queue, hash
      ensures Valid() && (queue == old(queue) || fresh(queue))
      ensures forall g :: Rest(g) == if g == fd then Parse(chunk).rest else old(Rest(g))
      ensures Answered(ev, fd, Parse(chunk), old(Waiting()), Waiting())
    {
      hide Parse, Held, BucketOK, Bytes, SizeOf, Tagged;
      ChunkFacts(fd, chunk);
      if |chunk| == 1 {
        Save(Uncomplete(fd, -1, chunk[0], 0, []));
        return Nothing;
      }
      var pack_size := SizeOf(chunk);
      var data := chunk[2..];
      if |data| < pack_size {
        Save(Uncomplete(fd, |data|, 0, pack_size, data));
        return Nothing;
      }
      var more := data[pack_size..];
      if more == [] {
        return Data(fd, data[..pack_size]);
      }
      PushData(fd, data[..pack_size]);
      PushMore(fd, more);
      TaggedMore(fd, data[..pack_size], Parse(more).packets);
      ParseLeaves(more);
      return More;
    }
  }

  lemma TaggedMore(fd: nat, p: seq<byte>, ps: seq<seq<byte>>)
    ensures Tagged(fd, [p] + ps) == [Packet(fd, p)] + Tagged(fd, ps)
  {
  }

  /** One packet and nothing behind it. */
  predicate Direct(p: Parsed) { |p.packets| == 1 && p.rest == [] }

  /** The packets were returned, queued behind what waited, or there are none. */
  ghost predicate Answered(ev: Event, fd: nat, p: Parsed, before: seq<Packet>, after: seq<Packet>) {
    match ev
    case Nothing => p.packets == [] && after == before
    case Data(f, d) => f == fd && p == Parsed([d], []) && after == before
    case More => p.packets != [] && !Direct(p) && after == before + Tagged(fd, p.packets)
  }

  // ----- any interleaving of chunks --------------------------------------------------------------------------------

  datatype Input = Input(fd: nat, chunk: seq<byte>)

  /** Everything that arrived for a socket. */
  function StreamOf(ins: seq<Input>, fd: nat): seq<byte> {
    if ins == [] then []
    else StreamOf(ins[..|ins| - 1], fd) + (if ins[|ins| - 1].fd == fd then ins[|ins| - 1].chunk else [])
  }

  /** The packets of a socket in a log. */
  function PacketsOf(log: seq<Packet>, fd: nat): seq<seq<byte>> {
    if log == [] then []
    else PacketsOf(log[..|log| - 1], fd) + (if log[|log| - 1].id == fd then [log[|log| - 1].data] else [])
  }

  lemma {:induction false} PacketsMore(log: seq<Packet>, more: seq<Packet>, fd: nat)
    ensures PacketsOf(log + more, fd) == PacketsOf(log, fd) + PacketsOf(more, fd)
    decreases |more|
  {
    if more == [] {
      assert log + more == log;
    } else {
      var k := |more| - 1;
      PacketsMore(log, more[..k], fd);
      assert (log + more)[..|log| + k] == log + more[..k];
    }
  }

  lemma {:induction false} PacketsTagged(fd: nat, ps: seq<seq<byte>>, g: nat)
    ensures PacketsOf(Tagged(fd, ps), g) == if g == fd then ps else []
    decreases |ps|
  {
    if ps != [] {
      var k := |ps| - 1;
      PacketsTagged(fd, ps[..k], g);
      assert Tagged(fd, ps)[..k] == Tagged(fd, ps[..k]);
      assert ps == ps[..k] + [ps[k]];
    }
  }

  /** Chunks of many sockets arrive in any order; after each, the program takes what is there. For every
      socket it gets exactly the packets of that socket's stream, in order, however it was cut. */
  method Receive(q: Queue, ins: seq<Input>) returns (log: seq<Packet>)
    requires q.Valid() && q.Waiting() == [] && (forall fd :: q.Rest(fd) == []) && forall i :: 0 <= i < |ins| ==> ins[i].chunk != []
    modifies q, q.queue, q.hash
    ensures q.Valid() && q.Waiting() == []
    ensures forall fd :: PacketsOf(log, fd) == Parse(StreamOf(ins, fd)).packets && q.Rest(fd) == Parse(StreamOf(ins, fd)).rest
  {
    hide Parse, Tagged, PacketsOf, StreamOf, Ring, Held, BucketOK;
    log := [];
    var n := 0;
    ReceiveStart(ins, q);
    while n < |ins|
      invariant n <= |ins| && q.Valid() && q.Waiting() == [] && (q.queue == old(q.queue) || fresh(q.queue))
      invariant forall fd :: PacketsOf(log, fd) == Parse(StreamOf(ins[..n], fd)).packets
      invariant forall fd :: q.Rest(fd) == Parse(StreamOf(ins[..n], fd)).rest
    {
      ghost var was := log;
      var fd := ins[n].fd;
      ghost var rest := q.Rest(fd);
      var ev := q.Filter(fd, ins[n].chunk);
      TaggedOne(fd, ev);
      match ev {
      case Nothing =>
      case Data(id, d) =>
        log := log + [Packet(id, d)];
      case More =>
        var more := Drain(q);
        log := log + more;
      }
      forall g
        ensures PacketsOf(log, g) == Parse(StreamOf(ins[..n + 1], g)).packets
        ensures q.Rest(g) == Parse(StreamOf(ins[..n + 1], g)).rest
      {
        ReceiveStep(ins, n, was, log, fd, g, rest);
      }
      n := n + 1;
    }
    assert ins[..n] == ins;
  }

  lemma ReceiveStart(ins: seq<Input>, q: Queue)
    requires q.Valid() && forall fd :: q.Rest(fd) == []
    ensures forall fd :: PacketsOf([], fd) == Parse(StreamOf(ins[..0], fd)).packets
    ensures forall fd :: q.Rest(fd) == Parse(StreamOf(ins[..0], fd)).rest
  {
    forall fd ensures Parse(StreamOf(ins[..0], fd)) == Parsed([], []) { ParseShort([]); }
  }

  lemma TaggedOne(fd: nat, ev: Event)
    ensures Tagged(fd, []) == []
    ensures ev.Data? ==> Tagged(fd, [ev.data]) == [Packet(fd, ev.data)]
  {
  }

  lemma ReceiveStep(ins: seq<Input>, n: nat, was: seq<Packet>, log: seq<Packet>, fd: nat, g: nat, rest: seq<byte>)
    requires n < |ins| && fd == ins[n].fd && rest == Parse(StreamOf(ins[..n], fd)).rest
    requires PacketsOf(was, g) == Parse(StreamOf(ins[..n], g)).packets
    requires log == was + Tagged(fd, Parse(rest + ins[n].chunk).packets)
    ensures PacketsOf(log, g) == Parse(StreamOf(ins[..n + 1], g)).packets
    ensures Parse(StreamOf(ins[..n + 1], g)).rest ==
            if g == fd then Parse(rest + ins[n].chunk).rest else Parse(StreamOf(ins[..n], g)).rest
  {
    hide Parse, Tagged, PacketsOf;
    var ps := Parse(rest + ins[n].chunk).packets;
    PacketsMore(was, Tagged(fd, ps), g);
    PacketsTagged(fd, ps, g);
    assert ins[..n + 1][..n] == ins[..n];
    if g == fd {
      ParseSplit(StreamOf(ins[..n], g), ins[n].chunk);
    } else {
      assert StreamOf(ins[..n + 1], g) == StreamOf(ins[..n], g);
      assert PacketsOf(was, g) + [] == PacketsOf(was, g);
    }
  }

  method Drain(q: Queue) returns (ps: seq<Packet>)
    requires q.Valid()
    modifies q`head
    ensures q.Valid() && q.Waiting() == [] && ps == old(q.Waiting()) && forall fd :: q.Rest(fd) == old(q.Rest(fd))
  {
    hide Ring, Held, BucketOK;
    ps := [];
    ghost var all := q.Waiting();
    var p := q.Pop();
    while p.Some?
      invariant q.Valid() && (forall fd :: q.Rest(fd) == old(q.Rest(fd)))
      invariant if p.Some? then ps + [p.value] + q.Waiting() == all else ps == all && q.Waiting() == []
      decreases p.Some?, |q.Waiting()|
    {
      ghost var was := q.Waiting();
      ps := ps + [p.value];
      assert ps + was == all;
      p := q.Pop();
      if p.Some? { assert was == [p.value] + q.Waiting(); } else { assert was == []; }
    }
  }

  lemma FramedOne(data: seq<byte>)
    requires |data| < 65536
    ensures Framed([data]) == [|data| / 256, |data| % 256] + data
  {
    assert [data][1..] == [] && Framed([]) == [];
    assert [|data| / 256, |data| % 256] + data + [] == [|data| / 256, |data| % 256] + data;
  }

  /** `lpack`: the length in front of the data. */
  method Pack(data: seq<byte>) returns (r: Option<seq<byte>>)
    ensures if |data| >= 65536 then r == None else r == Some([|data| / 256, |data| % 256] + data) && r.value == Framed([data])
  {
    if |data| >= 0x10000 {
      return None;
    }
    assert |data| / 256 < 256;
    assert [data][1..] == [];
    FramedOne(data);
    return Some([|data| / 256 % 256, |data| % 256] + data);
  }
}
