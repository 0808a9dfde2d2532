/** When the packets of a socket reach the program in the order in which they were sent: chunks of many
    sockets arrive and packets are taken from the queue in any order. */
module NetOrder {
  import opened Options
  import opened Rings
  import opened Framing
  import opened Netpack

  datatype Step = Arrive(fd: nat, chunk: seq<byte>) | Take

  function Arrivals(steps: seq<Step>): (r: seq<Input>) {
    if steps == [] then []
    else Arrivals(steps[..|steps| - 1]) +
         (if steps[|steps| - 1].Arrive? then [Input(steps[|steps| - 1].fd, steps[|steps| - 1].chunk)] else [])
  }

  /** The packets sent through a socket, and what of it is not yet a packet. */
  function Sent(steps: seq<Step>, fd: nat): Parsed { Parse(StreamOf(Arrivals(steps), fd)) }

  /** What the program has received, and what waits in the queue. */
  datatype Traffic = Traffic(log: seq<Packet>, waiting: seq<Packet>)

  function Next(t: Traffic, step: Step, p: Parsed): Traffic {
    match step
    case Take => if t.waiting == [] then t else Traffic(t.log + [t.waiting[0]], t.waiting[1..])
    case Arrive(fd, _) =>
      if Direct(p) then Traffic(t.log + Tagged(fd, p.packets), t.waiting) else Traffic(t.log, t.waiting + Tagged(fd, p.packets))
  }

  /** What the last chunk completes. */
  function Completed(steps: seq<Step>, step: Step): Parsed {
    match step
    case Take => Parsed([], [])
    case Arrive(fd, chunk) => Parse(Sent(steps, fd).rest + chunk)
  }

  function After(steps: seq<Step>): Traffic {
    if steps == [] then Traffic([], [])
    else
      var front, step := steps[..|steps| - 1], steps[|steps| - 1];
      Next(After(front), step, Completed(front, step))
  }

  /** The queue does what `After` says. */
  method ReceiveAny(q: Queue, steps: seq<Step>) returns (log: seq<Packet>)
    requires q.Valid() && q.Waiting() == [] && (forall fd :: q.Rest(fd) == [])
    requires forall i :: 0 <= i < |steps| && steps[i].Arrive? ==> steps[i].chunk != []
    modifies q, q.queue, q.hash
    ensures q.Valid() && After(steps) == Traffic(log, q.Waiting())
    ensures forall fd :: q.Rest(fd) == Sent(steps, fd).rest
  {
    hide Parse, Tagged, StreamOf, Arrivals, Ring, Held, BucketOK, Sent, After;
    log := [];
    var n := 0;
    Nothing(steps);
    while n < |steps|
      invariant n <= |steps| && q.Valid() && (q.queue == old(q.queue) || fresh(q.queue))
      invariant After(steps[..n]) == Traffic(log, q.Waiting())
      invariant forall fd :: q.Rest(fd) == Sent(steps[..n], fd).rest
    {
      match steps[n] {
      case Take =>
        var p := q.Pop();
        if p.Some? {
          log := log + [p.value];
        }
      case Arrive(fd, chunk) =>
        var ev := q.Filter(fd, chunk);
        TaggedOne(fd, ev);
        if ev.Data? {
          log := log + [Packet(fd, ev.data)];
        }
      }
      More(steps, n);
      n := n + 1;
    }
    assert steps[..n] == steps;
  }

  lemma Nothing(steps: seq<Step>)
    ensures After(steps[..0]) == Traffic([], [])
    ensures forall fd :: Sent(steps[..0], fd) == Parsed([], [])
  {
    forall fd ensures Parse(StreamOf([], fd)) == Parsed([], []) { ParseShort([]); }
  }

  /** One more step. */
  lemma More(steps: seq<Step>, n: nat)
    requires n < |steps|
    ensures var p := Completed(steps[..n], steps[n]);
            && After(steps[..n + 1]) == Next(After(steps[..n]), steps[n], p)
            && forall g :: Sent(steps[..n + 1], g) ==
                 if steps[n].Arrive? && g == steps[n].fd then Parsed(Sent(steps[..n], g).packets + p.packets, p.rest)
                 else Sent(steps[..n], g)
  {
    hide Parse, Next;
    var u := steps[..n + 1];
    assert u[..|u| - 1] == steps[..n] && u[|u| - 1] == steps[n];
    var a, b := Arrivals(steps[..n]), Arrivals(u);
    if steps[n].Arrive? {
      assert b[..|b| - 1] == a && b[|b| - 1] == Input(steps[n].fd, steps[n].chunk);
      ParseSplit(StreamOf(a, steps[n].fd), steps[n].chunk);
      forall g | g != steps[n].fd ensures StreamOf(b, g) == StreamOf(a, g) { }
    } else {
      assert b == a;
    }
  }

  // ----- nothing is lost ---------------------------------------------------------------------------------------

  /** What was received and what waits is, for every socket, what was sent. */
  lemma {:induction false} Conserved(steps: seq<Step>, fd: nat)
    ensures var t := After(steps);
            multiset(PacketsOf(t.log, fd)) + multiset(PacketsOf(t.waiting, fd)) == multiset(Sent(steps, fd).packets)
  {
    hide Sent, Completed, After, Next;
    if steps == [] {
      Nothing(steps);
      assert steps[..0] == steps;
    } else {
      hide PacketsOf;
      var n := |steps| - 1;
      Conserved(steps[..n], fd);
      More(steps, n);
      assert steps[..n + 1] == steps;
      PacketsNext(After(steps[..n]), steps[n], Completed(steps[..n], steps[n]), fd);
      var t, t' := After(steps[..n]), After(steps);
      Together(PacketsOf(t.log, fd), PacketsOf(t.waiting, fd), PacketsOf(t'.log, fd), PacketsOf(t'.waiting, fd),
               Completed(steps[..n], steps[n]).packets);
    }
  }

  lemma Together<T>(l: seq<T>, w: seq<T>, l': seq<T>, w': seq<T>, p: seq<T>)
    ensures l' + w' == l + w ==> multiset(l') + multiset(w') == multiset(l) + multiset(w)
    ensures (l' == l + p && w' == w) || (l' == l && w' == w + p) ==>
              multiset(l') + multiset(w') == multiset(l) + multiset(w) + multiset(p)
    ensures forall a: seq<T> :: multiset(a + p) == multiset(a) + multiset(p)
  {
    assert multiset(l' + w') == multiset(l') + multiset(w') && multiset(l + w) == multiset(l) + multiset(w);
  }

  /** What a step adds for one socket. */
  lemma PacketsNext(t: Traffic, step: Step, p: Parsed, g: nat)
    ensures var t', l, w := Next(t, step, p), PacketsOf(t.log, g), PacketsOf(t.waiting, g);
            var l', w' := PacketsOf(t'.log, g), PacketsOf(t'.waiting, g);
            match step
            case Take => l' + w' == l + w
            case Arrive(fd, _) =>
              if g != fd then l' == l && w' == w
              else if Direct(p) then l' == l + p.packets && w' == w
              else l' == l && w' == w + p.packets
  {
    match step
    case Take =>
      if t.waiting != [] {
        assert t.waiting == [t.waiting[0]] + t.waiting[1..];
        PacketsMore([t.waiting[0]], t.waiting[1..], g);
        PacketsMore(t.log, [t.waiting[0]], g);
      }
    case Arrive(fd, _) =>
      PacketsTagged(fd, p.packets, g);
      PacketsMore(t.log, Tagged(fd, p.packets), g);
      PacketsMore(t.waiting, Tagged(fd, p.packets), g);
  }

  // ----- order -----------------------------------------------------------------------------------------------------

  /** However many of the waiting packets are taken next, what the program has of a socket is the beginning of
      what was sent. */
  ghost predicate InOrder(steps: seq<Step>) {
    forall k: nat, fd :: k <= |After(steps).waiting| ==> PacketsOf(After(steps + Takes(k)).log, fd) <= Sent(steps, fd).packets
  }

  function Takes(k: nat): seq<Step> { seq(k, _ => Take) }

  /** The chunk at `n` is returned at once as a packet while another packet of its socket waits. */
  ghost predicate Overtakes(steps: seq<Step>, n: nat)
    requires n < |steps|
  {
    var p := Completed(steps[..n], steps[n]);
    steps[n].Arrive? && Direct(p) && exists w :: w in PacketsOf(After(steps[..n]).waiting, steps[n].fd) && w != p.packets[0]
  }

  /** At every moment the packets of every socket are in order, if and only if no returned packet overtakes a
      different one. */
  lemma OrderExactly(steps: seq<Step>)
    ensures (forall n :: 0 <= n <= |steps| ==> InOrder(steps[..n])) <==> (forall n :: 0 <= n < |steps| ==> !Overtakes(steps, n))
  {
    hide InOrder, Overtakes;
    assert steps[..|steps|] == steps;
    OrderUpTo(steps, |steps|);
    forall n | 0 <= n <= |steps| ensures InOrder(steps[..n]) <==> Ordered(steps[..n]) { InOrderIs(steps[..n]); }
  }

  ghost predicate Ordered(steps: seq<Step>) { forall fd :: OrderedAt(steps, fd) }

  ghost predicate OrderedAt(steps: seq<Step>, fd: nat) {
    PacketsOf(After(steps).log, fd) + PacketsOf(After(steps).waiting, fd) == Sent(steps, fd).packets
  }

  lemma {:induction false} OrderUpTo(steps: seq<Step>, n: nat)
    requires n <= |steps|
    ensures (forall m :: 0 <= m <= n ==> Ordered(steps[..m])) <==> (forall m :: 0 <= m < n ==> !Overtakes(steps, m))
  {
    hide Ordered, Overtakes;
    if n == 0 {
      OrderedStart(steps);
    } else {
      OrderUpTo(steps, n - 1);
      if Ordered(steps[..n - 1]) { OrderedStep(steps, n - 1); }
    }
  }

  lemma OrderedStart(steps: seq<Step>)
    ensures Ordered(steps[..0])
  {
    hide After, Sent;
    Nothing(steps);
    forall fd ensures OrderedAt(steps[..0], fd) { }
  }

  lemma OrderedStep(steps: seq<Step>, n: nat)
    requires n < |steps| && Ordered(steps[..n])
    ensures Ordered(steps[..n + 1]) <==> !Overtakes(steps, n)
  {
    hide After, Sent, Completed, OrderedAt;
    if Overtakes(steps, n) {
      assert OrderedAt(steps[..n], steps[n].fd);
      OrderedStepAt(steps, n, steps[n].fd);
    } else {
      var u := steps[..n + 1];
      forall g ensures OrderedAt(u, g) {
        assert OrderedAt(steps[..n], g);
        OrderedStepAt(steps, n, g);
      }
    }
  }

  lemma OrderedStepAt(steps: seq<Step>, n: nat, g: nat)
    requires n < |steps| && OrderedAt(steps[..n], g)
    ensures OrderedAt(steps[..n + 1], g) <==> !(Overtakes(steps, n) && g == steps[n].fd)
    ensures Overtakes(steps, n) ==> steps[n].Arrive?
  {
    hide After, Sent, Completed, Next, PacketsOf;
    var t, p := After(steps[..n]), Completed(steps[..n], steps[n]);
    More(steps, n);
    PacketsNext(t, steps[n], p, g);
    var l, w := PacketsOf(t.log, g), PacketsOf(t.waiting, g);
    assert l + w + p.packets == l + (w + p.packets);
    if Direct(p) {
      assert p.packets == [p.packets[0]];
      Passes(l, w, p.packets[0]);
    }
  }

  /** Putting an element in front of the others or behind them is the same exactly if they are all equal to it. */
  lemma Passes<T>(l: seq<T>, w: seq<T>, d: T)
    ensures l + [d] + w == l + w + [d] <==> forall x :: x in w ==> x == d
  {
    var a, b := l + [d] + w, l + w + [d];
    if a == b {
      forall i | 0 <= i < |w| ensures w[i] == d { Shifted(l, w, d, i); }
    }
    if forall x :: x in w ==> x == d {
      forall i | 0 <= i < |w| ensures w[i] == d { assert w[i] in w; }
      assert [d] + w == w + [d];
      assert a == l + ([d] + w) && b == l + (w + [d]);
    }
  }

  lemma {:induction false} Shifted<T>(l: seq<T>, w: seq<T>, d: T, i: nat)
    requires i < |w| && l + [d] + w == l + w + [d]
    ensures w[i] == d
  {
    var a, b := l + [d] + w, l + w + [d];
    assert a[|l| + i] == b[|l| + i] && b[|l| + i] == w[i];
    if i > 0 { Shifted(l, w, d, i - 1); }
  }

  lemma InOrderIs(steps: seq<Step>)
    ensures InOrder(steps) <==> Ordered(steps)
  {
    hide After, Sent, PacketsOf, Takes;
    var t := After(steps);
    if InOrder(steps) {
      forall fd ensures OrderedAt(steps, fd) {
        var n := |t.waiting|;
        assert PacketsOf(After(steps + Takes(n)).log, fd) <= Sent(steps, fd).packets;
        LogAfter(steps, n, fd);
        assert t.waiting[..n] == t.waiting;
        Conserved(steps, fd);
        SameLength(PacketsOf(t.log, fd), PacketsOf(t.waiting, fd), Sent(steps, fd).packets);
      }
    }
    if Ordered(steps) {
      forall k: nat, fd | k <= |t.waiting| ensures PacketsOf(After(steps + Takes(k)).log, fd) <= Sent(steps, fd).packets {
        LogAfter(steps, k, fd);
        assert OrderedAt(steps, fd);
      }
    }
  }

  lemma LogAfter(steps: seq<Step>, k: nat, fd: nat)
    requires k <= |After(steps).waiting|
    ensures var t := After(steps);
            && PacketsOf(After(steps + Takes(k)).log, fd) == PacketsOf(t.log, fd) + PacketsOf(t.waiting[..k], fd)
            && PacketsOf(t.log, fd) + PacketsOf(t.waiting[..k], fd) <= PacketsOf(t.log, fd) + PacketsOf(t.waiting, fd)
  {
    hide After, PacketsOf, Takes;
    var t := After(steps);
    TakeMany(steps, k);
    PacketsMore(t.log, t.waiting[..k], fd);
    PacketsMore(t.waiting[..k], t.waiting[k..], fd);
    assert t.waiting[..k] + t.waiting[k..] == t.waiting;
  }

  lemma SameLength<T>(a: seq<T>, b: seq<T>, c: seq<T>)
    requires multiset(a) + multiset(b) == multiset(c) && a + b <= c
    ensures a + b == c
  {
    assert |multiset(a) + multiset(b)| == |a| + |b| && |multiset(c)| == |c|;
  }

  /** Taking `k` of the packets that wait. */
  lemma {:induction false} TakeMany(steps: seq<Step>, k: nat)
    requires k <= |After(steps).waiting|
    ensures var t := After(steps); After(steps + Takes(k)) == Traffic(t.log + t.waiting[..k], t.waiting[k..])
  {
    hide Next, Sent;
    var all, t := steps + Takes(k), After(steps);
    if k == 0 {
      assert all == steps;
    } else {
      TakeMany(steps, k - 1);
      assert all[..|all| - 1] == steps + Takes(k - 1) && all[|all| - 1] == Take;
      TakeOne(t, k);
    }
  }

  lemma TakeOne(t: Traffic, k: nat)
    requires 0 < k <= |t.waiting|
    ensures Next(Traffic(t.log + t.waiting[..k - 1], t.waiting[k - 1..]), Take, Parsed([], [])) ==
            Traffic(t.log + t.waiting[..k], t.waiting[k..])
  {
    assert t.waiting[..k] == t.waiting[..k - 1] + [t.waiting[k - 1]];
  }

  // ----- a run that is out of order ------------------------------------------------------------------------------------

  /** Two packets arrive in one chunk, a third in the next, before the program takes the first. */
  function Late(): seq<Step> { [Arrive(1, [0, 1, 65, 0, 1, 66]), Arrive(1, [0, 1, 67])] }

  /** The program receives the third first. */
  method LateRun() returns (log: seq<Packet>, q: Queue)
    ensures fresh(q) && q.Valid() && log == [Packet(1, [67]), Packet(1, [65]), Packet(1, [66])]
    ensures Sent(Late(), 1).packets == [[65], [66], [67]] && Overtakes(Late(), 1) && !InOrder(Late())
  {
    q := new Queue();
    log := ReceiveAny(q, Late() + [Take, Take]);
    LateTraffic();
  }

  lemma LateTraffic()
    ensures After(Late() + [Take, Take]).log == [Packet(1, [67]), Packet(1, [65]), Packet(1, [66])]
    ensures Sent(Late(), 1).packets == [[65], [66], [67]] && Overtakes(Late(), 1) && !InOrder(Late())
  {
    hide After, Sent, Overtakes, Late;
    LateArrivals();
    var t := After(Late());
    TakeMany(Late(), 2);
    assert Takes(2) == [Take, Take];
    assert t.waiting[..2] == t.waiting;
    assert Late() + Takes(0) == Late();
    assert PacketsOf(After(Late() + Takes(0)).log, 1)[0] == [67];
  }

  lemma LateArrivals()
    ensures After(Late()) == Traffic([Packet(1, [67])], [Packet(1, [65]), Packet(1, [66])])
    ensures Sent(Late(), 1).packets == [[65], [66], [67]] && Overtakes(Late(), 1)
  {
    hide Parse, StreamOf, After, Sent, Tagged, PacketsOf;
    More(Late(), 1);
    assert Late()[..2] == Late();
    LateFirst();
    var second: seq<byte> := [0, 1, 67];
    assert Framed([[67]]) == second;
    ParseFramed([[67]]);
    assert [] + second == second;
    TaggedOne(1, Data(1, [67]));
    var waiting := PacketsOf(After(Late()[..1]).waiting, 1);
    assert waiting[1] in waiting && waiting[1] != [67];
  }

  lemma LateFirst()
    ensures After(Late()[..1]) == Traffic([], [Packet(1, [65]), Packet(1, [66])])
    ensures PacketsOf([Packet(1, [65]), Packet(1, [66])], 1) == [[65], [66]]
    ensures Sent(Late()[..1], 1) == Parsed([[65], [66]], [])
  {
    hide Parse, StreamOf, After, Sent, PacketsOf;
    var first: seq<byte> := [0, 1, 65, 0, 1, 66];
    Nothing(Late());
    More(Late(), 0);
    assert Framed([[65], [66]]) == first by { assert Framed([[66]]) == [0, 1, 66]; }
    ParseFramed([[65], [66]]);
    assert [] + first == first;
    assert Tagged(1, [[65], [66]]) == [Packet(1, [65]), Packet(1, [66])];
    PacketsTagged(1, [[65], [66]], 1);
  }
}
