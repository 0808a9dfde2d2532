/** The framing of lua-netpack.cc: a 16-bit big-endian length before each packet. */
module Framing {

  type byte = x: int | 0 <= x < 256

  /** The packets of a stream and the unfinished rest. */
  datatype Parsed = Parsed(packets: seq<seq<byte>>, rest: seq<byte>)

  function SizeOf(b: seq<byte>): nat
    requires |b| >= 2
  {
    (b[0] as int) * 256 + (b[1] as int)
  }

  /** Whether a whole frame is at the front. */
  predicate Complete(b: seq<byte>) {
    |b| >= 2 && |b| >= 2 + SizeOf(b)
  }

  function Frame(b: seq<byte>): seq<byte>
    requires Complete(b)
  {
    b[2..2 + SizeOf(b)]
  }

  function Parse(b: seq<byte>): (r: Parsed)
    ensures !Complete(r.rest) && |r.rest| <= |b|
    decreases |b|
  {
    if Complete(b) then
      var next := Parse(b[2 + SizeOf(b)..]);
      Parsed([Frame(b)] + next.packets, next.rest)
    else Parsed([], b)
  }

  /** The stream that carries the given packets. */
  function Framed(ps: seq<seq<byte>>): seq<byte>
    requires forall p :: p in ps ==> |p| < 65536
  {
    if ps == [] then [] else [|ps[0]| / 256, |ps[0]| % 256] + ps[0] + Framed(ps[1..])
  }

  /** Reading a stream in two parts gives the same packets as reading it at once. */
  lemma {:induction false} ParseSplit(a: seq<byte>, b: seq<byte>)
    ensures var first := Parse(a);
            var second := Parse(first.rest + b);
            Parse(a + b) == Parsed(first.packets + second.packets, second.rest)
    decreases |a|
  {
    if Complete(a) {
      ParseSplit(a[2 + SizeOf(a)..], b);
      SplitStep(a, b);
    } else {
      assert [] + Parse(a + b).packets == Parse(a + b).packets;
    }
  }

  lemma ParseStep(b: seq<byte>)
    requires Complete(b)
    ensures var next := Parse(b[2 + SizeOf(b)..]); Parse(b) == Parsed([Frame(b)] + next.packets, next.rest)
  {
  }

  lemma FrontFrame(a: seq<byte>, b: seq<byte>)
    requires Complete(a)
    ensures Complete(a + b) && SizeOf(a + b) == SizeOf(a) && Frame(a + b) == Frame(a)
    ensures (a + b)[2 + SizeOf(a)..] == a[2 + SizeOf(a)..] + b
  {
    assert (a + b)[0] == a[0] && (a + b)[1] == a[1];
  }

  lemma SplitStep(a: seq<byte>, b: seq<byte>)
    requires Complete(a)
    requires var first := Parse(a[2 + SizeOf(a)..]);
             var second := Parse(first.rest + b);
             Parse(a[2 + SizeOf(a)..] + b) == Parsed(first.packets + second.packets, second.rest)
    ensures var first := Parse(a);
            var second := Parse(first.rest + b);
            Parse(a + b) == Parsed(first.packets + second.packets, second.rest)
  {
    hide Parse;
    FrontFrame(a, b);
    ParseStep(a);
    ParseStep(a + b);
    var next := Parse(a[2 + SizeOf(a)..]);
    var second := Parse(next.rest + b);
    hide Complete, SizeOf;
    assert [Frame(a)] + (next.packets + second.packets) == ([Frame(a)] + next.packets) + second.packets;
  }

  /** Reading undoes framing. */
  lemma {:induction false} ParseFramed(ps: seq<seq<byte>>)
    requires forall p :: p in ps ==> |p| < 65536
    ensures Parse(Framed(ps)) == Parsed(ps, [])
  {
    if ps != [] {
      var b, n := Framed(ps), |ps[0]|;
      assert ps[0] in ps && SizeOf(b) == n;
      assert b[2..2 + n] == ps[0] && b[2 + n..] == Framed(ps[1..]);
      ParseFramed(ps[1..]);
      assert [ps[0]] + ps[1..] == ps;
    }
  }
}
