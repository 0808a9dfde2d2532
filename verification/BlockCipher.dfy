/** What block ciphers share: Feistel rounds, whatever they mix in, and texts cut into blocks. */
module BlockCipher {

  datatype Pair<W> = Pair(x: W, y: W)

  function Crossed<W>(p: Pair<W>): Pair<W> { Pair(p.y, p.x) }

  /** Rounds `i` to `n - 1`: the halves take turns; `f` is what round `i` mixes into the other half. */
  function Rounds<W>(f: (int, W) -> W, xor: (W, W) -> W, p: Pair<W>, i: int, n: int): Pair<W>
    decreases n - i
  {
    if i >= n then p else Rounds(f, xor, Pair(p.y, xor(p.x, f(i, p.y))), i + 1, n)
  }

  lemma RoundsStep<W>(f: (int, W) -> W, xor: (W, W) -> W, p: Pair<W>, i: int, n: int)
    requires i < n
    ensures Rounds(f, xor, p, i, n) == Rounds(f, xor, Pair(p.y, xor(p.x, f(i, p.y))), i + 1, n)
  {
  }

  lemma {:induction false} RoundsSplit<W>(f: (int, W) -> W, xor: (W, W) -> W, p: Pair<W>, i: int, m: int, n: int)
    requires i <= m <= n
    ensures Rounds(f, xor, p, i, n) == Rounds(f, xor, Rounds(f, xor, p, i, m), m, n)
    decreases m - i
  {
    if i < m { RoundsSplit(f, xor, Pair(p.y, xor(p.x, f(i, p.y))), i + 1, m, n); }
  }

  /** The rounds from `i` on are undone by as many rounds that mix in the same things in reverse order. */
  lemma {:induction false} RoundsUndo<W(!new)>(f: (int, W) -> W, g: (int, W) -> W, xor: (W, W) -> W, p: Pair<W>, i: int, n: int)
    requires 0 <= i <= n
    requires forall a: W, b: W :: xor(xor(a, b), b) == a
    requires forall j: int, x :: 0 <= j < n ==> g(j, x) == f(n - 1 - j, x)
    ensures Rounds(g, xor, Crossed(Rounds(f, xor, p, i, n)), 0, n - i) == Crossed(p)
    decreases n - i
  {
    if i < n {
      var m := f(i, p.y);
      var q := Pair(p.y, xor(p.x, m));
      RoundsUndo(f, g, xor, q, i + 1, n);
      var start := Crossed(Rounds(f, xor, p, i, n));
      RoundsSplit(g, xor, start, 0, n - i - 1, n - i);
      var mid := Crossed(q);
      assert Rounds(f, xor, p, i, n) == Rounds(f, xor, q, i + 1, n);
      assert Rounds(g, xor, start, 0, n - i - 1) == mid;
      assert g(n - i - 1, mid.y) == m;
      var last := Pair(mid.y, xor(mid.x, m));
      assert xor(xor(p.x, m), m) == p.x;
      assert Rounds(g, xor, mid, n - i - 1, n - i) == Rounds(g, xor, last, n - i, n - i) == last;
    }
  }

  /** Rounds on halves seen through `m` are the rounds seen through `m`, if mixing and `xor` respect it. */
  lemma {:induction false} RoundsSeen<W(!new)>(f: (int, W) -> W, g: (int, W) -> W, xor: (W, W) -> W, m: W -> W, p: Pair<W>, i: int, n: int)
    requires forall j: int, x :: i <= j < n ==> f(j, m(x)) == m(g(j, x))
    requires forall a: W, b: W :: xor(m(a), m(b)) == m(xor(a, b))
    ensures var q := Rounds(g, xor, p, i, n); Rounds(f, xor, Pair(m(p.x), m(p.y)), i, n) == Pair(m(q.x), m(q.y))
    decreases n - i
  {
    if i < n { RoundsSeen(f, g, xor, m, Pair(p.y, xor(p.x, g(i, p.y))), i + 1, n); }
  }

  // ----- texts ------------------------------------------------------------------------------------------

  /** Each block of 8 on its own. */
  function Blocks<T>(f: seq<T> -> seq<T>, t: seq<T>): seq<T>
    decreases |t|
  {
    if |t| < 8 then [] else Blocks(f, t[..|t| - 8]) + f(t[|t| - 8..])
  }

  lemma {:induction false} BlocksSize<T(!new)>(f: seq<T> -> seq<T>, t: seq<T>)
    requires |t| % 8 == 0 && forall b :: |b| == 8 ==> |f(b)| == 8
    ensures |Blocks(f, t)| == |t|
    decreases |t|
  {
    if |t| >= 8 { BlocksSize(f, t[..|t| - 8]); }
  }

  lemma Slices<T>(a: seq<T>, b: seq<T>, i: nat)
    requires i + 8 <= |a| || (i == |a| && |b| == 8)
    ensures (a + b)[i..i + 8] == if i + 8 <= |a| then a[i..i + 8] else b
  {
  }

  lemma {:induction false} BlockAt<T(!new)>(f: seq<T> -> seq<T>, t: seq<T>, i: nat)
    requires |t| % 8 == 0 && i % 8 == 0 && i < |t| && forall b :: |b| == 8 ==> |f(b)| == 8
    ensures |Blocks(f, t)| == |t| && i + 8 <= |t| && Blocks(f, t)[i..i + 8] == f(t[i..i + 8])
    decreases |t|
  {
    hide Blocks;
    var n := |t| - 8;
    var a, b := t[..n], t[n..];
    assert a + b == t;
    BlocksSize(f, t);
    BlocksSize(f, a);
    BlocksMore(f, a, b);
    Slices(a, b, i);
    Slices(Blocks(f, a), f(b), i);
    if i < n { BlockAt(f, a, i); }
  }

  lemma BlocksMore<T>(f: seq<T> -> seq<T>, t: seq<T>, b: seq<T>)
    requires |b| == 8
    ensures Blocks(f, t + b) == Blocks(f, t) + f(b)
  {
    var u := t + b;
    assert u[..|u| - 8] == t && u[|u| - 8..] == b;
  }

  lemma BlocksOne<T>(f: seq<T> -> seq<T>, b: seq<T>)
    requires |b| == 8
    ensures Blocks(f, b) == f(b)
  {
    assert b[..|b| - 8] == [] && b[|b| - 8..] == b;
  }

  lemma {:induction false} BlocksUndo<T(!new)>(f: seq<T> -> seq<T>, g: seq<T> -> seq<T>, t: seq<T>)
    requires |t| % 8 == 0 && forall b :: |b| == 8 ==> |f(b)| == 8 && g(f(b)) == b
    ensures Blocks(g, Blocks(f, t)) == t
    decreases |t|, 1
  {
    if t == [] {
      assert Blocks(f, t) == [];
    } else {
      UndoLast(f, g, t[..|t| - 8], t[|t| - 8..]);
      assert t[..|t| - 8] + t[|t| - 8..] == t;
    }
  }

  lemma {:induction false} UndoLast<T(!new)>(f: seq<T> -> seq<T>, g: seq<T> -> seq<T>, t: seq<T>, b: seq<T>)
    requires |t| % 8 == 0 && |b| == 8 && forall b :: |b| == 8 ==> |f(b)| == 8 && g(f(b)) == b
    ensures Blocks(g, Blocks(f, t + b)) == t + b
    decreases |t| + 8, 0
  {
    hide Blocks;
    BlocksUndo(f, g, t);
    BlocksMore(f, t, b);
    BlocksMore(g, Blocks(f, t), f(b));
  }

  /** The text with a mark and zeros behind it, up to a multiple of 8. */
  function Padded<T>(text: seq<T>, mark: T, zero: T): seq<T> {
    text + [mark] + seq(7 - |text| % 8, _ => zero)
  }

  lemma PaddedSize<T>(text: seq<T>, mark: T, zero: T)
    ensures |Padded(text, mark, zero)| % 8 == 0 && |Padded(text, mark, zero)| >= 8
  {
  }

  lemma PaddedEnd<T>(t: seq<T>, mark: T, zero: T, i: int)
    ensures var p := Padded(t, mark, zero); |p| - 8 <= |t| < |p| && p[|t|] == mark && p[..|t|] == t
    ensures var p := Padded(t, mark, zero); |t| < i < |p| ==> p[i] == zero
  {
  }

  function TailItem<T>(rest: seq<T>, mark: T, zero: T, x: nat): T {
    if x < |rest| then rest[x] else if x == |rest| then mark else zero
  }

  lemma TailIs<T>(text: seq<T>, mark: T, zero: T, i: nat, tail: seq<T>)
    requires i <= |text| < i + 8 && i % 8 == 0 && |tail| == 8
    requires forall x :: 0 <= x < 8 ==> tail[x] == TailItem(text[i..], mark, zero, x)
    ensures text[..i] + tail == Padded(text, mark, zero)
  {
    assert |text| % 8 == |text| - i;
  }
}
