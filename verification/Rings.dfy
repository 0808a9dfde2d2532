/** A ring buffer with one slot kept free, as a sequence. */
module Rings {

  /** What a ring with the given ends holds. */
  function Ring<T>(a: seq<T>, h: nat, t: nat): seq<T>
    requires h <= |a| && t <= |a|
  {
    if h <= t then a[h..t] else a[h..] + a[..t]
  }

  /** Writing at the tail; equal ends afterwards mean that the ring is full. */
  lemma RingPush<T>(a: seq<T>, h: nat, t: nat, m: T)
    requires h < |a| && t < |a|
    ensures var b, t' := a[t := m], if t + 1 == |a| then 0 else t + 1;
            if h == t' then b[h..] + b[..h] == Ring(a, h, t) + [m] else Ring(b, h, t') == Ring(a, h, t) + [m]
  {
    var b := a[t := m];
    if h <= t {
      assert b[h..t + 1] == a[h..t] + [m];
      if t + 1 == |a| { assert b[h..] == b[h..t + 1] && b[..0] == []; }
    } else {
      assert b[..t + 1] == a[..t] + [m] && b[h..] == a[h..];
    }
  }

  lemma RotatedAt<T>(a: seq<T>, h: nat, i: nat)
    requires h < |a| && i < |a|
    ensures (h + i) % |a| < |a| && (a[h..] + a[..h])[i] == a[(h + i) % |a|]
  {
    WrapMod(h + i, |a|);
  }

  lemma WrapMod(x: nat, n: nat)
    requires x < 2 * n
    ensures x % n == if x < n then x else x - n
  {
    if x >= n { assert x == n * 1 + (x - n); }
  }
}
