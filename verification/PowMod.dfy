/** lua-crypt.cc: modular exponentiation in 64 bits, and the Diffie-Hellman exchange built on it. */
module PowMod {

  const TWO64: nat := 18446744073709551616

  // the biggest 64 bit prime
  const P: nat := 18446744073709551557

  const G: nat := 5

  function Pow(a: nat, b: nat): nat {
    if b == 0 then 1 else a * Pow(a, b - 1)
  }

  // ----- arithmetic modulo P -------------------------------------------------------------------------

  lemma ModOf(q: int, r: nat)
    requires r < P
    ensures (P * q + r) % P == r
  {
    DivisionIs(P * q + r, q, r);
  }

  lemma DivisionIs(x: int, q: int, r: nat)
    requires x == P * q + r && r < P
    ensures x % P == r
  {
  }

  lemma ModShift(x: int, k: int)
    ensures (x - P * k) % P == x % P
  {
    var q, r := x / P, x % P;
    assert x - P * k == P * (q - k) + r;
    ModOf(q - k, r);
  }

  lemma MulMods(x: nat, y: nat)
    ensures ((x % P) * (y % P)) % P == (x * y) % P
  {
    var a, b, c, d := x / P, x % P, y / P, y % P;
    assert x == P * a + b && y == P * c + d;
    var k := a * y + b * c;
    Expand(a, b, c, d, x, y);
    ModShift(x * y, k);
  }

  lemma Expand(a: int, b: int, c: int, d: int, x: int, y: int)
    requires x == P * a + b && y == P * c + d
    ensures x * y - P * (a * y + b * c) == b * d
  {
    assert x * y == (P * a) * y + b * y;
    assert b * y == b * (P * c) + b * d;
    assert (P * a) * y == P * (a * y) && b * (P * c) == P * (b * c);
    assert P * (a * y + b * c) == P * (a * y) + P * (b * c);
  }

  lemma MulLeft(x: nat, y: nat)
    ensures ((x % P) * y) % P == (x * y) % P
  {
    MulMods(x % P, y);
    MulMods(x, y);
    assert (x % P) % P == x % P;
  }

  lemma SameMods(x: nat, y: nat, x': nat, y': nat)
    requires x' % P == x % P && y' % P == y % P
    ensures (x' * y') % P == (x * y) % P
  {
    MulMods(x, y);
    MulMods(x', y');
  }

  lemma {:induction false} PowMods(a: nat, b: nat)
    ensures Pow(a % P, b) % P == Pow(a, b) % P
  {
    if b > 0 {
      PowMods(a, b - 1);
      SameMods(a, Pow(a, b - 1), a % P, Pow(a % P, b - 1));
    }
  }

  lemma Assoc(x: nat, y: nat, z: nat)
    ensures x * (y * z) == (x * y) * z
  {
  }

  lemma {:induction false} PowAdd(a: nat, b: nat, c: nat)
    ensures Pow(a, b + c) == Pow(a, b) * Pow(a, c)
  {
    if b > 0 {
      PowAdd(a, b - 1, c);
      Assoc(a, Pow(a, b - 1), Pow(a, c));
    }
  }

  lemma {:induction false} PowMul(a: nat, b: nat, c: nat)
    ensures Pow(Pow(a, b), c) == Pow(a, b * c)
  {
    if c > 0 {
      PowMul(a, b, c - 1);
      PowAdd(a, b, b * (c - 1));
      assert b + b * (c - 1) == b * c;
    } else {
      assert b * 0 == 0;
    }
  }

  // ----- the code -----------------------------------------------------------------------------------------

  /** One round of `mul_mod_p` on values: the doubled factor, reduced, and the sum so far. */
  lemma Round(a: nat, b: nat, m: nat, a': nat, m': nat)
    requires a' == 2 * a - (if 2 * a >= P then P else 0)
    requires m' == m + (if b % 2 == 1 then a else 0) - (if b % 2 == 1 && m + a >= P then P else 0)
    ensures (m' + a' * (b / 2)) % P == (m + a * b) % P
  {
    var h := b / 2;
    var c, d := if 2 * a >= P then 1 else 0, if b % 2 == 1 && m + a >= P then 1 else 0;
    assert b == 2 * h + b % 2;
    assert a * b == 2 * a * h + a * (b % 2);
    assert a * (b % 2) == if b % 2 == 1 then a else 0;
    assert a' * h == 2 * a * h - P * (c * h) by {
      assert a' == 2 * a - P * c;
      assert (2 * a - P * c) * h == 2 * a * h - P * c * h;
      assert P * c * h == P * (c * h);
    }
    assert m' + a' * h == (m + a * b) - P * (d + c * h) by {
      assert P * (d + c * h) == P * d + P * (c * h);
    }
    ModShift(m + a * b, d + c * h);
  }

  lemma Wraps(a: nat, m: nat)
    requires a <= P && m < P
    ensures a >= P - a ==> (a * 2 % TWO64 - P) % TWO64 == 2 * a - P
    ensures a < P - a ==> a * 2 % TWO64 == 2 * a
    ensures m < P - a ==> (m + a) % TWO64 == m + a
  {
    if a >= P - a {
      if 2 * a < TWO64 { assert a * 2 % TWO64 == 2 * a; } else { assert a * 2 % TWO64 == 2 * a - TWO64; }
    }
  }

  /** `mul_mod_p`. All values are 64 bits wide; only `a * 2 - P` wraps around on the way. */
  method MulModP(a0: nat, b0: nat) returns (m: nat)
    requires a0 <= P && b0 < TWO64
    ensures m < P && m == (a0 * b0) % P
  {
    m := 0;
    var a: nat, b := a0, b0;
    while b > 0
      invariant a <= P && m < P && (m + a * b) % P == (a0 * b0) % P
      decreases b
    {
      ghost var a1, m1 := a, m;
      Wraps(a, m);
      if b % 2 == 1 {
        var t := P - a;
        if m >= t {
          m := m - t;
        } else {
          m := (m + a) % TWO64;
        }
      }
      if a >= P - a {
        a := (a * 2 % TWO64 - P) % TWO64;
      } else {
        a := a * 2 % TWO64;
      }
      Round(a1, b, m1, a, m);
      b := b / 2;
    }
    assert m + a * 0 == m;
  }

  /** `pow_mod_p`. An exponent of 0 would recurse for ever. */
  method PowModP(a: nat, b: nat) returns (r: nat)
    requires a <= P && 1 <= b < TWO64
    ensures b == 1 ==> r == a
    ensures b > 1 ==> r == Pow(a, b) % P
    ensures r <= P
    decreases b
  {
    if b == 1 {
      return a;
    }
    var h := b / 2;
    var t := PowModP(a, h);
    ghost var t1 := t;
    t := MulModP(t, t);
    ghost var sq := t;
    Squared(a, h, t1, sq);
    if b % 2 == 1 {
      t := MulModP(t, a);
      OneMore(a, h, sq);
    }
    return t;
  }

  lemma PowOne(a: nat)
    ensures Pow(a, 1) == a
  {
    assert Pow(a, 0) == 1;
    assert Pow(a, 1) == a * Pow(a, 0);
  }

  lemma Squared(a: nat, h: nat, t: nat, sq: nat)
    requires (h == 1 && t == a) || t == Pow(a, h) % P
    requires sq == (t * t) % P
    ensures sq == Pow(a, 2 * h) % P
  {
    PowAdd(a, h, h);
    MulMods(Pow(a, h), Pow(a, h));
    if h == 1 { PowOne(a); }
  }

  lemma OneMore(a: nat, h: nat, sq: nat)
    requires sq == Pow(a, 2 * h) % P
    ensures (sq * a) % P == Pow(a, 2 * h + 1) % P
  {
    MulLeft(Pow(a, 2 * h), a);
    assert Pow(a, 2 * h + 1) == a * Pow(a, 2 * h);
  }

  /** `powmodp`: correct for every base and exponent, except that the base P itself is not reduced when
      the exponent is 1. */
  method PowModExact(a: nat, b: nat) returns (r: nat)
    requires a < TWO64 && 1 <= b < TWO64
    ensures r == Pow(a, b) % P <==> !(a == P && b == 1)
    ensures a == P && b == 1 ==> r == P
  {
    var x := a;
    if x > P {
      x := x % P;
    }
    r := PowModP(x, b);
    PowMods(a, b);
    PowOne(x);
    if x == P { PowMods(P, b); }
  }

  /** Both sides of the exchange get the same secret, which is neither sent nor depends on who was first. */
  method Exchange(x: nat, y: nat) returns (secretA: nat, secretB: nat)
    requires 1 <= x < TWO64 && 1 <= y < TWO64
    ensures secretA == secretB == Pow(5, x * y) % 18446744073709551557
  {
    var sentA := PowModExact(G, x);
    var sentB := PowModExact(G, y);
    secretA := PowModExact(sentB, x);
    secretB := PowModExact(sentA, y);
    Agreed(x, y);
  }

  lemma Agreed(x: nat, y: nat)
    ensures Pow(Pow(G, y) % P, x) % P == Pow(G, x * y) % P
    ensures Pow(Pow(G, x) % P, y) % P == Pow(G, x * y) % P
  {
    PowMods(Pow(G, y), x);
    PowMods(Pow(G, x), y);
    PowMul(G, y, x);
    PowMul(G, x, y);
    assert y * x == x * y;
  }
}
