/** lua-crypt.cc: DES on one block, as the source computes it: permutations by swaps, rounds on rotated halves. */
module DesRounds {
  import opened BlockCipher

  /** A byte, kept in a 32-bit word. */
  type byte = x: bv32 | x < 256

  type Halves = Pair<bv32>

  /** The substitution boxes SB1 to SB8. Decryption does not depend on what is in them. */
  type Boxes = (int, bv32) -> bv32

  // ----- permutations ---------------------------------------------------------------------------------

  /** T = ((X >> n) ^ Y) & mask; Y ^= T; X ^= T << n */
  function Swap4(p: Halves): Halves { var t := ((p.x >> 4) ^ p.y) & 0x0F0F0F0F; Pair(p.x ^ (t << 4), p.y ^ t) }

  function Swap16(p: Halves): Halves { var t := ((p.x >> 16) ^ p.y) & 0x0000FFFF; Pair(p.x ^ (t << 16), p.y ^ t) }

  function Swap2(p: Halves): Halves { var t := ((p.y >> 2) ^ p.x) & 0x33333333; Pair(p.x ^ t, p.y ^ (t << 2)) }

  function Swap8(p: Halves): Halves { var t := ((p.y >> 8) ^ p.x) & 0x00FF00FF; Pair(p.x ^ t, p.y ^ (t << 8)) }

  function Swap1(p: Halves): Halves { var t := (p.x ^ p.y) & 0xAAAAAAAA; Pair(p.x ^ t, p.y ^ t) }

  function Left(v: bv32): bv32 { (v << 1) | (v >> 31) }

  function Right(v: bv32): bv32 { (v << 31) | (v >> 1) }

  /** DES_IP */
  function IP(p: Halves): Halves {
    var a := Swap8(Swap2(Swap16(Swap4(p))));
    var b := Swap1(Pair(a.x, Left(a.y)));
    Pair(Left(b.x), b.y)
  }

  /** DES_FP */
  function FP(p: Halves): Halves {
    var b := Swap1(Pair(Right(p.x), p.y));
    var a := Pair(b.x, Right(b.y));
    Swap4(Swap16(Swap2(Swap8(a))))
  }

  lemma Bits4(x: bv32, y: bv32)
    ensures var t := ((x >> 4) ^ y) & 0x0F0F0F0F;
            (((x ^ (t << 4)) >> 4) ^ (y ^ t)) & 0x0F0F0F0F == t && (x ^ (t << 4)) ^ (t << 4) == x && (y ^ t) ^ t == y
  {
  }

  lemma Swap4Undo(p: Halves)
    ensures Swap4(Swap4(p)) == p
  {
    Bits4(p.x, p.y);
  }

  lemma Bits16(x: bv32, y: bv32)
    ensures var t := ((x >> 16) ^ y) & 0x0000FFFF;
            (((x ^ (t << 16)) >> 16) ^ (y ^ t)) & 0x0000FFFF == t && (x ^ (t << 16)) ^ (t << 16) == x && (y ^ t) ^ t == y
  {
  }

  lemma Swap16Undo(p: Halves)
    ensures Swap16(Swap16(p)) == p
  {
    Bits16(p.x, p.y);
  }

  lemma Bits2(x: bv32, y: bv32)
    ensures var t := ((x >> 2) ^ y) & 0x33333333;
            (((x ^ (t << 2)) >> 2) ^ (y ^ t)) & 0x33333333 == t && (x ^ (t << 2)) ^ (t << 2) == x && (y ^ t) ^ t == y
  {
  }

  lemma Swap2Undo(p: Halves)
    ensures Swap2(Swap2(p)) == p
  {
    Bits2(p.y, p.x);
  }

  lemma Bits8(x: bv32, y: bv32)
    ensures var t := ((x >> 8) ^ y) & 0x00FF00FF;
            (((x ^ (t << 8)) >> 8) ^ (y ^ t)) & 0x00FF00FF == t && (x ^ (t << 8)) ^ (t << 8) == x && (y ^ t) ^ t == y
  {
  }

  lemma Swap8Undo(p: Halves)
    ensures Swap8(Swap8(p)) == p
  {
    Bits8(p.y, p.x);
  }

  lemma Bits1(x: bv32, y: bv32)
    ensures var t := (x ^ y) & 0xAAAAAAAA;
            ((x ^ t) ^ (y ^ t)) & 0xAAAAAAAA == t && (x ^ t) ^ t == x && (y ^ t) ^ t == y
  {
  }

  lemma Swap1Undo(p: Halves)
    ensures Swap1(Swap1(p)) == p
  {
    Bits1(p.x, p.y);
  }

  lemma SwapsUndo(p: Halves)
    ensures Swap1(Swap1(p)) == p && Swap2(Swap2(p)) == p && Swap4(Swap4(p)) == p && Swap8(Swap8(p)) == p && Swap16(Swap16(p)) == p
  {
    hide *;
    Swap1Undo(p); Swap2Undo(p); Swap4Undo(p); Swap8Undo(p); Swap16Undo(p);
  }

  lemma RotatesUndo(v: bv32)
    ensures Right(Left(v)) == v && Left(Right(v)) == v
  {
  }

  /** The two permutations undo each other. */
  lemma PermutationsUndo(p: Halves)
    ensures FP(IP(p)) == p && IP(FP(p)) == p
  {
    hide Swap1, Swap2, Swap4, Swap8, Swap16, Left, Right;
    var a := Swap8(Swap2(Swap16(Swap4(p))));
    var c := Pair(a.x, Left(a.y));
    SwapsUndo(p); SwapsUndo(Swap4(p)); SwapsUndo(Swap16(Swap4(p))); SwapsUndo(Swap2(Swap16(Swap4(p))));
    SwapsUndo(c);
    RotatesUndo(a.y); RotatesUndo(Swap1(c).x);
    var b := Swap1(Pair(Right(p.x), p.y));
    var d := Pair(b.x, Right(b.y));
    SwapsUndo(Pair(Right(p.x), p.y));
    RotatesUndo(p.x); RotatesUndo(b.y);
    SwapsUndo(d); SwapsUndo(Swap8(d)); SwapsUndo(Swap2(Swap8(d))); SwapsUndo(Swap16(Swap2(Swap8(d))));
  }

  // ----- rounds -------------------------------------------------------------------------------------------

  function Xor(a: bv32, b: bv32): bv32 { a ^ b }

  function Xor4(a: bv32, b: bv32, c: bv32, d: bv32): bv32 { a ^ b ^ c ^ d }

  /** What DES_ROUND mixes into the other half. */
  function Mixed(sb: Boxes, k0: bv32, k1: bv32, x: bv32): bv32 {
    var t, u := k0 ^ x, k1 ^ ((x << 28) | (x >> 4));
    Xor(Xor4(sb(8, t & 0x3F), sb(6, (t >> 8) & 0x3F), sb(4, (t >> 16) & 0x3F), sb(2, (t >> 24) & 0x3F)),
        Xor4(sb(7, u & 0x3F), sb(5, (u >> 8) & 0x3F), sb(3, (u >> 16) & 0x3F), sb(1, (u >> 24) & 0x3F)))
  }

  lemma XorTwice(a: bv32, m: bv32)
    ensures Xor(Xor(a, m), m) == a
  {
  }

  /** The mixing function of each of the 16 rounds under a key schedule. */
  function Mixer(sb: Boxes, sk: seq<bv32>): (int, bv32) -> bv32
    requires |sk| == 32
  {
    (i: int, x: bv32) => if 0 <= i < 16 then Mixed(sb, sk[2 * i], sk[2 * i + 1], x) else x
  }

  /** The key schedule with its pairs in reverse order. */
  function Reversed(sk: seq<bv32>): (r: seq<bv32>)
    requires |sk| == 32
    ensures |r| == 32
  {
    seq(32, j requires 0 <= j < 32 => if j % 2 == 0 then sk[30 - j] else sk[32 - j])
  }

  lemma ReversedMixer(sb: Boxes, sk: seq<bv32>, j: int, x: bv32)
    requires |sk| == 32 && 0 <= j < 16
    ensures Mixer(sb, Reversed(sk))(j, x) == Mixer(sb, sk)(15 - j, x)
  {
    hide Mixed;
    assert Reversed(sk)[2 * j] == sk[2 * (15 - j)] && Reversed(sk)[2 * j + 1] == sk[2 * (15 - j) + 1];
  }

  function AllRounds(sb: Boxes, sk: seq<bv32>, p: Halves): Halves
    requires |sk| == 32
  {
    Rounds(Mixer(sb, sk), Xor, p, 0, 16)
  }

  lemma AllRoundsUndo(sb: Boxes, sk: seq<bv32>, p: Halves)
    requires |sk| == 32
    ensures AllRounds(sb, Reversed(sk), Crossed(AllRounds(sb, sk, p))) == Crossed(p)
  {
    hide Mixed, Mixer, Reversed, Xor, Rounds;
    var f, g := Mixer(sb, sk), Mixer(sb, Reversed(sk));
    forall a, b ensures Xor(Xor(a, b), b) == a { XorTwice(a, b); }
    forall j: int, x | 0 <= j < 16 ensures g(j, x) == f(16 - 1 - j, x) { ReversedMixer(sb, sk, j, x); }
    RoundsUndo(f, g, Xor, p, 0, 16);
  }

  // ----- blocks ----------------------------------------------------------------------------------------------

  function GetWord(b: seq<byte>, i: nat): bv32
    requires i + 4 <= |b|
  {
    ((b[i] as bv32) << 24) | ((b[i + 1] as bv32) << 16) | ((b[i + 2] as bv32) << 8) | (b[i + 3] as bv32)
  }

  function PutWord(n: bv32): (r: seq<byte>)
    ensures |r| == 4
  {
    [(n >> 24) & 0xFF, (n >> 16) & 0xFF, (n >> 8) & 0xFF, n & 0xFF]
  }

  lemma WordBack(n: bv32, rest: seq<byte>)
    ensures GetWord(PutWord(n) + rest, 0) == n
  {
    var b := PutWord(n) + rest;
    assert b[0] == (n >> 24) & 0xFF && b[1] == (n >> 16) & 0xFF && b[2] == (n >> 8) & 0xFF && b[3] == n & 0xFF;
  }

  lemma HighByte(a: bv32, b: bv32, c: bv32, d: bv32)
    requires a < 256 && b < 256 && c < 256 && d < 256
    ensures (((a << 24) | (b << 16) | (c << 8) | d) >> 24) & 0xFF == a
  {
  }

  lemma SecondByte(a: bv32, b: bv32, c: bv32, d: bv32)
    requires a < 256 && b < 256 && c < 256 && d < 256
    ensures (((a << 24) | (b << 16) | (c << 8) | d) >> 16) & 0xFF == b
  {
  }

  lemma ThirdByte(a: bv32, b: bv32, c: bv32, d: bv32)
    requires a < 256 && b < 256 && c < 256 && d < 256
    ensures (((a << 24) | (b << 16) | (c << 8) | d) >> 8) & 0xFF == c
  {
  }

  lemma LowByte(a: bv32, b: bv32, c: bv32, d: bv32)
    requires a < 256 && b < 256 && c < 256 && d < 256
    ensures ((a << 24) | (b << 16) | (c << 8) | d) & 0xFF == d
  {
  }

  lemma BytesBack(a: byte, b: byte, c: byte, d: byte)
    ensures PutWord(((a as bv32) << 24) | ((b as bv32) << 16) | ((c as bv32) << 8) | (d as bv32)) == [a, b, c, d]
  {
    HighByte(a, b, c, d); SecondByte(a, b, c, d); ThirdByte(a, b, c, d); LowByte(a, b, c, d);
  }

  /** What `des_crypt` computes on words. */
  function CryptPair(sb: Boxes, sk: seq<bv32>, p: Halves): Halves
    requires |sk| == 32
  {
    FP(Crossed(AllRounds(sb, sk, IP(p))))
  }

  function CryptBlock(sb: Boxes, sk: seq<bv32>, b: seq<byte>): (r: seq<byte>)
    requires |sk| == 32 && |b| == 8
    ensures |r| == 8
  {
    var p := CryptPair(sb, sk, Pair(GetWord(b, 0), GetWord(b, 4)));
    PutWord(p.x) + PutWord(p.y)
  }

  lemma CryptPairUndo(sb: Boxes, sk: seq<bv32>, p: Halves)
    requires |sk| == 32
    ensures CryptPair(sb, Reversed(sk), CryptPair(sb, sk, p)) == p
  {
    hide IP, FP, AllRounds, Reversed;
    var q := AllRounds(sb, sk, IP(p));
    PermutationsUndo(Crossed(q));
    AllRoundsUndo(sb, sk, IP(p));
    PermutationsUndo(p);
  }

  /** Any block, any key schedule, any boxes: crypting with the schedule reversed undoes crypting. */
  lemma CryptUndo(sb: Boxes, sk: seq<bv32>, b: seq<byte>)
    requires |sk| == 32 && |b| == 8
    ensures CryptBlock(sb, Reversed(sk), CryptBlock(sb, sk, b)) == b
  {
    hide CryptPair, GetWord, PutWord, Reversed;
    var p := Pair(GetWord(b, 0), GetWord(b, 4));
    var q := CryptPair(sb, sk, p);
    CryptPairUndo(sb, sk, p);
    TwoWords(q.x, q.y);
    BlockBack(b);
  }

  lemma TwoWords(x: bv32, y: bv32)
    ensures var c := PutWord(x) + PutWord(y); |c| == 8 && GetWord(c, 0) == x && GetWord(c, 4) == y
  {
    hide PutWord, GetWord;
    WordBack(x, PutWord(y));
    WordBack(y, []);
    var c := PutWord(x) + PutWord(y);
    assert c[4..] == PutWord(y) + [];
    WordLater(c);
  }

  lemma WordLater(c: seq<byte>)
    requires |c| == 8
    ensures GetWord(c, 4) == GetWord(c[4..], 0)
  {
  }

  lemma BlockBack(b: seq<byte>)
    requires |b| == 8
    ensures PutWord(GetWord(b, 0)) + PutWord(GetWord(b, 4)) == b
  {
    hide PutWord, GetWord;
    WordIs(b, 0);
    WordIs(b, 4);
    assert b == b[0..4] + b[4..8];
  }

  lemma WordIs(b: seq<byte>, i: nat)
    requires i + 4 <= |b|
    ensures PutWord(GetWord(b, i)) == b[i..i + 4]
  {
    hide PutWord;
    BytesBack(b[i], b[i + 1], b[i + 2], b[i + 3]);
    assert b[i..i + 4] == [b[i], b[i + 1], b[i + 2], b[i + 3]];
  }
}
