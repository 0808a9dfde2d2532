/** DES on one block by the tables of FIPS 46-3, and why the source computes the same. */
module DesStandard {
  import opened BlockCipher
  import opened DesRounds

  /** Bit `n` from the right. */
  function Bit(v: bv32, n: bv32): bv32 { (v >> (n & 31)) & 1 }

  function Octet(b0: bv32, b1: bv32, b2: bv32, b3: bv32, b4: bv32, b5: bv32, b6: bv32, b7: bv32): bv32 {
    (b0 << 7) | (b1 << 6) | (b2 << 5) | (b3 << 4) | (b4 << 3) | (b5 << 2) | (b6 << 1) | b7
  }

  /** Bit `n` of every byte of the block, last byte first. */
  function Column(b: seq<byte>, n: bv32): bv32
    requires |b| == 8
  {
    Octet(Bit(b[7], n), Bit(b[6], n), Bit(b[5], n), Bit(b[4], n), Bit(b[3], n), Bit(b[2], n), Bit(b[1], n), Bit(b[0], n))
  }

  /** The table IP: bits 58, 50, ..., 2, 60, ..., 64, ... of the block make up one half, bits 57, 49, ... the other. */
  function Initial(b: seq<byte>): Halves
    requires |b| == 8
  {
    Pair((Column(b, 6) << 24) | (Column(b, 4) << 16) | (Column(b, 2) << 8) | Column(b, 0),
         (Column(b, 7) << 24) | (Column(b, 5) << 16) | (Column(b, 3) << 8) | Column(b, 1))
  }

  /** One row of the inverse table: 40, 8, 48, 16, 56, 24, 64, 32, each less `r`. */
  function Woven(p: Halves, r: bv32): (o: byte) {
    Octet(Bit(p.y, 24 + r), Bit(p.x, 24 + r), Bit(p.y, 16 + r), Bit(p.x, 16 + r), Bit(p.y, 8 + r), Bit(p.x, 8 + r), Bit(p.y, r), Bit(p.x, r))
  }

  function Final(p: Halves): seq<byte> {
    [Woven(p, 0), Woven(p, 1), Woven(p, 2), Woven(p, 3), Woven(p, 4), Woven(p, 5), Woven(p, 6), Woven(p, 7)]
  }

  /** The table E: for box `j` the four bits of its own and a neighbour on both sides, around the ends of the half. */
  function Expanded(h: bv32, j: bv32): bv32 {
    var n := 32 - 4 * j;
    (Bit(h, n + 4) << 5) | (Bit(h, n + 3) << 4) | (Bit(h, n + 2) << 3) | (Bit(h, n + 1) << 2) | (Bit(h, n) << 1) | Bit(h, n - 1)
  }

  /** The key bits of box `j`: those of the even boxes are in the first word of a round, six in each byte. */
  function KeyBits(k0: bv32, k1: bv32, j: bv32): bv32 {
    if j & 1 == 0 then (k0 >> ((32 - 4 * j) & 31)) & 0x3F else (k1 >> ((28 - 4 * j) & 31)) & 0x3F
  }

  /** What the boxes choose, for a half and a round key. */
  function Chosen(sb: Boxes, k0: bv32, k1: bv32, h: bv32): bv32 {
    Xor(Xor4(sb(8, Expanded(h, 8) ^ KeyBits(k0, k1, 8)), sb(6, Expanded(h, 6) ^ KeyBits(k0, k1, 6)),
             sb(4, Expanded(h, 4) ^ KeyBits(k0, k1, 4)), sb(2, Expanded(h, 2) ^ KeyBits(k0, k1, 2))),
        Xor4(sb(7, Expanded(h, 7) ^ KeyBits(k0, k1, 7)), sb(5, Expanded(h, 5) ^ KeyBits(k0, k1, 5)),
             sb(3, Expanded(h, 3) ^ KeyBits(k0, k1, 3)), sb(1, Expanded(h, 1) ^ KeyBits(k0, k1, 1))))
  }

  /** The boxes hold words that are rotated by one bit. */
  function StandardMixer(sb: Boxes, sk: seq<bv32>): (int, bv32) -> bv32
    requires |sk| == 32
  {
    (i: int, h: bv32) => if 0 <= i < 16 then Right(Chosen(sb, sk[2 * i], sk[2 * i + 1], h)) else h
  }

  /** A block encrypted by the tables of FIPS 46-3. */
  function Standard(sb: Boxes, sk: seq<bv32>, b: seq<byte>): seq<byte>
    requires |sk| == 32 && |b| == 8
  {
    Final(Crossed(Rounds(StandardMixer(sb, sk), Xor, Initial(b), 0, 16)))
  }

  lemma InitialIs(b: seq<byte>)
    requires |b| == 8
    ensures var h := Initial(b); IP(Pair(GetWord(b, 0), GetWord(b, 4))) == Pair(Left(h.x), Left(h.y))
  {
  }

  lemma FirstBytes(p: Halves)
    ensures var x := FP(Pair(Left(p.x), Left(p.y))).x;
            && (x >> 24) & 0xFF == Woven(p, 0) && (x >> 16) & 0xFF == Woven(p, 1)
            && (x >> 8) & 0xFF == Woven(p, 2) && x & 0xFF == Woven(p, 3)
  {
  }

  lemma LastBytes(p: Halves)
    ensures var y := FP(Pair(Left(p.x), Left(p.y))).y;
            && (y >> 24) & 0xFF == Woven(p, 4) && (y >> 16) & 0xFF == Woven(p, 5)
            && (y >> 8) & 0xFF == Woven(p, 6) && y & 0xFF == Woven(p, 7)
  {
  }

  lemma FinalIs(p: Halves)
    ensures var q := FP(Pair(Left(p.x), Left(p.y))); PutWord(q.x) + PutWord(q.y) == Final(p)
  {
    hide FP, Left, Woven;
    FirstBytes(p);
    LastBytes(p);
  }

  lemma EvenBoxes(k0: bv32, k1: bv32, h: bv32)
    ensures var t := k0 ^ Left(h);
            && t & 0x3F == Expanded(h, 8) ^ KeyBits(k0, k1, 8) && (t >> 8) & 0x3F == Expanded(h, 6) ^ KeyBits(k0, k1, 6)
            && (t >> 16) & 0x3F == Expanded(h, 4) ^ KeyBits(k0, k1, 4) && (t >> 24) & 0x3F == Expanded(h, 2) ^ KeyBits(k0, k1, 2)
  {
  }

  lemma OddBoxes(k0: bv32, k1: bv32, h: bv32)
    ensures var x := Left(h); var u := k1 ^ ((x << 28) | (x >> 4));
            && u & 0x3F == Expanded(h, 7) ^ KeyBits(k0, k1, 7) && (u >> 8) & 0x3F == Expanded(h, 5) ^ KeyBits(k0, k1, 5)
            && (u >> 16) & 0x3F == Expanded(h, 3) ^ KeyBits(k0, k1, 3) && (u >> 24) & 0x3F == Expanded(h, 1) ^ KeyBits(k0, k1, 1)
  {
  }
}
