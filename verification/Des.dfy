/** lua-crypt.cc: DES encryption of texts of any length. */
module Des {
  import opened BlockCipher
  import opened DesRounds
  import opened DesStandard

  /** What decoding comes to: a text, an error, or a padding scan that leaves the buffer. */
  datatype Decoded = Text(text: seq<byte>) | Invalid | Outside

  // ----- one block -----------------------------------------------------------------------------------------

  lemma EvenIs(sb: Boxes, k0: bv32, k1: bv32, h: bv32)
    ensures var t := k0 ^ Left(h);
            Xor4(sb(8, t & 0x3F), sb(6, (t >> 8) & 0x3F), sb(4, (t >> 16) & 0x3F), sb(2, (t >> 24) & 0x3F)) ==
            Xor4(sb(8, Expanded(h, 8) ^ KeyBits(k0, k1, 8)), sb(6, Expanded(h, 6) ^ KeyBits(k0, k1, 6)),
                 sb(4, Expanded(h, 4) ^ KeyBits(k0, k1, 4)), sb(2, Expanded(h, 2) ^ KeyBits(k0, k1, 2)))
  {
    hide Left, Expanded, KeyBits, Xor, Xor4;
    EvenBoxes(k0, k1, h);
  }

  lemma OddIs(sb: Boxes, k0: bv32, k1: bv32, h: bv32)
    ensures var x := Left(h); var u := k1 ^ ((x << 28) | (x >> 4));
            Xor4(sb(7, u & 0x3F), sb(5, (u >> 8) & 0x3F), sb(3, (u >> 16) & 0x3F), sb(1, (u >> 24) & 0x3F)) ==
            Xor4(sb(7, Expanded(h, 7) ^ KeyBits(k0, k1, 7)), sb(5, Expanded(h, 5) ^ KeyBits(k0, k1, 5)),
                 sb(3, Expanded(h, 3) ^ KeyBits(k0, k1, 3)), sb(1, Expanded(h, 1) ^ KeyBits(k0, k1, 1)))
  {
    hide Left, Expanded, KeyBits, Xor, Xor4;
    OddBoxes(k0, k1, h);
  }

  /** The round of the source works on halves rotated by one bit. */
  lemma MixedIs(sb: Boxes, k0: bv32, k1: bv32, h: bv32)
    ensures Mixed(sb, k0, k1, Left(h)) == Chosen(sb, k0, k1, h)
  {
    hide Left, Expanded, KeyBits, Xor, Xor4;
    EvenIs(sb, k0, k1, h);
    OddIs(sb, k0, k1, h);
  }

  lemma LeftXor(a: bv32, b: bv32)
    ensures Xor(Left(a), Left(b)) == Left(Xor(a, b))
  {
  }

  lemma MixerSeen(sb: Boxes, sk: seq<bv32>, i: int, h: bv32)
    requires |sk| == 32 && 0 <= i < 16
    ensures Mixer(sb, sk)(i, Left(h)) == Left(StandardMixer(sb, sk)(i, h))
  {
    hide Mixed, Chosen, Left, Right;
    MixedIs(sb, sk[2 * i], sk[2 * i + 1], h);
    RotatesUndo(Chosen(sb, sk[2 * i], sk[2 * i + 1], h));
  }

  /** The swaps and rotations of the source are the tables of the standard. */
  lemma CryptIsStandard(sb: Boxes, sk: seq<bv32>, b: seq<byte>)
    requires |sk| == 32 && |b| == 8
    ensures CryptBlock(sb, sk, b) == Standard(sb, sk, b)
  {
    hide IP, FP, GetWord, PutWord, Mixer, StandardMixer, Rounds, Initial, Final, Xor, Left;
    forall i: int, h | 0 <= i < 16 ensures Mixer(sb, sk)(i, Left(h)) == Left(StandardMixer(sb, sk)(i, h)) { MixerSeen(sb, sk, i, h); }
    forall x, y ensures Xor(Left(x), Left(y)) == Left(Xor(x, y)) { LeftXor(x, y); }
    InitialIs(b);
    RoundsSeen(Mixer(sb, sk), StandardMixer(sb, sk), Xor, Left, Initial(b), 0, 16);
    FinalIs(Crossed(Rounds(StandardMixer(sb, sk), Xor, Initial(b), 0, 16)));
  }

  /** `des_crypt`, with its working variables. */
  method DesCrypt(sb: Boxes, sk: seq<bv32>, input: seq<byte>) returns (output: seq<byte>)
    requires |sk| == 32 && |input| == 8
    ensures output == CryptBlock(sb, sk, input) && output == Standard(sb, sk, input)
  {
    hide Standard, Mixed, Mixer, GetWord, PutWord, IP, FP, Xor, Rounds;
    var x, y := GetWord(input, 0), GetWord(input, 4);
    var p := IP(Pair(x, y));
    x, y := p.x, p.y;
    ghost var f := Mixer(sb, sk);
    var i := 0;
    while i < 16
      invariant 0 <= i <= 16 && i % 2 == 0
      invariant Rounds(f, Xor, Pair(x, y), i, 16) == Rounds(f, Xor, p, 0, 16)
    {
      // DES_ROUND(Y, X); DES_ROUND(X, Y);
      ghost var x1, y1 := x, y;
      x := x ^ Mixed(sb, sk[2 * i], sk[2 * i + 1], y);
      y := y ^ Mixed(sb, sk[2 * i + 2], sk[2 * i + 3], x);
      TwoRounds(sb, sk, x1, y1, x, y, i);
      i := i + 2;
    }
    NoRounds(f, Pair(x, y));
    var q := FP(Pair(y, x));
    output := PutWord(q.x) + PutWord(q.y);
    CryptIsStandard(sb, sk, input);
  }

  lemma NoRounds(f: (int, bv32) -> bv32, p: Halves)
    ensures Rounds(f, Xor, p, 16, 16) == p
  {
  }

  lemma TwoRounds(sb: Boxes, sk: seq<bv32>, x: bv32, y: bv32, x': bv32, y': bv32, i: int)
    requires |sk| == 32 && 0 <= i < 15
    requires x' == x ^ Mixed(sb, sk[2 * i], sk[2 * i + 1], y) && y' == y ^ Mixed(sb, sk[2 * i + 2], sk[2 * i + 3], x')
    ensures Rounds(Mixer(sb, sk), Xor, Pair(x, y), i, 16) == Rounds(Mixer(sb, sk), Xor, Pair(x', y'), i + 2, 16)
  {
    hide Mixed, Mixer, Xor, Rounds;
    MixerIs(sb, sk, i, y, x, x');
    MixerIs(sb, sk, i + 1, x', y, y');
    RoundsStep(Mixer(sb, sk), Xor, Pair(x, y), i, 16);
    RoundsStep(Mixer(sb, sk), Xor, Pair(y, x'), i + 1, 16);
  }

  lemma MixerAt(sb: Boxes, sk: seq<bv32>, i: int, y: bv32)
    requires |sk| == 32 && 0 <= i < 16
    ensures Mixer(sb, sk)(i, y) == Mixed(sb, sk[2 * i], sk[2 * i + 1], y)
  {
    hide Mixed;
  }

  lemma MixerIs(sb: Boxes, sk: seq<bv32>, i: int, y: bv32, x: bv32, x': bv32)
    requires |sk| == 32 && 0 <= i < 16 && x' == x ^ Mixed(sb, sk[2 * i], sk[2 * i + 1], y)
    ensures Xor(x, Mixer(sb, sk)(i, y)) == x'
  {
    hide Mixed, Mixer;
    MixerAt(sb, sk, i, y);
  }

  // ----- texts -----------------------------------------------------------------------------------------------

  const MARK: byte := 0x80
  const ZERO: byte := 0

  function Crypt(sb: Boxes, sk: seq<bv32>): seq<byte> -> seq<byte>
    requires |sk| == 32
  {
    (b: seq<byte>) => if |b| == 8 then CryptBlock(sb, sk, b) else []
  }

  /** Each block encrypted on its own, of the text followed by 0x80 and zeros up to a whole block. */
  ghost predicate Encoded(sb: Boxes, sk: seq<bv32>, text: seq<byte>, out: seq<byte>)
    requires |sk| == 32
  {
    var whole := text + [0x80] + seq(7 - |text| % 8, _ => 0);
    |out| == |whole| && forall i :: 0 <= i < |out| && i % 8 == 0 ==> out[i..i + 8] == Standard(sb, sk, whole[i..i + 8])
  }

  lemma EncodedIs(sb: Boxes, sk: seq<bv32>, text: seq<byte>)
    requires |sk| == 32
    ensures Encoded(sb, sk, text, Blocks(Crypt(sb, sk), Padded(text, MARK, ZERO)))
  {
    hide Standard, CryptBlock, Blocks;
    var f, whole: seq<byte> := Crypt(sb, sk), text + [0x80] + seq(7 - |text| % 8, _ => 0);
    assert Padded(text, MARK, ZERO) == whole;
    forall b: seq<byte> | |b| == 8 ensures |f(b)| == 8 && f(b) == Standard(sb, sk, b) { CryptIsStandard(sb, sk, b); }
    BlocksSize(f, whole);
    forall i | 0 <= i < |whole| && i % 8 == 0 ensures i + 8 <= |whole| && Blocks(f, whole)[i..i + 8] == Standard(sb, sk, whole[i..i + 8]) {
      BlockAt(f, whole, i);
    }
  }

  /** `ldesencode`. */
  method DesEncode(sb: Boxes, sk: seq<bv32>, text: seq<byte>) returns (out: seq<byte>)
    requires |sk| == 32
    ensures out == Blocks(Crypt(sb, sk), Padded(text, MARK, ZERO)) && Encoded(sb, sk, text, out)
  {
    hide Encoded, Standard, CryptBlock, Blocks, Padded;
    out := [];
    var i := 0;
    NoBlocks(sb, sk);
    while i + 8 <= |text|
      invariant i % 8 == 0 && i <= |text| && out == Blocks(Crypt(sb, sk), text[..i])
      decreases |text| - i
    {
      var c := DesCrypt(sb, sk, text[i..i + 8]);
      BlocksMore(Crypt(sb, sk), text[..i], text[i..i + 8]);
      assert text[..i + 8] == text[..i] + text[i..i + 8];
      out := out + c;
      i := i + 8;
    }
    var tail := Tail(text, i);
    BlocksMore(Crypt(sb, sk), text[..i], tail);
    var c := DesCrypt(sb, sk, tail);
    out := out + c;
    EncodedIs(sb, sk, text);
  }

  /** The last block: what is left of the text, the mark, zeros. */
  method Tail(text: seq<byte>, i: nat) returns (tail: seq<byte>)
    requires i <= |text| < i + 8 && i % 8 == 0
    ensures |tail| == 8 && text[..i] + tail == Padded(text, MARK, ZERO)
  {
    var bytes := |text| - i;
    tail := [];
    var j := 0;
    while j < 8
      invariant 0 <= j <= 8 && |tail| == j
      invariant forall x :: 0 <= x < j ==> tail[x] == TailItem(text[i..], MARK, ZERO, x)
    {
      if j < bytes {
        tail := tail + [text[i + j]];
      } else if j == bytes {
        tail := tail + [MARK];
      } else {
        tail := tail + [ZERO];
      }
      j := j + 1;
    }
    TailIs(text, MARK, ZERO, i, tail);
  }

  lemma NoBlocks(sb: Boxes, sk: seq<bv32>)
    requires |sk| == 32
    ensures Blocks(Crypt(sb, sk), []) == []
  {
  }

  /** The one block whose decoding reads outside its buffer: the code of eight zeros. */
  function Zeros(): seq<byte> { seq(8, _ => ZERO) }

  /** `ldesdecode`. Every text that was encoded comes back, and no other; the scan for the padding stays inside the buffer
      unless the input is one block, the code of eight zeros. */
  method DesDecode(sb: Boxes, esk: seq<bv32>, text: seq<byte>) returns (r: Decoded)
    requires |esk| == 32
    ensures forall t: seq<byte> :: r == Text(t) <==> Blocks(Crypt(sb, esk), Padded(t, MARK, ZERO)) == text
    ensures r.Outside? <==> text == Crypt(sb, esk)(Zeros())
  {
    hide CryptBlock, Blocks, Padded, Reversed, Crypt;
    forall t: seq<byte> | Blocks(Crypt(sb, esk), Padded(t, MARK, ZERO)) == text
      ensures |text| % 8 == 0 && |text| >= 8 && Blocks(Crypt(sb, Reversed(esk)), text) == Padded(t, MARK, ZERO)
    {
      PaddedSize(t, MARK, ZERO);
      CodesUndo(sb, esk, Padded(t, MARK, ZERO));
    }
    CodesUndo(sb, esk, Zeros());
    BlocksOne(Crypt(sb, esk), Zeros());
    if |text| % 8 != 0 || |text| == 0 {
      return Invalid;
    }
    CodesUndo(sb, esk, text);
    var buffer := CryptAll(sb, Reversed(esk), text);
    r := StripPadding(buffer);
  }

  lemma ReversedTwice(sk: seq<bv32>)
    requires |sk| == 32
    ensures Reversed(Reversed(sk)) == sk
  {
  }

  /** Texts of whole blocks: each direction undoes the other. */
  lemma CodesUndo(sb: Boxes, sk: seq<bv32>, t: seq<byte>)
    requires |sk| == 32 && |t| % 8 == 0
    ensures var f, g := Crypt(sb, sk), Crypt(sb, Reversed(sk));
            && |Blocks(f, t)| == |t| && Blocks(g, Blocks(f, t)) == t && Blocks(f, Blocks(g, t)) == t
  {
    hide CryptBlock, Blocks, Reversed;
    var f, g := Crypt(sb, sk), Crypt(sb, Reversed(sk));
    forall b: seq<byte> | |b| == 8 ensures |f(b)| == 8 && |g(b)| == 8 && g(f(b)) == b && f(g(b)) == b {
      CryptUndo(sb, sk, b);
      CryptUndo(sb, Reversed(sk), b);
      ReversedTwice(sk);
    }
    BlocksSize(f, t);
    BlocksUndo(f, g, t);
    BlocksUndo(g, f, t);
  }

  method CryptAll(sb: Boxes, sk: seq<bv32>, text: seq<byte>) returns (buffer: seq<byte>)
    requires |sk| == 32 && |text| % 8 == 0
    ensures buffer == Blocks(Crypt(sb, sk), text) && |buffer| == |text|
  {
    hide Standard, CryptBlock, Blocks;
    buffer := [];
    var i := 0;
    NoBlocks(sb, sk);
    while i < |text|
      invariant 0 <= i <= |text| && i % 8 == 0 && |buffer| == i && buffer == Blocks(Crypt(sb, sk), text[..i])
    {
      var c := DesCrypt(sb, sk, text[i..i + 8]);
      BlocksMore(Crypt(sb, sk), text[..i], text[i..i + 8]);
      assert text[..i + 8] == text[..i] + text[i..i + 8];
      buffer := buffer + c;
      i := i + 8;
    }
    assert text[..i] == text;
  }

  /** `i >= textsz - 8` in unsigned arithmetic: a negative `i` counts as huge. */
  predicate Scanning(i: int, size: nat)
    requires size >= 8
  {
    i < 0 || i >= size - 8
  }

  /** The scan over the last block: zeros, then the mark. In a buffer of one block it can run past the front. */
  method StripPadding(buffer: seq<byte>) returns (r: Decoded)
    requires |buffer| >= 8 && |buffer| % 8 == 0
    ensures r.Text? ==> Padded(r.text, MARK, ZERO) == buffer
    ensures forall t: seq<byte> :: Padded(t, MARK, ZERO) == buffer ==> r == Text(t)
    ensures r.Outside? <==> buffer == Zeros()
  {
    hide Padded;
    var padding, i := 1, |buffer| - 1;
    while Scanning(i, |buffer|)
      invariant |buffer| - 9 <= i < |buffer| && padding == |buffer| - i
      invariant forall x :: i < x < |buffer| ==> buffer[x] == ZERO
      decreases i + 1
    {
      if i < 0 {
        assert buffer == Zeros();
        forall t: seq<byte> ensures Padded(t, MARK, ZERO) != buffer { PaddedEnd(t, MARK, ZERO, |t|); }
        return Outside;
      } else if buffer[i] == ZERO {
        padding := padding + 1;
      } else if buffer[i] == MARK {
        break;
      } else {
        forall t: seq<byte> ensures Padded(t, MARK, ZERO) != buffer { PaddedEnd(t, MARK, ZERO, i); }
        return Invalid;
      }
      i := i - 1;
    }
    if padding > 8 {
      forall t: seq<byte> ensures Padded(t, MARK, ZERO) != buffer { PaddedEnd(t, MARK, ZERO, |t|); }
      return Invalid;
    }
    r := Text(buffer[..|buffer| - padding]);
    forall t: seq<byte> | Padded(t, MARK, ZERO) == buffer ensures r == Text(t) { PaddedEnd(t, MARK, ZERO, i); }
    PaddedFrom(buffer, i);
  }

  lemma PaddedFrom(buffer: seq<byte>, i: nat)
    requires |buffer| % 8 == 0 && |buffer| - 8 <= i < |buffer| && buffer[i] == MARK && forall x :: i < x < |buffer| ==> buffer[x] == ZERO
    ensures Padded(buffer[..i], MARK, ZERO) == buffer
  {
    assert i % 8 == i - (|buffer| - 8);
  }

  /** Decoding undoes encoding, for every text, key schedule and choice of boxes. */
  method EncodeDecode(sb: Boxes, sk: seq<bv32>, text: seq<byte>) returns (r: Decoded)
    requires |sk| == 32
    ensures r == Text(text)
  {
    var c := DesEncode(sb, sk, text);
    r := DesDecode(sb, sk, c);
  }
}
