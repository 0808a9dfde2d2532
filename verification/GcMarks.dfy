/** lgc.h: the colour bits of the field `marked`. */
module GcMarks {
  import opened GcHeap
  import opened GcState
  import opened GcPaint
  import opened GcWalk
  import opened GcSettle
  import opened GcEphemeron

  const WHITE0: bv8 := 1
  const WHITE1: bv8 := 2
  const WHITEBITS: bv8 := 3
  const BLACK: bv8 := 4
  const FINALIZED: bv8 := 8

  // everything but the colours
  const MASKCOLORS: bv8 := !(BLACK | WHITEBITS)

  /** The bits of an object with the given colour. */
  function Marks(c: Colour, finalized: bool): bv8 {
    (match c
     case White(b) => WhiteBit(b)
     case Gray => 0
     case Black => BLACK) | (if finalized then FINALIZED else 0)
  }

  /** `luaC_white` for the two values of the current white. */
  function WhiteBit(b: bool): bv8 { if b then WHITE1 else WHITE0 }

  function OtherWhite(currentwhite: bv8): bv8 { currentwhite ^ WHITEBITS }

  predicate IsDeadM(ow: bv8, m: bv8) { (m ^ WHITEBITS) & ow == 0 }

  /** The tests on the bits are the tests on the colours. */
  lemma TestsAgree(c: Colour, finalized: bool, white: bool)
    ensures var m := Marks(c, finalized);
            && (m & WHITEBITS != 0 <==> c.White?)
            && (m & BLACK != 0 <==> c.Black?)
            && (m & (WHITEBITS | BLACK) == 0 <==> c.Gray?)
            && (m & FINALIZED != 0 <==> finalized)
            && (IsDeadM(OtherWhite(WhiteBit(white)), m) <==> IsDead(white, c))
  {
  }

  /** The changes of the bits are the changes of colour, and leave the finalizer bit alone. */
  lemma ChangesAgree(c: Colour, finalized: bool, white: bool)
    ensures var m := Marks(c, finalized);
            && OtherWhite(WhiteBit(white)) == WhiteBit(!white)
            && (m & MASKCOLORS) | WhiteBit(white) == Marks(White(white), finalized)
            && (c.White? ==> m & !WHITEBITS == Marks(Gray, finalized) && m ^ WHITEBITS == Marks(White(!c.bit), finalized))
            && (c.Gray? ==> m | BLACK == Marks(Black, finalized))
            && (c.Black? ==> m & !BLACK == Marks(Gray, finalized))
  {
  }
}
