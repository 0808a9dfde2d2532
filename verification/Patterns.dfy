/** Section 6.4.1 of the Lua 5.3 Reference Manual: patterns, and the ordered list of their matches. */
module Patterns {
  import opened Options

  type byte = x: int | 0 <= x < 256

  // ----- characters (C locale) ----------------------------------------------------------------------

  predicate IsLower(c: int) { 'a' as int <= c <= 'z' as int }
  predicate IsUpper(c: int) { 'A' as int <= c <= 'Z' as int }
  predicate IsDigit(c: int) { '0' as int <= c <= '9' as int }
  predicate IsAlpha(c: int) { IsLower(c) || IsUpper(c) }
  predicate IsAlnum(c: int) { IsAlpha(c) || IsDigit(c) }
  predicate IsCntrl(c: int) { c < 32 || c == 127 }
  predicate IsGraph(c: int) { 33 <= c <= 126 }
  predicate IsPunct(c: int) { IsGraph(c) && !IsAlnum(c) }
  predicate IsSpace(c: int) { c == 32 || 9 <= c <= 13 }
  predicate IsXDigit(c: int) { IsDigit(c) || 'a' as int <= c <= 'f' as int || 'A' as int <= c <= 'F' as int }

  function ToLower(c: int): int { if IsUpper(c) then c + 32 else c }

  const ESC: int := '%' as int

  /** A C string ends with a zero byte that may be read. */
  function CharAt(s: seq<byte>, i: int): int { if 0 <= i < |s| then s[i] else 0 }

  // ----- classes --------------------------------------------------------------------------------------

  /** One element of a set. */
  datatype Elem = EClass(c: int) | ERange(lo: int, hi: int) | EChar(c: int)

  /** What a single-character item stands for. */
  datatype Class = Any | Lit(c: int) | Esc(c: int) | Set(neg: bool, elems: seq<Elem>)

  /** A letter after '%' names a class, its upper case the complement; any other character itself. */
  predicate InLetter(c: int, cl: int) {
    var l := ToLower(cl);
    var known := l in {'a' as int, 'c' as int, 'd' as int, 'g' as int, 'l' as int, 'p' as int, 's' as int, 'u' as int, 'w' as int, 'x' as int, 'z' as int};
    var res := (l == 'a' as int && IsAlpha(c)) || (l == 'c' as int && IsCntrl(c)) || (l == 'd' as int && IsDigit(c))
      || (l == 'g' as int && IsGraph(c)) || (l == 'l' as int && IsLower(c)) || (l == 'p' as int && IsPunct(c))
      || (l == 's' as int && IsSpace(c)) || (l == 'u' as int && IsUpper(c)) || (l == 'w' as int && IsAlnum(c))
      || (l == 'x' as int && IsXDigit(c)) || (l == 'z' as int && c == 0);
    if !known then cl == c else if IsLower(cl) then res else !res
  }

  lemma Letters(c: byte)
    ensures IsLower(c) <==> c as char in "abcdefghijklmnopqrstuvwxyz"
    ensures IsUpper(c) <==> c as char in "ABCDEFGHIJKLMNOPQRSTUVWXYZ"
  {
  }

  lemma Digits(c: byte)
    ensures IsDigit(c) <==> c as char in "0123456789"
    ensures IsXDigit(c) <==> c as char in "0123456789ABCDEFabcdef"
    ensures IsSpace(c) <==> c as char in " \t\n\U{000B}\U{000C}\r"
  {
  }

  lemma Punctuation(c: byte)
    ensures IsPunct(c) <==> c as char in "!\"#$%&'()*+,-./" || c as char in ":;<=>?@" || c as char in "[\\]^_`" || c as char in "{|}~"
  {
  }

  /** The classes as tables, in the C locale. */
  lemma ClassesDenote(c: byte)
    ensures InLetter(c, 'l' as int) <==> c as char in "abcdefghijklmnopqrstuvwxyz"
    ensures InLetter(c, 'u' as int) <==> c as char in "ABCDEFGHIJKLMNOPQRSTUVWXYZ"
    ensures InLetter(c, 'd' as int) <==> c as char in "0123456789"
    ensures InLetter(c, 'x' as int) <==> c as char in "0123456789ABCDEFabcdef"
    ensures InLetter(c, 's' as int) <==> c as char in " \t\n\U{000B}\U{000C}\r"
    ensures InLetter(c, 'p' as int) <==> c as char in "!\"#$%&'()*+,-./" || c as char in ":;<=>?@" || c as char in "[\\]^_`" || c as char in "{|}~"
    ensures InLetter(c, 'z' as int) <==> c == 0
    ensures InLetter(c, 'c' as int) <==> c < 32 || c == 127
    ensures InLetter(c, 'a' as int) <==> InLetter(c, 'l' as int) || InLetter(c, 'u' as int)
    ensures InLetter(c, 'w' as int) <==> InLetter(c, 'a' as int) || InLetter(c, 'd' as int)
    ensures InLetter(c, 'g' as int) <==> InLetter(c, 'w' as int) || InLetter(c, 'p' as int)
  {
    Letters(c);
    Digits(c);
    Punctuation(c);
    Whole(c);
  }

  lemma Whole(c: byte)
    ensures IsGraph(c) <==> IsAlnum(c) || IsPunct(c)
  {
  }

  /** The upper case of a class letter names the complement; any other character stands for itself. */
  lemma ClassLetters(c: byte)
    ensures forall l: char :: l in "acdglpsuwxz" ==> (InLetter(c, l as int - 32) <==> !InLetter(c, l as int))
    ensures forall x: byte :: x as char !in "acdglpsuwxzACDGLPSUWXZ" ==> (InLetter(c, x) <==> c == x)
  {
  }

  predicate InElem(c: int, e: Elem) {
    match e
    case EClass(cl) => InLetter(c, cl)
    case ERange(lo, hi) => lo <= c <= hi
    case EChar(x) => x == c
  }

  predicate InClass(c: int, k: Class) {
    match k
    case Any => true
    case Lit(x) => x == c
    case Esc(cl) => InLetter(c, cl)
    case Set(neg, elems) => (exists i :: 0 <= i < |elems| && InElem(c, elems[i])) != neg
  }

  // ----- tokens ---------------------------------------------------------------------------------------------

  datatype Error =
    | EndsWithEscape | MissingBracket | MissingBalance | MissingFrontier
    | TooManyCaptures | NothingToClose | BadCaptureIndex | TooComplex

  datatype Token =
    | Open | Position | Close
    | AtEnd
    | Balance(b: int, e: int)
    | Frontier(k: Class)
    | Back(digit: int)
    | One(k: Class) | Opt(k: Class) | Star(k: Class) | Plus(k: Class) | Lazy(k: Class)
    | Malformed(err: Error)

  datatype EndResult = End(ep: nat) | BadEnd(err: Error)

  /** The end of a set whose next character is at `q`; that character always belongs to the set. */
  function SetEnd(pat: seq<byte>, q: nat): (r: EndResult)
    ensures r.End? ==> q + 1 < r.ep <= |pat| && pat[r.ep - 1] == ']' as int
    ensures r.BadEnd? ==> r.err == MissingBracket
    decreases |pat| - q
  {
    if q >= |pat| then BadEnd(MissingBracket)
    else
      var q' := if pat[q] == ESC && q + 1 < |pat| then q + 2 else q + 1;
      if CharAt(pat, q') == ']' as int then End(q' + 1) else SetEnd(pat, q')
  }

  function ClassEnd(pat: seq<byte>, p: nat): (r: EndResult)
    requires p < |pat|
    ensures r.End? ==> p < r.ep <= |pat|
    ensures r.BadEnd? ==> r.err == MissingBracket || r.err == EndsWithEscape
  {
    if pat[p] == ESC then (if p + 1 == |pat| then BadEnd(EndsWithEscape) else End(p + 2))
    else if pat[p] == '[' as int then SetEnd(pat, if CharAt(pat, p + 1) == '^' as int then p + 2 else p + 1)
    else End(p + 1)
  }

  /** The elements of a set between `i` and the closing bracket at `ec`. */
  function SetElems(pat: seq<byte>, i: nat, ec: nat): seq<Elem>
    decreases ec - i
  {
    if i >= ec then []
    else if CharAt(pat, i) == ESC then [EClass(CharAt(pat, i + 1))] + SetElems(pat, i + 2, ec)
    else if CharAt(pat, i + 1) == '-' as int && i + 2 < ec then
      [ERange(CharAt(pat, i), CharAt(pat, i + 2))] + SetElems(pat, i + 3, ec)
    else [EChar(CharAt(pat, i))] + SetElems(pat, i + 1, ec)
  }

  /** The set that starts with the bracket at `p` and ends with the one at `ec`. */
  function SetAt(pat: seq<byte>, p: nat, ec: nat): Class {
    if CharAt(pat, p + 1) == '^' as int then Set(true, SetElems(pat, p + 2, ec)) else Set(false, SetElems(pat, p + 1, ec))
  }

  function ClassAt(pat: seq<byte>, p: nat, ep: nat): Class
    requires p < |pat| && ep > 0
  {
    if pat[p] == '.' as int then Any
    else if pat[p] == ESC then Esc(CharAt(pat, p + 1))
    else if pat[p] == '[' as int then SetAt(pat, p, ep - 1)
    else Lit(pat[p])
  }

  function Suffixed(k: Class, suffix: int): Token {
    if suffix == '?' as int then Opt(k)
    else if suffix == '*' as int then Star(k)
    else if suffix == '+' as int then Plus(k)
    else if suffix == '-' as int then Lazy(k)
    else One(k)
  }

  predicate IsSuffix(c: int) { c == '?' as int || c == '*' as int || c == '+' as int || c == '-' as int }

  /** A single-character class with its optional suffix. */
  function ItemAt(pat: seq<byte>, p: nat): (r: (Token, nat))
    requires p < |pat|
    ensures p < r.1 && (!r.0.Malformed? ==> r.1 <= |pat|)
  {
    match ClassEnd(pat, p)
    case BadEnd(err) => (Malformed(err), |pat|)
    case End(ep) =>
      (Suffixed(ClassAt(pat, p, ep), CharAt(pat, ep)), if IsSuffix(CharAt(pat, ep)) then ep + 1 else ep)
  }

  /** The pattern item at `p`, and where the next one starts. */
  function TokenAt(pat: seq<byte>, p: nat): (r: (Token, nat))
    requires p < |pat|
    ensures p < r.1 && (!r.0.Malformed? ==> r.1 <= |pat|)
  {
    var c, d := pat[p], CharAt(pat, p + 1);
    if c == '(' as int then (if d == ')' as int then (Position, p + 2) else (Open, p + 1))
    else if c == ')' as int then (Close, p + 1)
    else if c == '$' as int && p + 1 == |pat| then (AtEnd, p + 1)
    else if c == ESC && d == 'b' as int then
      (if p + 3 >= |pat| then (Malformed(MissingBalance), |pat|) else (Balance(pat[p + 2], pat[p + 3]), p + 4))
    else if c == ESC && d == 'f' as int then
      (if CharAt(pat, p + 2) != '[' as int then (Malformed(MissingFrontier), |pat|)
       else match ClassEnd(pat, p + 2)
            case BadEnd(err) => (Malformed(err), |pat|)
            case End(ep) => (Frontier(SetAt(pat, p + 2, ep - 1)), ep))
    else if c == ESC && IsDigit(d) then (Back(d), p + 2)
    else ItemAt(pat, p)
  }

  /** The pattern from `p` on; a malformed item ends it. */
  function Tokens(pat: seq<byte>, p: nat): seq<Token>
    decreases |pat| - p
  {
    if p >= |pat| then []
    else
      var (t, next) := TokenAt(pat, p);
      if t.Malformed? then [t] else [t] + Tokens(pat, next)
  }

  // ----- the ordered list of matches -------------------------------------------------------------------------

  const CAP_UNFINISHED := -1
  const CAP_POSITION := -2
  const MAXCAPTURES: nat := 32

  datatype Cap = Cap(init: nat, len: int)

  /** One way to match: where it ends and what was captured; or an error met on the way. */
  datatype Match = Match(e: nat, caps: seq<Cap>) | Bad(err: Error)

  predicate At(src: seq<byte>, k: Class, s: nat) { s < |src| && InClass(src[s], k) }

  /** How many characters from `s` on are in the class. */
  function RunLength(src: seq<byte>, k: Class, s: nat): (n: nat)
    ensures s <= |src| ==> s + n <= |src|
    ensures forall q :: s <= q < s + n ==> At(src, k, q)
    ensures !At(src, k, s + n)
    decreases |src| - s
  {
    if At(src, k, s) then 1 + RunLength(src, k, s + 1) else 0
  }

  /** The end of a balanced string, with `cont` delimiters still open. */
  function BalanceEnd(src: seq<byte>, s: nat, b: int, e: int, cont: int): (r: Option<nat>)
    ensures r.Some? ==> s < r.value <= |src|
    decreases |src| - s
  {
    if s >= |src| then None
    else if src[s] == e then (if cont == 1 then Some(s + 1) else BalanceEnd(src, s + 1, b, e, cont - 1))
    else if src[s] == b then BalanceEnd(src, s + 1, b, e, cont + 1)
    else BalanceEnd(src, s + 1, b, e, cont)
  }

  /** Openers minus closers between two positions. */
  function Net(src: seq<byte>, s: nat, m: nat, b: int, e: int): int
    requires m <= |src|
    decreases m - s
  {
    if s >= m then 0 else (if src[s] == e then -1 else if src[s] == b then 1 else 0) + Net(src, s + 1, m, b, e)
  }

  /** Behind the opener at `s`, position `m` is the first at which the closers balance the openers. */
  ghost predicate Balanced(src: seq<byte>, s: nat, m: nat, b: int, e: int) {
    CharAt(src, s) == b && s + 1 < m <= |src| && Closes(src, s + 1, m, b, e)
  }

  ghost predicate Closes(src: seq<byte>, a: nat, m: nat, b: int, e: int)
    requires m <= |src|
  {
    1 + Net(src, a, m, b, e) == 0 && forall q :: a <= q < m ==> 1 + Net(src, a, q, b, e) > 0
  }

  lemma BalanceExactly(src: seq<byte>, s: nat, m: nat, b: int, e: int)
    ensures CharAt(src, s) == b && BalanceEnd(src, s + 1, b, e, 1) == Some(m) <==> Balanced(src, s, m, b, e)
  {
    BalanceFirst(src, s + 1, b, e, 1);
  }

  lemma BalanceAll(src: seq<byte>, s: nat, b: int, e: int)
    ensures forall m: nat :: Balanced(src, s, m, b, e) <==> CharAt(src, s) == b && BalanceEnd(src, s + 1, b, e, 1) == Some(m)
  {
    forall m: nat ensures Balanced(src, s, m, b, e) <==> CharAt(src, s) == b && BalanceEnd(src, s + 1, b, e, 1) == Some(m) {
      BalanceExactly(src, s, m, b, e);
    }
  }

  lemma {:induction false} BalanceFirst(src: seq<byte>, s: nat, b: int, e: int, cont: int)
    requires cont > 0
    ensures match BalanceEnd(src, s, b, e, cont)
            case Some(m) => cont + Net(src, s, m, b, e) == 0 && forall q :: s <= q < m ==> cont + Net(src, s, q, b, e) > 0
            case None => forall q :: s <= q <= |src| ==> cont + Net(src, s, q, b, e) > 0
    decreases |src| - s
  {
    if s < |src| {
      var d := if src[s] == e then -1 else if src[s] == b then 1 else 0;
      forall q | s < q <= |src| ensures Net(src, s, q, b, e) == d + Net(src, s + 1, q, b, e) { }
      if cont + d > 0 { BalanceFirst(src, s + 1, b, e, cont + d); }
    }
  }

  /** The last capture that is still open. */
  function LastOpen(caps: seq<Cap>): (r: Option<nat>)
    ensures r.Some? ==> r.value < |caps| && caps[r.value].len == CAP_UNFINISHED
  {
    if caps == [] then None
    else if caps[|caps| - 1].len == CAP_UNFINISHED then Some(|caps| - 1)
    else LastOpen(caps[..|caps| - 1])
  }

  /** The text of a finished capture occurs again at `s`. */
  predicate Repeats(src: seq<byte>, c: Cap, s: nat) {
    0 <= c.len && c.init + c.len <= |src| && s + c.len <= |src| && src[c.init..c.init + c.len] == src[s..s + c.len]
  }

  predicate AtFrontier(src: seq<byte>, k: Class, s: nat) {
    !InClass(if s == 0 then 0 else CharAt(src, s - 1), k) && InClass(CharAt(src, s), k)
  }

  /** All ways to match `toks` at `s`, in the order in which they are tried. */
  function Matches(src: seq<byte>, toks: seq<Token>, s: nat, caps: seq<Cap>): seq<Match>
    decreases |toks|, |src| + 2
  {
    if toks == [] then [Match(s, caps)]
    else
      var rest := toks[1..];
      match toks[0]
      case Malformed(err) => [Bad(err)]
      case Open =>
        if |caps| >= MAXCAPTURES then [Bad(TooManyCaptures)] else Matches(src, rest, s, caps + [Cap(s, CAP_UNFINISHED)])
      case Position =>
        if |caps| >= MAXCAPTURES then [Bad(TooManyCaptures)] else Matches(src, rest, s, caps + [Cap(s, CAP_POSITION)])
      case Close =>
        (match LastOpen(caps)
         case None => [Bad(NothingToClose)]
         case Some(l) => Matches(src, rest, s, caps[l := Cap(caps[l].init, s - caps[l].init)]))
      case AtEnd => if s == |src| then Matches(src, rest, s, caps) else []
      case Balance(b, e) =>
        if CharAt(src, s) != b then []
        else
          (match BalanceEnd(src, s + 1, b, e, 1)
           case None => []
           case Some(s') => Matches(src, rest, s', caps))
      case Frontier(k) => if AtFrontier(src, k, s) then Matches(src, rest, s, caps) else []
      case Back(d) =>
        var l := d - '1' as int;
        if l < 0 || l >= |caps| || caps[l].len == CAP_UNFINISHED then [Bad(BadCaptureIndex)]
        else if Repeats(src, caps[l], s) then Matches(src, rest, s + caps[l].len, caps)
        else []
      case One(k) => if At(src, k, s) then Matches(src, rest, s + 1, caps) else []
      case Opt(k) => (if At(src, k, s) then Matches(src, rest, s + 1, caps) else []) + Matches(src, rest, s, caps)
      case Star(k) => Greedy(src, rest, s, RunLength(src, k, s), caps)
      case Plus(k) => if At(src, k, s) then Greedy(src, rest, s + 1, RunLength(src, k, s + 1), caps) else []
      case Lazy(k) => Ascending(src, k, rest, s, caps)
  }

  /** Longest first. */
  function Greedy(src: seq<byte>, rest: seq<Token>, s: nat, n: nat, caps: seq<Cap>): seq<Match>
    decreases |rest|, |src| + 3, n
  {
    Matches(src, rest, s + n, caps) + (if n == 0 then [] else Greedy(src, rest, s, n - 1, caps))
  }

  /** Shortest first. */
  function Ascending(src: seq<byte>, k: Class, rest: seq<Token>, s: nat, caps: seq<Cap>): seq<Match>
    decreases |rest|, |src| + 3, |src| - s
  {
    Matches(src, rest, s, caps) + (if At(src, k, s) then Ascending(src, k, rest, s + 1, caps) else [])
  }

  // ----- the same without an order -------------------------------------------------------------------------------

  /** `toks` can match from `s` to `e`, turning captures `caps` into `caps'`: repetitions may have any
      length. */
  ghost predicate Derives(src: seq<byte>, toks: seq<Token>, s: nat, caps: seq<Cap>, e: nat, caps': seq<Cap>)
    decreases |toks|
  {
    if toks == [] then e == s && caps' == caps
    else
      var rest := toks[1..];
      match toks[0]
      case Malformed(_) => false
      case Open => |caps| < MAXCAPTURES && Derives(src, rest, s, caps + [Cap(s, CAP_UNFINISHED)], e, caps')
      case Position => |caps| < MAXCAPTURES && Derives(src, rest, s, caps + [Cap(s, CAP_POSITION)], e, caps')
      case Close =>
        exists l | 0 <= l < |caps| ::
          caps[l].len == CAP_UNFINISHED && (forall m :: l < m < |caps| ==> caps[m].len != CAP_UNFINISHED)
          && Derives(src, rest, s, caps[l := Cap(caps[l].init, s - caps[l].init)], e, caps')
      case AtEnd => s == |src| && Derives(src, rest, s, caps, e, caps')
      case Balance(b, c) =>
        CharAt(src, s) == b && BalanceEnd(src, s + 1, b, c, 1).Some? &&
        Derives(src, rest, BalanceEnd(src, s + 1, b, c, 1).value, caps, e, caps')
      case Frontier(k) => AtFrontier(src, k, s) && Derives(src, rest, s, caps, e, caps')
      case Back(d) =>
        var l := d - '1' as int;
        0 <= l < |caps| && caps[l].len != CAP_UNFINISHED && Repeats(src, caps[l], s) && Derives(src, rest, s + caps[l].len, caps, e, caps')
      case One(k) => At(src, k, s) && Derives(src, rest, s + 1, caps, e, caps')
      case Opt(k) => (At(src, k, s) && Derives(src, rest, s + 1, caps, e, caps')) || Derives(src, rest, s, caps, e, caps')
      case Star(k) => exists m: nat :: s <= m && AllIn(src, k, s, m) && Derives(src, rest, m, caps, e, caps')
      case Plus(k) => exists m: nat :: s < m && AllIn(src, k, s, m) && Derives(src, rest, m, caps, e, caps')
      case Lazy(k) => exists m: nat :: s <= m && AllIn(src, k, s, m) && Derives(src, rest, m, caps, e, caps')
  }

  /** The characters from `s` up to `m` are in the class. */
  ghost predicate AllIn(src: seq<byte>, k: Class, s: nat, m: nat) {
    forall q :: s <= q < m ==> At(src, k, q)
  }

  lemma AllInWithin(src: seq<byte>, k: Class, s: nat, rest: seq<Token>, caps: seq<Cap>, e: nat, caps': seq<Cap>)
    ensures forall m: nat :: s <= m ==> (AllIn(src, k, s, m) <==> m <= s + RunLength(src, k, s))
    ensures (exists m: nat :: s <= m && AllIn(src, k, s, m) && Derives(src, rest, m, caps, e, caps')) <==>
            DerivesIn(src, rest, s, s + RunLength(src, k, s), caps, e, caps')
  {
    var r := RunLength(src, k, s);
    assert !At(src, k, s + r);
    if m: nat :| s <= m <= s + r && Derives(src, rest, m, caps, e, caps') {
      assert AllIn(src, k, s, m);
    }
  }

  lemma {:induction false} LastOpenIs(caps: seq<Cap>, l: nat)
    requires l < |caps| && caps[l].len == CAP_UNFINISHED && forall m :: l < m < |caps| ==> caps[m].len != CAP_UNFINISHED
    ensures LastOpen(caps) == Some(l)
  {
    if l < |caps| - 1 {
      assert caps[|caps| - 1].len != CAP_UNFINISHED;
      LastOpenIs(caps[..|caps| - 1], l);
    }
  }

  lemma {:induction false} LastOpenLast(caps: seq<Cap>)
    ensures LastOpen(caps).Some? ==> forall m :: LastOpen(caps).value < m < |caps| ==> caps[m].len != CAP_UNFINISHED
    ensures LastOpen(caps).None? ==> forall m :: 0 <= m < |caps| ==> caps[m].len != CAP_UNFINISHED
  {
    if caps != [] && caps[|caps| - 1].len != CAP_UNFINISHED {
      LastOpenLast(caps[..|caps| - 1]);
      forall m | 0 <= m < |caps| && (LastOpen(caps).Some? ==> LastOpen(caps).value < m) ensures caps[m].len != CAP_UNFINISHED {
        if m < |caps| - 1 { assert caps[..|caps| - 1][m] == caps[m]; }
      }
    }
  }

  /** The list contains exactly the possible matches. */
  lemma {:induction false} MatchesDerive(src: seq<byte>, toks: seq<Token>, s: nat, caps: seq<Cap>, e: nat, caps': seq<Cap>)
    ensures Match(e, caps') in Matches(src, toks, s, caps) <==> Derives(src, toks, s, caps, e, caps')
    decreases |toks|, |src| + 2
  {
    if toks != [] {
      var rest := toks[1..];
      match toks[0]
      case Open => MatchesDerive(src, rest, s, caps + [Cap(s, CAP_UNFINISHED)], e, caps');
      case Position => MatchesDerive(src, rest, s, caps + [Cap(s, CAP_POSITION)], e, caps');
      case Close => CloseDerives(src, toks, s, caps, e, caps');
      case AtEnd => MatchesDerive(src, rest, s, caps, e, caps');
      case Balance(b, c) =>
        if CharAt(src, s) == b && BalanceEnd(src, s + 1, b, c, 1).Some? {
          MatchesDerive(src, rest, BalanceEnd(src, s + 1, b, c, 1).value, caps, e, caps');
        }
      case Frontier(k) => MatchesDerive(src, rest, s, caps, e, caps');
      case Back(d) =>
        var l := d - '1' as int;
        if 0 <= l < |caps| && caps[l].len != CAP_UNFINISHED && Repeats(src, caps[l], s) {
          MatchesDerive(src, rest, s + caps[l].len, caps, e, caps');
        }
      case One(k) => MatchesDerive(src, rest, s + 1, caps, e, caps');
      case Opt(k) =>
        MatchesDerive(src, rest, s + 1, caps, e, caps');
        MatchesDerive(src, rest, s, caps, e, caps');
      case Star(k) => StarDerives(src, toks, s, caps, e, caps');
      case Plus(k) => PlusDerives(src, toks, s, caps, e, caps');
      case Lazy(k) => LazyDerives(src, toks, s, caps, e, caps');
      case Malformed(_) =>
    }
  }

  lemma {:induction false} CloseDerives(src: seq<byte>, toks: seq<Token>, s: nat, caps: seq<Cap>, e: nat, caps': seq<Cap>)
    requires toks != [] && toks[0].Close?
    ensures Match(e, caps') in Matches(src, toks, s, caps) <==> Derives(src, toks, s, caps, e, caps')
    decreases |toks|, |src| + 1
  {
    var rest := toks[1..];
    LastOpenLast(caps);
    match LastOpen(caps)
    case Some(l) =>
      MatchesDerive(src, rest, s, caps[l := Cap(caps[l].init, s - caps[l].init)], e, caps');
      forall m | 0 <= m < |caps| && caps[m].len == CAP_UNFINISHED && forall x :: m < x < |caps| ==> caps[x].len != CAP_UNFINISHED
        ensures m == l
      {
        LastOpenIs(caps, m);
      }
    case None =>
  }

  lemma {:induction false} StarDerives(src: seq<byte>, toks: seq<Token>, s: nat, caps: seq<Cap>, e: nat, caps': seq<Cap>)
    requires toks != [] && toks[0].Star?
    ensures Match(e, caps') in Matches(src, toks, s, caps) <==> Derives(src, toks, s, caps, e, caps')
    decreases |toks|, |src| + 1
  {
    var k, rest := toks[0].k, toks[1..];
    assert Matches(src, toks, s, caps) == Greedy(src, rest, s, RunLength(src, k, s), caps);
    assert Derives(src, toks, s, caps, e, caps') <==>
           exists m: nat :: s <= m && AllIn(src, k, s, m) && Derives(src, rest, m, caps, e, caps');
    GreedyIn(src, rest, s, RunLength(src, k, s), caps, e, caps');
    AllInWithin(src, k, s, rest, caps, e, caps');
  }

  lemma {:induction false} PlusDerives(src: seq<byte>, toks: seq<Token>, s: nat, caps: seq<Cap>, e: nat, caps': seq<Cap>)
    requires toks != [] && toks[0].Plus?
    ensures Match(e, caps') in Matches(src, toks, s, caps) <==> Derives(src, toks, s, caps, e, caps')
    decreases |toks|, |src| + 1
  {
    var k, rest := toks[0].k, toks[1..];
    assert Derives(src, toks, s, caps, e, caps') <==>
           exists m: nat :: s < m && AllIn(src, k, s, m) && Derives(src, rest, m, caps, e, caps');
    if At(src, k, s) {
      var r := RunLength(src, k, s + 1);
      assert Matches(src, toks, s, caps) == Greedy(src, rest, s + 1, r, caps);
      GreedyIn(src, rest, s + 1, r, caps, e, caps');
      PlusWithin(src, k, s, rest, caps, e, caps');
    } else {
      assert Matches(src, toks, s, caps) == [];
      assert forall m: nat :: s < m ==> !AllIn(src, k, s, m);
    }
  }

  lemma PlusWithin(src: seq<byte>, k: Class, s: nat, rest: seq<Token>, caps: seq<Cap>, e: nat, caps': seq<Cap>)
    requires At(src, k, s)
    ensures (exists m: nat :: s < m && AllIn(src, k, s, m) && Derives(src, rest, m, caps, e, caps')) <==>
            DerivesIn(src, rest, s + 1, s + 1 + RunLength(src, k, s + 1), caps, e, caps')
  {
    var r := RunLength(src, k, s + 1);
    assert RunLength(src, k, s) == 1 + r;
    AllInWithin(src, k, s, rest, caps, e, caps');
    if m: nat :| s + 1 <= m <= s + 1 + r && Derives(src, rest, m, caps, e, caps') {
      assert AllIn(src, k, s, m);
    }
    if m: nat :| s < m && AllIn(src, k, s, m) && Derives(src, rest, m, caps, e, caps') {
      assert s + 1 <= m <= s + 1 + r;
    }
  }

  lemma {:induction false} LazyDerives(src: seq<byte>, toks: seq<Token>, s: nat, caps: seq<Cap>, e: nat, caps': seq<Cap>)
    requires toks != [] && toks[0].Lazy?
    ensures Match(e, caps') in Matches(src, toks, s, caps) <==> Derives(src, toks, s, caps, e, caps')
    decreases |toks|, |src| + 1
  {
    var k, rest := toks[0].k, toks[1..];
    assert Matches(src, toks, s, caps) == Ascending(src, k, rest, s, caps);
    assert Derives(src, toks, s, caps, e, caps') <==>
           exists m: nat :: s <= m && AllIn(src, k, s, m) && Derives(src, rest, m, caps, e, caps');
    AscendingIn(src, k, rest, s, caps, e, caps');
    AllInWithin(src, k, s, rest, caps, e, caps');
  }

  /** The rest matches from some position between `lo` and `hi`. */
  ghost predicate DerivesIn(src: seq<byte>, rest: seq<Token>, lo: nat, hi: int, caps: seq<Cap>, e: nat, caps': seq<Cap>) {
    exists m: nat :: lo <= m <= hi && Derives(src, rest, m, caps, e, caps')
  }

  lemma DerivesInSplit(src: seq<byte>, rest: seq<Token>, lo: nat, hi: int, caps: seq<Cap>, e: nat, caps': seq<Cap>)
    requires lo <= hi
    ensures DerivesIn(src, rest, lo, hi, caps, e, caps') <==>
            Derives(src, rest, hi, caps, e, caps') || DerivesIn(src, rest, lo, hi - 1, caps, e, caps')
    ensures DerivesIn(src, rest, lo, hi, caps, e, caps') <==>
            Derives(src, rest, lo, caps, e, caps') || DerivesIn(src, rest, lo + 1, hi, caps, e, caps')
  {
    hide Derives;
  }

  lemma DerivesInNone(src: seq<byte>, rest: seq<Token>, lo: nat, hi: int, caps: seq<Cap>, e: nat, caps': seq<Cap>)
    requires lo > hi
    ensures !DerivesIn(src, rest, lo, hi, caps, e, caps')
  {
  }

  lemma {:induction false} GreedyIn(src: seq<byte>, rest: seq<Token>, s: nat, n: nat, caps: seq<Cap>, e: nat, caps': seq<Cap>)
    ensures Match(e, caps') in Greedy(src, rest, s, n, caps) <==> DerivesIn(src, rest, s, s + n, caps, e, caps')
    decreases |rest|, |src| + 3, n
  {
    hide Derives, Matches, DerivesIn;
    MatchesDerive(src, rest, s + n, caps, e, caps');
    DerivesInSplit(src, rest, s, s + n, caps, e, caps');
    if n > 0 {
      GreedyIn(src, rest, s, n - 1, caps, e, caps');
    } else {
      DerivesInNone(src, rest, s, s - 1, caps, e, caps');
    }
  }

  lemma {:induction false} AscendingIn(src: seq<byte>, k: Class, rest: seq<Token>, s: nat, caps: seq<Cap>, e: nat, caps': seq<Cap>)
    ensures Match(e, caps') in Ascending(src, k, rest, s, caps) <==> DerivesIn(src, rest, s, s + RunLength(src, k, s), caps, e, caps')
    decreases |rest|, |src| + 3, |src| - s
  {
    hide Derives, Matches, DerivesIn;
    MatchesDerive(src, rest, s, caps, e, caps');
    DerivesInSplit(src, rest, s, s + RunLength(src, k, s), caps, e, caps');
    if At(src, k, s) {
      AscendingIn(src, k, rest, s + 1, caps, e, caps');
    } else {
      DerivesInNone(src, rest, s + 1, s, caps, e, caps');
    }
  }
}
