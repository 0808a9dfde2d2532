/** lstrlib.c: `find` and `gsub` on top of the matcher. */
module StrLib {
  import opened Options
  import opened Patterns
  import opened MatchFacts
  import opened Matcher

  /** The matches at one starting position, with no captures yet; or an error, if the search is nested too deep
      before the first of them is found. */
  function MatchesAt(src: seq<byte>, pat: seq<byte>, s: nat): seq<Match> {
    if Depth(src, Tokens(pat, 0), s, []) >= MAXCCALLS then [Bad(TooComplex)] else Matches(src, Tokens(pat, 0), s, [])
  }

  datatype Search = FoundAt(start: nat, end: nat, caps: seq<Cap>) | NotFound | Failed(err: Error)

  /** Nothing matches at the positions from `lo` up to `hi`. */
  ghost predicate NoneBetween(src: seq<byte>, pat: seq<byte>, lo: int, hi: int) {
    forall s: nat :: lo <= s < hi ==> MatchesAt(src, pat, s) == []
  }

  /** The answer comes from the first position at which anything matches, and is the first match there. */
  ghost predicate Leftmost(src: seq<byte>, pat: seq<byte>, init: nat, last: nat, r: Search) {
    match r
    case FoundAt(s, e, caps) =>
      init <= s <= last && NoneBetween(src, pat, init, s) && MatchesAt(src, pat, s) != [] && MatchesAt(src, pat, s)[0] == Match(e, caps)
    case NotFound => NoneBetween(src, pat, init, last + 1)
    case Failed(err) => exists s: nat :: init <= s <= last && NoneBetween(src, pat, init, s) && Broken(src, pat, s, err)
  }

  /** The first thing at position `s` is an error. */
  ghost predicate Broken(src: seq<byte>, pat: seq<byte>, s: nat, err: Error) {
    MatchesAt(src, pat, s) != [] && MatchesAt(src, pat, s)[0] == Bad(err)
  }

  /** The pattern search of `str_find_aux`, from position `init` on. */
  method SearchPattern(src: seq<byte>, pat0: seq<byte>, init: nat) returns (r: Search)
    requires init <= |src|
    ensures var anchor := pat0 != [] && pat0[0] == '^' as int;
            Leftmost(src, if anchor then pat0[1..] else pat0, init, if anchor then init else |src|, r)
  {
    var anchor := pat0 != [] && pat0[0] == '^' as int;
    var pat := if anchor then pat0[1..] else pat0;
    var ms := new MatchState(src, pat);
    var s1 := init;
    while true
      invariant init <= s1 <= |src| && fresh(ms) && fresh(ms.capture) && ms.Valid() && ms.matchdepth == MAXCCALLS
      invariant ms.src == src && ms.pat == pat && (anchor ==> s1 == init) && NoneBetween(src, pat, init, s1)
      decreases |src| - s1
    {
      ms.level := 0;
      assert ms.Caps() == [];
      var res := ms.DoMatch(s1, 0);
      match res {
      case Found(e) =>
        var caps := ms.Copy();
        return FoundAt(s1, e, caps);
      case Error(err) =>
        return Failed(err);
      case Fail =>
        if s1 == |src| || anchor {
          return NotFound;
        }
        s1 := s1 + 1;
      }
    }
  }

  // ----- plain search -------------------------------------------------------------------------------

  predicate OccursAt(src: seq<byte>, p: seq<byte>, s: int) {
    0 <= s && s + |p| <= |src| && src[s..s + |p|] == p
  }

  lemma OccursSplit(src: seq<byte>, p: seq<byte>, s: int)
    requires p != []
    ensures OccursAt(src, p, s) <==> 0 <= s < |src| && src[s] == p[0] && OccursAt(src, p[1..], s + 1)
  {
    if 0 <= s && s + |p| <= |src| {
      assert src[s..s + |p|] == [src[s]] + src[s + 1..s + |p|];
      assert p == [p[0]] + p[1..];
    }
  }

  /** `lmemfind`: the first occurrence of `p` at or after `from`. */
  method MemFind(src: seq<byte>, from: nat, p: seq<byte>) returns (r: Option<nat>)
    requires from <= |src|
    ensures match r
            case Some(s) => from <= s && OccursAt(src, p, s) && forall q :: from <= q < s ==> !OccursAt(src, p, q)
            case None => forall q :: from <= q ==> !OccursAt(src, p, q)
  {
    if |p| == 0 {
      assert src[from..from] == p;
      return Some(from);
    } else if |p| > |src| - from {
      return None;
    }
    var l2 := |p| - 1;
    var s1, l1: int := from, |src| - from - l2;
    while l1 > 0
      invariant from <= s1 && 0 <= l1 && s1 + l1 + l2 == |src|
      invariant forall q :: from <= q < s1 ==> !OccursAt(src, p, q)
      decreases l1
    {
      var at := MemChr(src, s1, l1, p[0]);
      if at.None? {
        forall q | s1 <= q ensures !OccursAt(src, p, q) {
          OccursSplit(src, p, q);
        }
        return None;
      }
      var init := at.value + 1;
      forall q | s1 <= q < at.value ensures !OccursAt(src, p, q) {
        OccursSplit(src, p, q);
      }
      OccursSplit(src, p, at.value);
      if src[init..init + l2] == p[1..] {
        return Some(at.value);
      }
      l1 := l1 - (init - s1);
      s1 := init;
    }
    return None;
  }

  /** `memchr`: the first `c` among the `n` characters from `s` on. */
  method MemChr(src: seq<byte>, s: nat, n: nat, c: byte) returns (r: Option<nat>)
    requires s + n <= |src|
    ensures match r
            case Some(i) => s <= i < s + n && src[i] == c && forall q :: s <= q < i ==> src[q] != c
            case None => forall q :: s <= q < s + n ==> src[q] != c
  {
    var i := s;
    while i < s + n
      invariant s <= i <= s + n && forall q :: s <= q < i ==> src[q] != c
    {
      if src[i] == c {
        return Some(i);
      }
      i := i + 1;
    }
    return None;
  }

  /** The characters that make `find` use the matcher. */
  predicate Special(c: int) {
    c in {'^' as int, '$' as int, '*' as int, '+' as int, '?' as int, '.' as int, '(' as int, '[' as int, ESC, '-' as int}
  }

  /** `nospecials`: a C string function is applied to each part between zero bytes. */
  method NoSpecials(p: seq<byte>) returns (b: bool)
    ensures b <==> forall i :: 0 <= i < |p| ==> !Special(p[i])
  {
    var upto := 0;
    while upto <= |p|
      invariant upto <= |p| + 1 && forall i :: 0 <= i < upto && i < |p| ==> !Special(p[i])
      decreases |p| + 1 - upto
    {
      var i := upto;
      while CharAt(p, i) != 0
        invariant upto <= i <= |p| && forall x :: upto <= x < i ==> !Special(p[x])
        decreases |p| - i
      {
        if Special(p[i]) {
          return false;
        }
        i := i + 1;
      }
      upto := i + 1;
    }
    return true;
  }

  /** What plain search means for one position. */
  function Plain(src: seq<byte>, p: seq<byte>, s: nat): seq<Match> {
    if OccursAt(src, p, s) then [Match(s + |p|, [])] else []
  }

  predicate Literal(p: seq<byte>) {
    forall i :: 0 <= i < |p| ==> !Special(p[i]) && p[i] != ')' as int
  }

  /** Without special characters, and without ')', a pattern matches exactly itself. */
  lemma {:induction false} LiteralMatches(src: seq<byte>, p: seq<byte>, i: nat, s: nat)
    requires Literal(p) && i <= |p| && s <= |src|
    ensures Matches(src, Tokens(p, i), s, []) == Plain(src, p[i..], s) && Depth(src, Tokens(p, i), s, []) == 0
    decreases |p| - i
  {
    if i == |p| {
      assert p[i..] == [] && src[s..s] == [];
    } else {
      LiteralToken(p, i);
      TokensStep(p, i);
      OccursSplit(src, p[i..], s);
      assert p[i..][1..] == p[i + 1..];
      if s < |src| { LiteralMatches(src, p, i + 1, s + 1); }
    }
  }

  lemma LiteralToken(p: seq<byte>, i: nat)
    requires i < |p| && !Special(p[i]) && p[i] != ')' as int && (i + 1 < |p| ==> !Special(p[i + 1]))
    ensures TokenAt(p, i) == (One(Lit(p[i])), i + 1)
  {
  }

  predicate NoneSpecial(p: seq<byte>) {
    forall i :: 0 <= i < |p| ==> !Special(p[i])
  }

  /** `find` skips the matcher for patterns without special characters. That never changes the answer,
      unless there is a ')': the matcher rejects it, the plain search takes it literally. */
  lemma ShortcutExact(p: seq<byte>)
    requires NoneSpecial(p)
    ensures (forall src: seq<byte>, s: nat :: s <= |src| ==> MatchesAt(src, p, s) == Plain(src, p, s)) <==>
            forall i :: 0 <= i < |p| ==> p[i] != ')' as int
  {
    if j :| 0 <= j < |p| && p[j] == ')' as int {
      var f := FirstParen(p, j);
      ParenFails(p, f, 0);
      var src := p[..f];
      assert MatchesAt(src, p, 0) != Plain(src, p, 0);
    } else {
      forall src: seq<byte>, s: nat | s <= |src| ensures MatchesAt(src, p, s) == Plain(src, p, s) {
        LiteralMatches(src, p, 0, s);
        assert p[0..] == p;
      }
    }
  }

  function FirstParen(p: seq<byte>, j: nat): (f: nat)
    requires j < |p| && p[j] == ')' as int
    ensures f <= j && p[f] == ')' as int && forall i :: 0 <= i < f ==> p[i] != ')' as int
    decreases j
  {
    if i :| 0 <= i < j && p[i] == ')' as int then FirstParen(p, i) else j
  }

  lemma {:induction false} ParenFails(p: seq<byte>, f: nat, i: nat)
    requires NoneSpecial(p) && i <= f < |p| && p[f] == ')' as int && forall x :: 0 <= x < f ==> p[x] != ')' as int
    ensures Matches(p[..f], Tokens(p, i), i, []) == [Bad(NothingToClose)] && Depth(p[..f], Tokens(p, i), i, []) == 0
    decreases f - i
  {
    TokensStep(p, i);
    if i < f {
      LiteralToken(p, i);
      ParenFails(p, f, i + 1);
    }
  }

  // ----- find -----------------------------------------------------------------------------------------

  /** `posrelat`: negative positions count from the end. */
  function PosRelat(pos: int, len: nat): int {
    if pos >= 0 then pos else if -pos > len then 0 else len + pos + 1
  }

  ghost predicate FirstOccurrence(src: seq<byte>, p: seq<byte>, from: nat, r: Search) {
    match r
    case FoundAt(s, e, caps) =>
      from <= s && OccursAt(src, p, s) && e == s + |p| && caps == [] && forall q :: from <= q < s ==> !OccursAt(src, p, q)
    case NotFound => forall q :: from <= q ==> !OccursAt(src, p, q)
    case Failed(_) => false
  }

  /** `str_find_aux`. Positions count from 1, negative ones from the end; what lies in front of the subject is its
      start. */
  method StrFind(src: seq<byte>, p: seq<byte>, init: int, find: bool, plain: bool) returns (r: Search)
    ensures var from := if init > 0 then init - 1 else if init < 0 && |src| + init > 0 then |src| + init else 0;
            if from > |src| then r == NotFound
            else if find && (plain || NoneSpecial(p)) then FirstOccurrence(src, p, from, r)
            else var anchor := p != [] && p[0] == '^' as int;
                 Leftmost(src, if anchor then p[1..] else p, from, if anchor then from else |src|, r)
  {
    var i := PosRelat(init, |src|);
    if i < 1 {
      i := 1;
    } else if i > |src| + 1 {
      return NotFound;
    }
    var quick := plain;
    if find && !plain {
      quick := NoSpecials(p);
    }
    if find && quick {
      var s := MemFind(src, i - 1, p);
      return if s.Some? then FoundAt(s.value, s.value + |p|, []) else NotFound;
    }
    r := SearchPattern(src, p, i - 1);
  }

  /** For literal patterns the plain search gives the leftmost match. */
  lemma PlainIsLeftmost(src: seq<byte>, p: seq<byte>, from: nat, r: Search)
    requires Literal(p) && from <= |src| && FirstOccurrence(src, p, from, r)
    ensures Leftmost(src, p, from, |src|, r)
  {
    forall s: nat | s <= |src| ensures MatchesAt(src, p, s) == Plain(src, p, s) {
      LiteralMatches(src, p, 0, s);
      assert p[0..] == p;
    }
  }

  // ----- gsub -----------------------------------------------------------------------------------------------

  /** The subject is cut into characters that are kept and matches that are replaced. */
  datatype Piece = Kept(s: nat, e: nat) | Replaced(s: nat, e: nat, caps: seq<Cap>)

  /** The pieces follow each other from `from` to `to`. */
  predicate Tiles(ps: seq<Piece>, from: nat, to: nat) {
    if ps == [] then from == to
    else ps[|ps| - 1].s <= to && ps[|ps| - 1].e == to && Tiles(ps[..|ps| - 1], from, ps[|ps| - 1].s)
  }

  /** Every replaced piece is the first match at its start, and not empty right behind another one. */
  ghost predicate FirstMatches(src: seq<byte>, pat: seq<byte>, ps: seq<Piece>) {
    forall i :: 0 <= i < |ps| && ps[i].Replaced? ==> FirstAt(src, pat, ps, i)
  }

  ghost predicate FirstAt(src: seq<byte>, pat: seq<byte>, ps: seq<Piece>, i: nat)
    requires i < |ps| && ps[i].Replaced?
  {
    && MatchesAt(src, pat, ps[i].s) != [] && MatchesAt(src, pat, ps[i].s)[0] == Match(ps[i].e, ps[i].caps)
    && (i > 0 && ps[i - 1].Replaced? ==> ps[i].e != ps[i].s)
  }

  /** No match is skipped, except an empty one right behind the previous match. */
  ghost predicate NothingSkipped(src: seq<byte>, pat: seq<byte>, ps: seq<Piece>) {
    forall i :: 0 <= i < |ps| && ps[i].Kept? ==> SkippedAt(src, pat, ps, i)
  }

  /** A single character at which nothing matches, or only the empty string right behind a match. */
  ghost predicate SkippedAt(src: seq<byte>, pat: seq<byte>, ps: seq<Piece>, i: nat)
    requires i < |ps|
  {
    && ps[i].e == ps[i].s + 1
    && (|| MatchesAt(src, pat, ps[i].s) == []
        || (i > 0 && ps[i - 1].Replaced? && MatchesAt(src, pat, ps[i].s)[0].Match? && MatchesAt(src, pat, ps[i].s)[0].e == ps[i].s))
  }

  /** There is only one way to cut: of two, one continues the other. */
  lemma {:induction false} CutOnce(src: seq<byte>, pat: seq<byte>, ps: seq<Piece>, qs: seq<Piece>, to: nat, to': nat)
    requires Tiles(ps, 0, to) && FirstMatches(src, pat, ps) && NothingSkipped(src, pat, ps)
    requires Tiles(qs, 0, to') && FirstMatches(src, pat, qs) && NothingSkipped(src, pat, qs) && |ps| <= |qs|
    ensures ps == qs[..|ps|]
    decreases |ps| + |qs|
  {
    hide MatchesAt;
    if |ps| < |qs| {
      CutFewer(src, pat, qs, to');
      CutOnce(src, pat, ps, qs[..|qs| - 1], to, qs[|qs| - 1].s);
    } else if ps != [] {
      var n := |ps| - 1;
      CutFewer(src, pat, ps, to);
      CutFewer(src, pat, qs, to');
      CutOnce(src, pat, ps[..n], qs[..n], ps[n].s, qs[n].s);
      assert ps[..n] == qs[..n];
      TilesEnd(ps[..n], ps[n].s, qs[n].s);
      assert n > 0 ==> ps[n - 1] == ps[..n][n - 1] && qs[n - 1] == qs[..n][n - 1];
      if ps[n].Replaced? { assert FirstAt(src, pat, ps, n); } else { assert SkippedAt(src, pat, ps, n); }
      if qs[n].Replaced? { assert FirstAt(src, pat, qs, n); } else { assert SkippedAt(src, pat, qs, n); }
    }
  }

  lemma TilesEnd(ps: seq<Piece>, to: nat, to': nat)
    requires Tiles(ps, 0, to) && Tiles(ps, 0, to')
    ensures to == to'
  {
  }

  lemma CutFewer(src: seq<byte>, pat: seq<byte>, ps: seq<Piece>, to: nat)
    requires ps != [] && Tiles(ps, 0, to) && FirstMatches(src, pat, ps) && NothingSkipped(src, pat, ps)
    ensures var p, qs := ps[|ps| - 1], ps[..|ps| - 1];
            Tiles(qs, 0, p.s) && FirstMatches(src, pat, qs) && NothingSkipped(src, pat, qs)
  {
    hide MatchesAt;
    var qs := ps[..|ps| - 1];
    forall i | 0 <= i < |qs| && qs[i].Replaced? ensures FirstAt(src, pat, qs, i) { assert FirstAt(src, pat, ps, i); }
    forall i | 0 <= i < |qs| && qs[i].Kept? ensures SkippedAt(src, pat, qs, i) { assert SkippedAt(src, pat, ps, i); }
  }

  function Count(ps: seq<Piece>): nat {
    if ps == [] then 0 else Count(ps[..|ps| - 1]) + (if ps[|ps| - 1].Replaced? then 1 else 0)
  }

  type Replacement = (seq<byte>, nat, nat, seq<Cap>) -> seq<byte>

  function Text(src: seq<byte>, repl: Replacement, p: Piece): seq<byte> {
    match p
    case Kept(s, e) => if s <= e <= |src| then src[s..e] else []
    case Replaced(s, e, caps) => repl(src, s, e, caps)
  }

  function Output(src: seq<byte>, repl: Replacement, ps: seq<Piece>): seq<byte> {
    if ps == [] then [] else Output(src, repl, ps[..|ps| - 1]) + Text(src, repl, ps[|ps| - 1])
  }

  lemma PiecesMore(src: seq<byte>, pat: seq<byte>, repl: Replacement, ps: seq<Piece>, p: Piece, from: nat)
    requires Tiles(ps, from, p.s) && p.s <= p.e
    ensures Tiles(ps + [p], from, p.e) && Output(src, repl, ps + [p]) == Output(src, repl, ps) + Text(src, repl, p)
    ensures Count(ps + [p]) == Count(ps) + (if p.Replaced? then 1 else 0)
  {
    assert (ps + [p])[..|ps|] == ps;
  }

  ghost predicate Identity(src: seq<byte>, repl: Replacement) {
    forall s: nat, e: nat, caps :: s <= e <= |src| ==> repl(src, s, e, caps) == src[s..e]
  }

  /** Replacing every match by itself gives the subject back. */
  lemma {:induction false} IdentityOutput(src: seq<byte>, repl: Replacement, ps: seq<Piece>, from: nat, to: nat)
    requires Tiles(ps, from, to) && to <= |src| && Identity(src, repl)
    ensures from <= to && Output(src, repl, ps) == src[from..to]
    decreases |ps|
  {
    if ps != [] {
      var p := ps[|ps| - 1];
      IdentityOutput(src, repl, ps[..|ps| - 1], from, p.s);
      assert src[from..to] == src[from..p.s] + src[p.s..to];
    }
  }

  /** The remainder behind the last piece is at the end of the subject, and nothing is left to replace. */
  ghost predicate NothingLeft(src: seq<byte>, pat: seq<byte>, ps: seq<Piece>, rest: nat) {
    rest == |src| &&
    (MatchesAt(src, pat, rest) == [] ||
     (ps != [] && ps[|ps| - 1].Replaced? && MatchesAt(src, pat, rest)[0].Match? && MatchesAt(src, pat, rest)[0].e == rest))
  }

  /** An anchored pattern is tried once, at the start of the subject. */
  ghost predicate TriedOnce(src: seq<byte>, pat: seq<byte>, ps: seq<Piece>) {
    var l := MatchesAt(src, pat, 0);
    ps == if l != [] && l[0].Match? then [Replaced(0, l[0].e, l[0].caps)] else if src != [] then [Kept(0, 1)] else []
  }

  /** `str_gsub`: the subject is cut into pieces `ps` and a remainder that starts at `rest`. An error ends the
      call at `rest`, with more replacements wanted and everything in front dealt with. */
  method GSub(src: seq<byte>, pat0: seq<byte>, repl: Replacement, max: nat)
    returns (out: seq<byte>, n: nat, failed: Option<Error>, ghost ps: seq<Piece>, ghost rest: nat)
    ensures n <= max && (max == 0 ==> failed == None && out == src)
    ensures failed.None? && Identity(src, repl) ==> out == src
    ensures var anchor := pat0 != [] && pat0[0] == '^' as int;
            var pat := if anchor then pat0[1..] else pat0;
            && rest <= |src| && Tiles(ps, 0, rest) && n == Count(ps)
            && FirstMatches(src, pat, ps) && NothingSkipped(src, pat, ps)
            && match failed
               case Some(err) => n < max && (anchor ==> rest == 0) && Broken(src, pat, rest, err)
               case None =>
                 && out == Output(src, repl, ps) + src[rest..]
                 && (n < max && !anchor ==> NothingLeft(src, pat, ps, rest))
                 && (anchor && max > 0 ==> TriedOnce(src, pat, ps))
                 && (max == 0 ==> ps == [])
  {
    hide Matches, Tokens, Depth, Cutting, NothingLeft, ListAnswers, Broken, TriedOnce;
    var anchor := pat0 != [] && pat0[0] == '^' as int;
    var pat := if anchor then pat0[1..] else pat0;
    var ms := new MatchState(src, pat);
    var s: nat, last: int := 0, -1;
    out, n, failed, ps, rest := [], 0, None, [], 0;
    CutStart(src, pat, repl);
    var done := false;
    while n < max && !done
      invariant s <= |src| && n <= max && fresh(ms) && fresh(ms.capture) && ms.Valid() && ms.matchdepth == MAXCCALLS && ms.src == src && ms.pat == pat
      invariant Cutting(src, pat, repl, ps, s, last, out, n)
      invariant done && !anchor ==> NothingLeft(src, pat, ps, s)
      invariant done && anchor ==> TriedOnce(src, pat, ps)
      invariant (!done && anchor) || max == 0 ==> ps == [] && s == 0 && last == -1 && n == 0
      decreases !done, |src| - s, if last == s then 0 else 1
    {
      ms.level := 0;
      assert ms.Caps() == [];
      var res := ms.DoMatch(s, 0);
      if res.Error? {
        failed := Some(res.err);
        rest := s;
        BrokenAt(src, pat, s, res, ms.Caps(), ms.matchdepth);
        CutFacts(src, pat, repl, ps, s, last, out, n);
        return;
      }
      var caps := ms.Copy();
      AnswerFacts(src, pat, s, res, caps, ms.matchdepth);
      if anchor { AnchorFacts(src, pat, res, caps); }
      if res.Found? && res.e != last {
        CutMatch(src, pat, repl, ps, s, last, out, n, res.e, caps);
        ps := ps + [Replaced(s, res.e, caps)];
        assert anchor ==> ps == [Replaced(0, res.e, caps)];
        n := n + 1;
        out := out + repl(src, s, res.e, caps);
        s, last := res.e, res.e;
      } else if s < |src| {
        CutKeep(src, pat, repl, ps, s, last, out, n, res, caps);
        ps := ps + [Kept(s, s + 1)];
        assert anchor ==> ps == [Kept(0, 1)];
        out := out + [src[s]];
        s := s + 1;
      } else {
        CutDone(src, pat, repl, ps, s, last, out, n, res, caps);
        done := true;
      }
      if anchor {
        done := true;
      }
    }
    rest := s;
    CutFacts(src, pat, repl, ps, s, last, out, n);
    if Identity(src, repl) {
      IdentityOutput(src, repl, ps, 0, s);
      assert src[0..s] + src[s..] == src;
    }
    out := out + src[s..];
  }

  /** The state of the loop of `gsub`: pieces so far, position, end of the last match, output, count. */
  ghost predicate Cutting(src: seq<byte>, pat: seq<byte>, repl: Replacement, ps: seq<Piece>, s: nat, last: int, out: seq<byte>, n: nat) {
    && s <= |src| && Tiles(ps, 0, s) && out == Output(src, repl, ps) && n == Count(ps)
    && FirstMatches(src, pat, ps) && NothingSkipped(src, pat, ps)
    && last <= s && (last == s <==> ps != [] && ps[|ps| - 1].Replaced?)
  }

  /** The answer of the matcher, for a search that starts without captures. */
  ghost predicate Answered(src: seq<byte>, pat: seq<byte>, s: nat, res: Result, caps: seq<Cap>) {
    match res
    case Found(e) => s <= e <= |src| && MatchesAt(src, pat, s) != [] && MatchesAt(src, pat, s)[0] == Match(e, caps)
    case Fail => MatchesAt(src, pat, s) == []
    case Error(_) => false
  }

  lemma AnswerFacts(src: seq<byte>, pat: seq<byte>, s: nat, res: Result, caps: seq<Cap>, depth: nat)
    requires s <= |src| && !res.Error? && Answers(src, Tokens(pat, 0), s, [], MAXCCALLS, res, caps, depth)
    ensures Answered(src, pat, s, res, caps) && depth == MAXCCALLS
  {
    if res.Found? { HeadForward(src, pat, s, res.e, caps); }
  }

  lemma BrokenAt(src: seq<byte>, pat: seq<byte>, s: nat, res: Result, caps: seq<Cap>, depth: nat)
    requires res.Error? && Answers(src, Tokens(pat, 0), s, [], MAXCCALLS, res, caps, depth)
    ensures Broken(src, pat, s, res.err)
  {
  }

  lemma AnchorFacts(src: seq<byte>, pat: seq<byte>, res: Result, caps: seq<Cap>)
    requires Answered(src, pat, 0, res, caps)
    ensures res.Found? ==> TriedOnce(src, pat, [Replaced(0, res.e, caps)])
    ensures res.Fail? ==> TriedOnce(src, pat, if src != [] then [Kept(0, 1)] else [])
  {
  }

  lemma CutStart(src: seq<byte>, pat: seq<byte>, repl: Replacement)
    ensures Cutting(src, pat, repl, [], 0, -1, [], 0)
  {
  }

  lemma CutMatch(src: seq<byte>, pat: seq<byte>, repl: Replacement, ps: seq<Piece>, s: nat, last: int, out: seq<byte>, n: nat,
                 e: nat, caps: seq<Cap>)
    requires Cutting(src, pat, repl, ps, s, last, out, n) && Answered(src, pat, s, Found(e), caps) && e != last
    ensures Cutting(src, pat, repl, ps + [Replaced(s, e, caps)], e, e, out + repl(src, s, e, caps), n + 1)
  {
    hide Matches, Tokens, Tiles, Output, Count;
    var p := Replaced(s, e, caps);
    PiecesMore(src, pat, repl, ps, p, 0);
    forall i | 0 <= i < |ps| + 1 && (ps + [p])[i].Replaced? ensures FirstAt(src, pat, ps + [p], i) {
      if i < |ps| { assert (ps + [p])[i] == ps[i] && FirstAt(src, pat, ps, i); }
      if i > 0 { assert (ps + [p])[i - 1] == ps[i - 1]; }
    }
    forall i | 0 <= i < |ps| + 1 && (ps + [p])[i].Kept? ensures SkippedAt(src, pat, ps + [p], i) {
      assert (ps + [p])[i] == ps[i] && SkippedAt(src, pat, ps, i);
      if i > 0 { assert (ps + [p])[i - 1] == ps[i - 1]; }
    }
  }

  lemma CutKeep(src: seq<byte>, pat: seq<byte>, repl: Replacement, ps: seq<Piece>, s: nat, last: int, out: seq<byte>, n: nat,
                res: Result, caps: seq<Cap>)
    requires Cutting(src, pat, repl, ps, s, last, out, n) && Answered(src, pat, s, res, caps) && s < |src|
    requires res.Found? ==> res.e == last
    ensures Cutting(src, pat, repl, ps + [Kept(s, s + 1)], s + 1, last, out + [src[s]], n)
  {
    hide Matches, Tokens, Tiles, Output, Count;
    var p := Kept(s, s + 1);
    PiecesMore(src, pat, repl, ps, p, 0);
    assert src[s..s + 1] == [src[s]];
    forall i | 0 <= i < |ps| + 1 && (ps + [p])[i].Replaced? ensures FirstAt(src, pat, ps + [p], i) {
      assert (ps + [p])[i] == ps[i] && FirstAt(src, pat, ps, i);
      if i > 0 { assert (ps + [p])[i - 1] == ps[i - 1]; }
    }
    forall i | 0 <= i < |ps| + 1 && (ps + [p])[i].Kept? ensures SkippedAt(src, pat, ps + [p], i) {
      if i < |ps| { assert (ps + [p])[i] == ps[i] && SkippedAt(src, pat, ps, i); }
      if i > 0 { assert (ps + [p])[i - 1] == ps[i - 1]; }
    }
  }

  lemma CutDone(src: seq<byte>, pat: seq<byte>, repl: Replacement, ps: seq<Piece>, s: nat, last: int, out: seq<byte>, n: nat,
                res: Result, caps: seq<Cap>)
    requires Cutting(src, pat, repl, ps, s, last, out, n) && Answered(src, pat, s, res, caps) && s == |src|
    requires res.Found? ==> res.e == last
    ensures NothingLeft(src, pat, ps, s)
  {
    hide Matches, Tokens;
  }

  lemma CutFacts(src: seq<byte>, pat: seq<byte>, repl: Replacement, ps: seq<Piece>, s: nat, last: int, out: seq<byte>, n: nat)
    requires Cutting(src, pat, repl, ps, s, last, out, n)
    ensures s <= |src| && Tiles(ps, 0, s) && out == Output(src, repl, ps) && n == Count(ps)
    ensures FirstMatches(src, pat, ps) && NothingSkipped(src, pat, ps)
  {
    hide Matches, Tokens;
  }

  /** Matches go forward and stay within the subject. */
  lemma {:induction false} DerivesForward(src: seq<byte>, toks: seq<Token>, s: nat, caps: seq<Cap>, e: nat, caps': seq<Cap>)
    requires Derives(src, toks, s, caps, e, caps') && s <= |src|
    ensures s <= e <= |src|
    decreases |toks|, 0
  {
    if toks != [] {
      var rest := toks[1..];
      match toks[0]
      case Open => DerivesForward(src, rest, s, caps + [Cap(s, CAP_UNFINISHED)], e, caps');
      case Position => DerivesForward(src, rest, s, caps + [Cap(s, CAP_POSITION)], e, caps');
      case Close =>
        var l :| 0 <= l < |caps| && caps[l].len == CAP_UNFINISHED && (forall m :: l < m < |caps| ==> caps[m].len != CAP_UNFINISHED)
                 && Derives(src, rest, s, caps[l := Cap(caps[l].init, s - caps[l].init)], e, caps');
        DerivesForward(src, rest, s, caps[l := Cap(caps[l].init, s - caps[l].init)], e, caps');
      case Balance(b, c) => DerivesForward(src, rest, BalanceEnd(src, s + 1, b, c, 1).value, caps, e, caps');
      case Back(d) => DerivesForward(src, rest, s + caps[d - '1' as int].len, caps, e, caps');
      case One(k) => DerivesForward(src, rest, s + 1, caps, e, caps');
      case Opt(k) =>
        if Derives(src, rest, s, caps, e, caps') {
          DerivesForward(src, rest, s, caps, e, caps');
        } else {
          DerivesForward(src, rest, s + 1, caps, e, caps');
        }
      case Star(k) => RepeatForward(src, k, rest, s, caps, e, caps');
      case Plus(k) => RepeatForward(src, k, rest, s, caps, e, caps');
      case Lazy(k) => RepeatForward(src, k, rest, s, caps, e, caps');
      case _ => DerivesForward(src, rest, s, caps, e, caps');
    }
  }

  lemma {:induction false} RepeatForward(src: seq<byte>, k: Class, rest: seq<Token>, s: nat, caps: seq<Cap>, e: nat, caps': seq<Cap>)
    requires exists m: nat :: s <= m && AllIn(src, k, s, m) && Derives(src, rest, m, caps, e, caps')
    requires s <= |src|
    ensures s <= e <= |src|
    decreases |rest|, 1
  {
    var m: nat :| s <= m && AllIn(src, k, s, m) && Derives(src, rest, m, caps, e, caps');
    if m > s { assert At(src, k, m - 1); }
    DerivesForward(src, rest, m, caps, e, caps');
  }

  lemma HeadForward(src: seq<byte>, pat: seq<byte>, s: nat, e: nat, caps: seq<Cap>)
    requires s <= |src| && MatchesAt(src, pat, s) != [] && MatchesAt(src, pat, s)[0] == Match(e, caps)
    ensures s <= e <= |src|
  {
    MatchesDerive(src, Tokens(pat, 0), s, [], e, caps);
    DerivesForward(src, Tokens(pat, 0), s, [], e, caps);
  }
}
