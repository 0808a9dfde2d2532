/** What the matcher's functions answer, in terms of the list of matches. */
module MatchFacts {
  import opened Options
  import opened Patterns

  datatype Result = Found(e: nat) | Fail | Error(err: Error)

  /** What one round of `match` does: answer, or go on (`goto init`). */
  datatype Round = Stop(r: Result) | Goto(s: nat, p: nat)

  function Max(a: nat, b: nat): nat { if a < b then b else a }

  /** How deep `match` recurses until it has its answer: one level for each capture, and for each item that may
      have to be undone, of the alternatives that it tries up to the first that succeeds. */
  function Depth(src: seq<byte>, toks: seq<Token>, s: nat, caps: seq<Cap>): nat
    decreases |toks|, |src| + 2
  {
    if toks == [] then 0
    else
      var rest := toks[1..];
      match toks[0]
      case Malformed(_) => 0
      case Open => if |caps| >= MAXCAPTURES then 0 else 1 + Depth(src, rest, s, caps + [Cap(s, CAP_UNFINISHED)])
      case Position => if |caps| >= MAXCAPTURES then 0 else 1 + Depth(src, rest, s, caps + [Cap(s, CAP_POSITION)])
      case Close =>
        (match LastOpen(caps)
         case None => 0
         case Some(l) => 1 + Depth(src, rest, s, caps[l := Cap(caps[l].init, s - caps[l].init)]))
      case AtEnd => if s == |src| then Depth(src, rest, s, caps) else 0
      case Balance(b, e) =>
        if CharAt(src, s) != b then 0
        else
          (match BalanceEnd(src, s + 1, b, e, 1)
           case None => 0
           case Some(s') => Depth(src, rest, s', caps))
      case Frontier(k) => if AtFrontier(src, k, s) then Depth(src, rest, s, caps) else 0
      case Back(d) =>
        var l := d - '1' as int;
        if 0 <= l < |caps| && caps[l].len != CAP_UNFINISHED && Repeats(src, caps[l], s) then Depth(src, rest, s + caps[l].len, caps) else 0
      case One(k) => if At(src, k, s) then Depth(src, rest, s + 1, caps) else 0
      case Opt(k) =>
        if !At(src, k, s) then Depth(src, rest, s, caps)
        else Max(1 + Depth(src, rest, s + 1, caps), if Matches(src, rest, s + 1, caps) == [] then Depth(src, rest, s, caps) else 0)
      case Star(k) => if At(src, k, s) then GreedyDepth(src, rest, s, RunLength(src, k, s), caps) else Depth(src, rest, s, caps)
      case Plus(k) => if At(src, k, s) then GreedyDepth(src, rest, s + 1, RunLength(src, k, s + 1), caps) else 0
      case Lazy(k) => if At(src, k, s) then AscendingDepth(src, k, rest, s, caps) else Depth(src, rest, s, caps)
  }

  function GreedyDepth(src: seq<byte>, rest: seq<Token>, s: nat, n: nat, caps: seq<Cap>): nat
    decreases |rest|, |src| + 3, n
  {
    Max(1 + Depth(src, rest, s + n, caps),
        if n > 0 && Matches(src, rest, s + n, caps) == [] then GreedyDepth(src, rest, s, n - 1, caps) else 0)
  }

  function AscendingDepth(src: seq<byte>, k: Class, rest: seq<Token>, s: nat, caps: seq<Cap>): nat
    decreases |rest|, |src| + 3, |src| - s
  {
    Max(1 + Depth(src, rest, s, caps),
        if At(src, k, s) && Matches(src, rest, s, caps) == [] then AscendingDepth(src, k, rest, s + 1, caps) else 0)
  }

  /** Over the depth limit the search ends with that error. Otherwise the answer is the first element of the
      list: found with its captures, or an error; or a failure if there is nothing, and then everything is
      restored. */
  ghost predicate ListAnswers(list: seq<Match>, over: bool, caps: seq<Cap>, depth: nat, r: Result, caps': seq<Cap>, depth': nat) {
    if over then r == Error(TooComplex)
    else
      match r
      case Error(err) => list != [] && list[0] == Bad(err)
      case Found(e) => list != [] && list[0] == Match(e, caps') && depth' == depth
      case Fail => list == [] && caps' == caps && depth' == depth
  }

  ghost predicate Answers(src: seq<byte>, toks: seq<Token>, s: nat, caps: seq<Cap>, depth: nat, r: Result, caps': seq<Cap>, depth': nat) {
    ListAnswers(Matches(src, toks, s, caps), depth <= Depth(src, toks, s, caps), caps, depth, r, caps', depth')
  }

  /** What a round does with the item at `p`. */
  ghost predicate RoundAnswers(src: seq<byte>, pat: seq<byte>, p: nat, s: nat, caps: seq<Cap>, depth: nat, o: Round, caps': seq<Cap>, depth': nat) {
    var toks := Tokens(pat, p);
    match o
    case Stop(r) => ListAnswers(Matches(src, toks, s, caps), depth < Depth(src, toks, s, caps), caps, depth, r, caps', depth')
    case Goto(s', p') =>
      && p < p' <= |pat| && s' <= |src| && caps' == caps && depth' == depth
      && Matches(src, Tokens(pat, p'), s', caps) == Matches(src, toks, s, caps)
      && (depth < Depth(src, Tokens(pat, p'), s', caps) <==> depth < Depth(src, toks, s, caps))
  }

  lemma TokensStep(pat: seq<byte>, p: nat)
    requires p < |pat|
    ensures var (t, next) := TokenAt(pat, p);
            Tokens(pat, p) != [] && Tokens(pat, p)[0] == t && (!t.Malformed? ==> Tokens(pat, p)[1..] == Tokens(pat, next))
  {
    var (t, next) := TokenAt(pat, p);
    if !t.Malformed? {
      assert ([t] + Tokens(pat, next))[1..] == Tokens(pat, next);
    }
  }

  lemma GreedyDrop(src: seq<byte>, rest: seq<Token>, s: nat, n: nat, caps: seq<Cap>)
    ensures Matches(src, rest, s + n, caps) == [] ==>
              Greedy(src, rest, s, n, caps) == if n == 0 then [] else Greedy(src, rest, s, n - 1, caps)
    ensures Matches(src, rest, s + n, caps) != [] ==>
              Greedy(src, rest, s, n, caps) != [] && Greedy(src, rest, s, n, caps)[0] == Matches(src, rest, s + n, caps)[0]
    ensures GreedyDepth(src, rest, s, n, caps) ==
            Max(1 + Depth(src, rest, s + n, caps),
                if n > 0 && Matches(src, rest, s + n, caps) == [] then GreedyDepth(src, rest, s, n - 1, caps) else 0)
  {
  }

  lemma AscendingDrop(src: seq<byte>, k: Class, rest: seq<Token>, s: nat, caps: seq<Cap>)
    ensures Matches(src, rest, s, caps) == [] ==>
              Ascending(src, k, rest, s, caps) == if At(src, k, s) then Ascending(src, k, rest, s + 1, caps) else []
    ensures Matches(src, rest, s, caps) != [] ==>
              Ascending(src, k, rest, s, caps) != [] && Ascending(src, k, rest, s, caps)[0] == Matches(src, rest, s, caps)[0]
    ensures AscendingDepth(src, k, rest, s, caps) ==
            Max(1 + Depth(src, rest, s, caps),
                if At(src, k, s) && Matches(src, rest, s, caps) == [] then AscendingDepth(src, k, rest, s + 1, caps) else 0)
  {
  }

  /** The characters of a run, one after the other. */
  lemma RunStep(src: seq<byte>, k: Class, s: nat, i: nat)
    requires i <= RunLength(src, k, s)
    ensures At(src, k, s + i) <==> i < RunLength(src, k, s)
  {
  }

  // ----- sets -------------------------------------------------------------------------------------------

  /** The set is its elements, or all others after a '^'. */
  lemma SetSign(c: int, pat: seq<byte>, p: nat, ec: nat)
    ensures InClass(c, SetAt(pat, p, ec)) ==
            (if CharAt(pat, p + 1) == '^' as int then !InSet(c, pat, p + 2, ec) else InSet(c, pat, p + 1, ec))
  {
  }

  ghost predicate InSet(c: int, pat: seq<byte>, p: nat, ec: nat) { InClass(c, Set(false, SetElems(pat, p, ec))) }

  /** The element at `p`, and those behind it. */
  lemma SetStep(c: int, pat: seq<byte>, p: nat, ec: nat)
    ensures InSet(c, pat, p, ec) ==
            if p >= ec then false
            else if CharAt(pat, p) == ESC then InLetter(c, CharAt(pat, p + 1)) || InSet(c, pat, p + 2, ec)
            else if CharAt(pat, p + 1) == '-' as int && p + 2 < ec then
              CharAt(pat, p) <= c <= CharAt(pat, p + 2) || InSet(c, pat, p + 3, ec)
            else c == CharAt(pat, p) || InSet(c, pat, p + 1, ec)
  {
    hide InLetter, Matches, Tokens;
    var l := SetElems(pat, p, ec);
    if p < ec {
      SetHead(c, l[0], l[1..]);
      assert l == [l[0]] + l[1..];
    }
  }

  lemma SetHead(c: int, e: Elem, rest: seq<Elem>)
    ensures InClass(c, Set(false, [e] + rest)) == (InElem(c, e) || InClass(c, Set(false, rest)))
  {
    var l := [e] + rest;
    assert forall i :: 0 <= i < |rest| ==> rest[i] == l[i + 1];
    assert l[0] == e;
  }

  // ----- one round, case by case -----------------------------------------------------------------------

  predicate Captures(pat: seq<byte>, p: nat) { p < |pat| && pat[p] == '(' as int }

  /** A capture is opened: `(` or `()`. */
  lemma OpenRound(src: seq<byte>, pat: seq<byte>, p: nat, s: nat, caps: seq<Cap>, depth: nat, r: Result, caps': seq<Cap>, depth': nat)
    requires Captures(pat, p)
    requires var position := CharAt(pat, p + 1) == ')' as int;
             var rest := Tokens(pat, if position then p + 2 else p + 1);
             var more := caps + [Cap(s, if position then CAP_POSITION else CAP_UNFINISHED)];
             if |caps| >= MAXCAPTURES then r == Error(TooManyCaptures)
             else ListAnswers(Matches(src, rest, s, more), depth <= Depth(src, rest, s, more), caps, depth, r, caps', depth')
    ensures RoundAnswers(src, pat, p, s, caps, depth, Stop(r), caps', depth')
  {
    TokensStep(pat, p);
  }

  lemma CloseRound(src: seq<byte>, pat: seq<byte>, p: nat, s: nat, caps: seq<Cap>, depth: nat, r: Result, caps': seq<Cap>, depth': nat)
    requires p < |pat| && pat[p] == ')' as int
    requires match LastOpen(caps)
             case None => r == Error(NothingToClose)
             case Some(l) =>
               var rest, closed := Tokens(pat, p + 1), caps[l := Cap(caps[l].init, s - caps[l].init)];
               ListAnswers(Matches(src, rest, s, closed), depth <= Depth(src, rest, s, closed), caps, depth, r, caps', depth')
    ensures RoundAnswers(src, pat, p, s, caps, depth, Stop(r), caps', depth')
  {
    TokensStep(pat, p);
  }

  lemma EndRound(src: seq<byte>, pat: seq<byte>, p: nat, s: nat, caps: seq<Cap>, depth: nat, o: Round)
    requires p + 1 == |pat| && pat[p] == '$' as int && s <= |src| && o == Stop(if s == |src| then Found(s) else Fail)
    ensures RoundAnswers(src, pat, p, s, caps, depth, o, caps, depth)
  {
    TokensStep(pat, p);
    assert Tokens(pat, p + 1) == [] && Depth(src, [], s, caps) == 0;
  }

  lemma BalanceRound(src: seq<byte>, pat: seq<byte>, p: nat, s: nat, caps: seq<Cap>, depth: nat, r: Result)
    requires p < |pat| && pat[p] == ESC && CharAt(pat, p + 1) == 'b' as int && s <= |src|
    requires p + 3 >= |pat| ==> r == Error(MissingBalance)
    requires p + 3 < |pat| ==>
               r == if CharAt(src, s) != pat[p + 2] then Fail
                    else match BalanceEnd(src, s + 1, pat[p + 2], pat[p + 3], 1)
                         case None => Fail
                         case Some(e) => Found(e)
    ensures RoundAnswers(src, pat, p, s, caps, depth, if r.Found? then Goto(r.e, p + 4) else Stop(r), caps, depth)
  {
    TokensStep(pat, p);
  }

  lemma BackRound(src: seq<byte>, pat: seq<byte>, p: nat, s: nat, caps: seq<Cap>, depth: nat, r: Result)
    requires p < |pat| && pat[p] == ESC && IsDigit(CharAt(pat, p + 1)) && s <= |src|
    requires var l := CharAt(pat, p + 1) - '1' as int;
             r == if l < 0 || l >= |caps| || caps[l].len == CAP_UNFINISHED then Error(BadCaptureIndex)
                  else if Repeats(src, caps[l], s) then Found(s + caps[l].len) else Fail
    ensures RoundAnswers(src, pat, p, s, caps, depth, if r.Found? then Goto(r.e, p + 2) else Stop(r), caps, depth)
  {
    TokensStep(pat, p);
  }

  /** '%f' and a set, whose last character is before `ep`. */
  lemma FrontierRound(src: seq<byte>, pat: seq<byte>, p: nat, ep: nat, s: nat, caps: seq<Cap>, depth: nat, there: bool)
    requires p < |pat| && pat[p] == ESC && CharAt(pat, p + 1) == 'f' as int && s <= |src|
    requires CharAt(pat, p + 2) == '[' as int && ClassEnd(pat, p + 2) == End(ep)
    requires there == AtFrontier(src, SetAt(pat, p + 2, ep - 1), s)
    ensures RoundAnswers(src, pat, p, s, caps, depth, if there then Goto(s, ep) else Stop(Fail), caps, depth)
  {
    hide InClass, SetAt, ClassEnd, ItemAt;
    TokensStep(pat, p);
  }

  /** '%f' without a set, or with one that does not end. */
  lemma FrontierStop(src: seq<byte>, pat: seq<byte>, p: nat, s: nat, caps: seq<Cap>, depth: nat, err: Error)
    requires p < |pat| && pat[p] == ESC && CharAt(pat, p + 1) == 'f' as int
    requires if CharAt(pat, p + 2) != '[' as int then err == MissingFrontier else ClassEnd(pat, p + 2) == BadEnd(err)
    ensures RoundAnswers(src, pat, p, s, caps, depth, Stop(Error(err)), caps, depth)
  {
    hide InClass, SetAt, ItemAt;
    TokensStep(pat, p);
  }

  lemma ItemToken(pat: seq<byte>, p: nat)
    requires p < |pat| && pat[p] != '(' as int && pat[p] != ')' as int && !(pat[p] == '$' as int && p + 1 == |pat|)
    requires pat[p] == ESC ==> CharAt(pat, p + 1) != 'b' as int && CharAt(pat, p + 1) != 'f' as int && !IsDigit(CharAt(pat, p + 1))
    ensures TokenAt(pat, p) == ItemAt(pat, p)
  {
  }

  /** The pattern has a class with its suffix at `p`, and the class ends at `ep`. */
  ghost predicate ItemHere(pat: seq<byte>, p: nat, ep: nat) {
    p < |pat| && TokenAt(pat, p) == ItemAt(pat, p) && ClassEnd(pat, p) == End(ep)
  }

  lemma ItemEnd(src: seq<byte>, pat: seq<byte>, p: nat, s: nat, caps: seq<Cap>, depth: nat, end: EndResult)
    requires p < |pat| && TokenAt(pat, p) == ItemAt(pat, p) && end == ClassEnd(pat, p)
    ensures end.End? ==> ItemHere(pat, p, end.ep) && p < end.ep <= |pat|
    ensures end.BadEnd? ==> RoundAnswers(src, pat, p, s, caps, depth, Stop(Error(end.err)), caps, depth)
  {
    TokensStep(pat, p);
  }

  /** Not even one character matches. */
  lemma NoneRound(src: seq<byte>, pat: seq<byte>, p: nat, ep: nat, s: nat, caps: seq<Cap>, depth: nat)
    requires ItemHere(pat, p, ep) && s <= |src| && !At(src, ClassAt(pat, p, ep), s)
    ensures if CharAt(pat, ep) == '*' as int || CharAt(pat, ep) == '?' as int || CharAt(pat, ep) == '-' as int
            then RoundAnswers(src, pat, p, s, caps, depth, Goto(s, ep + 1), caps, depth)
            else RoundAnswers(src, pat, p, s, caps, depth, Stop(Fail), caps, depth)
  {
    hide Matches, Tokens, Greedy, Ascending, ClassAt, RunLength, Depth;
    TokensStep(pat, p);
    ItemIs(pat, p, ep);
    NoneMatches(src, Tokens(pat, p), ClassAt(pat, p, ep), s, caps);
  }

  lemma ItemIs(pat: seq<byte>, p: nat, ep: nat)
    requires ItemHere(pat, p, ep)
    ensures TokenAt(pat, p) == (Suffixed(ClassAt(pat, p, ep), CharAt(pat, ep)), if IsSuffix(CharAt(pat, ep)) then ep + 1 else ep)
    ensures IsSuffix(CharAt(pat, ep)) ==> ep + 1 <= |pat|
  {
  }

  /** The item at the front does not match even once. */
  lemma NoneMatches(src: seq<byte>, toks: seq<Token>, k: Class, s: nat, caps: seq<Cap>)
    requires toks != [] && !At(src, k, s)
    ensures toks[0] == Star(k) || toks[0] == Opt(k) || toks[0] == Lazy(k) ==>
              Matches(src, toks, s, caps) == Matches(src, toks[1..], s, caps) && Depth(src, toks, s, caps) == Depth(src, toks[1..], s, caps)
    ensures toks[0] == One(k) || toks[0] == Plus(k) ==> Matches(src, toks, s, caps) == [] && Depth(src, toks, s, caps) == 0
  {
    var rest := toks[1..];
    assert RunLength(src, k, s) == 0;
    assert Greedy(src, rest, s, 0, caps) == Matches(src, rest, s, caps);
    assert Ascending(src, k, rest, s, caps) == Matches(src, rest, s, caps);
  }

  lemma OneRound(src: seq<byte>, pat: seq<byte>, p: nat, ep: nat, s: nat, caps: seq<Cap>, depth: nat)
    requires ItemHere(pat, p, ep) && At(src, ClassAt(pat, p, ep), s) && !IsSuffix(CharAt(pat, ep))
    ensures RoundAnswers(src, pat, p, s, caps, depth, Goto(s + 1, ep), caps, depth)
  {
    TokensStep(pat, p);
  }

  lemma OptRound(src: seq<byte>, pat: seq<byte>, p: nat, ep: nat, s: nat, caps: seq<Cap>, depth: nat, r: Result, caps': seq<Cap>, depth': nat)
    requires ItemHere(pat, p, ep) && At(src, ClassAt(pat, p, ep), s) && CharAt(pat, ep) == '?' as int
    requires Answers(src, Tokens(pat, ep + 1), s + 1, caps, depth, r, caps', depth')
    ensures RoundAnswers(src, pat, p, s, caps, depth, if r.Fail? then Goto(s, ep + 1) else Stop(r), caps', depth')
  {
    hide Matches, Tokens, TokenAt, Greedy, Ascending, ClassAt, RunLength, Depth;
    TokensStep(pat, p);
    ItemIs(pat, p, ep);
    OptMatches(src, Tokens(pat, p), ClassAt(pat, p, ep), s, caps);
  }

  lemma OptMatches(src: seq<byte>, toks: seq<Token>, k: Class, s: nat, caps: seq<Cap>)
    requires toks != [] && toks[0] == Opt(k) && At(src, k, s)
    ensures Matches(src, toks, s, caps) == Matches(src, toks[1..], s + 1, caps) + Matches(src, toks[1..], s, caps)
    ensures Depth(src, toks, s, caps) ==
            Max(1 + Depth(src, toks[1..], s + 1, caps),
                if Matches(src, toks[1..], s + 1, caps) == [] then Depth(src, toks[1..], s, caps) else 0)
  {
  }

  /** The repetitions of an item that matches at least once. */
  lemma RunMatches(src: seq<byte>, toks: seq<Token>, k: Class, s: nat, caps: seq<Cap>)
    requires toks != [] && At(src, k, s)
    ensures toks[0] == Star(k) ==>
              var n := RunLength(src, k, s);
              Matches(src, toks, s, caps) == Greedy(src, toks[1..], s, n, caps) && Depth(src, toks, s, caps) == GreedyDepth(src, toks[1..], s, n, caps)
    ensures toks[0] == Plus(k) ==>
              var n := RunLength(src, k, s + 1);
              Matches(src, toks, s, caps) == Greedy(src, toks[1..], s + 1, n, caps) && Depth(src, toks, s, caps) == GreedyDepth(src, toks[1..], s + 1, n, caps)
    ensures toks[0] == Lazy(k) ==>
              Matches(src, toks, s, caps) == Ascending(src, k, toks[1..], s, caps) && Depth(src, toks, s, caps) == AscendingDepth(src, k, toks[1..], s, caps)
  {
  }

  lemma PlusRound(src: seq<byte>, pat: seq<byte>, p: nat, ep: nat, s: nat, caps: seq<Cap>, depth: nat, r: Result, caps': seq<Cap>, depth': nat)
    requires ItemHere(pat, p, ep) && At(src, ClassAt(pat, p, ep), s) && CharAt(pat, ep) == '+' as int
    requires var rest, n := Tokens(pat, ep + 1), RunLength(src, ClassAt(pat, p, ep), s + 1);
             ListAnswers(Greedy(src, rest, s + 1, n, caps), depth < GreedyDepth(src, rest, s + 1, n, caps), caps, depth, r, caps', depth')
    ensures RoundAnswers(src, pat, p, s, caps, depth, Stop(r), caps', depth')
  {
    hide Matches, Tokens, TokenAt, Greedy, Ascending, ClassAt, RunLength, Depth, GreedyDepth, AscendingDepth;
    TokensStep(pat, p);
    ItemIs(pat, p, ep);
    RunMatches(src, Tokens(pat, p), ClassAt(pat, p, ep), s, caps);
  }

  lemma StarRound(src: seq<byte>, pat: seq<byte>, p: nat, ep: nat, s: nat, caps: seq<Cap>, depth: nat, r: Result, caps': seq<Cap>, depth': nat)
    requires ItemHere(pat, p, ep) && At(src, ClassAt(pat, p, ep), s) && CharAt(pat, ep) == '*' as int
    requires var rest, n := Tokens(pat, ep + 1), RunLength(src, ClassAt(pat, p, ep), s);
             ListAnswers(Greedy(src, rest, s, n, caps), depth < GreedyDepth(src, rest, s, n, caps), caps, depth, r, caps', depth')
    ensures RoundAnswers(src, pat, p, s, caps, depth, Stop(r), caps', depth')
  {
    hide Matches, Tokens, TokenAt, Greedy, Ascending, ClassAt, RunLength, Depth, GreedyDepth, AscendingDepth;
    TokensStep(pat, p);
    ItemIs(pat, p, ep);
    RunMatches(src, Tokens(pat, p), ClassAt(pat, p, ep), s, caps);
  }

  lemma LazyRound(src: seq<byte>, pat: seq<byte>, p: nat, ep: nat, s: nat, caps: seq<Cap>, depth: nat, r: Result, caps': seq<Cap>, depth': nat)
    requires ItemHere(pat, p, ep) && At(src, ClassAt(pat, p, ep), s) && CharAt(pat, ep) == '-' as int
    requires var rest, k := Tokens(pat, ep + 1), ClassAt(pat, p, ep);
             ListAnswers(Ascending(src, k, rest, s, caps), depth < AscendingDepth(src, k, rest, s, caps), caps, depth, r, caps', depth')
    ensures RoundAnswers(src, pat, p, s, caps, depth, Stop(r), caps', depth')
  {
    hide Matches, Tokens, TokenAt, Greedy, Ascending, ClassAt, RunLength, Depth, GreedyDepth, AscendingDepth;
    TokensStep(pat, p);
    ItemIs(pat, p, ep);
    RunMatches(src, Tokens(pat, p), ClassAt(pat, p, ep), s, caps);
  }
}
