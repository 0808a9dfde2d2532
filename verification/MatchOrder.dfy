/** Which of all possible matches is the one answered (section 6.4.1 of the Lua 5.3 Reference Manual): '*' and
    '+' take as many characters as they can, '-' as few, '?' one if it can. */
module MatchOrder {
  import opened Options
  import opened Patterns

  ghost predicate Possible(src: seq<byte>, toks: seq<Token>, s: nat, caps: seq<Cap>) {
    exists e, caps' :: Derives(src, toks, s, caps, e, caps')
  }

  /** Like `Derives`, with every repetition as long, or as short, as the rest of the pattern allows. */
  ghost predicate Chosen(src: seq<byte>, toks: seq<Token>, s: nat, caps: seq<Cap>, e: nat, caps': seq<Cap>)
    decreases |toks|
  {
    if toks == [] then e == s && caps' == caps
    else
      var rest := toks[1..];
      match toks[0]
      case Malformed(_) => false
      case Open => |caps| < MAXCAPTURES && Chosen(src, rest, s, caps + [Cap(s, CAP_UNFINISHED)], e, caps')
      case Position => |caps| < MAXCAPTURES && Chosen(src, rest, s, caps + [Cap(s, CAP_POSITION)], e, caps')
      case Close =>
        LastOpen(caps).Some? &&
        Chosen(src, rest, s, caps[LastOpen(caps).value := Cap(caps[LastOpen(caps).value].init, s - caps[LastOpen(caps).value].init)], e, caps')
      case AtEnd => s == |src| && Chosen(src, rest, s, caps, e, caps')
      case Balance(b, c) =>
        CharAt(src, s) == b && BalanceEnd(src, s + 1, b, c, 1).Some? &&
        Chosen(src, rest, BalanceEnd(src, s + 1, b, c, 1).value, caps, e, caps')
      case Frontier(k) => AtFrontier(src, k, s) && Chosen(src, rest, s, caps, e, caps')
      case Back(d) =>
        var l := d - '1' as int;
        0 <= l < |caps| && caps[l].len != CAP_UNFINISHED && Repeats(src, caps[l], s) && Chosen(src, rest, s + caps[l].len, caps, e, caps')
      case One(k) => At(src, k, s) && Chosen(src, rest, s + 1, caps, e, caps')
      case Opt(k) =>
        if At(src, k, s) && Possible(src, rest, s + 1, caps) then Chosen(src, rest, s + 1, caps, e, caps')
        else Chosen(src, rest, s, caps, e, caps')
      case Star(k) => exists m: nat :: s <= m && MostIn(src, k, rest, s, m, caps) && Chosen(src, rest, m, caps, e, caps')
      case Plus(k) => exists m: nat :: s < m && MostIn(src, k, rest, s, m, caps) && Chosen(src, rest, m, caps, e, caps')
      case Lazy(k) => exists m: nat :: s <= m && FewestIn(src, k, rest, s, m, caps) && Chosen(src, rest, m, caps, e, caps')
  }

  /** The characters from `s` up to `m` are in the class, and after no more of them could the rest match. */
  ghost predicate MostIn(src: seq<byte>, k: Class, rest: seq<Token>, s: nat, m: nat, caps: seq<Cap>) {
    AllIn(src, k, s, m) && forall x: nat :: m < x && AllIn(src, k, s, x) ==> !Possible(src, rest, x, caps)
  }

  ghost predicate FewestIn(src: seq<byte>, k: Class, rest: seq<Token>, s: nat, m: nat, caps: seq<Cap>) {
    AllIn(src, k, s, m) && forall x: nat :: s <= x < m ==> !Possible(src, rest, x, caps)
  }

  ghost predicate HeadIs(l: seq<Match>, e: nat, caps': seq<Cap>) { l != [] && l[0] == Match(e, caps') }

  lemma EmptyImpossible(src: seq<byte>, toks: seq<Token>, s: nat, caps: seq<Cap>)
    requires Matches(src, toks, s, caps) == []
    ensures !Possible(src, toks, s, caps)
  {
    if e, caps' :| Derives(src, toks, s, caps, e, caps') {
      MatchesDerive(src, toks, s, caps, e, caps');
    }
  }

  lemma HeadPossible(src: seq<byte>, toks: seq<Token>, s: nat, caps: seq<Cap>, e: nat, caps': seq<Cap>)
    requires HeadIs(Matches(src, toks, s, caps), e, caps')
    ensures Possible(src, toks, s, caps)
  {
    MatchesDerive(src, toks, s, caps, e, caps');
  }

  /** The rest of the pattern matches at no position from `lo` up to `hi`. */
  ghost predicate NoneAt(src: seq<byte>, rest: seq<Token>, lo: int, hi: int, caps: seq<Cap>) {
    forall x: nat :: lo <= x < hi ==> Matches(src, rest, x, caps) == []
  }

  /** Where the first match of a list of attempts comes from. */
  lemma {:induction false} GreedyHead(src: seq<byte>, rest: seq<Token>, s: nat, n: nat, caps: seq<Cap>, e: nat, caps': seq<Cap>) returns (m: nat)
    requires HeadIs(Greedy(src, rest, s, n, caps), e, caps')
    ensures s <= m <= s + n && HeadIs(Matches(src, rest, m, caps), e, caps') && NoneAt(src, rest, m + 1, s + n + 1, caps)
  {
    hide Matches;
    if Matches(src, rest, s + n, caps) != [] {
      m := s + n;
    } else {
      EmptyFirst(Matches(src, rest, s + n, caps), if n == 0 then [] else Greedy(src, rest, s, n - 1, caps));
      m := GreedyHead(src, rest, s, n - 1, caps, e, caps');
    }
  }

  lemma EmptyFirst(a: seq<Match>, b: seq<Match>)
    requires a == []
    ensures a + b == b
  {
  }

  lemma {:induction false} AscendingHead(src: seq<byte>, k: Class, rest: seq<Token>, s: nat, caps: seq<Cap>, e: nat, caps': seq<Cap>) returns (m: nat)
    requires HeadIs(Ascending(src, k, rest, s, caps), e, caps')
    ensures s <= m && HeadIs(Matches(src, rest, m, caps), e, caps') && AllIn(src, k, s, m) && NoneAt(src, rest, s, m, caps)
    decreases |src| - s
  {
    hide Matches, AllIn, InClass, NoneAt;
    NoneYet(src, k, rest, s, caps);
    if Matches(src, rest, s, caps) != [] {
      m := s;
    } else {
      AscendingStep(src, k, rest, s, caps);
      m := AscendingHead(src, k, rest, s + 1, caps, e, caps');
      NoneMore(src, k, rest, s, m, caps);
    }
  }

  lemma AscendingStep(src: seq<byte>, k: Class, rest: seq<Token>, s: nat, caps: seq<Cap>)
    requires Matches(src, rest, s, caps) == []
    ensures Ascending(src, k, rest, s, caps) == if At(src, k, s) then Ascending(src, k, rest, s + 1, caps) else []
  {
    hide Matches, InClass;
    EmptyFirst(Matches(src, rest, s, caps), if At(src, k, s) then Ascending(src, k, rest, s + 1, caps) else []);
  }

  lemma NoneYet(src: seq<byte>, k: Class, rest: seq<Token>, s: nat, caps: seq<Cap>)
    ensures AllIn(src, k, s, s) && NoneAt(src, rest, s, s, caps)
  {
  }

  lemma NoneMore(src: seq<byte>, k: Class, rest: seq<Token>, s: nat, m: nat, caps: seq<Cap>)
    requires Matches(src, rest, s, caps) == [] && At(src, k, s) && AllIn(src, k, s + 1, m) && NoneAt(src, rest, s + 1, m, caps)
    ensures AllIn(src, k, s, m) && NoneAt(src, rest, s, m, caps)
  {
    hide Matches, InClass;
  }

  lemma MostFrom(src: seq<byte>, k: Class, rest: seq<Token>, s: nat, s1: nat, m: nat, caps: seq<Cap>)
    requires s <= s1 <= m <= s1 + RunLength(src, k, s1) && AllIn(src, k, s, s1)
    requires NoneAt(src, rest, m + 1, s1 + RunLength(src, k, s1) + 1, caps)
    ensures MostIn(src, k, rest, s, m, caps)
  {
    hide Matches, Possible;
    var r := RunLength(src, k, s1);
    forall x: nat | m < x && AllIn(src, k, s, x) ensures !Possible(src, rest, x, caps) {
      assert !At(src, k, s1 + r);
      EmptyImpossible(src, rest, x, caps);
    }
  }

  lemma FewestFrom(src: seq<byte>, k: Class, rest: seq<Token>, s: nat, m: nat, caps: seq<Cap>)
    requires AllIn(src, k, s, m) && NoneAt(src, rest, s, m, caps)
    ensures FewestIn(src, k, rest, s, m, caps)
  {
    hide Matches, Possible;
    forall x: nat | s <= x < m ensures !Possible(src, rest, x, caps) {
      EmptyImpossible(src, rest, x, caps);
    }
  }

  /** The match that comes first is the chosen one. */
  lemma {:induction false} FirstChosen(src: seq<byte>, toks: seq<Token>, s: nat, caps: seq<Cap>, e: nat, caps': seq<Cap>)
    requires HeadIs(Matches(src, toks, s, caps), e, caps')
    ensures Chosen(src, toks, s, caps, e, caps')
    decreases |toks|, 1
  {
    if toks != [] {
      match toks[0]
      case Opt(_) => OptChosen(src, toks, s, caps, e, caps');
      case Star(_) => StarChosen(src, toks, s, caps, e, caps');
      case Plus(_) => PlusChosen(src, toks, s, caps, e, caps');
      case Lazy(_) => LazyChosen(src, toks, s, caps, e, caps');
      case _ => SingleChosen(src, toks, s, caps, e, caps');
    }
  }

  /** Items that match in one way at most. */
  lemma {:induction false} SingleChosen(src: seq<byte>, toks: seq<Token>, s: nat, caps: seq<Cap>, e: nat, caps': seq<Cap>)
    requires toks != [] && !toks[0].Opt? && !toks[0].Star? && !toks[0].Plus? && !toks[0].Lazy?
    requires HeadIs(Matches(src, toks, s, caps), e, caps')
    ensures Chosen(src, toks, s, caps, e, caps')
    decreases |toks|, 0
  {
    var rest := toks[1..];
    match toks[0]
    case Open => FirstChosen(src, rest, s, caps + [Cap(s, CAP_UNFINISHED)], e, caps');
    case Position => FirstChosen(src, rest, s, caps + [Cap(s, CAP_POSITION)], e, caps');
    case Close =>
      var l := LastOpen(caps).value;
      FirstChosen(src, rest, s, caps[l := Cap(caps[l].init, s - caps[l].init)], e, caps');
    case AtEnd => FirstChosen(src, rest, s, caps, e, caps');
    case Balance(b, c) => FirstChosen(src, rest, BalanceEnd(src, s + 1, b, c, 1).value, caps, e, caps');
    case Frontier(_) => FirstChosen(src, rest, s, caps, e, caps');
    case Back(d) => FirstChosen(src, rest, s + caps[d - '1' as int].len, caps, e, caps');
    case One(_) => FirstChosen(src, rest, s + 1, caps, e, caps');
    case Malformed(_) =>
  }

  lemma {:induction false} StarChosen(src: seq<byte>, toks: seq<Token>, s: nat, caps: seq<Cap>, e: nat, caps': seq<Cap>)
    requires toks != [] && toks[0].Star? && HeadIs(Matches(src, toks, s, caps), e, caps')
    ensures Chosen(src, toks, s, caps, e, caps')
    decreases |toks|, 0
  {
    var k, rest := toks[0].k, toks[1..];
    assert Matches(src, toks, s, caps) == Greedy(src, rest, s, RunLength(src, k, s), caps);
    var m := GreedyHead(src, rest, s, RunLength(src, k, s), caps, e, caps');
    MostFrom(src, k, rest, s, s, m, caps);
    FirstChosen(src, rest, m, caps, e, caps');
    hide Matches, MostIn;
  }

  lemma {:induction false} PlusChosen(src: seq<byte>, toks: seq<Token>, s: nat, caps: seq<Cap>, e: nat, caps': seq<Cap>)
    requires toks != [] && toks[0].Plus? && HeadIs(Matches(src, toks, s, caps), e, caps')
    ensures Chosen(src, toks, s, caps, e, caps')
    decreases |toks|, 0
  {
    var k, rest := toks[0].k, toks[1..];
    assert At(src, k, s) && Matches(src, toks, s, caps) == Greedy(src, rest, s + 1, RunLength(src, k, s + 1), caps);
    var m := GreedyHead(src, rest, s + 1, RunLength(src, k, s + 1), caps, e, caps');
    MostFrom(src, k, rest, s, s + 1, m, caps);
    FirstChosen(src, rest, m, caps, e, caps');
    hide Matches, MostIn;
  }

  lemma {:induction false} LazyChosen(src: seq<byte>, toks: seq<Token>, s: nat, caps: seq<Cap>, e: nat, caps': seq<Cap>)
    requires toks != [] && toks[0].Lazy? && HeadIs(Matches(src, toks, s, caps), e, caps')
    ensures Chosen(src, toks, s, caps, e, caps')
    decreases |toks|, 0
  {
    var k, rest := toks[0].k, toks[1..];
    assert Matches(src, toks, s, caps) == Ascending(src, k, rest, s, caps);
    var m := AscendingHead(src, k, rest, s, caps, e, caps');
    FewestFrom(src, k, rest, s, m, caps);
    FirstChosen(src, rest, m, caps, e, caps');
    hide Matches, FewestIn;
  }

  lemma {:induction false} OptChosen(src: seq<byte>, toks: seq<Token>, s: nat, caps: seq<Cap>, e: nat, caps': seq<Cap>)
    requires toks != [] && toks[0].Opt? && HeadIs(Matches(src, toks, s, caps), e, caps')
    ensures Chosen(src, toks, s, caps, e, caps')
    decreases |toks|, 0
  {
    var rest := toks[1..];
    if At(src, toks[0].k, s) && Matches(src, rest, s + 1, caps) != [] {
      assert Matches(src, toks, s, caps)[0] == Matches(src, rest, s + 1, caps)[0];
      HeadPossible(src, rest, s + 1, caps, e, caps');
      FirstChosen(src, rest, s + 1, caps, e, caps');
    } else {
      if At(src, toks[0].k, s) { EmptyImpossible(src, rest, s + 1, caps); }
      assert Matches(src, toks, s, caps) == Matches(src, rest, s, caps);
      FirstChosen(src, rest, s, caps, e, caps');
    }
  }

  lemma {:induction false} ChosenDerives(src: seq<byte>, toks: seq<Token>, s: nat, caps: seq<Cap>, e: nat, caps': seq<Cap>)
    requires Chosen(src, toks, s, caps, e, caps')
    ensures Derives(src, toks, s, caps, e, caps')
    decreases |toks|
  {
    if toks != [] {
      var rest := toks[1..];
      match toks[0]
      case Open => ChosenDerives(src, rest, s, caps + [Cap(s, CAP_UNFINISHED)], e, caps');
      case Position => ChosenDerives(src, rest, s, caps + [Cap(s, CAP_POSITION)], e, caps');
      case Close =>
        var l := LastOpen(caps).value;
        LastOpenLast(caps);
        ChosenDerives(src, rest, s, caps[l := Cap(caps[l].init, s - caps[l].init)], e, caps');
      case AtEnd => ChosenDerives(src, rest, s, caps, e, caps');
      case Balance(b, c) => ChosenDerives(src, rest, BalanceEnd(src, s + 1, b, c, 1).value, caps, e, caps');
      case Frontier(_) => ChosenDerives(src, rest, s, caps, e, caps');
      case Back(d) => ChosenDerives(src, rest, s + caps[d - '1' as int].len, caps, e, caps');
      case One(_) => ChosenDerives(src, rest, s + 1, caps, e, caps');
      case Opt(k) =>
        if At(src, k, s) && Possible(src, rest, s + 1, caps) {
          ChosenDerives(src, rest, s + 1, caps, e, caps');
        } else {
          ChosenDerives(src, rest, s, caps, e, caps');
        }
      case Star(k) =>
        var m: nat :| s <= m && MostIn(src, k, rest, s, m, caps) && Chosen(src, rest, m, caps, e, caps');
        ChosenDerives(src, rest, m, caps, e, caps');
      case Plus(k) =>
        var m: nat :| s < m && MostIn(src, k, rest, s, m, caps) && Chosen(src, rest, m, caps, e, caps');
        ChosenDerives(src, rest, m, caps, e, caps');
      case Lazy(k) =>
        var m: nat :| s <= m && FewestIn(src, k, rest, s, m, caps) && Chosen(src, rest, m, caps, e, caps');
        ChosenDerives(src, rest, m, caps, e, caps');
    }
  }

  /** There is at most one chosen match. */
  lemma {:induction false} ChosenOnce(src: seq<byte>, toks: seq<Token>, s: nat, caps: seq<Cap>, e: nat, c: seq<Cap>, f: nat, d: seq<Cap>)
    requires Chosen(src, toks, s, caps, e, c) && Chosen(src, toks, s, caps, f, d)
    ensures e == f && c == d
    decreases |toks|, 0
  {
    if toks != [] {
      var rest := toks[1..];
      match toks[0]
      case Open => ChosenOnce(src, rest, s, caps + [Cap(s, CAP_UNFINISHED)], e, c, f, d);
      case Position => ChosenOnce(src, rest, s, caps + [Cap(s, CAP_POSITION)], e, c, f, d);
      case Close =>
        var l := LastOpen(caps).value;
        ChosenOnce(src, rest, s, caps[l := Cap(caps[l].init, s - caps[l].init)], e, c, f, d);
      case AtEnd => ChosenOnce(src, rest, s, caps, e, c, f, d);
      case Balance(b, x) => ChosenOnce(src, rest, BalanceEnd(src, s + 1, b, x, 1).value, caps, e, c, f, d);
      case Frontier(_) => ChosenOnce(src, rest, s, caps, e, c, f, d);
      case Back(x) => ChosenOnce(src, rest, s + caps[x - '1' as int].len, caps, e, c, f, d);
      case One(_) => ChosenOnce(src, rest, s + 1, caps, e, c, f, d);
      case Opt(k) =>
        ChosenOnce(src, rest, if At(src, k, s) && Possible(src, rest, s + 1, caps) then s + 1 else s, caps, e, c, f, d);
      case Star(k) => RepeatOnce(src, k, rest, s, caps, e, c, f, d);
      case Plus(k) => RepeatOnce(src, k, rest, s, caps, e, c, f, d);
      case Lazy(k) => LazyOnce(src, k, rest, s, caps, e, c, f, d);
    }
  }

  lemma {:induction false} RepeatOnce(src: seq<byte>, k: Class, rest: seq<Token>, s: nat, caps: seq<Cap>, e: nat, c: seq<Cap>, f: nat, d: seq<Cap>)
    requires exists m: nat :: s <= m && MostIn(src, k, rest, s, m, caps) && Chosen(src, rest, m, caps, e, c)
    requires exists m: nat :: s <= m && MostIn(src, k, rest, s, m, caps) && Chosen(src, rest, m, caps, f, d)
    ensures e == f && c == d
    decreases |rest|, 1
  {
    var m: nat :| s <= m && MostIn(src, k, rest, s, m, caps) && Chosen(src, rest, m, caps, e, c);
    var n: nat :| s <= n && MostIn(src, k, rest, s, n, caps) && Chosen(src, rest, n, caps, f, d);
    ChosenDerives(src, rest, m, caps, e, c);
    ChosenDerives(src, rest, n, caps, f, d);
    assert Possible(src, rest, m, caps) && Possible(src, rest, n, caps);
    ChosenOnce(src, rest, m, caps, e, c, f, d);
  }

  lemma {:induction false} LazyOnce(src: seq<byte>, k: Class, rest: seq<Token>, s: nat, caps: seq<Cap>, e: nat, c: seq<Cap>, f: nat, d: seq<Cap>)
    requires exists m: nat :: s <= m && FewestIn(src, k, rest, s, m, caps) && Chosen(src, rest, m, caps, e, c)
    requires exists m: nat :: s <= m && FewestIn(src, k, rest, s, m, caps) && Chosen(src, rest, m, caps, f, d)
    ensures e == f && c == d
    decreases |rest|, 1
  {
    var m: nat :| s <= m && FewestIn(src, k, rest, s, m, caps) && Chosen(src, rest, m, caps, e, c);
    var n: nat :| s <= n && FewestIn(src, k, rest, s, n, caps) && Chosen(src, rest, n, caps, f, d);
    ChosenDerives(src, rest, m, caps, e, c);
    ChosenDerives(src, rest, n, caps, f, d);
    assert Possible(src, rest, m, caps) && Possible(src, rest, n, caps);
    ChosenOnce(src, rest, m, caps, e, c, f, d);
  }

  /** When the search meets no error first, its answer is the chosen match and no other. */
  lemma FirstExactly(src: seq<byte>, toks: seq<Token>, s: nat, caps: seq<Cap>, e: nat, caps': seq<Cap>)
    requires Matches(src, toks, s, caps) != [] ==> Matches(src, toks, s, caps)[0].Match?
    ensures HeadIs(Matches(src, toks, s, caps), e, caps') <==> Chosen(src, toks, s, caps, e, caps')
  {
    var l := Matches(src, toks, s, caps);
    if Chosen(src, toks, s, caps, e, caps') {
      ChosenDerives(src, toks, s, caps, e, caps');
      MatchesDerive(src, toks, s, caps, e, caps');
      FirstChosen(src, toks, s, caps, l[0].e, l[0].caps);
      ChosenOnce(src, toks, s, caps, e, caps', l[0].e, l[0].caps);
    } else if HeadIs(l, e, caps') {
      FirstChosen(src, toks, s, caps, e, caps');
    }
  }
}
