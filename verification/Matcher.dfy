/** lstrlib.c: the backtracking pattern matcher. */
module Matcher {
  import opened Options
  import opened Patterns
  import opened MatchFacts

  const MAXCCALLS: nat := 200

  class MatchState {
    const src: seq<byte>
    const pat: seq<byte>
    var matchdepth: nat
    var level: nat
    const capture: array<Cap>

    ghost predicate Valid()
      reads this, capture
    {
      capture.Length == MAXCAPTURES && level <= capture.Length
    }

    /** The captures made so far. */
    ghost function Caps(): seq<Cap>
      reads this, capture
      requires Valid()
    {
      capture[..level]
    }

    /** `prepstate` and `reprepstate`. */
    constructor (src: seq<byte>, pat: seq<byte>)
      ensures Valid() && Caps() == [] && this.src == src && this.pat == pat && matchdepth == MAXCCALLS && fresh(capture)
    {
      this.src, this.pat := src, pat;
      matchdepth, level := MAXCCALLS, 0;
      capture := new Cap[MAXCAPTURES](_ => Cap(0, 0));
    }

    /** The captures as a sequence. */
    method Copy() returns (caps: seq<Cap>)
      requires Valid()
      ensures caps == Caps()
    {
      return capture[..level];
    }

    // ----- single characters ------------------------------------------------------------------------

    /** `classend`. */
    method FindClassEnd(p0: nat) returns (r: EndResult)
      requires p0 < |pat|
      ensures r == ClassEnd(pat, p0)
    {
      var p := p0 + 1;
      if pat[p0] == ESC {
        if p == |pat| {
          return BadEnd(EndsWithEscape);
        }
        return End(p + 1);
      } else if pat[p0] == '[' as int {
        if CharAt(pat, p) == '^' as int {
          p := p + 1;
        }
        while true
          invariant ClassEnd(pat, p0) == SetEnd(pat, p) && p <= |pat|
          decreases |pat| - p
        {
          if p == |pat| {
            return BadEnd(MissingBracket);
          }
          var c := pat[p];
          p := p + 1;
          if c == ESC && p < |pat| {
            p := p + 1;
          }
          if CharAt(pat, p) == ']' as int {
            return End(p + 1);
          }
        }
      } else {
        return End(p);
      }
    }

    /** `match_class`. */
    method MatchClass(c: int, cl: int) returns (b: bool)
      ensures b == InLetter(c, cl)
    {
      var l := ToLower(cl);
      var res;
      if l == 'a' as int { res := IsAlpha(c); }
      else if l == 'c' as int { res := IsCntrl(c); }
      else if l == 'd' as int { res := IsDigit(c); }
      else if l == 'g' as int { res := IsGraph(c); }
      else if l == 'l' as int { res := IsLower(c); }
      else if l == 'p' as int { res := IsPunct(c); }
      else if l == 's' as int { res := IsSpace(c); }
      else if l == 'u' as int { res := IsUpper(c); }
      else if l == 'w' as int { res := IsAlnum(c); }
      else if l == 'x' as int { res := IsXDigit(c); }
      else if l == 'z' as int { res := c == 0; }
      else { return cl == c; }
      return if IsLower(cl) then res else !res;
    }

    /** `matchbracketclass`: the set from the bracket at `p0` to the one at `ec`. */
    method MatchBracketClass(c: int, p0: nat, ec: nat) returns (b: bool)
      ensures b == InClass(c, SetAt(pat, p0, ec))
    {
      hide InLetter, InClass, SetAt, SetElems, InSet;
      SetSign(c, pat, p0, ec);
      var p, sig := p0, true;
      if CharAt(pat, p + 1) == '^' as int {
        sig := false;
        p := p + 1;
      }
      p := p + 1;
      ghost var inside := InSet(c, pat, p, ec);
      while p < ec
        invariant InSet(c, pat, p, ec) == inside
        decreases ec - p
      {
        SetStep(c, pat, p, ec);
        if CharAt(pat, p) == ESC {
          p := p + 1;
          var m := MatchClass(c, CharAt(pat, p));
          if m {
            return sig;
          }
        } else if CharAt(pat, p + 1) == '-' as int && p + 2 < ec {
          p := p + 2;
          if CharAt(pat, p - 2) <= c <= CharAt(pat, p) {
            return sig;
          }
        } else if CharAt(pat, p) == c {
          return sig;
        }
        p := p + 1;
      }
      SetStep(c, pat, p, ec);
      return !sig;
    }

    /** `singlematch`. */
    method SingleMatch(s: nat, p: nat, ep: nat) returns (b: bool)
      requires p < |pat| && ep > 0
      ensures b == At(src, ClassAt(pat, p, ep), s)
    {
      if s >= |src| {
        return false;
      }
      var c := src[s];
      if pat[p] == '.' as int {
        return true;
      } else if pat[p] == ESC {
        b := MatchClass(c, CharAt(pat, p + 1));
      } else if pat[p] == '[' as int {
        b := MatchBracketClass(c, p, ep - 1);
      } else {
        return pat[p] == c;
      }
    }

    /** `matchbalance`. */
    method MatchBalance(s0: nat, p: nat) returns (r: Result)
      requires p <= |pat| && s0 <= |src|
      ensures p + 1 >= |pat| ==> r == Error(MissingBalance)
      ensures p + 1 < |pat| ==>
                r == if CharAt(src, s0) != pat[p] then Fail
                     else match BalanceEnd(src, s0 + 1, pat[p], pat[p + 1], 1)
                          case None => Fail
                          case Some(e) => Found(e)
      ensures p + 1 < |pat| ==> forall m: nat :: r == Found(m) <==> Balanced(src, s0, m, pat[p], pat[p + 1])
    {
      if p + 1 >= |pat| {
        return Error(MissingBalance);
      }
      BalanceAll(src, s0, pat[p], pat[p + 1]);
      if CharAt(src, s0) != pat[p] {
        return Fail;
      }
      var b, e := pat[p], pat[p + 1];
      var cont, s := 1, s0 + 1;
      while s < |src|
        invariant BalanceEnd(src, s, b, e, cont) == BalanceEnd(src, s0 + 1, b, e, 1)
        decreases |src| - s
      {
        if src[s] == e {
          cont := cont - 1;
          if cont == 0 {
            return Found(s + 1);
          }
        } else if src[s] == b {
          cont := cont + 1;
        }
        s := s + 1;
      }
      return Fail;
    }

    // ----- captures -----------------------------------------------------------------------------------

    /** `capture_to_close`. */
    method CaptureToClose() returns (l: Option<nat>)
      requires Valid()
      ensures l == LastOpen(Caps())
    {
      var i := level;
      assert Caps()[..i] == Caps();
      while i > 0
        invariant 0 <= i <= level && LastOpen(Caps()) == LastOpen(Caps()[..i])
      {
        i := i - 1;
        assert Caps()[..i + 1][..i] == Caps()[..i] && Caps()[..i + 1][i] == capture[i];
        if capture[i].len == CAP_UNFINISHED {
          return Some(i);
        }
      }
      return None;
    }

    /** `match_capture`. */
    method MatchCapture(s: nat, digit: int) returns (r: Result)
      requires Valid() && s <= |src|
      ensures var l := digit - '1' as int;
              r == if l < 0 || l >= level || Caps()[l].len == CAP_UNFINISHED then Error(BadCaptureIndex)
                   else if Repeats(src, Caps()[l], s) then Found(s + Caps()[l].len) else Fail
    {
      var l := digit - '1' as int;
      if l < 0 || l >= level || capture[l].len == CAP_UNFINISHED {
        return Error(BadCaptureIndex);
      }
      var c := capture[l];
      if c.len < 0 {
        return Fail;  // a position: its length, taken as unsigned, exceeds any string
      }
      if |src| - s >= c.len && c.init + c.len <= |src| && src[c.init..c.init + c.len] == src[s..s + c.len] {
        return Found(s + c.len);
      }
      return Fail;
    }

    // ----- matching ----------------------------------------------------------------------------------------

    /** `match`: one level of recursion. `goto init` is the loop. */
    method DoMatch(s0: nat, p0: nat) returns (r: Result)
      requires Valid() && s0 <= |src| && p0 <= |pat|
      modifies this, capture
      ensures Valid()
      ensures Answers(src, Tokens(pat, p0), s0, old(Caps()), old(matchdepth), r, Caps(), matchdepth)
      decreases |pat| - p0, 3
    {
      if matchdepth == 0 {
        return Error(TooComplex);
      }
      matchdepth := matchdepth - 1;
      ghost var caps := Caps();
      var s: nat, p: nat := s0, p0;
      while p < |pat|
        invariant Valid() && s <= |src| && p0 <= p <= |pat| && Caps() == caps == old(Caps()) && matchdepth == old(matchdepth) - 1
        invariant Matches(src, Tokens(pat, p), s, caps) == Matches(src, Tokens(pat, p0), s0, caps)
        invariant matchdepth < Depth(src, Tokens(pat, p), s, caps) <==> matchdepth < Depth(src, Tokens(pat, p0), s0, caps)
        decreases |pat| - p
      {
        var o := DoRound(s, p);
        match o {
        case Goto(s', p') =>
          s, p := s', p';
        case Stop(r') =>
          if !r'.Error? {
            matchdepth := matchdepth + 1;
          }
          return r';
        }
      }
      matchdepth := matchdepth + 1;
      return Found(s);
    }

    /** The switch in `match`. */
    method DoRound(s: nat, p: nat) returns (o: Round)
      requires Valid() && s <= |src| && p < |pat|
      modifies this, capture
      ensures Valid()
      ensures RoundAnswers(src, pat, p, s, old(Caps()), old(matchdepth), o, Caps(), matchdepth)
      decreases |pat| - p, 2
    {
      hide Matches, Tokens, TokenAt, Depth, ListAnswers, RoundAnswers;
      ghost var caps, depth := Caps(), matchdepth;
      var c, d := pat[p], CharAt(pat, p + 1);
      if c == '(' as int {
        var r;
        if d == ')' as int {
          r := StartCapture(s, p + 2, CAP_POSITION);
        } else {
          r := StartCapture(s, p + 1, CAP_UNFINISHED);
        }
        OpenRound(src, pat, p, s, caps, depth, r, Caps(), matchdepth);
        return Stop(r);
      } else if c == ')' as int {
        var r := EndCapture(s, p + 1);
        CloseRound(src, pat, p, s, caps, depth, r, Caps(), matchdepth);
        return Stop(r);
      } else if c == '$' as int && p + 1 == |pat| {
        o := Stop(if s == |src| then Found(s) else Fail);
        EndRound(src, pat, p, s, caps, depth, o);
      } else if c == ESC && d == 'b' as int {
        var r := MatchBalance(s, p + 2);
        BalanceRound(src, pat, p, s, caps, depth, r);
        return if r.Found? then Goto(r.e, p + 4) else Stop(r);
      } else if c == ESC && d == 'f' as int {
        o := DoFrontier(s, p);
      } else if c == ESC && IsDigit(d) {
        var r := MatchCapture(s, d);
        BackRound(src, pat, p, s, caps, depth, r);
        return if r.Found? then Goto(r.e, p + 2) else Stop(r);
      } else {
        ItemToken(pat, p);
        o := DoItem(s, p);
      }
    }

    /** The case '%f'. */
    method DoFrontier(s: nat, p: nat) returns (o: Round)
      requires Valid() && s <= |src| && p < |pat| && pat[p] == ESC && CharAt(pat, p + 1) == 'f' as int
      ensures RoundAnswers(src, pat, p, s, Caps(), matchdepth, o, Caps(), matchdepth)
    {
      hide RoundAnswers, SetAt, InClass, ClassEnd;
      if CharAt(pat, p + 2) != '[' as int {
        FrontierStop(src, pat, p, s, Caps(), matchdepth, MissingFrontier);
        return Stop(Error(MissingFrontier));
      }
      var r := FindClassEnd(p + 2);
      if r.BadEnd? {
        FrontierStop(src, pat, p, s, Caps(), matchdepth, r.err);
        return Stop(Error(r.err));
      }
      var previous := if s == 0 then 0 else CharAt(src, s - 1);
      var before := MatchBracketClass(previous, p + 2, r.ep - 1);
      var after := MatchBracketClass(CharAt(src, s), p + 2, r.ep - 1);
      FrontierRound(src, pat, p, r.ep, s, Caps(), matchdepth, !before && after);
      return if !before && after then Goto(s, r.ep) else Stop(Fail);
    }

    /** The default case: a pattern class plus optional suffix. */
    method DoItem(s: nat, p: nat) returns (o: Round)
      requires Valid() && s <= |src| && p < |pat| && TokenAt(pat, p) == ItemAt(pat, p)
      modifies this, capture
      ensures Valid()
      ensures RoundAnswers(src, pat, p, s, old(Caps()), old(matchdepth), o, Caps(), matchdepth)
      decreases |pat| - p, 1
    {
      hide Matches, Tokens, TokenAt, Depth, ListAnswers, RoundAnswers, Greedy, Ascending, ClassAt, ClassEnd;
      ghost var caps, depth := Caps(), matchdepth;
      var end := FindClassEnd(p);
      ItemEnd(src, pat, p, s, caps, depth, end);
      if end.BadEnd? {
        return Stop(Error(end.err));
      }
      var ep := end.ep;
      var suffix := CharAt(pat, ep);
      var once := SingleMatch(s, p, ep);
      if !once {
        NoneRound(src, pat, p, ep, s, caps, depth);
        if suffix == '*' as int || suffix == '?' as int || suffix == '-' as int {
          return Goto(s, ep + 1);
        }
        return Stop(Fail);
      }
      if suffix == '?' as int {
        var r := DoMatch(s + 1, ep + 1);
        OptRound(src, pat, p, ep, s, caps, depth, r, Caps(), matchdepth);
        return if r.Fail? then Goto(s, ep + 1) else Stop(r);
      } else if suffix == '+' as int {
        var r := MaxExpand(s + 1, p, ep);
        PlusRound(src, pat, p, ep, s, caps, depth, r, Caps(), matchdepth);
        return Stop(r);
      } else if suffix == '*' as int {
        var r := MaxExpand(s, p, ep);
        StarRound(src, pat, p, ep, s, caps, depth, r, Caps(), matchdepth);
        return Stop(r);
      } else if suffix == '-' as int {
        var r := MinExpand(s, p, ep);
        LazyRound(src, pat, p, ep, s, caps, depth, r, Caps(), matchdepth);
        return Stop(r);
      } else {
        OneRound(src, pat, p, ep, s, caps, depth);
        return Goto(s + 1, ep);
      }
    }

    /** The first loop of `max_expand`: the longest run of the class. */
    method CountRun(s: nat, p: nat, ep: nat) returns (i: nat)
      requires p < |pat| && ep > 0 && s <= |src|
      ensures i == RunLength(src, ClassAt(pat, p, ep), s)
    {
      ghost var k := ClassAt(pat, p, ep);
      i := 0;
      var more := SingleMatch(s, p, ep);
      while more
        invariant i <= RunLength(src, k, s) && more == At(src, k, s + i)
        decreases RunLength(src, k, s) - i
      {
        RunStep(src, k, s, i);
        i := i + 1;
        more := SingleMatch(s + i, p, ep);
      }
      RunStep(src, k, s, i);
    }

    /** `max_expand`: as many repetitions as possible, then fewer. */
    method MaxExpand(s: nat, p: nat, ep: nat) returns (r: Result)
      requires Valid() && s <= |src| && p < ep < |pat|
      modifies this, capture
      ensures Valid()
      ensures var rest := Tokens(pat, ep + 1);
              var n := RunLength(src, ClassAt(pat, p, ep), s);
              ListAnswers(Greedy(src, rest, s, n, old(Caps())), old(matchdepth) < GreedyDepth(src, rest, s, n, old(Caps())),
                          old(Caps()), old(matchdepth), r, Caps(), matchdepth)
      decreases |pat| - ep - 1, 4
    {
      hide Matches, Tokens, Depth, Greedy, GreedyDepth, ClassAt, RunLength;
      ghost var rest, k, caps := Tokens(pat, ep + 1), ClassAt(pat, p, ep), Caps();
      var n := CountRun(s, p, ep);
      var i: int := n;
      while i >= 0
        invariant -1 <= i <= n && Valid() && Caps() == caps && matchdepth == old(matchdepth)
        invariant Greedy(src, rest, s, n, caps) == if i < 0 then [] else Greedy(src, rest, s, i, caps)
        invariant matchdepth < GreedyDepth(src, rest, s, n, caps) <==> i >= 0 && matchdepth < GreedyDepth(src, rest, s, i, caps)
        decreases i
      {
        r := DoMatch(s + i, ep + 1);
        GreedyDrop(src, rest, s, i, caps);
        if !r.Fail? {
          return r;
        }
        i := i - 1;
      }
      return Fail;
    }

    /** `min_expand`: as few repetitions as possible, then more. */
    method MinExpand(s0: nat, p: nat, ep: nat) returns (r: Result)
      requires Valid() && s0 <= |src| && p < ep < |pat|
      modifies this, capture
      ensures Valid()
      ensures var rest := Tokens(pat, ep + 1);
              var k := ClassAt(pat, p, ep);
              ListAnswers(Ascending(src, k, rest, s0, old(Caps())), old(matchdepth) < AscendingDepth(src, k, rest, s0, old(Caps())),
                          old(Caps()), old(matchdepth), r, Caps(), matchdepth)
      decreases |pat| - ep - 1, 4
    {
      hide Matches, Tokens, Depth, Ascending, AscendingDepth, ClassAt;
      ghost var rest, k, caps := Tokens(pat, ep + 1), ClassAt(pat, p, ep), Caps();
      var s := s0;
      while true
        invariant Valid() && s <= |src| && Caps() == caps && matchdepth == old(matchdepth)
        invariant Ascending(src, k, rest, s0, caps) == Ascending(src, k, rest, s, caps)
        invariant matchdepth < AscendingDepth(src, k, rest, s0, caps) <==> matchdepth < AscendingDepth(src, k, rest, s, caps)
        decreases |src| - s
      {
        r := DoMatch(s, ep + 1);
        AscendingDrop(src, k, rest, s, caps);
        if !r.Fail? {
          return r;
        }
        var more := SingleMatch(s, p, ep);
        if !more {
          return Fail;
        }
        s := s + 1;
      }
    }

    /** `start_capture`. */
    method StartCapture(s: nat, p: nat, what: int) returns (r: Result)
      requires Valid() && s <= |src| && p <= |pat|
      modifies this, capture
      ensures Valid()
      ensures var rest := Tokens(pat, p);
              var caps := old(Caps()) + [Cap(s, what)];
              if |old(Caps())| >= MAXCAPTURES then r == Error(TooManyCaptures)
              else ListAnswers(Matches(src, rest, s, caps), old(matchdepth) <= Depth(src, rest, s, caps),
                               old(Caps()), old(matchdepth), r, Caps(), matchdepth)
      decreases |pat| - p, 4
    {
      if level >= MAXCAPTURES {
        return Error(TooManyCaptures);
      }
      ghost var caps := Caps();
      capture[level] := Cap(s, what);
      level := level + 1;
      assert Caps() == caps + [Cap(s, what)];
      r := DoMatch(s, p);
      if r.Fail? {
        level := level - 1;
        assert Caps() == caps;
      }
    }

    /** `end_capture`. */
    method EndCapture(s: nat, p: nat) returns (r: Result)
      requires Valid() && s <= |src| && p <= |pat|
      modifies this, capture
      ensures Valid()
      ensures var rest, caps := Tokens(pat, p), old(Caps());
              match LastOpen(caps)
              case None => r == Error(NothingToClose)
              case Some(l) =>
                var closed := caps[l := Cap(caps[l].init, s - caps[l].init)];
                ListAnswers(Matches(src, rest, s, closed), old(matchdepth) <= Depth(src, rest, s, closed),
                            caps, old(matchdepth), r, Caps(), matchdepth)
      decreases |pat| - p, 4
    {
      var l := CaptureToClose();
      if l.None? {
        return Error(NothingToClose);
      }
      ghost var caps := Caps();
      var i := l.value;
      capture[i] := Cap(capture[i].init, s - capture[i].init);
      assert Caps() == caps[i := Cap(caps[i].init, s - caps[i].init)];
      r := DoMatch(s, p);
      if r.Fail? {
        capture[i] := Cap(capture[i].init, CAP_UNFINISHED);
        assert Caps() == caps;
      }
    }
  }
}
