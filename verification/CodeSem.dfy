/** What each step of the code generator does to the meaning of the code generated so far. */
module CodeSem {
  import opened LuaCode
  import opened CodeJumps
  import opened ExpSem

  ghost function Out(env: Env, g: Gen, P: set<int>, R: Regs): Outcome {
    Run(Full(env, g, P), 0, R)
  }

  // ----- runs after each kind of change -------------------------------------------------------------

  /** Only links of open jumps, the list of jumps to here and the target mark changed. */
  ghost predicate Relinked(g: Gen, g': Gen, S: set<int>) {
    && g' == g.(code := g'.code, jpc := g'.jpc, lasttarget := g'.lasttarget) && |g'.code| == |g.code|
    && forall q :: 0 <= q < |g.code| ==> g'.code[q] == g.code[q] || (q in S && g.code[q].Jmp? && g'.code[q].Jmp?)
  }

  lemma RelinkedFramed(g: Gen, g': Gen, S: set<int>, P: set<int>)
    requires Relinked(g, g', S) && S !! P
    ensures Framed(g, g', P)
  {
  }

  lemma LinkOut(env: Env, g: Gen, g': Gen, P: set<int>)
    requires GenOK(env, g, P) && Relinked(g, g', Jumps(g.code, g.jpc) + P) && g'.lasttarget == g.lasttarget && g'.jpc == g.jpc
    requires IsList(g'.code, g'.jpc) && Jumps(g'.code, g'.jpc) == Jumps(g.code, g.jpc)
    ensures GenOK(env, g', P) && forall R :: Out(env, g', P, R) == Out(env, g, P, R)
  {
    LinksWF(Full(env, g, P), Full(env, g', P));
    forall R ensures Out(env, g', P, R) == Out(env, g, P, R) {
      RunLinks(Full(env, g, P), Full(env, g', P), 0, R);
    }
  }

  /** The jumps `S` were added to the jumps to here. */
  lemma HereOut(env: Env, g: Gen, g': Gen, P: set<int>, S: set<int>)
    requires GenOK(env, g, P) && S <= P && Relinked(g, g', Jumps(g.code, g.jpc) + S) && g'.lasttarget == |g.code|
    requires IsList(g'.code, g'.jpc) && Jumps(g'.code, g'.jpc) == Jumps(g.code, g.jpc) + S
    ensures GenOK(env, g', P - S) && forall R :: Out(env, g', P - S, R) == Arrive(S, Out(env, g, P, R))
    ensures Framed(g, g', P - S)
  {
    var m, m' := Full(env, g, P), Full(env, g', P - S);
    var l := ToHere(m, S);
    HereWF(m, S);
    assert SameButLinks(l, m');
    LinksWF(l, m');
    RelinkedFramed(g, g', Jumps(g.code, g.jpc) + S, P - S);
    forall R ensures Out(env, g', P - S, R) == Arrive(S, Out(env, g, P, R)) {
      RunHere(m, S, 0, R);
      RunLinks(l, m', 0, R);
    }
  }

  lemma EmitOut(env: Env, g: Gen, g': Gen, P: set<int>, N: set<int>)
    requires GenOK(env, g, P) && Emitted(g, g') && SuffixOK(env, g, g', P, N)
    requires g'.nactvar <= g'.freereg < MAXREGS
    ensures GenOK(env, g', P + N) && Framed(g, g', P)
    ensures forall R :: Out(env, g', P + N, R) == OnFall(Full(env, g', P + N), |g.code|, Out(env, g, P, R))
  {
    EmitOK(env, g, g', P, N);
    forall R ensures Out(env, g', P + N, R) == OnFall(Full(env, g', P + N), |g.code|, Out(env, g, P, R)) {
      RunExtend(Full(env, g, P), Full(env, g', P + N), 0, R);
    }
  }

  /** The jumps `S` were patched. */
  lemma SettleOut(env: Env, g: Gen, g': Gen, P: set<int>, S: set<int>, vtarget: int, reg: nat, dtarget: int)
    requires GenOK(env, g, P) && TargetsOK(Full(env, g, P), S, vtarget, dtarget)
    requires g' == g.(code := Patched(g.code, S, vtarget, reg, dtarget))
    requires vtarget <= g.lasttarget && dtarget <= g.lasttarget
    ensures GenOK(env, g', P - S) && Framed(g, g', P - S)
    ensures forall R :: Out(env, g', P - S, R) == Land(Full(env, g, P), S, vtarget, reg, dtarget, Out(env, g, P, R))
  {
    var m := Full(env, g, P);
    SettledWF(m, S, vtarget, reg, dtarget);
    ListChain(g.code, g.jpc);
    assert forall j :: j in Jumps(g.code, g.jpc) ==> g'.code[j] == g.code[j];
    ListSame(g.code, g'.code, g.jpc);
    assert Settled(m, S, vtarget, reg, dtarget) == Full(env, g', P - S);
    forall R ensures Out(env, g', P - S, R) == Land(m, S, vtarget, reg, dtarget, Out(env, g, P, R)) {
      RunSettled(m, S, vtarget, reg, dtarget, 0, R);
    }
  }

  /** Code without its last instructions, when no jump leads into or behind them. */
  function Cut(g: Gen, n: nat): Gen
    requires n <= |g.code|
  {
    g.(code := g.code[..n])
  }

  lemma CutOK(env: Env, g: Gen, P: set<int>, Q: set<int>, n: nat)
    requires GenOK(env, g, P) && g.jpc == NO_JUMP && g.lasttarget <= n < |g.code|
    requires n > 0 ==> !IsTest(g.code[n - 1]) && !g.code[n - 1].LoadKX? && !(g.code[n - 1].LoadBool? && g.code[n - 1].skip)
    requires Q <= P && (forall q :: q in P && q < n ==> q in Q) && forall q :: q in Q ==> q < n
    ensures GenOK(env, Cut(g, n), Q) && Extends(Full(env, Cut(g, n), Q), Full(env, g, P))
    ensures forall R :: Out(env, g, P, R) == OnFall(Full(env, g, P), n, Out(env, Cut(g, n), Q, R))
  {
    var c := Cut(g, n);
    NoList(g.code);
    NoList(c.code);
    var m, m' := Full(env, g, P), Full(env, c, Q);
    forall q | 0 <= q < n ensures InstrOK(m', q) {
      assert InstrOK(m, q);
      if q + 1 < |g.code| { assert InstrOK(m, q + 1); }
    }
    PatchedNone(c.code, n, NO_REG, n);
    assert Extends(m', m);
    forall R ensures Out(env, g, P, R) == OnFall(m, n, Out(env, c, Q, R)) {
      RunExtend(m', m, 0, R);
    }
  }

  // ----- single instructions ------------------------------------------------------------------------------

  /** Instructions that just put a value into a register. */
  predicate Plain(i: Instr) {
    i.Move? || i.LoadK? || (i.LoadBool? && !i.skip) || Relocatable(i)
  }

  lemma RunPlain(m: Prog, n: nat, R: Regs)
    requires n + 1 == |m.code| && Plain(m.code[n])
    ensures Run(m, n, R) == Fall(Set(R, m.code[n].a, InstrValue(m.env, m.k, m.code[n], R)))
  {
  }

  lemma RunTest(m: Prog, n: nat, R: Regs)
    requires n + 2 == |m.code| && IsTest(m.code[n]) && m.code[n + 1].Jmp? && n + 1 in m.pend && n + 1 !in m.here
    requires m.code[n].TestSet? ==> m.code[n].a == NO_REG
    ensures Run(m, n, R) == if Holds(m.env, m.k, m.code[n], R) then At(n + 1, R) else Fall(R)
  {
  }

  // ----- putting a value into a register --------------------------------------------------------------------

  function LoadOut(env: Env, g: Gen, e: ExpDesc, reg: nat, o: Outcome): Outcome
    requires KindOK(g, e.k)
  {
    if o.Fall? then Fall(Set(o.regs, reg, ValueOf(env, g, e, o.regs))) else o
  }

  /** The value was put into `reg`; the lists are as before. */
  lemma LoadedMeans(env: Env, before: Prog, g: Gen, P: set<int>, e: ExpDesc, a: Expr, fr: nat, g': Gen, reg: nat)
    requires ExpOK(env, g, P, e) && Means(env, before, g, P, e, a, fr) && !e.k.VJmp? && fr <= reg < MAXREGS && reg < g'.freereg
    requires var PE := P + TList(g, e) + FList(g, e);
             GenOK(env, g', PE) && Framed(g, g', PE) &&
             forall R :: Out(env, g', PE, R) == LoadOut(env, g, e, reg, Run(Base(env, g, P, e), 0, R))
    ensures var e' := ExpDesc(VNonReloc(reg), e.t, e.f);
            ExpOK(env, g', P, e') && Means(env, before, g', P, e', a, fr) && TList(g', e') == TList(g, e) && FList(g', e') == FList(g, e)
  {
    var PE := P + TList(g, e) + FList(g, e);
    var e' := ExpDesc(VNonReloc(reg), e.t, e.f);
    FramedList(g, g', PE, e.t);
    FramedList(g, g', PE, e.f);
    assert PE + Own(e') == PE;
    forall R: Regs ensures Good(env, g', e', a, fr, Run(before, 0, R), Run(Base(env, g', P, e'), 0, R)) {
      var o0, o := Run(before, 0, R), Run(Base(env, g, P, e), 0, R);
      assert Good(env, g, e, a, fr, o0, o);
      assert Run(Base(env, g', P, e'), 0, R) == Out(env, g', PE, R);
      GoodCarries(env, g, g', P, e, e', a, fr, o0, o);
    }
  }

  /** Jumps say the same in the new code. */
  lemma GoodCarries(env: Env, g: Gen, g': Gen, P: set<int>, e: ExpDesc, e': ExpDesc, a: Expr, fr: nat, o0: Outcome, o: Outcome)
    requires ExpOK(env, g, P, e) && KindOK(g', e'.k) && Framed(g, g', P + TList(g, e) + FList(g, e))
    requires TList(g', e') == TList(g, e) && FList(g', e') == FList(g, e)
    requires Good(env, g, e, a, fr, o0, o)
    ensures o.At? ==> Good(env, g', e', a, fr, o0, o)
    ensures !o.At? && !o.Fall? ==> Good(env, g', e', a, fr, o0, o)
  {
  }

  /** A relocatable instruction gets its destination. */
  lemma LoadByRelocation(env: Env, g: Gen, P: set<int>, e: ExpDesc, g': Gen, reg: nat)
    requires ExpOK(env, g, P, e) && e.k.VReloc? && reg < MAXREGS
    requires e.k.pc < |g'.code| && Relocatable(g'.code[e.k.pc]) && g' == g.(code := g.code[e.k.pc := g'.code[e.k.pc]])
    requires g'.code[e.k.pc].a == reg
    requires match g.code[e.k.pc]
             case GetUpval(_, u) => g'.code[e.k.pc] == GetUpval(reg, u)
             case Arith(op, _, b, c) => g'.code[e.k.pc] == Arith(op, reg, b, c)
             case Unary(op, _, b) => g'.code[e.k.pc] == Unary(op, reg, b)
             case Not(_, b) => g'.code[e.k.pc] == Not(reg, b)
             case _ => true
    ensures var PE := P + TList(g, e) + FList(g, e);
            GenOK(env, g', PE) && Framed(g, g', PE) &&
            forall R :: Out(env, g', PE, R) == LoadOut(env, g, e, reg, Run(Base(env, g, P, e), 0, R))
  {
    var PE, n := P + TList(g, e) + FList(g, e), e.k.pc;
    assert PE + Own(e) == PE;
    RelocGen(env, g, PE, g', n);
    RelocCut(env, g, PE, n);
    RelocCut(env, g', PE, n);
    assert Cut(g', n) == Cut(g, n);
    NoList(Cut(g, n).code);
    assert Base(env, g, P, e) == Full(env, Cut(g, n), PE);
    forall R ensures Out(env, g', PE, R) == LoadOut(env, g, e, reg, Run(Base(env, g, P, e), 0, R)) {
      var o := Out(env, Cut(g, n), PE, R);
      if o.Fall? { RunPlain(Full(env, g', PE), n, o.regs); }
    }
  }

  lemma RelocGen(env: Env, g: Gen, P: set<int>, g': Gen, n: nat)
    requires GenOK(env, g, P) && n + 1 == |g.code| && Relocatable(g.code[n]) && g.jpc == NO_JUMP
    requires n < |g'.code| && Relocatable(g'.code[n]) && g' == g.(code := g.code[n := g'.code[n]])
    requires g'.code[n].Arith? ==> g.code[n].Arith? && g'.code[n].b == g.code[n].b && g'.code[n].c == g.code[n].c
    ensures GenOK(env, g', P) && Framed(g, g', P)
  {
    NoList(g.code);
    NoList(g'.code);
    var m, m' := Full(env, g, P), Full(env, g', P);
    forall q | 0 <= q < |g'.code| ensures InstrOK(m', q) {
      assert InstrOK(m, q);
      if q + 1 < |g.code| { assert InstrOK(m, q + 1); }
    }
  }

  /** The code in front of a relocatable instruction. */
  lemma RelocCut(env: Env, g: Gen, P: set<int>, n: nat)
    requires GenOK(env, g, P) && n + 1 == |g.code| && Relocatable(g.code[n]) && g.jpc == NO_JUMP && g.lasttarget <= n
    ensures GenOK(env, Cut(g, n), P)
    ensures forall R :: Out(env, g, P, R) == OnFall(Full(env, g, P), n, Out(env, Cut(g, n), P, R))
  {
    if n > 0 { assert InstrOK(Full(env, g, P), n - 1); }
    CutOK(env, g, P, P, n);
  }

  // ----- nil ------------------------------------------------------------------------------------------

  lemma RunNil(m: Prog, n: nat, R: Regs)
    requires n + 1 == |m.code| && m.code[n].LoadNil?
    ensures Run(m, n, R) == Fall(SetNils(R, m.code[n].a, m.code[n].n))
  {
  }

  lemma RegsEqual(R: Regs, S: Regs)
    requires forall r :: Get(R, r) == Get(S, r)
    ensures R == S
  {
    forall r | 0 <= r < |R| ensures R[r] == S[r] { assert Get(R, r) == Get(S, r); }
  }

  /** Two ranges that overlap or touch, cleared as one. */
  lemma NilsJoined(R: Regs, pfrom: nat, pn: nat, from: nat, n: nat)
    requires (pfrom <= from && from <= pfrom + pn + 1) || (from <= pfrom && pfrom <= from + n + 1)
    ensures var from' := if pfrom < from then pfrom else from;
            var l' := if pfrom + pn > from + n then pfrom + pn else from + n;
            SetNils(R, from', l' - from') == SetNils(SetNils(R, pfrom, pn), from, n)
  {
    var from' := if pfrom < from then pfrom else from;
    var l' := if pfrom + pn > from + n then pfrom + pn else from + n;
    var S, T := SetNils(R, from', l' - from'), SetNils(SetNils(R, pfrom, pn), from, n);
    forall r ensures Get(S, r) == Get(T, r) {
      SetNilsAt(R, from', l' - from', r);
      SetNilsAt(R, pfrom, pn, r);
      SetNilsAt(SetNils(R, pfrom, pn), from, n, r);
    }
    RegsEqual(S, T);
  }

  lemma MergeGen(env: Env, g: Gen, P: set<int>, g': Gen)
    requires GenOK(env, g, P) && |g.code| > 0 && g.code[|g.code| - 1].LoadNil? && g.jpc == NO_JUMP
    requires |g'.code| == |g.code| && g'.code[|g.code| - 1].LoadNil? && g' == g.(code := g.code[|g.code| - 1 := g'.code[|g.code| - 1]])
    ensures GenOK(env, g', P) && Framed(g, g', P)
  {
    NoList(g.code);
    NoList(g'.code);
    forall q | 0 <= q < |g'.code| ensures InstrOK(Full(env, g', P), q) {
      assert InstrOK(Full(env, g, P), q);
      if q + 1 < |g.code| { assert InstrOK(Full(env, g, P), q + 1); }
    }
  }

  lemma NilCut(env: Env, g: Gen, P: set<int>, n: nat)
    requires GenOK(env, g, P) && n + 1 == |g.code| && g.code[n].LoadNil? && g.jpc == NO_JUMP && g.lasttarget <= n
    ensures GenOK(env, Cut(g, n), P)
    ensures forall R :: Out(env, g, P, R) == OnFall(Full(env, g, P), n, Out(env, Cut(g, n), P, R))
  {
    if n > 0 { assert InstrOK(Full(env, g, P), n - 1); }
    CutOK(env, g, P, P, n);
  }

  // ----- branching ------------------------------------------------------------------------------------------

  /** The code since `before` decides whether `a` is true: it falls through when the truth value is `b`;
      otherwise, or when a value is settled, it takes a jump of the list that fits. */
  ghost predicate Splits(env: Env, before: Prog, g: Gen, P: set<int>, T: set<int>, F: set<int>, a: Expr, fr: nat, b: bool) {
    AtIn(before, P) && forall R: Regs :: SplitsOn(env, g, T, F, a, fr, b, Run(before, 0, R), Out(env, g, P + T + F, R))
  }

  ghost predicate SplitsOn(env: Env, g: Gen, T: set<int>, F: set<int>, a: Expr, fr: nat, b: bool, o0: Outcome, o1: Outcome) {
    match o0
    case Fall(R) =>
      var v := Eval(env, a, R);
      (match o1
       case Fall(R') => Agree(R, R', fr, -1) && Truthy(v) == b
       case At(j, R') =>
         Agree(R, R', fr, -1) && ((j in T && Carries(g.code, j, R', v, true)) || (j in F && Carries(g.code, j, R', v, false)))
       case _ => false)
    case _ => o1 == o0
  }

  function Negated(i: Instr): Instr
    requires i.Cmp?
  {
    Cmp(i.cop, !i.want, i.b, i.c)
  }

  /** One run through a test that jumps to `j` when the truth value of `e` is `cond`. */
  lemma SplitPoint(env: Env, g: Gen, P: set<int>, e: ExpDesc, a: Expr, fr: nat, g': Gen, j: int, cond: bool,
                   o0: Outcome, o: Outcome, o1: Outcome)
    requires ExpOK(env, g, P, e) && Framed(g, g', P + TList(g, e) + FList(g, e)) && Good(env, g, e, a, fr, o0, o)
    requires if !o.Fall? then o1 == o
             else var v := ValueOf(env, g, e, o.regs);
                  if Truthy(v) == cond then o1 == At(j, o.regs) && Carries(g'.code, j, o.regs, v, cond) else o1 == o
    ensures var T, F := TList(g, e), FList(g, e);
            SplitsOn(env, g', if cond then T + {j} else T, if cond then F else F + {j}, a, fr, !cond, o0, o1)
  {
  }

  /** A test-and-jump was appended after the value was put into register `r`. */
  lemma TestSplits(env: Env, before: Prog, g: Gen, P: set<int>, e: ExpDesc, a: Expr, fr: nat, g': Gen, cond: bool)
    requires ExpOK(env, g, P, e) && Means(env, before, g, P, e, a, fr) && e.k.VNonReloc?
    requires Emitted(g, g') && g'.nactvar <= g'.freereg < MAXREGS && |g'.code| == |g.code| + 2
    requires g'.code[|g.code|] == TestSet(NO_REG, e.k.info, cond) && g'.code[|g.code| + 1] == Jmp(NO_JUMP)
    ensures var T, F, N := TList(g, e), FList(g, e), {|g.code| + 1};
            GenOK(env, g', P + T + F + N) && Framed(g, g', P + T + F) && N !! P + T + F &&
            Splits(env, before, g', P, if cond then T + N else T, if cond then F else F + N, a, fr, !cond)
  {
    var T, F, N := TList(g, e), FList(g, e), {|g.code| + 1};
    var PE := P + T + F;
    assert PE + Own(e) == PE;
    PendInside(env, g, PE);
    EmitOut(env, g, g', PE, N);
    var T', F' := if cond then T + N else T, if cond then F else F + N;
    assert P + T' + F' == PE + N;
    assert AtIn(before, P);
    hide GenOK, Emitted, SuffixOK, WF, Run, Good, Jumps, IsList, AtIn;
    forall R: Regs ensures SplitsOn(env, g', T', F', a, fr, !cond, Run(before, 0, R), Out(env, g', P + T' + F', R)) {
      TestPoint(env, g, P, e, a, fr, g', cond, Run(before, 0, R), Out(env, g, PE, R), Out(env, g', PE + N, R));
    }
  }

  lemma TestPoint(env: Env, g: Gen, P: set<int>, e: ExpDesc, a: Expr, fr: nat, g': Gen, cond: bool,
                  o0: Outcome, o: Outcome, o1: Outcome)
    requires ExpOK(env, g, P, e) && Good(env, g, e, a, fr, o0, o) && e.k.VNonReloc?
    requires Framed(g, g', P + TList(g, e) + FList(g, e)) && |g'.code| == |g.code| + 2
    requires g'.code[|g.code|] == TestSet(NO_REG, e.k.info, cond) && g'.code[|g.code| + 1] == Jmp(NO_JUMP)
    requires var N := {|g.code| + 1};
             GenOK(env, g', P + TList(g, e) + FList(g, e) + N) &&
             o1 == OnFall(Full(env, g', P + TList(g, e) + FList(g, e) + N), |g.code|, o)
    ensures var T, F, N := TList(g, e), FList(g, e), {|g.code| + 1};
            SplitsOn(env, g', if cond then T + N else T, if cond then F else F + N, a, fr, !cond, o0, o1)
  {
    var m := Full(env, g', P + TList(g, e) + FList(g, e) + {|g.code| + 1});
    if o.Fall? { RunTest(m, |g.code|, o.regs) by { NotHere(m, |g.code| + 1); } }
    hide GenOK, WF;
    SplitPoint(env, g, P, e, a, fr, g', |g.code| + 1, cond, o0, o, o1);
  }

  lemma NotHere(m: Prog, j: int)
    requires WF(m) && j in m.pend
    ensures j !in m.here
  {
  }

  lemma PendInside(env: Env, g: Gen, P: set<int>)
    requires GenOK(env, g, P)
    ensures forall j :: j in P ==> 0 <= j < |g.code| && g.code[j].Jmp?
  {
  }

  /** `not x` just computed: its instruction is removed and `x` is tested the other way round. */
  lemma NotSplits(env: Env, before: Prog, g: Gen, P: set<int>, e: ExpDesc, a: Expr, fr: nat, g': Gen, cond: bool)
    requires ExpOK(env, g, P, e) && Means(env, before, g, P, e, a, fr) && e.k.VReloc? && g.code[e.k.pc].Not?
    requires Emitted(Cut(g, e.k.pc), g') && g'.nactvar <= g'.freereg < MAXREGS && |g'.code| == |g.code| + 1
    requires g'.code[e.k.pc] == Test(g.code[e.k.pc].b, !cond) && g'.code[e.k.pc + 1] == Jmp(NO_JUMP)
    ensures var T, F, N := TList(g, e), FList(g, e), {|g.code|};
            GenOK(env, g', P + T + F + N) && Framed(g, g', P + T + F) && N !! P + T + F &&
            Splits(env, before, g', P, if cond then T + N else T, if cond then F else F + N, a, fr, !cond)
  {
    var T, F, N, n := TList(g, e), FList(g, e), {|g.code|}, e.k.pc;
    var PE := P + T + F;
    assert PE + Own(e) == PE;
    PendInside(env, g, PE);
    RelocCut(env, g, PE, n);
    NoList(Cut(g, n).code);
    EmitOut(env, Cut(g, n), g', PE, N);
    CutFramed(g, g', PE, n);
    var T', F' := if cond then T + N else T, if cond then F else F + N;
    assert P + T' + F' == PE + N;
    assert AtIn(before, P);
    assert Base(env, g, P, e) == Full(env, Cut(g, n), PE);
    hide GenOK, Emitted, SuffixOK, WF, Run, Good, Jumps, IsList, AtIn, Framed;
    forall R: Regs ensures SplitsOn(env, g', T', F', a, fr, !cond, Run(before, 0, R), Out(env, g', P + T' + F', R)) {
      NotPoint(env, g, P, e, a, fr, g', cond, Run(before, 0, R), Out(env, Cut(g, n), PE, R), Out(env, g', PE + N, R));
    }
  }

  lemma NotPoint(env: Env, g: Gen, P: set<int>, e: ExpDesc, a: Expr, fr: nat, g': Gen, cond: bool,
                 o0: Outcome, o: Outcome, o1: Outcome)
    requires ExpOK(env, g, P, e) && Good(env, g, e, a, fr, o0, o) && e.k.VReloc? && g.code[e.k.pc].Not?
    requires Framed(g, g', P + TList(g, e) + FList(g, e)) && |g'.code| == |g.code| + 1
    requires g'.code[e.k.pc] == Test(g.code[e.k.pc].b, !cond) && g'.code[e.k.pc + 1] == Jmp(NO_JUMP)
    requires var N := {|g.code|};
             GenOK(env, g', P + TList(g, e) + FList(g, e) + N) &&
             o1 == OnFall(Full(env, g', P + TList(g, e) + FList(g, e) + N), e.k.pc, o)
    ensures var T, F, N := TList(g, e), FList(g, e), {|g.code|};
            SplitsOn(env, g', if cond then T + N else T, if cond then F else F + N, a, fr, !cond, o0, o1)
  {
    var m := Full(env, g', P + TList(g, e) + FList(g, e) + {|g.code|});
    if o.Fall? { RunTest(m, e.k.pc, o.regs) by { NotHere(m, |g.code|); } }
    hide GenOK, WF;
    SplitPoint(env, g, P, e, a, fr, g', |g.code|, cond, o0, o, o1);
  }

  lemma CutFramed(g: Gen, g': Gen, P: set<int>, n: nat)
    requires n < |g.code| && !g.code[n].Jmp? && Framed(Cut(g, n), g', P) && forall j :: j in P ==> 0 <= j < |g.code| && g.code[j].Jmp?
    requires n + 1 == |g.code|
    ensures Framed(g, g', P)
  {
  }

  /** A comparison already is a test with a jump. With the condition negated it jumps when false. */
  lemma JumpSplits(env: Env, before: Prog, g: Gen, P: set<int>, e: ExpDesc, a: Expr, fr: nat, g': Gen, cond: bool)
    requires ExpOK(env, g, P, e) && Means(env, before, g, P, e, a, fr) && e.k.VJmp?
    requires g' == if cond then g else g.(code := g.code[e.k.pc - 1 := Negated(g.code[e.k.pc - 1])])
    ensures var T, F, N := TList(g, e), FList(g, e), {e.k.pc};
            GenOK(env, g', P + T + F + N) && Framed(g, g', P + T + F) && N !! P + T + F &&
            Splits(env, before, g', P, if cond then T + N else T, if cond then F else F + N, a, fr, !cond)
  {
    hide ExpOK, GenOK, Framed, Run, Jumps, IsList, Good, AtIn;
    var T, F, N, n := TList(g, e), FList(g, e), {e.k.pc}, e.k.pc - 1;
    var PE := P + T + F;
    ExpApart(env, g, P, e);
    PendInside(env, g, PE + N);
    NegateGen(env, g, PE + N, g', n);
    CompareCut(env, g, PE, n);
    CompareCut(env, g', PE, n);
    NegateFramed(g, g', PE, n);
    assert Cut(g', n) == Cut(g, n);
    NoList(Cut(g, n).code);
    var T', F' := if cond then T + N else T, if cond then F else F + N;
    assert P + T' + F' == PE + N;
    assert Base(env, g, P, e) == Full(env, Cut(g, n), PE);
    forall R: Regs ensures SplitsOn(env, g', T', F', a, fr, !cond, Run(before, 0, R), Out(env, g', P + T' + F', R)) {
      JumpPoint(env, g, P, e, a, fr, g', cond, Run(before, 0, R), Out(env, Cut(g, n), PE, R), Out(env, g', PE + N, R));
    }
  }

  lemma JumpPoint(env: Env, g: Gen, P: set<int>, e: ExpDesc, a: Expr, fr: nat, g': Gen, cond: bool,
                  o0: Outcome, o: Outcome, o1: Outcome)
    requires ExpOK(env, g, P, e) && Good(env, g, e, a, fr, o0, o) && e.k.VJmp?
    requires g' == if cond then g else g.(code := g.code[e.k.pc - 1 := Negated(g.code[e.k.pc - 1])])
    requires Framed(g, g', P + TList(g, e) + FList(g, e))
    requires var N := {e.k.pc};
             GenOK(env, g', P + TList(g, e) + FList(g, e) + N) &&
             o1 == OnFall(Full(env, g', P + TList(g, e) + FList(g, e) + N), e.k.pc - 1, o)
    ensures var T, F, N := TList(g, e), FList(g, e), {e.k.pc};
            SplitsOn(env, g', if cond then T + N else T, if cond then F else F + N, a, fr, !cond, o0, o1)
  {
    hide GenOK, WF, Run, SplitsOn, IsList, Jumps;
    var PE := P + TList(g, e) + FList(g, e);
    ExpApart(env, g, P, e);
    JumpTaken(env, g, PE, e, g', cond, o);
    SplitPoint(env, g, P, e, a, fr, g', e.k.pc, cond, o0, o, o1);
  }

  lemma JumpTaken(env: Env, g: Gen, PE: set<int>, e: ExpDesc, g': Gen, cond: bool, o: Outcome)
    requires KindOK(g, e.k) && e.k.VJmp? && GenOK(env, g', PE + {e.k.pc})
    requires g' == if cond then g else g.(code := g.code[e.k.pc - 1 := Negated(g.code[e.k.pc - 1])])
    ensures var o1 := OnFall(Full(env, g', PE + {e.k.pc}), e.k.pc - 1, o);
            if !o.Fall? then o1 == o
            else var v := ValueOf(env, g, e, o.regs);
                 if Truthy(v) == cond then o1 == At(e.k.pc, o.regs) && Carries(g'.code, e.k.pc, o.regs, v, cond) else o1 == o
  {
    var m := Full(env, g', PE + {e.k.pc});
    if o.Fall? { RunTest(m, e.k.pc - 1, o.regs) by { NotHere(m, e.k.pc); } }
    hide GenOK, WF;
  }

  lemma NegateGen(env: Env, g: Gen, P: set<int>, g': Gen, n: nat)
    requires GenOK(env, g, P) && n + 2 == |g.code| && g.code[n].Cmp?
    requires g' == g || g' == g.(code := g.code[n := Negated(g.code[n])])
    requires g.jpc == NO_JUMP
    ensures GenOK(env, g', P)
  {
    NoList(g.code);
    NoList(g'.code);
    forall q | 0 <= q < |g'.code| ensures InstrOK(Full(env, g', P), q) {
      assert InstrOK(Full(env, g, P), q);
      if q + 1 < |g.code| { assert InstrOK(Full(env, g, P), q + 1); }
    }
  }

  lemma NegateFramed(g: Gen, g': Gen, P: set<int>, n: nat)
    requires n + 2 == |g.code| && g.code[n].Cmp? && n + 1 !in P
    requires g' == g || g' == g.(code := g.code[n := Negated(g.code[n])])
    requires forall j :: j in P ==> 0 <= j < |g.code| && g.code[j].Jmp?
    ensures Framed(g, g', P)
  {
  }

  /** The code in front of a comparison and its jump. */
  lemma CompareCut(env: Env, g: Gen, P: set<int>, n: nat)
    requires GenOK(env, g, P + {n + 1}) && n + 2 == |g.code| && g.code[n].Cmp? && g.code[n + 1].Jmp? && n + 1 !in P
    requires g.jpc == NO_JUMP && g.lasttarget <= n
    ensures GenOK(env, Cut(g, n), P)
    ensures forall R :: Out(env, g, P + {n + 1}, R) == OnFall(Full(env, g, P + {n + 1}), n, Out(env, Cut(g, n), P, R))
  {
    if n > 0 { assert InstrOK(Full(env, g, P + {n + 1}), n - 1); }
    PendInside(env, g, P + {n + 1});
    CutOK(env, g, P + {n + 1}, P, n);
  }

  /** A value that is known to be true or false needs no test. */
  lemma KnownSplits(env: Env, before: Prog, g: Gen, P: set<int>, e: ExpDesc, a: Expr, fr: nat, b: bool)
    requires ExpOK(env, g, P, e) && Means(env, before, g, P, e, a, fr)
    requires match e.k
             case VK(i) => b && Truthy(g.k[i])
             case VKFlt(_) => b
             case VKInt(_) => b
             case VTrue => b
             case VNil => !b
             case VFalse => !b
             case _ => false
    ensures Splits(env, before, g, P, TList(g, e), FList(g, e), a, fr, b)
  {
    var T, F := TList(g, e), FList(g, e);
    forall R: Regs ensures SplitsOn(env, g, T, F, a, fr, b, Run(before, 0, R), Out(env, g, P + T + F, R)) {
      assert Good(env, g, e, a, fr, Run(before, 0, R), Run(Base(env, g, P, e), 0, R));
    }
  }

  /** One of the two lists now leads to here; the other one is left. */
  lemma SplitHere(env: Env, before: Prog, g: Gen, P: set<int>, T: set<int>, F: set<int>, a: Expr, fr: nat, b: bool, g': Gen)
    requires GenOK(env, g, P + T + F) && Splits(env, before, g, P, T, F, a, fr, b) && T !! F && T !! P && F !! P
    requires var S := if b then T else F;
             && Relinked(g, g', Jumps(g.code, g.jpc) + S) && g'.lasttarget == |g.code|
             && IsList(g'.code, g'.jpc) && Jumps(g'.code, g'.jpc) == Jumps(g.code, g.jpc) + S
    ensures var T', F' := if b then {} else T, if b then F else {};
            && GenOK(env, g', P + T' + F') && Framed(g, g', P + T' + F') && Splits(env, before, g', P, T', F', a, fr, b)
  {
    var S := if b then T else F;
    var T', F' := if b then {} else T, if b then F else {};
    assert P + T + F - S == P + T' + F';
    HereOut(env, g, g', P + T + F, S);
    PendInside(env, g, P + T + F);
    forall R: Regs ensures SplitsOn(env, g', T', F', a, fr, b, Run(before, 0, R), Out(env, g', P + T' + F', R)) {
      var o0, o := Run(before, 0, R), Out(env, g, P + T + F, R);
      assert SplitsOn(env, g, T, F, a, fr, b, o0, o);
    }
  }

  // ----- and, or ------------------------------------------------------------------------------------------------

  /** The second operand was compiled behind the test of the first, and the lists joined. */
  lemma JoinedMeans(env: Env, before: Prog, g1: Gen, P: set<int>, L: set<int>, a: Expr, fr: nat, b: bool,
                    g2: Gen, e2: ExpDesc, a2: Expr, fr2: nat, g3: Gen, e3: ExpDesc)
    requires GenOK(env, g1, P + L) && L !! P && fr <= fr2
    requires Splits(env, before, g1, P, if b then {} else L, if b then L else {}, a, fr, b)
    requires ExpOK(env, g2, P + L, e2) && Means(env, Full(env, g1, P + L), g2, P + L, e2, a2, fr2) && Framed(g1, g2, P + L)
    requires ExprOK(a2, fr)
    requires g3 == g2.(code := g3.code) && Relinked(g2, g3, TList(g2, e2) + FList(g2, e2) + L)
    requires e3.k == e2.k && IsList(g3.code, e3.t) && IsList(g3.code, e3.f)
    requires TList(g3, e3) == (if b then TList(g2, e2) else TList(g2, e2) + L)
    requires FList(g3, e3) == (if b then FList(g2, e2) + L else FList(g2, e2))
    requires e2.k.VJmp? ==> g3.code[e2.k.pc] == g2.code[e2.k.pc]
    ensures ExpOK(env, g3, P, e3) && Means(env, before, g3, P, e3, if b then EAnd(a, a2) else EOr(a, a2), fr)
    ensures Framed(g2, g3, P)
  {
    hide GenOK, Framed, Relinked, Run, Jumps, IsList, Carries, Good, SplitsOn, ExpOK;
    var T2, F2, O := TList(g2, e2), FList(g2, e2), Own(e2);
    var PE := P + L + T2 + F2;
    ExpApart(env, g2, P + L, e2);
    assert P + TList(g3, e3) + FList(g3, e3) == PE;
    JoinedGen(env, g2, P, L, e2, g3, e3);
    JoinedBase(env, g2, P, L, e2, g3, e3);
    RelinkedCarries(g2, g3, T2 + F2 + L, T2 + F2);
    FramedCarries(g1, g2, P + L, L) by { PendInside(env, g1, P + L); }
    RelinkedCarries(g2, g3, T2 + F2 + L, L);
    CarriesBoth(g1, g2, g3, L);
    var expr := if b then EAnd(a, a2) else EOr(a, a2);
    forall R: Regs ensures Good(env, g3, e3, expr, fr, Run(before, 0, R), Run(Base(env, g3, P, e3), 0, R)) {
      var o0, o1, o2 := Run(before, 0, R), Out(env, g1, P + L, R), Run(Base(env, g2, P + L, e2), 0, R);
      assert P + (if b then {} else L) + (if b then L else {}) == P + L;
      assert SplitsOn(env, g1, if b then {} else L, if b then L else {}, a, fr, b, o0, o1);
      assert Good(env, g2, e2, a2, fr2, o1, o2);
      JoinedPoint(env, g1, P, L, a, fr, b, g2, e2, a2, fr2, g3, e3, o0, o1, o2);
    }
  }

  lemma CarriesTruth(code: seq<Instr>, j: int, R: Regs, v: Value, b: bool)
    ensures Carries(code, j, R, v, b) ==> Truthy(v) == b
  {
  }

  lemma CarriesBoth(g1: Gen, g2: Gen, g3: Gen, L: set<int>)
    requires forall j, R, v, c :: j in L && Carries(g1.code, j, R, v, c) ==> Carries(g2.code, j, R, v, c)
    requires forall j, R, v, c :: j in L && Carries(g2.code, j, R, v, c) ==> Carries(g3.code, j, R, v, c)
    ensures forall j, R, v, c :: j in L && Carries(g1.code, j, R, v, c) ==> Carries(g3.code, j, R, v, c)
  {
    hide Carries;
  }

  lemma JoinedPoint(env: Env, g1: Gen, P: set<int>, L: set<int>, a: Expr, fr: nat, b: bool,
                    g2: Gen, e2: ExpDesc, a2: Expr, fr2: nat, g3: Gen, e3: ExpDesc, o0: Outcome, o1: Outcome, o2: Outcome)
    requires fr <= fr2 && ExprOK(a2, fr) && KindOK(g2, e2.k) && KindOK(g3, e3.k)
    requires SplitsOn(env, g1, if b then {} else L, if b then L else {}, a, fr, b, o0, o1)
    requires Good(env, g2, e2, a2, fr2, o1, o2)
    requires TList(g3, e3) == (if b then TList(g2, e2) else TList(g2, e2) + L)
    requires FList(g3, e3) == (if b then FList(g2, e2) + L else FList(g2, e2))
    requires forall R :: ValueOf(env, g3, e3, R) == ValueOf(env, g2, e2, R)
    requires forall j, R, v, c :: j in TList(g2, e2) + FList(g2, e2) && Carries(g2.code, j, R, v, c) ==> Carries(g3.code, j, R, v, c)
    requires forall j, R, v, c :: j in L && Carries(g1.code, j, R, v, c) ==> Carries(g3.code, j, R, v, c)
    ensures Good(env, g3, e3, if b then EAnd(a, a2) else EOr(a, a2), fr, o0, o2)
  {
    if o0.Fall? && o1.At? { CarriesTruth(g1.code, o1.j, o1.regs, Eval(env, a, o0.regs), !b); }
    hide Carries;
    if o0.Fall? && o1.Fall? {
      EvalAgree(env, a2, o0.regs, o1.regs, fr);
      if o2.Fall? || o2.At? { AgreeTrans(o0.regs, o1.regs, o2.regs, fr, fr2); }
    }
  }

  lemma JoinedGen(env: Env, g2: Gen, P: set<int>, L: set<int>, e2: ExpDesc, g3: Gen, e3: ExpDesc)
    requires ExpOK(env, g2, P + L, e2) && L !! P
    requires g3 == g2.(code := g3.code) && Relinked(g2, g3, TList(g2, e2) + FList(g2, e2) + L)
    requires e3.k == e2.k && IsList(g3.code, e3.t) && IsList(g3.code, e3.f) && TList(g3, e3) !! FList(g3, e3)
    requires TList(g3, e3) + FList(g3, e3) == TList(g2, e2) + FList(g2, e2) + L
    requires e2.k.VJmp? ==> g3.code[e2.k.pc] == g2.code[e2.k.pc]
    ensures var PE := P + L + TList(g2, e2) + FList(g2, e2);
            GenOK(env, g3, PE + Own(e2)) && forall R :: Out(env, g3, PE + Own(e2), R) == Out(env, g2, PE + Own(e2), R)
    ensures ExpOK(env, g3, P, e3) && Framed(g2, g3, P)
  {
    var T2, F2, O := TList(g2, e2), FList(g2, e2), Own(e2);
    var PE := P + L + T2 + F2;
    assert P + TList(g3, e3) + FList(g3, e3) == PE;
    PendInside(env, g2, PE + O);
    assert Jumps(g2.code, g2.jpc) !! PE;
    ListChain(g2.code, g2.jpc);
    ListSame(g2.code, g3.code, g2.jpc);
    LinkOut(env, g2, g3, PE + O);
    RelinkedFramed(g2, g3, T2 + F2 + L, P);
  }

  lemma RelinkedCarries(g: Gen, g': Gen, S: set<int>, Q: set<int>)
    requires Relinked(g, g', S)
    ensures forall j, R, v, c :: j in Q && Carries(g.code, j, R, v, c) ==> Carries(g'.code, j, R, v, c)
  {
  }

  lemma FramedCarries(g: Gen, g': Gen, P: set<int>, Q: set<int>)
    requires Framed(g, g', P) && Q <= P
    ensures forall j, R, v, c :: j in Q && Carries(g.code, j, R, v, c) ==> Carries(g'.code, j, R, v, c)
  {
  }

  /** Joining lists does not change how the code in front of the value ends. */
  lemma JoinedBase(env: Env, g2: Gen, P: set<int>, L: set<int>, e2: ExpDesc, g3: Gen, e3: ExpDesc)
    requires ExpOK(env, g2, P + L, e2) && e3.k == e2.k && g3 == g2.(code := g3.code)
    requires Relinked(g2, g3, TList(g2, e2) + FList(g2, e2) + L)
    requires P + TList(g3, e3) + FList(g3, e3) == P + L + TList(g2, e2) + FList(g2, e2)
    requires var PE := P + L + TList(g2, e2) + FList(g2, e2);
             GenOK(env, g3, PE + Own(e2)) && forall R :: Out(env, g3, PE + Own(e2), R) == Out(env, g2, PE + Own(e2), R)
    requires e2.k.VJmp? ==> g3.code[e2.k.pc] == g2.code[e2.k.pc]
    ensures KindOK(g3, e3.k)
    ensures forall R :: Run(Base(env, g3, P, e3), 0, R) == Run(Base(env, g2, P + L, e2), 0, R)
    ensures forall R :: ValueOf(env, g3, e3, R) == ValueOf(env, g2, e2, R)
  {
    hide ExpOK, GenOK, IsList, Jumps, Run, Relinked;
    var PE := P + L + TList(g2, e2) + FList(g2, e2);
    ExpApart(env, g2, P + L, e2);
    PendInside(env, g2, PE + Own(e2));
    JoinedKind(g2, g3, TList(g2, e2) + FList(g2, e2) + L, e2.k) by { EndNotPending(env, g2, P + L, e2, L); }
    JoinedValue(env, g2, g3, TList(g2, e2) + FList(g2, e2) + L, e2, e3) by { EndNotPending(env, g2, P + L, e2, L); }
    match e2.k
    case VReloc(n) =>
      assert PE + Own(e2) == PE;
      RelocCut(env, g2, PE, n);
      CutLinks(env, g2, g3, PE, n) by { RelinkedMore(g2, g3, TList(g2, e2) + FList(g2, e2) + L, PE); }
    case VJmp(pc) =>
      CompareCut(env, g2, PE, pc - 1);
      CutLinks(env, g2, g3, PE, pc - 1) by { RelinkedMore(g2, g3, TList(g2, e2) + FList(g2, e2) + L, PE); }
    case _ =>
      assert PE + Own(e2) == PE;
      forall R ensures Run(Base(env, g3, P, e3), 0, R) == Run(Base(env, g2, P + L, e2), 0, R) {
        assert Out(env, g3, PE + Own(e2), R) == Out(env, g2, PE + Own(e2), R);
      }
  }

  lemma RelinkedMore(g: Gen, g': Gen, S: set<int>, P: set<int>)
    requires Relinked(g, g', S) && S <= P
    ensures Relinked(g, g', P)
  {
  }

  lemma EndNotPending(env: Env, g: Gen, P: set<int>, e: ExpDesc, L: set<int>)
    requires ExpOK(env, g, P, e) && L <= P
    ensures e.k.VReloc? ==> e.k.pc < |g.code| && e.k.pc !in TList(g, e) + FList(g, e) + L
  {
    PendInside(env, g, P + TList(g, e) + FList(g, e) + Own(e));
  }

  lemma JoinedKind(g: Gen, g': Gen, S: set<int>, k: ExpKind)
    requires KindOK(g, k) && Relinked(g, g', S) && g' == g.(code := g'.code)
    requires k.VReloc? ==> k.pc !in S
    requires k.VJmp? ==> g'.code[k.pc] == g.code[k.pc]
    ensures KindOK(g', k)
  {
  }

  lemma JoinedValue(env: Env, g: Gen, g': Gen, S: set<int>, e: ExpDesc, e': ExpDesc)
    requires KindOK(g, e.k) && Relinked(g, g', S) && g' == g.(code := g'.code) && e'.k == e.k && KindOK(g', e'.k)
    requires e.k.VReloc? ==> e.k.pc !in S
    ensures forall R :: ValueOf(env, g', e', R) == ValueOf(env, g, e, R)
  {
  }

  lemma CutLinks(env: Env, g: Gen, g': Gen, P: set<int>, n: nat)
    requires n <= |g.code| && GenOK(env, Cut(g, n), P) && Relinked(g, g', P) && g' == g.(code := g'.code) && g.jpc == NO_JUMP
    ensures forall R :: Run(Full(env, Cut(g', n), P), 0, R) == Run(Full(env, Cut(g, n), P), 0, R)
    ensures Full(env, Cut(g, n), P) == Prog(env, g.code[..n], g.k, {}, P)
    ensures Full(env, Cut(g', n), P) == Prog(env, g'.code[..n], g.k, {}, P)
  {
    NoList(Cut(g, n).code);
    NoList(Cut(g', n).code);
    forall R ensures Run(Full(env, Cut(g', n), P), 0, R) == Run(Full(env, Cut(g, n), P), 0, R) {
      RunLinks(Full(env, Cut(g, n), P), Full(env, Cut(g', n), P), 0, R);
    }
  }
}
