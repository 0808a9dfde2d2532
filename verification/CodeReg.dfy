/** Leaves, operators and the final placement of values. */
module CodeReg {
  import opened LuaCode
  import opened CodeJumps
  import opened ExpSem
  import opened CodeSem

  // ----- leaves and changes of kind --------------------------------------------------------------

  predicate InPlace(k: ExpKind) { !k.VReloc? && !k.VJmp? }

  lemma LeafMeans(env: Env, g: Gen, P: set<int>, e: ExpDesc, a: Expr, fr: nat)
    requires GenOK(env, g, P) && e.t == NO_JUMP && e.f == NO_JUMP && InPlace(e.k) && KindOK(g, e.k)
    requires forall R :: ValueOf(env, g, e, R) == Eval(env, a, R)
    ensures ExpOK(env, g, P, e) && Means(env, Full(env, g, P), g, P, e, a, fr)
    ensures TList(g, e) == {} && FList(g, e) == {}
  {
    NoList(g.code);
    assert P + {} + {} == P && P + {} + {} + {} == P;
    FullAtIn(env, g, P);
    forall R: Regs ensures Good(env, g, e, a, fr, Run(Full(env, g, P), 0, R), Run(Base(env, g, P, e), 0, R)) {
      RunOK(Full(env, g, P), 0, R);
    }
  }

  lemma RunConsts(m: Prog, m': Prog, p: nat, R: Regs)
    requires WF(m) && Entry(m.code, p) && m' == m.(k := m'.k) && ConstPrefix(m.k, m'.k)
    ensures WF(m') && Run(m', p, R) == Run(m, p, R)
  {
    forall x | 0 <= x < |m.k| ensures m'.k[x] == m.k[x] { assert m'.k[..|m.k|][x] == m'.k[x]; }
    forall q | 0 <= q < |m'.code| ensures InstrOK(m', q) { assert InstrOK(m, q); }
    var c := (o: Outcome) => o;
    forall q: nat, S: Regs | q < |m.code| && Entry(m.code, q) ensures Matched(m, m', c, q, S) {
      assert InstrOK(m, q);
      if q + 1 < |m.code| { assert InstrOK(m, q + 1); }
    }
    Simulate(m, m', c, p, R);
  }

  /** New constants and a new kind for the same value. */
  lemma RekindMeans(env: Env, before: Prog, g: Gen, P: set<int>, e: ExpDesc, a: Expr, fr: nat, g': Gen, e': ExpDesc)
    requires ExpOK(env, g, P, e) && Means(env, before, g, P, e, a, fr) && InPlace(e.k) && InPlace(e'.k)
    requires g' == g.(k := g'.k) && ConstPrefix(g.k, g'.k) && e' == ExpDesc(e'.k, e.t, e.f) && KindOK(g', e'.k)
    requires forall R :: ValueOf(env, g', e', R) == ValueOf(env, g, e, R)
    ensures ExpOK(env, g', P, e') && Means(env, before, g', P, e', a, fr)
    ensures TList(g', e') == TList(g, e) && FList(g', e') == FList(g, e) && Framed(g, g', P)
  {
    var PE := P + TList(g, e) + FList(g, e);
    assert PE + Own(e) == PE && PE + Own(e') == PE;
    RunConsts(Full(env, g, PE), Full(env, g', PE), 0, seq(NO_REG, _ => Nil));
    forall R: Regs ensures Good(env, g', e', a, fr, Run(before, 0, R), Run(Base(env, g', P, e'), 0, R)) {
      RunConsts(Full(env, g, PE), Full(env, g', PE), 0, R);
      assert Good(env, g, e, a, fr, Run(before, 0, R), Run(Base(env, g, P, e), 0, R));
    }
  }

  // ----- operators --------------------------------------------------------------------------------------

  /** The value of `a` is at hand as operand `x`: a register or a constant. */
  ghost predicate Operand(env: Env, before: Prog, g: Gen, P: set<int>, x: nat, a: Expr, fr: nat) {
    AtIn(before, P) && ConstOK(g.k, x) && forall R: Regs :: OperandOn(env, g, x, a, fr, Run(before, 0, R), Out(env, g, P, R))
  }

  ghost predicate OperandOn(env: Env, g: Gen, x: nat, a: Expr, fr: nat, o0: Outcome, o1: Outcome) {
    if o0.Fall? then o1.Fall? && Agree(o0.regs, o1.regs, fr, -1) && RK(g.k, o1.regs, x) == Eval(env, a, o0.regs) else o1 == o0
  }

  ghost predicate Operands(env: Env, before: Prog, g: Gen, P: set<int>, x: nat, a: Expr, y: nat, b: Expr, fr: nat) {
    Operand(env, before, g, P, x, a, fr) && Operand(env, before, g, P, y, b, fr)
  }

  lemma MeansOperand(env: Env, before: Prog, g: Gen, P: set<int>, e: ExpDesc, a: Expr, fr: nat, x: nat)
    requires ExpOK(env, g, P, e) && Means(env, before, g, P, e, a, fr) && TList(g, e) == {} && FList(g, e) == {}
    requires (e.k == VNonReloc(x) && x < BITRK) || (e.k.VK? && x == BITRK + e.k.info)
    ensures Operand(env, before, g, P, x, a, fr)
  {
    assert P + {} + {} == P;
    forall R: Regs ensures OperandOn(env, g, x, a, fr, Run(before, 0, R), Out(env, g, P, R)) {
      assert Good(env, g, e, a, fr, Run(before, 0, R), Run(Base(env, g, P, e), 0, R));
    }
  }

  /** An operand keeps its value while a second one is computed above it. */
  lemma OperandKept(env: Env, before: Prog, g: Gen, P: set<int>, x: nat, a: Expr, fr: nat, g': Gen, y: nat, b: Expr, fr': nat)
    requires Operand(env, before, g, P, x, a, fr) && Operand(env, Full(env, g, P), g', P, y, b, fr')
    requires fr <= fr' && (IsK(x) || x < fr') && ExprOK(b, fr) && ConstPrefix(g.k, g'.k)
    ensures Operands(env, before, g', P, x, a, y, b, fr)
  {
    forall z | 0 <= z < |g.k| ensures g'.k[z] == g.k[z] { assert g'.k[..|g.k|][z] == g'.k[z]; }
    forall R: Regs
      ensures OperandOn(env, g', x, a, fr, Run(before, 0, R), Out(env, g', P, R))
      ensures OperandOn(env, g', y, b, fr, Run(before, 0, R), Out(env, g', P, R))
    {
      var o0, o1, o2 := Run(before, 0, R), Out(env, g, P, R), Out(env, g', P, R);
      assert OperandOn(env, g, x, a, fr, o0, o1) && OperandOn(env, g', y, b, fr', o1, o2);
      if o0.Fall? {
        AgreeTrans(o0.regs, o1.regs, o2.regs, fr, fr');
        EvalAgree(env, b, o0.regs, o1.regs, fr);
        assert RK(g'.k, o2.regs, x) == RK(g.k, o1.regs, x);
      }
    }
  }

  /** The code in front of appended instructions runs as before. */
  lemma EmitBase(env: Env, g: Gen, P: set<int>, g': Gen)
    requires GenOK(env, g, P) && Emitted(g, g')
    ensures forall R :: Run(Prog(env, g'.code[..|g.code|], g'.k, {}, P), 0, R) == Out(env, g, P, R)
  {
    var n := |g.code|;
    var m' := Prog(env, g'.code[..n], g'.k, {}, P);
    assert m'.code[..n] == m'.code;
    assert Extends(Full(env, g, P), m') by { PendInside(env, g, P); }
    forall R ensures Run(m', 0, R) == Out(env, g, P, R) {
      RunExtend(Full(env, g, P), m', 0, R);
    }
  }

  /** One relocatable instruction was appended. */
  lemma EmitReloc(env: Env, g: Gen, P: set<int>, g': Gen, t: int, f: int)
    requires GenOK(env, g, P) && Emitted(g, g') && g'.lasttarget == g.lasttarget && g'.nactvar <= g'.freereg < MAXREGS
    requires |g'.code| == |g.code| + 1 && Relocatable(g'.code[|g.code|])
    requires g'.code[|g.code|].Arith? ==> ConstOK(g'.k, g'.code[|g.code|].b) && ConstOK(g'.k, g'.code[|g.code|].c)
    requires IsList(g.code, t) && IsList(g.code, f) && Jumps(g.code, t) !! Jumps(g.code, f) && Jumps(g.code, t) + Jumps(g.code, f) <= P
    ensures var e', Q := ExpDesc(VReloc(|g.code|), t, f), P - Jumps(g.code, t) - Jumps(g.code, f);
            && ExpOK(env, g', Q, e') && TList(g', e') == Jumps(g.code, t) && FList(g', e') == Jumps(g.code, f)
            && Framed(g, g', P) && forall R :: Run(Base(env, g', Q, e'), 0, R) == Out(env, g, P, R)
  {
    var e', Q := ExpDesc(VReloc(|g.code|), t, f), P - Jumps(g.code, t) - Jumps(g.code, f);
    assert P + {} == P;
    EmitOut(env, g, g', P, {});
    EmitBase(env, g, P, g');
    FramedList(g, g', P, t);
    FramedList(g, g', P, f);
    assert Q + TList(g', e') + FList(g', e') == P;
    assert P + Own(e') == P;
  }

  /** Binary operators that compute a value. */
  lemma ArithMeans(env: Env, before: Prog, g: Gen, P: set<int>, x: nat, a: Expr, y: nat, b: Expr, fr: nat, op: ArithOp, g': Gen)
    requires GenOK(env, g, P) && Operands(env, before, g, P, x, a, y, b, fr)
    requires Emitted(g, g') && g'.lasttarget == g.lasttarget && g'.nactvar <= g'.freereg < MAXREGS && g'.k == g.k
    requires |g'.code| == |g.code| + 1 && g'.code[|g.code|] == Arith(op, 0, x, y)
    ensures var e' := ExpDesc(VReloc(|g.code|), NO_JUMP, NO_JUMP);
            ExpOK(env, g', P, e') && Means(env, before, g', P, e', EArith(op, a, b), fr) && Framed(g, g', P)
  {
    hide GenOK, ExpOK, Framed, Emitted;
    var e' := ExpDesc(VReloc(|g.code|), NO_JUMP, NO_JUMP);
    NoList(g.code);
    assert P - {} - {} == P;
    EmitReloc(env, g, P, g', NO_JUMP, NO_JUMP);
    forall R: Regs ensures Good(env, g', e', EArith(op, a, b), fr, Run(before, 0, R), Run(Base(env, g', P, e'), 0, R)) {
      assert OperandOn(env, g, x, a, fr, Run(before, 0, R), Out(env, g, P, R));
      assert OperandOn(env, g, y, b, fr, Run(before, 0, R), Out(env, g, P, R));
    }
  }

  lemma UnaryMeans(env: Env, before: Prog, g: Gen, P: set<int>, x: nat, a: Expr, fr: nat, op: UnaryOp, g': Gen)
    requires GenOK(env, g, P) && Operand(env, before, g, P, x, a, fr) && !IsK(x)
    requires Emitted(g, g') && g'.lasttarget == g.lasttarget && g'.nactvar <= g'.freereg < MAXREGS && g'.k == g.k
    requires |g'.code| == |g.code| + 1 && g'.code[|g.code|] == Unary(op, 0, x)
    ensures var e' := ExpDesc(VReloc(|g.code|), NO_JUMP, NO_JUMP);
            ExpOK(env, g', P, e') && Means(env, before, g', P, e', EUnary(op, a), fr) && Framed(g, g', P)
  {
    hide GenOK, ExpOK, Framed, Emitted;
    var e' := ExpDesc(VReloc(|g.code|), NO_JUMP, NO_JUMP);
    NoList(g.code);
    assert P - {} - {} == P;
    EmitReloc(env, g, P, g', NO_JUMP, NO_JUMP);
    forall R: Regs ensures Good(env, g', e', EUnary(op, a), fr, Run(before, 0, R), Run(Base(env, g', P, e'), 0, R)) {
      assert OperandOn(env, g, x, a, fr, Run(before, 0, R), Out(env, g, P, R));
    }
  }

  /** An upvalue is read by a relocatable instruction. */
  lemma UpvalMeans(env: Env, before: Prog, g: Gen, P: set<int>, e: ExpDesc, a: Expr, fr: nat, g': Gen)
    requires ExpOK(env, g, P, e) && Means(env, before, g, P, e, a, fr) && e.k.VUpval?
    requires Emitted(g, g') && g'.lasttarget == g.lasttarget && g'.nactvar <= g'.freereg < MAXREGS
    requires |g'.code| == |g.code| + 1 && g'.code[|g.code|] == GetUpval(0, e.k.info)
    ensures var e' := ExpDesc(VReloc(|g.code|), e.t, e.f);
            ExpOK(env, g', P, e') && Means(env, before, g', P, e', a, fr) && Framed(g, g', P + TList(g, e) + FList(g, e))
            && TList(g', e') == TList(g, e) && FList(g', e') == FList(g, e)
  {
    var e', PE := ExpDesc(VReloc(|g.code|), e.t, e.f), P + TList(g, e) + FList(g, e);
    assert PE + Own(e) == PE;
    assert PE - TList(g, e) - FList(g, e) == P;
    EmitReloc(env, g, PE, g', e.t, e.f);
    forall R: Regs ensures Good(env, g', e', a, fr, Run(before, 0, R), Run(Base(env, g', P, e'), 0, R)) {
      var o0, o := Run(before, 0, R), Out(env, g, PE, R);
      assert Good(env, g, e, a, fr, o0, o);
      GoodCarries(env, g, g', P, e, e', a, fr, o0, o);
    }
  }

  // ----- comparisons ------------------------------------------------------------------------------------------

  /** The instruction for a comparison; `>` and `>=` swap the operands. */
  function CompareInstr(op: Compare, x: nat, y: nat): Instr {
    match op
    case OpEq => Cmp(Eq, true, x, y)
    case OpLt => Cmp(Lt, true, x, y)
    case OpLe => Cmp(Le, true, x, y)
    case OpNe => Cmp(Eq, false, x, y)
    case OpGt => Cmp(Lt, true, y, x)
    case OpGe => Cmp(Le, true, y, x)
  }

  lemma CompareSuffix(env: Env, g: Gen, P: set<int>, g': Gen)
    requires GenOK(env, g, P) && Emitted(g, g') && g'.lasttarget == g.lasttarget
    requires |g'.code| == |g.code| + 2 && g'.code[|g.code|].Cmp? && g'.code[|g.code| + 1] == Jmp(NO_JUMP)
    requires ConstOK(g'.k, g'.code[|g.code|].b) && ConstOK(g'.k, g'.code[|g.code|].c)
    ensures SuffixOK(env, g, g', P, {|g.code| + 1})
  {
    hide Jumps, IsList, Patched;
    PendInside(env, g, P);
  }

  /** A comparison and its jump were appended. */
  lemma EmitCompare(env: Env, g: Gen, P: set<int>, g': Gen)
    requires GenOK(env, g, P) && Emitted(g, g') && g'.lasttarget == g.lasttarget && g'.nactvar <= g'.freereg < MAXREGS
    requires |g'.code| == |g.code| + 2 && g'.code[|g.code|].Cmp? && g'.code[|g.code| + 1] == Jmp(NO_JUMP)
    requires ConstOK(g'.k, g'.code[|g.code|].b) && ConstOK(g'.k, g'.code[|g.code|].c)
    ensures var e' := ExpDesc(VJmp(|g.code| + 1), NO_JUMP, NO_JUMP);
            && ExpOK(env, g', P, e') && TList(g', e') == {} && FList(g', e') == {}
            && Framed(g, g', P) && forall R :: Run(Base(env, g', P, e'), 0, R) == Out(env, g, P, R)
  {
    hide SuffixOK, Run;
    var e', N := ExpDesc(VJmp(|g.code| + 1), NO_JUMP, NO_JUMP), {|g.code| + 1};
    NoList(g'.code);
    CompareSuffix(env, g, P, g');
    PendInside(env, g, P);
    EmitOut(env, g, g', P, N);
    EmitBase(env, g, P, g');
    assert P + {} + {} == P && P + {} + {} + N == P + N;
  }

  lemma CompareMeans(env: Env, before: Prog, g: Gen, P: set<int>, x: nat, a: Expr, y: nat, b: Expr, fr: nat, op: Compare, g': Gen)
    requires GenOK(env, g, P) && Operands(env, before, g, P, x, a, y, b, fr)
    requires Emitted(g, g') && g'.lasttarget == g.lasttarget && g'.nactvar <= g'.freereg < MAXREGS && g'.k == g.k
    requires |g'.code| == |g.code| + 2 && g'.code[|g.code|] == CompareInstr(op, x, y) && g'.code[|g.code| + 1] == Jmp(NO_JUMP)
    ensures var e' := ExpDesc(VJmp(|g.code| + 1), NO_JUMP, NO_JUMP);
            ExpOK(env, g', P, e') && Means(env, before, g', P, e', ECompare(op, a, b), fr) && Framed(g, g', P)
  {
    hide GenOK, Emitted, IsList, Jumps, Framed, Run, Good, OperandOn, ExpOK, Base, Agree, KindOK;
    var e' := ExpDesc(VJmp(|g.code| + 1), NO_JUMP, NO_JUMP);
    EmitCompare(env, g, P, g');
    CompareKind(g, g') by { TargetIn(env, g, P); }
    forall R: Regs ensures Good(env, g', e', ECompare(op, a, b), fr, Run(before, 0, R), Run(Base(env, g', P, e'), 0, R)) {
      ComparePoint(env, g, x, a, y, b, fr, op, g', Run(before, 0, R), Out(env, g, P, R));
    }
  }

  lemma TargetIn(env: Env, g: Gen, P: set<int>)
    requires GenOK(env, g, P)
    ensures g.lasttarget <= |g.code|
  {
  }

  lemma CompareKind(g: Gen, g': Gen)
    requires |g'.code| == |g.code| + 2 && g'.code[|g.code|].Cmp? && g'.code[|g.code| + 1] == Jmp(NO_JUMP) && Emitted(g, g')
    requires g'.lasttarget == g.lasttarget && g.lasttarget <= |g.code|
    ensures KindOK(g', VJmp(|g.code| + 1))
  {
  }

  lemma ComparePoint(env: Env, g: Gen, x: nat, a: Expr, y: nat, b: Expr, fr: nat, op: Compare, g': Gen, o0: Outcome, o: Outcome)
    requires OperandOn(env, g, x, a, fr, o0, o) && OperandOn(env, g, y, b, fr, o0, o) && g'.k == g.k
    requires |g'.code| == |g.code| + 2 && g'.code[|g.code|] == CompareInstr(op, x, y) && KindOK(g', VJmp(|g.code| + 1))
    ensures Good(env, g', ExpDesc(VJmp(|g.code| + 1), NO_JUMP, NO_JUMP), ECompare(op, a, b), fr, o0, o)
  {
    hide KindOK, IsList, Jumps;
  }

  // ----- not -----------------------------------------------------------------------------------------------------

  /** The value was negated, the lists exchanged, and no jump of theirs carries a value any more. */
  lemma NotMeans(env: Env, before: Prog, g: Gen, P: set<int>, e: ExpDesc, a: Expr, fr: nat, g1: Gen, e1: ExpDesc, g2: Gen, e2: ExpDesc)
    requires ExpOK(env, g, P, e) && Means(env, before, g, P, e, a, fr)
    requires ExpOK(env, g1, P, e1) && e1.t == e.t && e1.f == e.f && TList(g1, e1) == TList(g, e) && FList(g1, e1) == FList(g, e)
    requires forall R :: Run(Base(env, g1, P, e1), 0, R) == Run(Base(env, g, P, e), 0, R)
    requires forall R :: ValueOf(env, g1, e1, R) == Bool(!Truthy(ValueOf(env, g, e, R)))
    requires g2 == g1.(code := Unvalued(g1.code, TList(g, e) + FList(g, e))) && e2 == ExpDesc(e1.k, e.f, e.t)
    ensures ExpOK(env, g2, P, e2) && Means(env, before, g2, P, e2, ENot(a), fr) && Framed(g1, g2, P)
  {
    hide ExpOK, GenOK, IsList, Jumps, Framed, Run, Good, Unvalued, Base, ValueOf;
    ExpApart(env, g, P, e);
    ExpApart(env, g1, P, e1);
    UnvaluedExp(env, g1, P, e1, g2, e2);
    ExpApart(env, g2, P, e2);
    forall R: Regs ensures Good(env, g2, e2, ENot(a), fr, Run(before, 0, R), Run(Base(env, g2, P, e2), 0, R)) {
      NotPoint(env, g, e, a, fr, g2, e2, Run(before, 0, R), Run(Base(env, g, P, e), 0, R));
    }
  }

  lemma NotPoint(env: Env, g: Gen, e: ExpDesc, a: Expr, fr: nat, g2: Gen, e2: ExpDesc, o0: Outcome, o: Outcome)
    requires KindOK(g, e.k) && KindOK(g2, e2.k) && Good(env, g, e, a, fr, o0, o)
    requires TList(g2, e2) == FList(g, e) && FList(g2, e2) == TList(g, e)
    requires forall R :: ValueOf(env, g2, e2, R) == Bool(!Truthy(ValueOf(env, g, e, R)))
    requires forall j :: j in TList(g, e) || j in FList(g, e) ==> 0 <= j < |g2.code| && !Valued(g2.code, j)
    ensures Good(env, g2, e2, ENot(a), fr, o0, o)
  {
    hide Jumps, IsList;
    if o0.Fall? && o.Fall? { assert ValueOf(env, g2, e2, o.regs) == Bool(!Truthy(ValueOf(env, g, e, o.regs))); }
    hide ValueOf;
  }

  lemma UnvaluedExp(env: Env, g: Gen, P: set<int>, e: ExpDesc, g': Gen, e': ExpDesc)
    requires ExpOK(env, g, P, e) && e' == ExpDesc(e.k, e.f, e.t)
    requires g' == g.(code := Unvalued(g.code, TList(g, e) + FList(g, e)))
    ensures ExpOK(env, g', P, e') && Framed(g, g', P) && TList(g', e') == FList(g, e) && FList(g', e') == TList(g, e)
    ensures forall R :: Run(Base(env, g', P, e'), 0, R) == Run(Base(env, g, P, e), 0, R)
    ensures forall R :: ValueOf(env, g', e', R) == ValueOf(env, g, e, R)
    ensures forall j :: j in TList(g, e) + FList(g, e) ==> 0 <= j < |g.code| && |g'.code| == |g.code| && !Valued(g'.code, j)
  {
    var S := TList(g, e) + FList(g, e);
    var Q := P + TList(g, e) + FList(g, e) + Own(e);
    UnvaluedGen(env, g, Q, S, g');
    UnvaluedLists(env, g, P, e, g', e');
    UnvaluedBase(env, g, P, e, g', e');
  }

  lemma UnvaluedGen(env: Env, g: Gen, Q: set<int>, S: set<int>, g': Gen)
    requires GenOK(env, g, Q) && S <= Q && g' == g.(code := Unvalued(g.code, S))
    ensures GenOK(env, g', Q) && Jumps(g'.code, g'.jpc) == Jumps(g.code, g.jpc)
  {
    ListChain(g.code, g.jpc);
    ListSame(g.code, g'.code, g.jpc);
    UnvaluedWF(Full(env, g, Q), S);
  }

  lemma UnvaluedLists(env: Env, g: Gen, P: set<int>, e: ExpDesc, g': Gen, e': ExpDesc)
    requires ExpOK(env, g, P, e) && e' == ExpDesc(e.k, e.f, e.t)
    requires g' == g.(code := Unvalued(g.code, TList(g, e) + FList(g, e)))
    requires GenOK(env, g', P + TList(g, e) + FList(g, e) + Own(e))
    ensures ExpOK(env, g', P, e') && Framed(g, g', P) && TList(g', e') == FList(g, e) && FList(g', e') == TList(g, e)
    ensures forall j :: j in TList(g, e) + FList(g, e) ==> 0 <= j < |g.code| && !Valued(g'.code, j)
  {
    ListChain(g.code, e.t);
    ListChain(g.code, e.f);
    ListSame(g.code, g'.code, e.t);
    ListSame(g.code, g'.code, e.f);
    hide IsList, Jumps;
    UnvaluedJumps(g, TList(g, e) + FList(g, e));
    PendInside(env, g, P + TList(g, e) + FList(g, e) + Own(e));
    UnvaluedFramed(g, g', P, TList(g, e) + FList(g, e));
    assert P + TList(g', e') + FList(g', e') + Own(e') == P + TList(g, e) + FList(g, e) + Own(e);
    UnvaluedKind(g, e.k, TList(g, e) + FList(g, e));
    hide GenOK, Framed, Unvalued, KindOK;
  }

  lemma UnvaluedJumps(g: Gen, S: set<int>)
    requires forall j :: j in S ==> 0 <= j < |g.code| && g.code[j].Jmp?
    ensures forall j :: j in S ==> 0 <= j < |g.code| && !Valued(Unvalued(g.code, S), j)
  {
  }

  lemma UnvaluedFramed(g: Gen, g': Gen, P: set<int>, S: set<int>)
    requires g' == g.(code := Unvalued(g.code, S)) && S !! P && forall j :: j in P ==> 0 <= j < |g.code| && g.code[j].Jmp?
    ensures Framed(g, g', P)
  {
  }

  lemma UnvaluedKind(g: Gen, k: ExpKind, S: set<int>)
    requires KindOK(g, k)
    ensures KindOK(g.(code := Unvalued(g.code, S)), k)
  {
  }

  lemma UnvaluedBase(env: Env, g: Gen, P: set<int>, e: ExpDesc, g': Gen, e': ExpDesc)
    requires ExpOK(env, g, P, e) && e' == ExpDesc(e.k, e.f, e.t)
    requires g' == g.(code := Unvalued(g.code, TList(g, e) + FList(g, e)))
    requires TList(g', e') == FList(g, e) && FList(g', e') == TList(g, e) && KindOK(g', e'.k)
    requires Jumps(g'.code, g'.jpc) == Jumps(g.code, g.jpc)
    ensures forall R :: Run(Base(env, g', P, e'), 0, R) == Run(Base(env, g, P, e), 0, R)
    ensures forall R :: ValueOf(env, g', e', R) == ValueOf(env, g, e, R)
  {
    var S := TList(g, e) + FList(g, e);
    var PE := P + TList(g, e) + FList(g, e);
    assert P + TList(g', e') + FList(g', e') == PE;
    PendInside(env, g, PE + Own(e));
    var b := Base(env, g, P, e);
    BaseWF(env, g, P, e);
    assert Base(env, g', P, e').code == Unvalued(b.code, S);
    forall R ensures Run(Base(env, g', P, e'), 0, R) == Run(b, 0, R) {
      RunUnvalued(b, S, 0, R);
    }
  }

  lemma BaseWF(env: Env, g: Gen, P: set<int>, e: ExpDesc)
    requires ExpOK(env, g, P, e)
    ensures WF(Base(env, g, P, e)) && Base(env, g, P, e).pend == P + TList(g, e) + FList(g, e)
    ensures |Base(env, g, P, e).code| <= |g.code|
  {
    var PE := P + TList(g, e) + FList(g, e);
    match e.k
    case VReloc(n) =>
      assert PE + Own(e) == PE;
      RelocCut(env, g, PE, n);
      NoList(Cut(g, n).code);
    case VJmp(pc) =>
      CompareCut(env, g, PE, pc - 1);
      NoList(Cut(g, pc - 1).code);
    case _ =>
      assert PE + Own(e) == PE;
  }

  /** `not` of a comparison reverses what it waits for. */
  lemma NegatedExp(env: Env, g: Gen, P: set<int>, e: ExpDesc, g': Gen)
    requires ExpOK(env, g, P, e) && e.k.VJmp? && g' == g.(code := g.code[e.k.pc - 1 := Negated(g.code[e.k.pc - 1])])
    ensures ExpOK(env, g', P, e) && Framed(g, g', P) && TList(g', e) == TList(g, e) && FList(g', e) == FList(g, e)
    ensures forall R :: Run(Base(env, g', P, e), 0, R) == Run(Base(env, g, P, e), 0, R)
    ensures forall R :: ValueOf(env, g', e, R) == Bool(!Truthy(ValueOf(env, g, e, R)))
  {
    hide Framed, WF, GenOK;
    var n := e.k.pc - 1;
    NegatedLists(env, g, P, e, g');
    NegateGen(env, g, P + TList(g, e) + FList(g, e) + Own(e), g', n);
    NegateFramed(g, g', P, n);
    assert Base(env, g', P, e).code == Base(env, g, P, e).code;
  }

  lemma NegatedLists(env: Env, g: Gen, P: set<int>, e: ExpDesc, g': Gen)
    requires ExpOK(env, g, P, e) && e.k.VJmp? && g' == g.(code := g.code[e.k.pc - 1 := Negated(g.code[e.k.pc - 1])])
    ensures IsList(g'.code, e.t) && IsList(g'.code, e.f) && TList(g', e) == TList(g, e) && FList(g', e) == FList(g, e)
    ensures forall j :: j in P ==> 0 <= j < |g.code| && g.code[j].Jmp?
  {
    hide WF, GenOK, IsList, Jumps;
    PendInside(env, g, P + TList(g, e) + FList(g, e) + Own(e));
    ListChain(g.code, e.t);
    ListChain(g.code, e.f);
    ListSame(g.code, g'.code, e.t);
    ListSame(g.code, g'.code, e.f);
  }

  /** `not` of a value in a register. */
  lemma NotEmitted(env: Env, g: Gen, P: set<int>, e: ExpDesc, g': Gen)
    requires ExpOK(env, g, P, e) && e.k.VNonReloc?
    requires Emitted(g, g') && g'.lasttarget == g.lasttarget && g'.nactvar <= g'.freereg < MAXREGS
    requires |g'.code| == |g.code| + 1 && g'.code[|g.code|] == Not(0, e.k.info)
    ensures var e' := ExpDesc(VReloc(|g.code|), e.t, e.f);
            && ExpOK(env, g', P, e') && Framed(g, g', P) && TList(g', e') == TList(g, e) && FList(g', e') == FList(g, e)
            && (forall R :: Run(Base(env, g', P, e'), 0, R) == Run(Base(env, g, P, e), 0, R))
            && (forall R :: ValueOf(env, g', e', R) == Bool(!Truthy(ValueOf(env, g, e, R))))
  {
    var PE := P + TList(g, e) + FList(g, e);
    assert PE + Own(e) == PE && PE - TList(g, e) - FList(g, e) == P;
    EmitReloc(env, g, PE, g', e.t, e.f);
    FramedLess(g, g', PE, P);
    var e' := ExpDesc(VReloc(|g.code|), e.t, e.f);
    forall R ensures Run(Base(env, g', P, e'), 0, R) == Run(Base(env, g, P, e), 0, R) {
      assert Run(Base(env, g', P, e'), 0, R) == Out(env, g, PE, R);
    }
  }

  // ----- the final register ------------------------------------------------------------------------------------------

  /** Nearly done: falling through means that the value is in `reg`, or, behind a bare test, that it is
      false; the jumps of the lists are still open. */
  ghost predicate Ready(env: Env, before: Prog, g: Gen, P: set<int>, T: set<int>, F: set<int>, a: Expr, fr: nat, reg: nat, test: bool) {
    AtIn(before, P) &&
    forall R: Regs :: ReadyOn(env, g, T, F, a, fr, reg, test, Run(before, 0, R), Out(env, g, P + T + F, R))
  }

  ghost predicate ReadyOn(env: Env, g: Gen, T: set<int>, F: set<int>, a: Expr, fr: nat, reg: nat, test: bool, o0: Outcome, o1: Outcome) {
    match o0
    case Fall(R) =>
      var v := Eval(env, a, R);
      (match o1
       case Fall(R') => Agree(R, R', fr, reg) && (if test then v == Bool(false) else Get(R', reg) == v)
       case At(j, R') =>
         Agree(R, R', fr, reg) && ((j in T && Carries(g.code, j, R', v, true)) || (j in F && Carries(g.code, j, R', v, false)))
       case _ => false)
    case _ => o1 == o0
  }

  /** Done: the value of `a` is in `reg`, whichever way it was computed, and nothing else below `fr`
      changed. */
  ghost predicate InReg(env: Env, before: Prog, g: Gen, P: set<int>, a: Expr, fr: nat, reg: nat) {
    AtIn(before, P) &&
    forall R: Regs :: InRegOn(env, a, fr, reg, Run(before, 0, R), Out(env, g, P, R))
  }

  ghost predicate InRegOn(env: Env, a: Expr, fr: nat, reg: nat, o0: Outcome, o1: Outcome) {
    if o0.Fall? then o1.Fall? && Agree(o0.regs, o1.regs, fr, reg) && Get(o1.regs, reg) == Eval(env, a, o0.regs) else o1 == o0
  }

  lemma ReadyInReg(env: Env, before: Prog, g: Gen, P: set<int>, a: Expr, fr: nat, reg: nat)
    requires Ready(env, before, g, P, {}, {}, a, fr, reg, false)
    ensures InReg(env, before, g, P, a, fr, reg)
  {
    assert P + {} + {} == P;
    forall R: Regs ensures InRegOn(env, a, fr, reg, Run(before, 0, R), Out(env, g, P, R)) {
      assert ReadyOn(env, g, {}, {}, a, fr, reg, false, Run(before, 0, R), Out(env, g, P, R));
    }
  }

  lemma InRegMeans(env: Env, before: Prog, g: Gen, P: set<int>, a: Expr, fr: nat, reg: nat)
    requires InReg(env, before, g, P, a, fr, reg) && fr <= reg < g.freereg && GenOK(env, g, P)
    ensures var e := ExpDesc(VNonReloc(reg), NO_JUMP, NO_JUMP);
            ExpOK(env, g, P, e) && Means(env, before, g, P, e, a, fr) && TList(g, e) == {} && FList(g, e) == {}
  {
    var e := ExpDesc(VNonReloc(reg), NO_JUMP, NO_JUMP);
    NoList(g.code);
    assert P + {} + {} == P && P + Own(e) == P;
    forall R: Regs ensures Good(env, g, e, a, fr, Run(before, 0, R), Run(Base(env, g, P, e), 0, R)) {
      assert InRegOn(env, a, fr, reg, Run(before, 0, R), Out(env, g, P, R));
    }
  }

  /** The value was put into `reg` (any register), the lists are still open. */
  lemma LoadedReady(env: Env, before: Prog, g: Gen, P: set<int>, e: ExpDesc, a: Expr, fr: nat, g': Gen, reg: nat)
    requires ExpOK(env, g, P, e) && Means(env, before, g, P, e, a, fr) && !e.k.VJmp? && reg < MAXREGS
    requires var PE := P + TList(g, e) + FList(g, e);
             Framed(g, g', PE) && forall R :: Out(env, g', PE, R) == LoadOut(env, g, e, reg, Run(Base(env, g, P, e), 0, R))
    ensures Ready(env, before, g', P, TList(g, e), FList(g, e), a, fr, reg, false)
  {
    var T, F := TList(g, e), FList(g, e);
    forall R: Regs ensures ReadyOn(env, g', T, F, a, fr, reg, false, Run(before, 0, R), Out(env, g', P + T + F, R)) {
      assert Good(env, g, e, a, fr, Run(before, 0, R), Run(Base(env, g, P, e), 0, R));
    }
  }

  /** The jump of a comparison joins the true list; falling through then means false. */
  lemma TestReady(env: Env, before: Prog, g: Gen, P: set<int>, e: ExpDesc, a: Expr, fr: nat, reg: nat)
    requires ExpOK(env, g, P, e) && Means(env, before, g, P, e, a, fr) && e.k.VJmp?
    ensures var T, F, N := TList(g, e), FList(g, e), {e.k.pc};
            GenOK(env, g, P + T + N + F) && Ready(env, before, g, P, T + N, F, a, fr, reg, true)
  {
    var T, F, N, n := TList(g, e), FList(g, e), {e.k.pc}, e.k.pc - 1;
    var PE := P + T + F;
    PendInside(env, g, PE + N);
    CompareCut(env, g, PE, n);
    NoList(Cut(g, n).code);
    assert P + (T + N) + F == PE + N && P + T + N + F == PE + N;
    assert Base(env, g, P, e) == Full(env, Cut(g, n), PE);
    forall R: Regs ensures ReadyOn(env, g, T + N, F, a, fr, reg, true, Run(before, 0, R), Out(env, g, P + (T + N) + F, R)) {
      var o := Out(env, Cut(g, n), PE, R);
      assert Good(env, g, e, a, fr, Run(before, 0, R), o);
      if o.Fall? { RunTest(Full(env, g, PE + N), n, o.regs); }
    }
  }

  // ----- a jump over the loads ---------------------------------------------------------------------------------------------

  function ViaJump(N: set<int>, o: Outcome, o': Outcome): bool {
    if o.Fall? then o'.At? && o'.j in N && o'.regs == o.regs else o' == o
  }

  /** `luaK_jump`: an unconditional jump, which also takes over the jumps to here. */
  lemma JumpOut(env: Env, g: Gen, P: set<int>, g': Gen, N: set<int>)
    requires GenOK(env, g, P) && g' == g.(code := g'.code, jpc := NO_JUMP) && |g'.code| == |g.code| + 1 && g'.code[|g.code|].Jmp?
    requires forall q :: 0 <= q < |g.code| ==>
               g'.code[q] == g.code[q] || (q in Jumps(g.code, g.jpc) && g.code[q].Jmp? && g'.code[q].Jmp?)
    requires N == Jumps(g.code, g.jpc) + {|g.code|}
    ensures GenOK(env, g', P + N) && Framed(g, g', P) && N !! P
    ensures forall R :: ViaJump(N, Out(env, g, P, R), Out(env, g', P + N, R))
  {
    var m, m' := Full(env, g, P), Full(env, g', P + N);
    NoList(g'.code);
    PendInside(env, g, P);
    JumpWF(env, g, P, g', N);
    forall R ensures ViaJump(N, Out(env, g, P, R), Out(env, g', P + N, R)) {
      JumpRun(env, g, P, g', N, 0, R);
    }
  }

  lemma JumpWF(env: Env, g: Gen, P: set<int>, g': Gen, N: set<int>)
    requires GenOK(env, g, P) && g' == g.(code := g'.code, jpc := NO_JUMP) && |g'.code| == |g.code| + 1 && g'.code[|g.code|].Jmp?
    requires forall q :: 0 <= q < |g.code| ==>
               g'.code[q] == g.code[q] || (q in Jumps(g.code, g.jpc) && g.code[q].Jmp? && g'.code[q].Jmp?)
    requires N == Jumps(g.code, g.jpc) + {|g.code|}
    ensures WF(Prog(env, g'.code, g'.k, {}, P + N))
  {
    var m, m' := Full(env, g, P), Prog(env, g'.code, g'.k, {}, P + N);
    ListChain(g.code, g.jpc);
    PendInside(env, g, P);
    forall q | 0 <= q < |g'.code| ensures InstrOK(m', q) {
      if q < |g.code| {
        assert InstrOK(m, q);
        if q + 1 < |g.code| { assert InstrOK(m, q + 1); }
      }
    }
  }

  lemma {:induction false} JumpRun(env: Env, g: Gen, P: set<int>, g': Gen, N: set<int>, p: nat, R: Regs)
    requires GenOK(env, g, P) && g' == g.(code := g'.code, jpc := NO_JUMP) && |g'.code| == |g.code| + 1 && g'.code[|g.code|].Jmp?
    requires forall q :: 0 <= q < |g.code| ==>
               g'.code[q] == g.code[q] || (q in Jumps(g.code, g.jpc) && g.code[q].Jmp? && g'.code[q].Jmp?)
    requires N == Jumps(g.code, g.jpc) + {|g.code|} && Entry(g.code, p)
    ensures ViaJump(N, Run(Full(env, g, P), p, R), Run(Prog(env, g'.code, g'.k, {}, P + N), p, R))
    decreases |g.code| - p
  {
    var m, m' := Full(env, g, P), Prog(env, g'.code, g'.k, {}, P + N);
    if p < |g.code| {
      StepOK(m, p, R);
      assert InstrOK(m, p);
      if p + 1 < |g.code| { assert InstrOK(m, p + 1); }
      match Step(m, p, R)
      case Next(p', R') =>
        assert Step(m', p, R) == Next(p', R');
        JumpRun(env, g, P, g', N, p', R');
      case Done(o) =>
        assert Step(m', p, R).Done?;
    }
  }

  // ----- loads of booleans -----------------------------------------------------------------------------------------------------

  lemma RunLoads(m: Prog, p: nat, reg: nat, R: Regs)
    requires p + 2 == |m.code| && m.code[p] == LoadBool(reg, false, true) && m.code[p + 1] == LoadBool(reg, true, false)
    ensures Run(m, p, R) == Fall(Set(R, reg, Bool(false))) && Run(m, p + 1, R) == Fall(Set(R, reg, Bool(true)))
  {
  }

  ghost predicate Loads(g: Gen, g': Gen, reg: nat) {
    var n := |g.code|;
    && g.jpc == NO_JUMP && |g'.code| == n + 2 && g'.code[..n] == g.code
    && g'.code[n] == LoadBool(reg, false, true) && g'.code[n + 1] == LoadBool(reg, true, false)
    && g'.jpc == NO_JUMP && g'.k == g.k && g'.nactvar == g.nactvar && g.lasttarget <= g'.lasttarget <= n + 2
    && g'.freereg == g.freereg
  }

  lemma LoadsOut(env: Env, g: Gen, P: set<int>, g': Gen, reg: nat)
    requires GenOK(env, g, P) && Loads(g, g', reg)
    ensures GenOK(env, g', P) && Framed(g, g', P)
    ensures forall R :: Out(env, g', P, R) == OnFall(Full(env, g', P), |g.code|, Out(env, g, P, R))
  {
    NoList(g.code);
    PatchedNone(g.code, |g.code|, NO_REG, |g.code|);
    assert P + {} == P;
    assert g'.k[..|g.k|] == g.k;
    EmitOut(env, g, g', P, {});
  }

  /** Behind a bare test: the fall-through loads false. */
  lemma TestLoads(env: Env, before: Prog, g: Gen, P: set<int>, T: set<int>, F: set<int>, a: Expr, fr: nat, reg: nat, g': Gen)
    requires GenOK(env, g, P + T + F) && Ready(env, before, g, P, T, F, a, fr, reg, true) && Loads(g, g', reg) && reg < MAXREGS
    ensures GenOK(env, g', P + T + F) && Framed(g, g', P + T + F) && Ready(env, before, g', P, T, F, a, fr, reg, false)
  {
    var PE := P + T + F;
    LoadsOut(env, g, PE, g', reg);
    PendInside(env, g, PE);
    forall R: Regs ensures ReadyOn(env, g', T, F, a, fr, reg, false, Run(before, 0, R), Out(env, g', PE, R)) {
      var o := Out(env, g, PE, R);
      assert ReadyOn(env, g, T, F, a, fr, reg, true, Run(before, 0, R), o);
      FramedCarries(g, g', PE, T + F);
      if o.Fall? { RunLoads(Full(env, g', PE), |g.code|, reg, o.regs); }
    }
  }

  /** With the value in place: a jump `N` leads around the loads. */
  lemma JumpedLoads(env: Env, before: Prog, g: Gen, P: set<int>, T: set<int>, F: set<int>, a: Expr, fr: nat, reg: nat,
                    g1: Gen, N: set<int>, g2: Gen, g3: Gen)
    requires GenOK(env, g, P + T + F) && Ready(env, before, g, P, T, F, a, fr, reg, false) && reg < MAXREGS
    requires GenOK(env, g1, P + T + F + N) && Framed(g, g1, P + T + F) && N !! P + T + F
    requires forall R :: ViaJump(N, Out(env, g, P + T + F, R), Out(env, g1, P + T + F + N, R))
    requires Loads(g1, g2, reg)
    requires Relinked(g2, g3, Jumps(g2.code, g2.jpc) + N) && g3.lasttarget == |g2.code|
    requires IsList(g3.code, g3.jpc) && Jumps(g3.code, g3.jpc) == Jumps(g2.code, g2.jpc) + N
    ensures GenOK(env, g3, P + T + F) && Framed(g, g3, P + T + F) && Ready(env, before, g3, P, T, F, a, fr, reg, false)
  {
    var PE := P + T + F;
    JumpedGen(env, g, PE, reg, g1, N, g2, g3);
    FramedCarries(g, g3, PE, T + F) by { PendInside(env, g, PE); }
    hide GenOK, Loads, Relinked, IsList, Jumps, Framed, Run, Carries, Agree;
    forall R: Regs ensures ReadyOn(env, g3, T, F, a, fr, reg, false, Run(before, 0, R), Out(env, g3, PE, R)) {
      assert Out(env, g3, PE, R) == Out(env, g, PE, R);
      assert ReadyOn(env, g, T, F, a, fr, reg, false, Run(before, 0, R), Out(env, g, PE, R));
    }
  }

  /** Jumping around the loads changes nothing. */
  lemma JumpedGen(env: Env, g: Gen, PE: set<int>, reg: nat, g1: Gen, N: set<int>, g2: Gen, g3: Gen)
    requires GenOK(env, g, PE) && GenOK(env, g1, PE + N) && Framed(g, g1, PE) && N !! PE
    requires forall R :: ViaJump(N, Out(env, g, PE, R), Out(env, g1, PE + N, R))
    requires Loads(g1, g2, reg)
    requires Relinked(g2, g3, Jumps(g2.code, g2.jpc) + N) && g3.lasttarget == |g2.code|
    requires IsList(g3.code, g3.jpc) && Jumps(g3.code, g3.jpc) == Jumps(g2.code, g2.jpc) + N
    ensures GenOK(env, g3, PE) && Framed(g, g3, PE) && forall R :: Out(env, g3, PE, R) == Out(env, g, PE, R)
  {
    LoadsOut(env, g1, PE + N, g2, reg);
    HereOut(env, g2, g3, PE + N, N);
    FullAtIn(env, g, PE);
    hide GenOK, Loads, Relinked, IsList, Jumps, Run;
    assert PE + N - N == PE;
    FramedLess(g1, g2, PE + N, PE);
    FramedTrans(g, g1, g2, PE);
    FramedTrans(g, g2, g3, PE);
    forall R ensures Out(env, g3, PE, R) == Out(env, g, PE, R) {
      assert ViaJump(N, Out(env, g, PE, R), Out(env, g1, PE + N, R));
      assert Out(env, g3, PE + N - N, R) == Arrive(N, Out(env, g2, PE + N, R));
    }
  }

  // ----- patching the lists ------------------------------------------------------------------------------------------------------

  /** The load that a jump without a value goes to, if there is one. */
  ghost predicate LoadAt(g: Gen, d: int, reg: nat, b: bool) {
    var n := |g.code|;
    && 2 <= n && d == (if b then n - 1 else n - 2)
    && g.code[n - 2] == LoadBool(reg, false, true) && g.code[n - 1] == LoadBool(reg, true, false)
  }

  ghost predicate Patchable(g: Gen, S: set<int>, d: int, reg: nat, b: bool) {
    (forall j :: j in S ==> Valued(g.code, j)) || (LoadAt(g, d, reg, b) && forall j :: j in S ==> j < |g.code| - 2)
  }

  /** One list patched: its jumps now deliver the value and go on behind the expression. */
  lemma PatchReady(env: Env, before: Prog, g: Gen, P: set<int>, T: set<int>, F: set<int>, a: Expr, fr: nat, reg: nat,
                   b: bool, d: int, g': Gen)
    requires GenOK(env, g, P + T + F) && Ready(env, before, g, P, T, F, a, fr, reg, false) && reg < MAXREGS
    requires T !! F && T !! P && F !! P && g.lasttarget == |g.code| && d <= |g.code|
    requires Patchable(g, if b then T else F, d, reg, b)
    requires g' == g.(code := Patched(g.code, if b then T else F, |g.code|, reg, d))
    ensures var T', F' := if b then {} else T, if b then F else {};
            GenOK(env, g', P + T' + F') && Framed(g, g', P + T' + F') && Ready(env, before, g', P, T', F', a, fr, reg, false)
  {
    var S, n := if b then T else F, |g.code|;
    var T', F', PE := if b then {} else T, if b then F else {}, P + T + F;
    assert PE - S == P + T' + F';
    PendInside(env, g, PE);
    PatchTargets(env, g, PE, S, d, reg, b);
    SettleOut(env, g, g', PE, S, n, reg, d);
    FramedCarries(g, g', PE - S, T' + F');
    forall R: Regs ensures ReadyOn(env, g', T', F', a, fr, reg, false, Run(before, 0, R), Out(env, g', P + T' + F', R)) {
      var o := Out(env, g, PE, R);
      assert ReadyOn(env, g, T, F, a, fr, reg, false, Run(before, 0, R), o);
      PatchPoint(env, g, P, T, F, a, fr, reg, b, d, g', Run(before, 0, R), o, Out(env, g', P + T' + F', R));
    }
  }

  lemma PatchTargets(env: Env, g: Gen, PE: set<int>, S: set<int>, d: int, reg: nat, b: bool)
    requires GenOK(env, g, PE) && S <= PE && Patchable(g, S, d, reg, b)
    ensures TargetsOK(Full(env, g, PE), S, |g.code|, d)
  {
    PendInside(env, g, PE);
    var n := |g.code|;
    forall j | j in S && 0 <= j < n ensures j < n && Entry(g.code, n) && (!Valued(g.code, j) ==> j < d && Entry(g.code, d)) {
      assert InstrOK(Full(env, g, PE), n - 1);
      if n >= 3 { assert InstrOK(Full(env, g, PE), n - 3); }
    }
  }

  lemma PatchPoint(env: Env, g: Gen, P: set<int>, T: set<int>, F: set<int>, a: Expr, fr: nat, reg: nat, b: bool, d: int, g': Gen,
                   o0: Outcome, o: Outcome, o1: Outcome)
    requires ReadyOn(env, g, T, F, a, fr, reg, false, o0, o) && reg < MAXREGS && T !! F && T !! P && F !! P
    requires o0.At? ==> o0.j in P
    requires var S := if b then T else F;
             && Patchable(g, S, d, reg, b) && d <= |g.code| && g' == g.(code := Patched(g.code, S, |g.code|, reg, d))
             && o1 == Land(Full(env, g, P + T + F), S, |g.code|, reg, d, o)
             && (forall j :: j in T + F ==> 0 <= j < |g.code|)
    requires var T', F' := if b then {} else T, if b then F else {};
             forall j, R, v, c :: j in T' + F' && Carries(g.code, j, R, v, c) ==> Carries(g'.code, j, R, v, c)
    ensures var T', F' := if b then {} else T, if b then F else {};
            ReadyOn(env, g', T', F', a, fr, reg, false, o0, o1)
  {
    var S := if b then T else F;
    if o0.Fall? && o.At? && o.j in S {
      assert Carries(g.code, o.j, o.regs, Eval(env, a, o0.regs), b);
      LandPoint(env, g, P + T + F, S, reg, b, d, o, Eval(env, a, o0.regs));
    }
    hide Patchable, Patched, Run, Full;
  }

  /** A patched jump ends behind the expression with the value in `reg`. */
  lemma LandPoint(env: Env, g: Gen, PE: set<int>, S: set<int>, reg: nat, b: bool, d: int, o: Outcome, v: Value)
    requires o.At? && o.j in S && 0 <= o.j < |g.code| && Carries(g.code, o.j, o.regs, v, b) && Patchable(g, S, d, reg, b)
    requires d <= |g.code| && reg < MAXREGS
    ensures var o1 := Land(Full(env, g, PE), S, |g.code|, reg, d, o); o1 == Fall(Set(o.regs, reg, v))
  {
    var n, m' := |g.code|, Settled(Full(env, g, PE), S, |g.code|, reg, d);
    if !Valued(g.code, o.j) {
      assert m'.code[n - 2] == g.code[n - 2] && m'.code[n - 1] == g.code[n - 1];
      RunLoads(m', n - 2, reg, o.regs);
    }
  }
}
