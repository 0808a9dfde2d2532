/** Expressions, their values (section 3.4 of the Lua 5.3 Reference Manual), and what the descriptor of a
    partially compiled expression promises about the code so far. */
module ExpSem {
  import opened LuaCode
  import opened CodeJumps

  // ----- expressions ---------------------------------------------------------------------------

  datatype Compare = OpEq | OpLt | OpLe | OpNe | OpGt | OpGe

  datatype Expr =
    | ENil | ETrue | EFalse
    | EConst(v: Value)
    | ELocal(r: nat)
    | EUpval(u: nat)
    | ENot(e: Expr)
    | EUnary(uop: UnaryOp, e: Expr)
    | EArith(op: ArithOp, a: Expr, b: Expr)
    | ECompare(cop: Compare, a: Expr, b: Expr)
    | EAnd(a: Expr, b: Expr)
    | EOr(a: Expr, b: Expr)

  /** Only active locals, and literals of the right type. */
  predicate ExprOK(a: Expr, nactvar: nat) {
    match a
    case EConst(v) => v.Int? || v.Flt? || v.Str?
    case ELocal(r) => r < nactvar
    case ENot(e) => ExprOK(e, nactvar)
    case EUnary(_, e) => ExprOK(e, nactvar)
    case EArith(_, x, y) => ExprOK(x, nactvar) && ExprOK(y, nactvar)
    case ECompare(_, x, y) => ExprOK(x, nactvar) && ExprOK(y, nactvar)
    case EAnd(x, y) => ExprOK(x, nactvar) && ExprOK(y, nactvar)
    case EOr(x, y) => ExprOK(x, nactvar) && ExprOK(y, nactvar)
    case _ => true
  }

  function CompareValue(env: Env, op: Compare, v: Value, w: Value): bool {
    match op
    case OpEq => env.cmp(Eq, v, w)
    case OpLt => env.cmp(Lt, v, w)
    case OpLe => env.cmp(Le, v, w)
    case OpNe => !env.cmp(Eq, v, w)
    case OpGt => env.cmp(Lt, w, v)
    case OpGe => env.cmp(Le, w, v)
  }

  /** `and` and `or` evaluate their second operand only if needed and return one of the operands. */
  function Eval(env: Env, a: Expr, R: Regs): Value {
    match a
    case ENil => Nil
    case ETrue => Bool(true)
    case EFalse => Bool(false)
    case EConst(v) => v
    case ELocal(r) => Get(R, r)
    case EUpval(u) => env.upval(u)
    case ENot(e) => Bool(!Truthy(Eval(env, e, R)))
    case EUnary(op, e) => env.unary(op, Eval(env, e, R))
    case EArith(op, x, y) => env.arith(op, Eval(env, x, R), Eval(env, y, R))
    case ECompare(op, x, y) => Bool(CompareValue(env, op, Eval(env, x, R), Eval(env, y, R)))
    case EAnd(x, y) => var v := Eval(env, x, R); if Truthy(v) then Eval(env, y, R) else v
    case EOr(x, y) => var v := Eval(env, x, R); if Truthy(v) then v else Eval(env, y, R)
  }

  /** Only locals matter. */
  lemma {:induction false} EvalAgree(env: Env, a: Expr, R: Regs, R': Regs, nactvar: nat)
    requires ExprOK(a, nactvar) && Agree(R, R', nactvar, -1)
    ensures Eval(env, a, R') == Eval(env, a, R)
  {
    match a
    case ENot(e) => EvalAgree(env, e, R, R', nactvar);
    case EUnary(_, e) => EvalAgree(env, e, R, R', nactvar);
    case EArith(_, x, y) => EvalAgree(env, x, R, R', nactvar); EvalAgree(env, y, R, R', nactvar);
    case ECompare(_, x, y) => EvalAgree(env, x, R, R', nactvar); EvalAgree(env, y, R, R', nactvar);
    case EAnd(x, y) => EvalAgree(env, x, R, R', nactvar); EvalAgree(env, y, R, R', nactvar);
    case EOr(x, y) => EvalAgree(env, x, R, R', nactvar); EvalAgree(env, y, R, R', nactvar);
    case _ =>
  }

  // ----- descriptors ------------------------------------------------------------------------------

  datatype ExpKind =
    | VNil | VTrue | VFalse
    | VK(info: nat) | VKFlt(nval: int) | VKInt(ival: int)
    | VNonReloc(info: nat) | VLocal(info: nat) | VUpval(info: nat)
    | VJmp(pc: nat) | VReloc(pc: nat)

  /** `t` and `f` are the lists of jumps taken when the expression is true and when it is false. */
  datatype ExpDesc = ExpDesc(k: ExpKind, t: int, f: int)

  /** The state of the code generator as a value. */
  datatype Gen = Gen(code: seq<Instr>, k: seq<Value>, jpc: int, lasttarget: nat, freereg: nat, nactvar: nat)

  /** The program generated so far, with the jumps `P` pending. */
  ghost function Full(env: Env, g: Gen, P: set<int>): Prog {
    Prog(env, g.code, g.k, Jumps(g.code, g.jpc), P)
  }

  ghost predicate GenOK(env: Env, g: Gen, P: set<int>) {
    && IsList(g.code, g.jpc) && WF(Full(env, g, P))
    && g.lasttarget <= |g.code| && (g.jpc != NO_JUMP ==> g.lasttarget == |g.code|)
    && (forall q :: 0 <= q < |g.code| && g.code[q].Jmp? && q !in Jumps(g.code, g.jpc) && q !in P ==>
          q + 1 + g.code[q].sbx <= g.lasttarget)
    && g.nactvar <= g.freereg < MAXREGS
  }

  ghost function Own(e: ExpDesc): set<int> {
    if e.k.VJmp? then {e.k.pc} else {}
  }

  ghost function TList(g: Gen, e: ExpDesc): set<int> { Jumps(g.code, e.t) }

  ghost function FList(g: Gen, e: ExpDesc): set<int> { Jumps(g.code, e.f) }

  predicate KindOK(g: Gen, k: ExpKind) {
    var n := |g.code|;
    match k
    case VK(i) => i < |g.k|
    case VNonReloc(r) => r < MAXREGS
    case VLocal(r) => r < g.nactvar
    case VReloc(pc) => pc + 1 == n && Relocatable(g.code[pc]) && g.jpc == NO_JUMP && g.lasttarget <= pc
    case VJmp(pc) => pc + 1 == n && pc >= 1 && g.code[pc] == Jmp(NO_JUMP) && g.code[pc - 1].Cmp? && g.jpc == NO_JUMP && g.lasttarget <= pc - 1
    case _ => true
  }

  /** The lists of the expression are disjoint from each other, from the other pending jumps `P` and
      from the jumps to here. */
  ghost predicate ExpOK(env: Env, g: Gen, P: set<int>, e: ExpDesc) {
    var T, F, O := TList(g, e), FList(g, e), Own(e);
    && IsList(g.code, e.t) && IsList(g.code, e.f)
    && T !! F && T !! P && F !! P && O !! T && O !! F && O !! P
    && KindOK(g, e.k)
    && GenOK(env, g, P + T + F + O)
  }

  /** The code in front of the instruction (or the comparison) that yields the value. */
  ghost function Base(env: Env, g: Gen, P: set<int>, e: ExpDesc): Prog
    requires KindOK(g, e.k)
  {
    var PE, n := P + TList(g, e) + FList(g, e), |g.code|;
    match e.k
    case VReloc(_) => Prog(env, g.code[..n - 1], g.k, {}, PE)
    case VJmp(_) => Prog(env, g.code[..n - 2], g.k, {}, PE)
    case _ => Full(env, g, PE)
  }

  /** The value of the expression when the code in front of it falls through. */
  function ValueOf(env: Env, g: Gen, e: ExpDesc, R: Regs): Value
    requires KindOK(g, e.k)
  {
    match e.k
    case VNil => Nil
    case VTrue => Bool(true)
    case VFalse => Bool(false)
    case VK(i) => Const(g.k, i)
    case VKFlt(b) => Flt(b)
    case VKInt(n) => Int(n)
    case VNonReloc(r) => Get(R, r)
    case VLocal(r) => Get(R, r)
    case VUpval(u) => env.upval(u)
    case VReloc(pc) => InstrValue(env, g.k, g.code[pc], R)
    case VJmp(pc) => Bool(Holds(env, g.k, g.code[pc - 1], R))
  }

  /** What taking jump `j` of a list says about the value: a TESTSET holds it in a register, any other
      test has turned it into a boolean. */
  predicate Carries(code: seq<Instr>, j: int, R: Regs, v: Value, b: bool) {
    Truthy(v) == b && 0 <= j < |code| && (if Valued(code, j) then Get(R, code[j - 1].b) == v else v == Bool(b))
  }

  /** One run: `o0` is how the code before the expression ends, `o1` how the code with it ends. */
  ghost predicate Good(env: Env, g: Gen, e: ExpDesc, a: Expr, fr: nat, o0: Outcome, o1: Outcome)
    requires KindOK(g, e.k)
  {
    match o0
    case Fall(R) =>
      var v := Eval(env, a, R);
      (match o1
       case Fall(R') => Agree(R, R', fr, -1) && ValueOf(env, g, e, R') == v
       case At(j, R') =>
         Agree(R, R', fr, -1) &&
         ((j in TList(g, e) && Carries(g.code, j, R', v, true)) || (j in FList(g, e) && Carries(g.code, j, R', v, false)))
       case _ => false)
    case _ => o1 == o0
  }

  /** Only the jumps `P` are pending. */
  ghost predicate AtIn(m: Prog, P: set<int>) {
    forall R: Regs :: Run(m, 0, R).At? ==> Run(m, 0, R).j in P
  }

  lemma FullAtIn(env: Env, g: Gen, P: set<int>)
    requires GenOK(env, g, P)
    ensures AtIn(Full(env, g, P), P)
  {
    forall R: Regs | Run(Full(env, g, P), 0, R).At? ensures Run(Full(env, g, P), 0, R).j in P {
      RunOK(Full(env, g, P), 0, R);
    }
  }

  /** The descriptor `e` stands for the expression `a`: on every run the code generated since `before`
      either falls through with the value of `a` at hand, or takes a jump of the list that fits the
      value. Registers below `fr` are not changed. */
  ghost predicate Means(env: Env, before: Prog, g: Gen, P: set<int>, e: ExpDesc, a: Expr, fr: nat) {
    KindOK(g, e.k) && AtIn(before, P) &&
    forall R: Regs :: Good(env, g, e, a, fr, Run(before, 0, R), Run(Base(env, g, P, e), 0, R))
  }

  /** Registers: a descriptor in a register above the locals owns the topmost one. */
  predicate RegsOK(fr: nat, g: Gen, e: ExpDesc) {
    if e.k.VNonReloc? && e.k.info >= g.nactvar then e.k.info == fr && g.freereg == fr + 1 else g.freereg == fr
  }

  /** What generating code leaves alone: pending jumps, their tests, the constants so far. */
  ghost predicate Framed(g: Gen, g': Gen, P: set<int>) {
    && ConstPrefix(g.k, g'.k) && g'.nactvar == g.nactvar
    && forall j :: j in P && 0 <= j < |g.code| ==>
         j < |g'.code| && g'.code[j] == g.code[j] && Valued(g'.code, j) == Valued(g.code, j)
         && (Valued(g.code, j) ==> g'.code[j - 1] == g.code[j - 1])
  }

  lemma FramedTrans(a: Gen, b: Gen, c: Gen, P: set<int>)
    requires Framed(a, b, P) && Framed(b, c, P)
    ensures Framed(a, c, P)
  {
    assert c.k[..|a.k|] == c.k[..|b.k|][..|a.k|];
  }

  lemma FramedFacts(a: Gen, b: Gen, P: set<int>)
    requires Framed(a, b, P)
    ensures ConstPrefix(a.k, b.k) && b.nactvar == a.nactvar
  {
  }

  lemma FramedLess(a: Gen, b: Gen, P: set<int>, Q: set<int>)
    requires Framed(a, b, P) && Q <= P
    ensures Framed(a, b, Q)
  {
  }

  lemma FramedRefl(a: Gen, b: Gen, P: set<int>)
    requires b.code == a.code && b.k == a.k && b.nactvar == a.nactvar
    ensures Framed(a, b, P)
  {
  }

  /** An outer list survives. */
  lemma FramedList(g: Gen, g': Gen, P: set<int>, h: int)
    requires Framed(g, g', P) && IsList(g.code, h) && Jumps(g.code, h) <= P
    ensures IsList(g'.code, h) && Jumps(g'.code, h) == Jumps(g.code, h) && ListOf(g'.code, h) == ListOf(g.code, h)
  {
    ListSame(g.code, g'.code, h);
  }

  lemma AgreeTrans(R: Regs, S: Regs, T: Regs, n: nat, m: nat)
    requires Agree(R, S, n, -1) && Agree(S, T, m, -1) && n <= m
    ensures Agree(R, T, n, -1)
  {
    forall r | 0 <= r < n ensures Get(T, r) == Get(R, r) { assert Get(T, r) == Get(S, r); }
  }

  // ----- emitting --------------------------------------------------------------------------------------

  /** Code was appended; the jumps to here now lead to it. */
  ghost predicate Emitted(g: Gen, g': Gen) {
    var n := |g.code|;
    && n <= |g'.code| && g'.code[..n] == Patched(g.code, Jumps(g.code, g.jpc), n, NO_REG, n)
    && g'.jpc == NO_JUMP && ConstPrefix(g.k, g'.k) && g'.nactvar == g.nactvar
    && g.lasttarget <= g'.lasttarget <= |g'.code|
  }

  /** The new instructions are in order; `N` are the pending jumps among them. */
  ghost predicate SuffixOK(env: Env, g: Gen, g': Gen, P: set<int>, N: set<int>) {
    var n := |g.code|;
    && (forall q :: n <= q < |g'.code| ==> InstrOK(Prog(env, g'.code, g'.k, {}, P + N), q))
    && (forall q :: n <= q < |g'.code| && g'.code[q].Jmp? ==> q in N)
    && (forall q :: q in N ==> n <= q < |g'.code| && g'.code[q].Jmp?)
  }

  lemma EmitOK(env: Env, g: Gen, g': Gen, P: set<int>, N: set<int>)
    requires GenOK(env, g, P) && Emitted(g, g') && SuffixOK(env, g, g', P, N)
    requires g'.nactvar <= g'.freereg < MAXREGS
    ensures GenOK(env, g', P + N) && Extends(Full(env, g, P), Full(env, g', P + N))
    ensures Framed(g, g', P)
  {
    NoList(g'.code);
    var m, m' := Full(env, g, P), Full(env, g', P + N);
    var n := |g.code|;
    forall q | 0 <= q < |g'.code| ensures InstrOK(m', q) {
      if q < n { EmitInstr(env, g, g', P, N, q); }
    }
    EmitJumps(env, g, g', P, N);
    EmitFramed(env, g, g', P);
  }

  lemma EmitFramed(env: Env, g: Gen, g': Gen, P: set<int>)
    requires GenOK(env, g, P) && Emitted(g, g')
    ensures Framed(g, g', P)
  {
    var n := |g.code|;
    forall j | j in P && 0 <= j < n
      ensures g'.code[j] == g.code[j] && Valued(g'.code, j) == Valued(g.code, j)
      ensures Valued(g.code, j) ==> g'.code[j - 1] == g.code[j - 1]
    {
      assert g'.code[j] == g'.code[..n][j];
      if j > 0 { assert g'.code[j - 1] == g'.code[..n][j - 1]; }
    }
  }

  lemma EmitJumps(env: Env, g: Gen, g': Gen, P: set<int>, N: set<int>)
    requires GenOK(env, g, P) && Emitted(g, g') && SuffixOK(env, g, g', P, N)
    ensures forall q :: 0 <= q < |g'.code| && g'.code[q].Jmp? && q !in P + N ==> q + 1 + g'.code[q].sbx <= g'.lasttarget
    ensures forall q :: q in P + N ==> 0 <= q < |g'.code| && g'.code[q].Jmp?
  {
    var n := |g.code|;
    forall q | 0 <= q < n ensures g'.code[q] == g'.code[..n][q] { }
    ListChain(g.code, g.jpc);
  }

  lemma EmitInstr(env: Env, g: Gen, g': Gen, P: set<int>, N: set<int>, q: int)
    requires GenOK(env, g, P) && Emitted(g, g') && SuffixOK(env, g, g', P, N) && 0 <= q < |g.code|
    ensures InstrOK(Prog(env, g'.code, g'.k, {}, P + N), q)
  {
    hide Jumps, IsList;
    var n := |g.code|;
    var m := Full(env, g, P);
    assert InstrOK(m, q) && InstrOK(m, n - 1);
    forall x | 0 <= x < n ensures g'.code[x] == PatchAt(g.code, Jumps(g.code, g.jpc), n, NO_REG, n, x) {
      assert g'.code[x] == g'.code[..n][x];
    }
    if q + 1 < n { assert InstrOK(m, q + 1); }
    forall x | 0 <= x < |g.k| ensures g'.k[x] == g.k[x] { assert g'.k[..|g.k|][x] == g'.k[x]; }
    var i := g'.code[q];
    if i.Jmp? && q !in P + N {
      var d := q + 1 + i.sbx;
      assert d == n || (g.code[q] == i && Entry(g.code, d));
      if 0 < d { assert g'.code[d - 1] == PatchAt(g.code, Jumps(g.code, g.jpc), n, NO_REG, n, d - 1); }
    }
  }

  lemma ExpApart(env: Env, g: Gen, P: set<int>, e: ExpDesc)
    requires ExpOK(env, g, P, e)
    ensures TList(g, e) !! FList(g, e) && TList(g, e) !! P && FList(g, e) !! P && KindOK(g, e.k)
    ensures Own(e) !! TList(g, e) && Own(e) !! FList(g, e) && Own(e) !! P
    ensures GenOK(env, g, P + TList(g, e) + FList(g, e) + Own(e)) && IsList(g.code, e.t) && IsList(g.code, e.f)
  {
  }
}
