/** lopcodes.h: the instructions that expressions compile to, and what executing them does. */
module LuaCode {
  import opened Options

  datatype Value = Nil | Bool(b: bool) | Int(n: int) | Flt(bits: int) | Str(s: string) | Other(id: int)

  predicate Truthy(v: Value) { v != Nil && v != Bool(false) }

  predicate Numeral(v: Value) { v.Int? || v.Flt? }

  datatype ArithOp = Add | Sub | Mul | Mod | Pow | Div | IDiv | BAnd | BOr | BXor | Shl | Shr

  datatype UnaryOp = Minus | BNot | Len

  datatype CmpOp = Eq | Lt | Le

  /** What the operators compute. The code generator is independent of it, apart from constant folding:
      `fold` gives a result only where folding is safe. */
  datatype Env = Env(
    arith: (ArithOp, Value, Value) -> Value,
    unary: (UnaryOp, Value) -> Value,
    cmp: (CmpOp, Value, Value) -> bool,
    upval: int -> Value,
    fold: (ArithOp, Value, Value) -> Option<Value>,
    foldUnary: (UnaryOp, Value) -> Option<Value>)

  ghost predicate FoldOK(env: Env) {
    && (forall op, v, w :: env.fold(op, v, w).Some? ==>
          env.fold(op, v, w).value == env.arith(op, v, w) && Numeral(env.arith(op, v, w)))
    && (forall op, v :: env.foldUnary(op, v).Some? ==>
          env.foldUnary(op, v).value == env.unary(op, v) && Numeral(env.unary(op, v)))
  }

  datatype Instr =
    | Move(a: nat, b: nat)
    | LoadK(a: nat, kx: nat)
    | LoadKX(a: nat)
    | ExtraArg(ax: nat)
    | LoadBool(a: nat, v: bool, skip: bool)
    | LoadNil(a: nat, n: nat)
    | GetUpval(a: nat, u: nat)
    | Arith(op: ArithOp, a: nat, b: nat, c: nat)
    | Unary(uop: UnaryOp, a: nat, b: nat)
    | Not(a: nat, b: nat)
    | Jmp(sbx: int)
    | Cmp(cop: CmpOp, want: bool, b: nat, c: nat)
    | Test(b: nat, want: bool)
    | TestSet(a: nat, b: nat, want: bool)
    | Return(a: nat, n: nat)

  const NO_REG: nat := 255
  const NO_JUMP := -1
  const BITRK: nat := 256
  const MAXINDEXRK: nat := 255
  const MAXARG_Bx: nat := 262143
  const MAXARG_sBx: nat := 131071
  const MAXREGS: nat := 255

  /** Instructions with a test bit: each is followed by a jump that it controls. */
  predicate IsTest(i: Instr) { i.Cmp? || i.Test? || i.TestSet? }

  /** Instructions whose destination register can still be chosen. */
  predicate Relocatable(i: Instr) { i.GetUpval? || i.Arith? || i.Unary? || i.Not? }

  // ----- registers and constants --------------------------------------------------------------

  /** The registers of a function, 0 to 254. */
  type Regs = s: seq<Value> | |s| == NO_REG witness seq(NO_REG, _ => Nil)

  function Get(R: Regs, i: int): Value { if 0 <= i < |R| then R[i] else Nil }

  /** NO_REG is not a register: writing it has no effect. */
  function Set(R: Regs, i: int, v: Value): Regs { if 0 <= i < |R| then R[i := v] else R }

  function Const(k: seq<Value>, i: int): Value { if 0 <= i < |k| then k[i] else Nil }

  predicate IsK(x: nat) { x >= BITRK }

  function RK(k: seq<Value>, R: Regs, x: nat): Value { if IsK(x) then Const(k, x - BITRK) else Get(R, x) }

  function SetNils(R: Regs, a: nat, n: nat): Regs
    decreases n
  {
    var R' := Set(R, a, Nil);
    if n == 0 then R' else SetNils(R', a + 1, n - 1)
  }

  lemma {:induction false} SetNilsAt(R: Regs, a: nat, n: nat, r: int)
    ensures Get(SetNils(R, a, n), r) == if a <= r <= a + n then Nil else Get(R, r)
    decreases n
  {
    if n > 0 { SetNilsAt(Set(R, a, Nil), a + 1, n - 1, r); }
  }

  /** Two register files that agree below `n`, except for register `x`. */
  predicate Agree(R: Regs, R': Regs, n: nat, x: int) {
    forall r :: 0 <= r < n && r != x ==> Get(R', r) == Get(R, r)
  }

  // ----- execution --------------------------------------------------------------------------------

  /** A program that is still being generated. Jumps in `here` lead to the end of the code; jumps in
      `pend` lead to a place that is not known yet. */
  datatype Prog = Prog(env: Env, code: seq<Instr>, k: seq<Value>, here: set<int>, pend: set<int>)

  /** How a run ends: at the end of the code, about to take a pending jump, or by returning values. */
  datatype Outcome = Fall(regs: Regs) | At(j: int, regs: Regs) | Ret(vs: seq<Value>) | Stuck

  datatype StepResult = Next(p: nat, regs: Regs) | Done(o: Outcome)

  /** The value an instruction that computes one puts into its destination. */
  function InstrValue(env: Env, k: seq<Value>, i: Instr, R: Regs): Value {
    match i
    case Move(_, b) => Get(R, b)
    case LoadK(_, x) => Const(k, x)
    case LoadBool(_, v, _) => Bool(v)
    case GetUpval(_, u) => env.upval(u)
    case Arith(op, _, b, c) => env.arith(op, RK(k, R, b), RK(k, R, c))
    case Unary(op, _, b) => env.unary(op, Get(R, b))
    case Not(_, b) => Bool(!Truthy(Get(R, b)))
    case _ => Nil
  }

  /** Whether a test lets the next instruction, a jump, be executed. */
  function Holds(env: Env, k: seq<Value>, i: Instr, R: Regs): bool {
    match i
    case Cmp(op, want, b, c) => env.cmp(op, RK(k, R, b), RK(k, R, c)) == want
    case Test(b, want) => Truthy(Get(R, b)) == want
    case TestSet(_, b, want) => Truthy(Get(R, b)) == want
    case _ => false
  }

  function After(i: Instr, R: Regs): Regs {
    if i.TestSet? then Set(R, i.a, Get(R, i.b)) else R
  }

  function Take(m: Prog, j: int, R: Regs): StepResult
    requires 0 <= j < |m.code| && m.code[j].Jmp?
  {
    if j in m.here then Done(Fall(R))
    else if j in m.pend then Done(At(j, R))
    else if m.code[j].sbx >= 0 then Next(j + 1 + m.code[j].sbx, R)
    else Done(Stuck)
  }

  function Step(m: Prog, p: nat, R: Regs): StepResult
    requires p < |m.code|
  {
    var i := m.code[p];
    if i.Jmp? then Take(m, p, R)
    else if IsTest(i) then
      if Holds(m.env, m.k, i, R) then
        if p + 1 < |m.code| && m.code[p + 1].Jmp? then Take(m, p + 1, After(i, R)) else Done(Stuck)
      else Next(p + 2, R)
    else if i.LoadKX? then
      if p + 1 < |m.code| && m.code[p + 1].ExtraArg? then Next(p + 2, Set(R, i.a, Const(m.k, m.code[p + 1].ax)))
      else Done(Stuck)
    else if i.LoadNil? then Next(p + 1, SetNils(R, i.a, i.n))
    else if i.Return? then Done(if i.n > 0 then Ret(seq(i.n - 1, j => Get(R, i.a + j))) else Stuck)
    else if i.ExtraArg? then Done(Stuck)
    else if i.LoadBool? && i.skip then Next(p + 2, Set(R, i.a, Bool(i.v)))
    else Next(p + 1, Set(R, i.a, InstrValue(m.env, m.k, i, R)))
  }

  /** Execution from position `p`. Jumps only go forward. */
  function Run(m: Prog, p: nat, R: Regs): Outcome
    decreases |m.code| - p
  {
    if p >= |m.code| then Fall(R)
    else
      match Step(m, p, R)
      case Done(o) => o
      case Next(p', R') => if p' > p then Run(m, p', R') else Stuck
  }

  // ----- well-formed code ------------------------------------------------------------------------------

  /** A position that may be jumped or fallen to: not inside a pair of instructions. */
  predicate Entry(code: seq<Instr>, d: int) {
    0 <= d <= |code| && (d == 0 || (!IsTest(code[d - 1]) && !code[d - 1].LoadKX?))
  }

  predicate ConstOK(k: seq<Value>, x: nat) { IsK(x) ==> x - BITRK < |k| }

  predicate InstrOK(m: Prog, q: int)
    requires 0 <= q < |m.code|
  {
    var code, i := m.code, m.code[q];
    && (IsTest(i) ==> q + 1 < |code| && code[q + 1].Jmp?)
    && (i.LoadKX? ==> q + 1 < |code| && code[q + 1].ExtraArg? && code[q + 1].ax < |m.k|)
    && (i.ExtraArg? ==> q > 0 && code[q - 1].LoadKX?)
    && (i.LoadBool? && i.skip ==> q + 1 < |code| && code[q + 1].LoadBool?)
    && (i.LoadK? ==> i.kx < |m.k|)
    && (i.Return? ==> i.n > 0)
    && (i.Cmp? || i.Arith? ==> ConstOK(m.k, i.b) && ConstOK(m.k, i.c))
    && (i.Jmp? && q !in m.here && q !in m.pend ==> i.sbx >= 0 && Entry(code, q + 1 + i.sbx))
    && (i.TestSet? ==> (i.a == NO_REG <==> q + 1 in m.here || q + 1 in m.pend))
  }

  /** Well-formed: pairs are complete, fixed jumps go forward to proper places, and a TESTSET lacks a
      destination exactly as long as its jump does. */
  ghost predicate WF(m: Prog) {
    && (forall q :: 0 <= q < |m.code| ==> InstrOK(m, q))
    && (forall q :: q in m.here || q in m.pend ==> 0 <= q < |m.code| && m.code[q].Jmp?)
    && m.here !! m.pend
  }

  /** Steps of well-formed code go forward, from entry to entry, and never get stuck. */
  lemma StepOK(m: Prog, p: nat, R: Regs)
    requires WF(m) && p < |m.code| && Entry(m.code, p)
    ensures match Step(m, p, R)
            case Next(p', _) => p < p' && Entry(m.code, p')
            case Done(o) => o != Stuck
  {
    assert InstrOK(m, p);
    if p + 1 < |m.code| { assert InstrOK(m, p + 1); }
  }

  lemma {:induction false} RunOK(m: Prog, p: nat, R: Regs)
    requires WF(m) && Entry(m.code, p)
    ensures Run(m, p, R) != Stuck
    ensures Run(m, p, R).At? ==> Run(m, p, R).j in m.pend
    decreases |m.code| - p
  {
    if p < |m.code| {
      StepOK(m, p, R);
      match Step(m, p, R)
      case Next(p', R') => RunOK(m, p', R');
      case Done(o) =>
    }
  }

  /** Simulation: if each step of `m0` is matched by `m1`, up to the continuation `c` applied to how
      `m0` ends, then so is the whole run. */
  lemma {:induction false} Simulate(m0: Prog, m1: Prog, c: Outcome -> Outcome, p: nat, R: Regs)
    requires WF(m0) && Entry(m0.code, p) && |m0.code| <= |m1.code|
    requires forall q: nat, S: Regs :: q < |m0.code| && Entry(m0.code, q) ==> Matched(m0, m1, c, q, S)
    requires forall S: Regs :: Run(m1, |m0.code|, S) == c(Fall(S))
    ensures Run(m1, p, R) == c(Run(m0, p, R))
    decreases |m0.code| - p
  {
    if p < |m0.code| {
      assert Matched(m0, m1, c, p, R);
      StepOK(m0, p, R);
      match Step(m0, p, R)
      case Next(p', R') => Simulate(m0, m1, c, p', R');
      case Done(o) =>
    } else {
      assert Run(m1, |m0.code|, R) == c(Fall(R));
    }
  }

  ghost predicate Matched(m0: Prog, m1: Prog, c: Outcome -> Outcome, q: nat, S: Regs)
    requires q < |m0.code| && |m0.code| <= |m1.code|
  {
    match Step(m0, q, S)
    case Next(p', S') => Step(m1, q, S) == Next(p', S')
    case Done(o) => Run(m1, q, S) == c(o)
  }

  // ----- patching --------------------------------------------------------------------------------------------

  /** The jump at `j` is controlled by a TESTSET: taking it produces a value. */
  predicate Valued(code: seq<Instr>, j: int) {
    1 <= j < |code| && code[j - 1].TestSet?
  }

  function Retargeted(i: Instr, reg: nat): Instr
    requires i.TestSet?
  {
    if reg != NO_REG && reg != i.b then TestSet(reg, i.b, i.want) else Test(i.b, i.want)
  }

  function PatchAt(code: seq<Instr>, S: set<int>, vtarget: int, reg: nat, dtarget: int, q: int): Instr
    requires 0 <= q < |code|
  {
    if q in S && code[q].Jmp? then Jmp((if Valued(code, q) then vtarget else dtarget) - (q + 1))
    else if q + 1 in S && code[q].TestSet? then Retargeted(code[q], reg)
    else code[q]
  }

  /** All jumps of `S` patched: those that produce values go to `vtarget` and leave them in `reg`, the
      others go to `dtarget`. */
  function Patched(code: seq<Instr>, S: set<int>, vtarget: int, reg: nat, dtarget: int): seq<Instr> {
    seq(|code|, q requires 0 <= q < |code| => PatchAt(code, S, vtarget, reg, dtarget, q))
  }

  /** Patching a set one jump at a time. */
  lemma PatchedMore(code: seq<Instr>, S: set<int>, j: int, vtarget: int, reg: nat, dtarget: int)
    requires 0 <= j < |code| && code[j].Jmp? && j !in S
    ensures var c := Patched(code, S, vtarget, reg, dtarget);
            Patched(c, {j}, vtarget, reg, dtarget) == Patched(code, S + {j}, vtarget, reg, dtarget)
  {
    var c := Patched(code, S, vtarget, reg, dtarget);
    forall q | 0 <= q < |code|
      ensures Patched(c, {j}, vtarget, reg, dtarget)[q] == Patched(code, S + {j}, vtarget, reg, dtarget)[q]
    {
    }
  }

  lemma PatchedNone(code: seq<Instr>, vtarget: int, reg: nat, dtarget: int)
    ensures Patched(code, {}, vtarget, reg, dtarget) == code
  {
  }

  // ----- registers in use --------------------------------------------------------------------------------------

  /** An instruction that touches no register from `n` on. */
  predicate Fits(i: Instr, n: nat) {
    match i
    case Move(a, b) => a < n && b < n
    case LoadK(a, _) => a < n
    case LoadKX(a) => a < n
    case LoadBool(a, _, _) => a < n
    case LoadNil(a, m) => a + m < n
    case GetUpval(a, _) => a < n
    case Arith(_, a, b, c) => a < n && RKFits(b, n) && RKFits(c, n)
    case Unary(_, a, b) => a < n && b < n
    case Not(a, b) => a < n && b < n
    case Cmp(_, _, b, c) => RKFits(b, n) && RKFits(c, n)
    case Test(b, _) => b < n
    case TestSet(a, b, _) => b < n && DestFits(a, n)
    case Return(a, m) => 0 < m <= n + 1 - a
    case _ => true
  }

  predicate RKFits(x: nat, n: nat) { IsK(x) || x < n }

  predicate DestFits(reg: nat, n: nat) { reg == NO_REG || reg < n }

  predicate CodeFits(code: seq<Instr>, n: nat) { forall q :: 0 <= q < |code| ==> Fits(code[q], n) }

  lemma FitsMore(code: seq<Instr>, n: nat, n': nat)
    requires CodeFits(code, n) && n <= n'
    ensures CodeFits(code, n')
  {
    forall q | 0 <= q < |code| ensures Fits(code[q], n') { assert Fits(code[q], n); }
  }

  // ----- extending code ----------------------------------------------------------------------------------------

  ghost predicate ConstPrefix(k: seq<Value>, k': seq<Value>) {
    |k| <= |k'| && k'[..|k|] == k
  }

  /** `m1` is `m0` with the jumps to here settled and more code behind. */
  ghost predicate Extends(m0: Prog, m1: Prog) {
    var n := |m0.code|;
    && m1.env == m0.env && ConstPrefix(m0.k, m1.k) && n <= |m1.code|
    && m1.code[..n] == Patched(m0.code, m0.here, n, NO_REG, n)
    && (forall q :: 0 <= q < n ==> q !in m1.here && (q in m1.pend <==> q in m0.pend))
  }

  function OnFall(m: Prog, n: nat, o: Outcome): Outcome {
    if o.Fall? then Run(m, n, o.regs) else o
  }

  lemma StepSame(m0: Prog, m1: Prog, q: nat, S: Regs)
    requires WF(m0) && Extends(m0, m1) && q < |m0.code| && Entry(m0.code, q)
    ensures match Step(m0, q, S)
            case Next(p', S') => Step(m1, q, S) == Next(p', S')
            case Done(Fall(S')) => Step(m1, q, S) == Next(|m0.code|, S')
            case Done(o) => Step(m1, q, S) == Done(o)
  {
    var n := |m0.code|;
    assert InstrOK(m0, q);
    assert m1.code[..n][q] == m1.code[q];
    forall x | 0 <= x < |m0.k| ensures m1.k[x] == m0.k[x] { assert m1.k[..|m0.k|][x] == m1.k[x]; }
    if q + 1 < n {
      assert InstrOK(m0, q + 1);
      assert m1.code[..n][q + 1] == m1.code[q + 1];
    }
  }

  /** Whatever ended at the end of `m0` continues there; everything else is as before. */
  lemma RunExtend(m0: Prog, m1: Prog, p: nat, R: Regs)
    requires WF(m0) && Extends(m0, m1) && Entry(m0.code, p)
    ensures Run(m1, p, R) == OnFall(m1, |m0.code|, Run(m0, p, R))
  {
    var n := |m0.code|;
    var c := (o: Outcome) => OnFall(m1, n, o);
    forall q: nat, S: Regs | q < n && Entry(m0.code, q) ensures Matched(m0, m1, c, q, S) {
      StepSame(m0, m1, q, S);
    }
    Simulate(m0, m1, c, p, R);
  }
}
