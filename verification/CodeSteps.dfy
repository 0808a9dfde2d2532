/** Facts that the methods of the code generator use. */
module CodeSteps {
  import opened Options
  import opened LuaCode
  import opened CodeJumps
  import opened ExpSem
  import opened CodeSem
  import opened CodeReg

  /** The two limits of the original: jump offsets and registers. */
  predicate TooBig(g: Gen) {
    |g.code| >= MAXARG_sBx || g.freereg + 1 >= MAXREGS
  }

  lemma UnvaluedMore(code: seq<Instr>, S: set<int>, j: int)
    requires 0 <= j < |code| && code[j].Jmp?
    ensures var c := Unvalued(code, S);
            Unvalued(code, S + {j}) == (if Valued(c, j) then c[j - 1 := Test(c[j - 1].b, c[j - 1].want)] else c)
  {
  }

  lemma PatchedOne(code: seq<Instr>, S: set<int>, j: int, vtarget: int, reg: nat, dtarget: int)
    requires 0 <= j < |code| && code[j].Jmp? && j !in S
    ensures var c := Patched(code, S, vtarget, reg, dtarget);
            var c' := if Valued(c, j) then c[j - 1 := Retargeted(c[j - 1], reg)] else c;
            Fixed(c', j, if Valued(c, j) then vtarget else dtarget) == Patched(c, {j}, vtarget, reg, dtarget)
  {
  }

  /** One turn of `patchlistaux`. */
  lemma PatchTurn(code: seq<Instr>, S: set<int>, j: int, vtarget: int, reg: nat, dtarget: int, c1: seq<Instr>, c2: seq<Instr>)
    requires 0 <= j < |code| && code[j].Jmp? && j !in S
    requires var c := Patched(code, S, vtarget, reg, dtarget);
             && c1 == (if Valued(c, j) then c[j - 1 := Retargeted(c[j - 1], reg)] else c)
             && c2 == Fixed(c1, j, if Valued(c, j) then vtarget else dtarget)
    ensures c2 == Patched(code, S + {j}, vtarget, reg, dtarget)
  {
    hide Patched, Valued, Retargeted, Fixed;
    PatchedMore(code, S, j, vtarget, reg, dtarget);
    PatchedOne(code, S, j, vtarget, reg, dtarget);
  }

  lemma PatchedKeeps(code: seq<Instr>, S: set<int>, vtarget: int, reg: nat, dtarget: int)
    ensures |Patched(code, S, vtarget, reg, dtarget)| == |code|
    ensures forall j :: 0 <= j < |code| && code[j].Jmp? && j !in S ==> Patched(code, S, vtarget, reg, dtarget)[j] == code[j]
  {
  }

  ghost predicate ValuedUpTo(code: seq<Instr>, s: seq<int>, i: int) {
    forall x :: 0 <= x < i && x < |s| ==> Valued(code, s[x])
  }

  lemma AllValuedStart(code: seq<Instr>, s: seq<int>)
    ensures ValuedUpTo(code, s, 0)
  {
  }

  lemma ValuedStep(code: seq<Instr>, h: int, s: seq<int>, i: nat)
    requires s == ListOf(code, h) && i < |s| && ValuedUpTo(code, s, i)
    ensures s[i] in Jumps(code, h) && (Valued(code, s[i]) ==> ValuedUpTo(code, s, i + 1))
  {
  }

  lemma ValuedAll(code: seq<Instr>, h: int, s: seq<int>, i: nat)
    requires s == ListOf(code, h) && i == |s| && ValuedUpTo(code, s, i)
    ensures forall j :: j in Jumps(code, h) ==> Valued(code, j)
  {
  }

  // ----- facts behind the predicates ------------------------------------------------------------------

  lemma GenFacts(env: Env, g: Gen, P: set<int>)
    requires GenOK(env, g, P)
    ensures IsList(g.code, g.jpc) && g.lasttarget <= |g.code| && g.nactvar <= g.freereg < MAXREGS
    ensures g.jpc != NO_JUMP ==> g.lasttarget == |g.code|
    ensures Jumps(g.code, g.jpc) !! P
  {
  }

  lemma ExpFacts(env: Env, g: Gen, P: set<int>, e: ExpDesc)
    requires ExpOK(env, g, P, e)
    ensures IsList(g.code, g.jpc) && IsList(g.code, e.t) && IsList(g.code, e.f)
    ensures GenOK(env, g, P + TList(g, e) + FList(g, e) + Own(e)) && KindOK(g, e.k)
    ensures !e.k.VJmp? ==> GenOK(env, g, P + TList(g, e) + FList(g, e))
    ensures TList(g, e) !! FList(g, e) && TList(g, e) !! P && FList(g, e) !! P
    ensures TList(g, e) !! Jumps(g.code, g.jpc) && FList(g, e) !! Jumps(g.code, g.jpc)
    ensures g.nactvar <= g.freereg < MAXREGS
  {
    assert !e.k.VJmp? ==> P + TList(g, e) + FList(g, e) + Own(e) == P + TList(g, e) + FList(g, e);
  }

  lemma ExpBound(env: Env, g: Gen, P: set<int>, e: ExpDesc)
    requires ExpOK(env, g, P, e)
    ensures g.freereg < MAXREGS && (!e.k.VJmp? ==> GenOK(env, g, P + TList(g, e) + FList(g, e)))
  {
    ExpFacts(env, g, P, e);
  }

  function WithA(i: Instr, reg: nat): Instr
    requires Relocatable(i)
  {
    match i
    case GetUpval(_, u) => GetUpval(reg, u)
    case Arith(op, _, b, c) => Arith(op, reg, b, c)
    case Unary(op, _, b) => Unary(op, reg, b)
    case Not(_, b) => Not(reg, b)
    case _ => i
  }

  predicate DischargedKind(k: ExpKind, k': ExpKind) {
    match k
    case VLocal(r) => k' == VNonReloc(r)
    case VUpval(_) => k'.VReloc?
    case _ => k' == k
  }

  ghost predicate SameLists(g: Gen, e: ExpDesc, g': Gen, e': ExpDesc) {
    e'.t == e.t && e'.f == e.f && TList(g', e') == TList(g, e) && FList(g', e') == FList(g, e)
  }

  lemma EmittedBy(g: Gen, g': Gen, sfx: seq<Instr>)
    requires g'.code == Patched(g.code, Jumps(g.code, g.jpc), |g.code|, NO_REG, |g.code|) + sfx && g'.jpc == NO_JUMP
    requires ConstPrefix(g.k, g'.k) && g'.nactvar == g.nactvar && g.lasttarget <= g'.lasttarget <= |g'.code|
    ensures Emitted(g, g') && |g'.code| == |g.code| + |sfx| && forall x :: 0 <= x < |sfx| ==> g'.code[|g.code| + x] == sfx[x]
  {
  }

  // ----- loads ------------------------------------------------------------------------------------------

  function SetOut(reg: nat, v: Value, o: Outcome): Outcome {
    if o.Fall? then Fall(Set(o.regs, reg, v)) else o
  }

  function NilsOut(from: nat, n: nat, o: Outcome): Outcome {
    if o.Fall? then Fall(SetNils(o.regs, from, n)) else o
  }

  lemma PlainByEmit(env: Env, g: Gen, P: set<int>, g': Gen, i: Instr, v: Value)
    requires GenOK(env, g, P) && g' == g.(code := g'.code, jpc := NO_JUMP)
    requires g'.code == Patched(g.code, Jumps(g.code, g.jpc), |g.code|, NO_REG, |g.code|) + [i]
    requires (i.LoadBool? && !i.skip && v == Bool(i.v)) || (i.LoadK? && i.kx < |g.k| && v == g.k[i.kx])
    ensures GenOK(env, g', P) && Framed(g, g', P)
    ensures forall R :: Out(env, g', P, R) == SetOut(i.a, v, Out(env, g, P, R))
  {
    hide GenOK, Emitted, SuffixOK, Framed, Patched;
    assert P + {} == P;
    GenFacts(env, g, P);
    PatchedSize(g.code, Jumps(g.code, g.jpc), |g.code|, NO_REG, |g.code|);
    EmittedBy(g, g', [i]);
    PlainSuffix(env, g, P, g', i);
    EmitOut(env, g, g', P, {});
    forall R ensures Out(env, g', P, R) == SetOut(i.a, v, Out(env, g, P, R)) {
      var o := Out(env, g, P, R);
      if o.Fall? { RunPlain(Full(env, g', P), |g.code|, o.regs); }
    }
  }

  lemma PatchedSize(code: seq<Instr>, S: set<int>, vtarget: int, reg: nat, dtarget: int)
    ensures |Patched(code, S, vtarget, reg, dtarget)| == |code|
  {
  }

  lemma PlainSuffix(env: Env, g: Gen, P: set<int>, g': Gen, i: Instr)
    requires GenOK(env, g, P) && |g'.code| == |g.code| + 1 && g'.code[|g.code|] == i && g'.k == g.k
    requires (i.LoadBool? && !i.skip) || (i.LoadK? && i.kx < |g.k|) || (i.Return? && i.n > 0)
    ensures SuffixOK(env, g, g', P, {})
  {
  }

  lemma MoveByEmit(env: Env, g: Gen, P: set<int>, g': Gen, reg: nat, info: nat)
    requires GenOK(env, g, P) && g' == g.(code := g'.code, jpc := NO_JUMP)
    requires g'.code == Patched(g.code, Jumps(g.code, g.jpc), |g.code|, NO_REG, |g.code|) + [Move(reg, info)]
    ensures GenOK(env, g', P) && Framed(g, g', P)
    ensures forall R :: Out(env, g', P, R) == MoveOut(reg, info, Out(env, g, P, R))
  {
    assert P + {} == P;
    EmittedBy(g, g', [Move(reg, info)]);
    EmitOut(env, g, g', P, {});
    forall R ensures Out(env, g', P, R) == MoveOut(reg, info, Out(env, g, P, R)) {
      var o := Out(env, g, P, R);
      if o.Fall? { RunPlain(Full(env, g', P), |g.code|, o.regs); }
    }
  }

  function MoveOut(reg: nat, info: nat, o: Outcome): Outcome {
    if o.Fall? then Fall(Set(o.regs, reg, Get(o.regs, info))) else o
  }

  lemma StayPut(env: Env, g: Gen, P: set<int>, reg: nat)
    ensures forall R :: Out(env, g, P, R) == MoveOut(reg, reg, Out(env, g, P, R))
  {
    forall R ensures Out(env, g, P, R) == MoveOut(reg, reg, Out(env, g, P, R)) {
      var o := Out(env, g, P, R);
      if o.Fall? { assert Set(o.regs, reg, Get(o.regs, reg)) == o.regs; }
    }
  }

  lemma WideByEmit(env: Env, g: Gen, P: set<int>, g': Gen, reg: nat, i: nat)
    requires GenOK(env, g, P) && g' == g.(code := g'.code, jpc := NO_JUMP) && i < |g.k|
    requires g'.code == Patched(g.code, Jumps(g.code, g.jpc), |g.code|, NO_REG, |g.code|) + [LoadKX(reg)] + [ExtraArg(i)]
    ensures GenOK(env, g', P) && Framed(g, g', P)
    ensures forall R :: Out(env, g', P, R) == SetOut(reg, g.k[i], Out(env, g, P, R))
  {
    hide GenOK, Framed, Emitted, SuffixOK, Patched;
    var n := |g.code|;
    assert P + {} == P;
    WideEmitted(env, g, P, g', reg, i);
    EmitOut(env, g, g', P, {});
    forall R ensures Out(env, g', P, R) == SetOut(reg, g.k[i], Out(env, g, P, R)) {
      var o := Out(env, g, P, R);
      if o.Fall? { RunWide(Full(env, g', P), n, o.regs); }
    }
  }

  lemma WideEmitted(env: Env, g: Gen, P: set<int>, g': Gen, reg: nat, i: nat)
    requires GenOK(env, g, P) && g' == g.(code := g'.code, jpc := NO_JUMP) && i < |g.k|
    requires g'.code == Patched(g.code, Jumps(g.code, g.jpc), |g.code|, NO_REG, |g.code|) + [LoadKX(reg)] + [ExtraArg(i)]
    ensures Emitted(g, g') && SuffixOK(env, g, g', P, {}) && g'.nactvar <= g'.freereg < MAXREGS
    ensures |g'.code| == |g.code| + 2 && g'.code[|g.code|] == LoadKX(reg) && g'.code[|g.code| + 1] == ExtraArg(i)
  {
    hide WF, Framed, Jumps, Emitted, SuffixOK, PatchAt;
    var sfx := [LoadKX(reg), ExtraArg(i)];
    var c := Patched(g.code, Jumps(g.code, g.jpc), |g.code|, NO_REG, |g.code|);
    assert c + [LoadKX(reg)] + [ExtraArg(i)] == c + sfx;
    EmittedBy(g, g', sfx);
    assert sfx[0] == LoadKX(reg) && sfx[1] == ExtraArg(i);
    WideSuffix(env, g, P, g', reg, i);
  }

  lemma WideSuffix(env: Env, g: Gen, P: set<int>, g': Gen, reg: nat, i: nat)
    requires |g'.code| == |g.code| + 2 && g'.code[|g.code|] == LoadKX(reg) && g'.code[|g.code| + 1] == ExtraArg(i)
    requires i < |g'.k|
    ensures SuffixOK(env, g, g', P, {})
  {
  }

  lemma RunWide(m: Prog, n: nat, R: Regs)
    requires n + 2 == |m.code| && m.code[n].LoadKX? && m.code[n + 1].ExtraArg?
    ensures Run(m, n, R) == Fall(Set(R, m.code[n].a, Const(m.k, m.code[n + 1].ax)))
  {
  }

  /** Constants can be added at any time. */
  lemma ConstsOut(env: Env, g: Gen, P: set<int>, g': Gen)
    requires GenOK(env, g, P) && g' == g.(k := g'.k) && ConstPrefix(g.k, g'.k)
    ensures GenOK(env, g', P) && Framed(g, g', P) && forall R :: Out(env, g', P, R) == Out(env, g, P, R)
  {
    RunConsts(Full(env, g, P), Full(env, g', P), 0, seq(NO_REG, _ => Nil));
    forall R ensures Out(env, g', P, R) == Out(env, g, P, R) {
      RunConsts(Full(env, g, P), Full(env, g', P), 0, R);
    }
  }

  lemma NilsByEmit(env: Env, g: Gen, P: set<int>, g': Gen, from: nat, n: nat)
    requires GenOK(env, g, P) && g' == g.(code := g'.code, jpc := NO_JUMP)
    requires g'.code == Patched(g.code, Jumps(g.code, g.jpc), |g.code|, NO_REG, |g.code|) + [LoadNil(from, n)]
    ensures GenOK(env, g', P) && Framed(g, g', P)
    ensures forall R :: Out(env, g', P, R) == NilsOut(from, n, Out(env, g, P, R))
  {
    assert P + {} == P;
    EmittedBy(g, g', [LoadNil(from, n)]);
    EmitOut(env, g, g', P, {});
    forall R ensures Out(env, g', P, R) == NilsOut(from, n, Out(env, g, P, R)) {
      var o := Out(env, g, P, R);
      if o.Fall? { RunNil(Full(env, g', P), |g.code|, o.regs); }
    }
  }

  lemma NilsByMerge(env: Env, g: Gen, P: set<int>, g': Gen, from: nat, n: nat)
    requires GenOK(env, g, P) && g.lasttarget < |g.code| && g.code[|g.code| - 1].LoadNil?
    requires var i := g.code[|g.code| - 1];
             && ((i.a <= from && from <= i.a + i.n + 1) || (from <= i.a && i.a <= from + n + 1))
             && (var from', l' := if i.a < from then i.a else from, if i.a + i.n > from + n then i.a + i.n else from + n;
                 g' == g.(code := g.code[|g.code| - 1 := LoadNil(from', l' - from')]))
    ensures GenOK(env, g', P) && Framed(g, g', P)
    ensures forall R :: Out(env, g', P, R) == NilsOut(from, n, Out(env, g, P, R))
  {
    var c := |g.code| - 1;
    NoList(g.code);
    NoList(g'.code);
    MergeGen(env, g, P, g');
    NilCut(env, g, P, c);
    NilCut(env, g', P, c);
    assert Cut(g', c) == Cut(g, c);
    forall R ensures Out(env, g', P, R) == NilsOut(from, n, Out(env, g, P, R)) {
      var o := Out(env, Cut(g, c), P, R);
      if o.Fall? {
        RunNil(Full(env, g', P), c, o.regs);
        RunNil(Full(env, g, P), c, o.regs);
        NilsJoined(o.regs, g.code[c].a, g.code[c].n, from, n);
      }
    }
  }

  // ----- descriptors ---------------------------------------------------------------------------------------

  lemma LocalMeans(env: Env, before: Prog, g: Gen, P: set<int>, e: ExpDesc, a: Expr, fr: nat, e': ExpDesc)
    requires ExpOK(env, g, P, e) && Means(env, before, g, P, e, a, fr) && e.k.VLocal? && e' == e.(k := VNonReloc(e.k.info))
    ensures ExpOK(env, g, P, e') && Means(env, before, g, P, e', a, fr) && SameLists(g, e, g, e')
  {
    RekindMeans(env, before, g, P, e, a, fr, g, e');
  }

  lemma UpvalEmitted(env: Env, before: Prog, g: Gen, P: set<int>, e: ExpDesc, a: Expr, fr: nat, g': Gen)
    requires ExpOK(env, g, P, e) && Means(env, before, g, P, e, a, fr) && e.k.VUpval?
    requires g' == g.(code := g'.code, jpc := NO_JUMP)
    requires g'.code == Patched(g.code, Jumps(g.code, g.jpc), |g.code|, NO_REG, |g.code|) + [GetUpval(0, e.k.info)]
    ensures var e' := ExpDesc(VReloc(|g.code|), e.t, e.f);
            ExpOK(env, g', P, e') && Means(env, before, g', P, e', a, fr) && Framed(g, g', P + TList(g, e) + FList(g, e))
            && SameLists(g, e, g', e')
  {
    ExpFacts(env, g, P, e);
    EmittedBy(g, g', [GetUpval(0, e.k.info)]);
    UpvalMeans(env, before, g, P, e, a, fr, g');
  }

  /** The value is in `reg`; the lists of the expression are as before, and still open. */
  ghost predicate Placed(env: Env, before: Prog, g: Gen, P: set<int>, e: ExpDesc, a: Expr, fr: nat, g': Gen, reg: nat) {
    var T, F := TList(g, e), FList(g, e);
    var e' := ExpDesc(VNonReloc(reg), e.t, e.f);
    && SameLists(g, e, g', e') && IsList(g'.code, e.t) && IsList(g'.code, e.f)
    && GenOK(env, g', P + T + F) && Ready(env, before, g', P, T, F, a, fr, reg, false)
    && (fr <= reg ==> ExpOK(env, g', P, e') && Means(env, before, g', P, e', a, fr))
  }

  lemma LoadPlaced(env: Env, before: Prog, g: Gen, P: set<int>, e: ExpDesc, a: Expr, fr: nat, g1: Gen, e1: ExpDesc, g': Gen, reg: nat)
    requires ExpOK(env, g1, P, e1) && Means(env, before, g1, P, e1, a, fr) && !e1.k.VJmp? && reg < g'.freereg
    requires SameLists(g, e, g1, e1)
    requires var PE := P + TList(g1, e1) + FList(g1, e1); GenOK(env, g', PE) && Framed(g1, g', PE)
    requires LoadOK(env, g1, P, e1, g', reg)
    ensures Placed(env, before, g, P, e, a, fr, g', reg)
  {
    var PE := P + TList(g1, e1) + FList(g1, e1);
    GenFacts(env, g', PE);
    ExpFacts(env, g1, P, e1);
    FramedList(g1, g', PE, e1.t);
    FramedList(g1, g', PE, e1.f);
    LoadedReady(env, before, g1, P, e1, a, fr, g', reg);
    if fr <= reg { LoadedMeans(env, before, g1, P, e1, a, fr, g', reg); }
  }

  ghost predicate LoadOK(env: Env, g: Gen, P: set<int>, e: ExpDesc, g': Gen, reg: nat)
    requires KindOK(g, e.k)
  {
    var PE := P + TList(g, e) + FList(g, e);
    forall R :: Out(env, g', PE, R) == LoadOut(env, g, e, reg, Run(Base(env, g, P, e), 0, R))
  }

  lemma LoadBy(env: Env, g: Gen, P: set<int>, e: ExpDesc, g': Gen, reg: nat, v: Value)
    requires KindOK(g, e.k) && InPlace(e.k) && forall R :: ValueOf(env, g, e, R) == v
    requires var PE := P + TList(g, e) + FList(g, e); forall R :: Out(env, g', PE, R) == SetOut(reg, v, Out(env, g, PE, R))
    ensures LoadOK(env, g, P, e, g', reg)
  {
  }

  lemma LoadNils(env: Env, g: Gen, P: set<int>, e: ExpDesc, g': Gen, reg: nat)
    requires e.k.VNil?
    requires var PE := P + TList(g, e) + FList(g, e); forall R :: Out(env, g', PE, R) == NilsOut(reg, 0, Out(env, g, PE, R))
    ensures LoadOK(env, g, P, e, g', reg)
  {
  }

  lemma LoadMoved(env: Env, g: Gen, P: set<int>, e: ExpDesc, g': Gen, reg: nat)
    requires e.k.VNonReloc? && KindOK(g, e.k)
    requires var PE := P + TList(g, e) + FList(g, e); forall R :: Out(env, g', PE, R) == MoveOut(reg, e.k.info, Out(env, g, PE, R))
    ensures LoadOK(env, g, P, e, g', reg)
  {
  }

  lemma LoadRelocated(env: Env, g: Gen, P: set<int>, e: ExpDesc, g': Gen, reg: nat)
    requires ExpOK(env, g, P, e) && e.k.VReloc? && reg < MAXREGS && KindOK(g, e.k)
    requires g' == g.(code := g.code[e.k.pc := WithA(g.code[e.k.pc], reg)])
    ensures LoadOK(env, g, P, e, g', reg)
    ensures var PE := P + TList(g, e) + FList(g, e); GenOK(env, g', PE) && Framed(g, g', PE)
  {
    LoadByRelocation(env, g, P, e, g', reg);
  }

  // ----- open jumps ------------------------------------------------------------------------------------------

  /** The value is in place except for the open jumps of the lists `t` and `f`. */
  ghost predicate Opened(env: Env, before: Prog, g: Gen, P: set<int>, t: int, f: int, a: Expr, fr: nat, reg: nat, test: bool) {
    var T, F := Jumps(g.code, t), Jumps(g.code, f);
    && IsList(g.code, t) && IsList(g.code, f) && T !! F && T !! P && F !! P
    && GenOK(env, g, P + T + F) && Ready(env, before, g, P, T, F, a, fr, reg, test) && reg < MAXREGS
    && (test ==> (exists j :: j in T && !Valued(g.code, j)) && g.jpc == NO_JUMP)
  }

  lemma OpenedFacts(env: Env, before: Prog, g: Gen, P: set<int>, t: int, f: int, a: Expr, fr: nat, reg: nat, test: bool)
    requires Opened(env, before, g, P, t, f, a, fr, reg, test)
    ensures IsList(g.code, t) && IsList(g.code, f) && IsList(g.code, g.jpc)
    ensures GenOK(env, g, P + Jumps(g.code, t) + Jumps(g.code, f)) && reg < MAXREGS
    ensures test ==> (exists j :: j in Jumps(g.code, t) && !Valued(g.code, j)) && g.jpc == NO_JUMP
    ensures Jumps(g.code, t) !! Jumps(g.code, f)
  {
  }

  lemma PlacedOpened(env: Env, before: Prog, g: Gen, P: set<int>, e: ExpDesc, a: Expr, fr: nat, g': Gen, reg: nat)
    requires Placed(env, before, g, P, e, a, fr, g', reg) && ExpOK(env, g, P, e) && reg < MAXREGS
    ensures Opened(env, before, g', P, e.t, e.f, a, fr, reg, false)
  {
  }

  lemma JumpList(env: Env, g: Gen, P: set<int>, e: ExpDesc)
    requires ExpOK(env, g, P, e) && e.k.VJmp?
    ensures IsList(g.code, e.t) && IsList(g.code, e.k.pc) && Jumps(g.code, e.k.pc) == {e.k.pc as int}
    ensures Jumps(g.code, e.t) !! Jumps(g.code, e.k.pc)
  {
    var s: seq<int> := [e.k.pc];
    assert GetJump(g.code, e.k.pc) == NO_JUMP;
    assert Chain(g.code, e.k.pc, s);
    ListIs(g.code, e.k.pc, s);
  }

  lemma TestOpened(env: Env, before: Prog, g: Gen, P: set<int>, e: ExpDesc, a: Expr, fr: nat, reg: nat, g': Gen, t: int)
    requires ExpOK(env, g, P, e) && Means(env, before, g, P, e, a, fr) && e.k.VJmp? && reg < MAXREGS
    requires g' == g.(code := g'.code) && Relinked(g, g', TList(g, e)) && IsList(g'.code, t)
    requires Jumps(g'.code, t) == TList(g, e) + {e.k.pc as int}
    ensures Opened(env, before, g', P, t, e.f, a, fr, reg, true) && Framed(g, g', P)
  {
    hide GenOK, Framed, IsList, Jumps, Means, ExpOK, Relinked, Run, ReadyOn;
    var T, F, N := TList(g, e), FList(g, e), {e.k.pc as int};
    ExpApart(env, g, P, e);
    TestReady(env, before, g, P, e, a, fr, reg);
    assert P + T + N + F == P + (T + N) + F;
    TestLinks(env, g, P, e, g');
    RelinkedCarries(g, g', T, T + N + F);
    hide Carries;
    JumpNotValued(env, g, P, e, g');
    forall R: Regs ensures ReadyOn(env, g', T + N, F, a, fr, reg, true, Run(before, 0, R), Out(env, g', P + (T + N) + F, R)) {
      assert ReadyOn(env, g, T + N, F, a, fr, reg, true, Run(before, 0, R), Out(env, g, P + (T + N) + F, R));
      ReadyCarries(env, g, g', T + N, F, a, fr, reg, true, Run(before, 0, R), Out(env, g, P + (T + N) + F, R));
    }
  }

  lemma ReadyCarries(env: Env, g: Gen, g': Gen, T: set<int>, F: set<int>, a: Expr, fr: nat, reg: nat, test: bool, o0: Outcome, o1: Outcome)
    requires ReadyOn(env, g, T, F, a, fr, reg, test, o0, o1)
    requires forall j, R, v, c :: j in T + F && Carries(g.code, j, R, v, c) ==> Carries(g'.code, j, R, v, c)
    ensures ReadyOn(env, g', T, F, a, fr, reg, test, o0, o1)
  {
    hide Carries;
  }

  lemma JumpNotValued(env: Env, g: Gen, P: set<int>, e: ExpDesc, g': Gen)
    requires ExpOK(env, g, P, e) && e.k.VJmp? && Relinked(g, g', TList(g, e))
    ensures !Valued(g'.code, e.k.pc) && g.jpc == NO_JUMP
  {
  }

  lemma TestLinks(env: Env, g: Gen, P: set<int>, e: ExpDesc, g': Gen)
    requires ExpOK(env, g, P, e) && e.k.VJmp? && g' == g.(code := g'.code) && Relinked(g, g', TList(g, e))
    ensures var PE := P + (TList(g, e) + {e.k.pc as int}) + FList(g, e);
            && GenOK(env, g', PE) && Framed(g, g', P) && IsList(g'.code, e.f) && Jumps(g'.code, e.f) == FList(g, e)
            && forall R :: Out(env, g', PE, R) == Out(env, g, PE, R)
  {
    var T, F, N := TList(g, e), FList(g, e), {e.k.pc as int};
    assert P + (T + N) + F == P + T + F + Own(e);
    ListChain(g.code, e.f);
    ListSame(g.code, g'.code, e.f);
    NoList(g.code);
    NoList(g'.code);
    RelinkedMore(g, g', T, Jumps(g.code, g.jpc) + (P + (T + N) + F));
    LinkOut(env, g, g', P + (T + N) + F);
    RelinkedFramed(g, g', T, P);
  }

  lemma NoJumps(env: Env, before: Prog, g: Gen, P: set<int>, t: int, a: Expr, fr: nat, reg: nat, test: bool)
    requires Opened(env, before, g, P, t, t, a, fr, reg, test)
    ensures GenOK(env, g, P) && InReg(env, before, g, P, a, fr, reg)
  {
    ListChain(g.code, t);
    assert Jumps(g.code, t) == {};
    assert P + {} + {} == P;
    ReadyInReg(env, before, g, P, a, fr, reg);
  }

  lemma AllValued(g: Gen, t: int, f: int, reg: nat)
    requires (forall j :: j in Jumps(g.code, t) ==> Valued(g.code, j)) && (forall j :: j in Jumps(g.code, f) ==> Valued(g.code, j))
    ensures Patchable(g, Jumps(g.code, t), NO_JUMP, reg, true) && Patchable(g, Jumps(g.code, f), NO_JUMP, reg, false)
  {
  }

  lemma Labelled(env: Env, before: Prog, g: Gen, P: set<int>, t: int, f: int, a: Expr, fr: nat, reg: nat, g': Gen, p_f: int, p_t: int)
    requires Opened(env, before, g, P, t, f, a, fr, reg, false) && g' == g.(lasttarget := |g.code|)
    requires Patchable(g, Jumps(g.code, t), p_t, reg, true) && Patchable(g, Jumps(g.code, f), p_f, reg, false)
    ensures Opened(env, before, g', P, t, f, a, fr, reg, false)
    ensures Patchable(g', Jumps(g'.code, t), p_t, reg, true) && Patchable(g', Jumps(g'.code, f), p_f, reg, false)
  {
    var T, F := Jumps(g.code, t), Jumps(g.code, f);
    assert Full(env, g', P + T + F) == Full(env, g, P + T + F);
    forall R: Regs ensures ReadyOn(env, g', T, F, a, fr, reg, false, Run(before, 0, R), Out(env, g', P + T + F, R)) {
      assert ReadyOn(env, g, T, F, a, fr, reg, false, Run(before, 0, R), Out(env, g, P + T + F, R));
    }
  }

  /** After the jump around the loads, if there is one. */
  ghost predicate Jumped(env: Env, g: Gen, PE: set<int>, test: bool, g1: Gen, fj: int) {
    if test then g1 == g && fj == NO_JUMP
    else
      var N := Jumps(g.code, g.jpc) + {|g.code|};
      && IsList(g1.code, fj) && Jumps(g1.code, fj) == N && g1.jpc == NO_JUMP
      && GenOK(env, g1, PE + N) && Framed(g, g1, PE) && N !! PE
      && forall R :: ViaJump(N, Out(env, g, PE, R), Out(env, g1, PE + N, R))
  }

  lemma OpenedJumped(env: Env, before: Prog, g: Gen, P: set<int>, t: int, f: int, a: Expr, fr: nat, reg: nat, test: bool, g1: Gen, fj: int)
    requires Opened(env, before, g, P, t, f, a, fr, reg, test)
    requires if test then g1 == g && fj == NO_JUMP
             else g1 == g.(code := g1.code, jpc := NO_JUMP) && |g1.code| == |g.code| + 1 && g1.code[..|g.code|] == g.code
                  && g1.code[|g.code|].Jmp? && IsList(g1.code, fj) && Jumps(g1.code, fj) == {|g.code|} + Jumps(g.code, g.jpc)
    ensures Jumped(env, g, P + Jumps(g.code, t) + Jumps(g.code, f), test, g1, fj)
    ensures IsList(g1.code, g1.jpc) && g1.jpc == NO_JUMP && IsList(g1.code, fj) && |g1.code| >= |g.code|
  {
    NoList(g1.code);
    if !test {
      var N := Jumps(g.code, g.jpc) + {|g.code|};
      forall q | 0 <= q < |g.code| ensures g1.code[q] == g.code[q] { assert g1.code[..|g.code|][q] == g1.code[q]; }
      JumpOut(env, g, P + Jumps(g.code, t) + Jumps(g.code, f), g1, N);
    }
  }

  lemma LoadsLists(env: Env, g1: Gen, g2: Gen, PE: set<int>, reg: nat, fj: int)
    requires g1.jpc == NO_JUMP && IsList(g1.code, fj)
    requires g2 == g1.(code := g2.code, lasttarget := g2.lasttarget)
    requires g2.code == g1.code + [LoadBool(reg, false, true)] + [LoadBool(reg, true, false)] && g2.lasttarget == |g1.code| + 1
    ensures IsList(g2.code, g2.jpc) && IsList(g2.code, fj) && Jumps(g2.code, fj) == Jumps(g1.code, fj) && Jumps(g2.code, g2.jpc) == {}
    ensures g1.lasttarget <= g2.lasttarget ==> Loads(g1, g2, reg)
  {
    NoList(g2.code);
    ListChain(g1.code, fj);
    ListSame(g1.code, g2.code, fj);
    assert g2.code[..|g1.code|] == g1.code;
  }

  lemma LoadsOpened(env: Env, before: Prog, g: Gen, P: set<int>, t: int, f: int, a: Expr, fr: nat, reg: nat, test: bool,
                    g1: Gen, fj: int, g2: Gen, g3: Gen)
    requires Opened(env, before, g, P, t, f, a, fr, reg, test)
    requires Jumped(env, g, P + Jumps(g.code, t) + Jumps(g.code, f), test, g1, fj)
    requires (g1.lasttarget <= g2.lasttarget ==> Loads(g1, g2, reg)) && g2.lasttarget == |g1.code| + 1
    requires |g2.code| == |g1.code| + 2 && g2.jpc == NO_JUMP && Jumps(g2.code, g2.jpc) == {} && Jumps(g2.code, fj) == Jumps(g1.code, fj)
    requires Relinked(g2, g3, {}) && g3.lasttarget == |g2.code|
    requires IsList(g3.code, g3.jpc) && Jumps(g3.code, g3.jpc) == Jumps(g2.code, fj)
    ensures Opened(env, before, g3, P, t, f, a, fr, reg, false) && Framed(g, g3, P)
    ensures Patchable(g3, Jumps(g3.code, t), |g1.code| + 1, reg, true) && Patchable(g3, Jumps(g3.code, f), |g1.code|, reg, false)
  {
    var T, F := Jumps(g.code, t), Jumps(g.code, f);
    var PE := P + T + F;
    PendInside(env, g, PE);
    if test {
      GenFacts(env, g, PE);
      NoList(g1.code);
      ListChain(g3.code, g3.jpc);
      TestLoads(env, before, g, P, T, F, a, fr, reg, g2);
      TestHere(env, before, g2, P, T, F, a, fr, reg, g3);
      FramedTrans(g, g2, g3, PE);
    } else {
      var N := Jumps(g.code, g.jpc) + {|g.code|};
      GenFacts(env, g1, PE + N);
      JumpedLoads(env, before, g, P, T, F, a, fr, reg, g1, N, g2, g3);
    }
    LoadsLast(g, g1, g2, g3, reg, PE, test, fj, env);
    FramedList(g, g3, PE, t);
    FramedList(g, g3, PE, f);
    FramedLess(g, g3, PE, P);
    GenFacts(env, g3, PE);
  }

  lemma LoadsLast(g: Gen, g1: Gen, g2: Gen, g3: Gen, reg: nat, PE: set<int>, test: bool, fj: int, env: Env)
    requires Jumped(env, g, PE, test, g1, fj) && Loads(g1, g2, reg) && Relinked(g2, g3, {})
    requires (!test ==> Framed(g, g1, PE)) && forall j :: j in PE ==> 0 <= j < |g.code|
    ensures LoadAt(g3, |g1.code| + 1, reg, true) && LoadAt(g3, |g1.code|, reg, false) && |g3.code| == |g1.code| + 2
    ensures forall j :: j in PE ==> j < |g3.code| - 2
  {
  }

  /** Nothing is added to the jumps to here: only the label moves. */
  lemma TestHere(env: Env, before: Prog, g: Gen, P: set<int>, T: set<int>, F: set<int>, a: Expr, fr: nat, reg: nat, g': Gen)
    requires GenOK(env, g, P + T + F) && Ready(env, before, g, P, T, F, a, fr, reg, false) && g.jpc == NO_JUMP
    requires Relinked(g, g', {}) && g'.lasttarget == |g.code| && g'.jpc == NO_JUMP
    ensures GenOK(env, g', P + T + F) && Ready(env, before, g', P, T, F, a, fr, reg, false) && Framed(g, g', P + T + F)
  {
    assert g'.code == g.code;
    assert Full(env, g', P + T + F) == Full(env, g, P + T + F);
    forall R: Regs ensures ReadyOn(env, g', T, F, a, fr, reg, false, Run(before, 0, R), Out(env, g', P + T + F, R)) {
      assert ReadyOn(env, g, T, F, a, fr, reg, false, Run(before, 0, R), Out(env, g, P + T + F, R));
    }
  }

  // ----- patching ------------------------------------------------------------------------------------------------

  lemma PatchedFalse(env: Env, before: Prog, g: Gen, P: set<int>, t: int, f: int, a: Expr, fr: nat, reg: nat, p_f: int, p_t: int, g1: Gen)
    requires Opened(env, before, g, P, t, f, a, fr, reg, false) && g.lasttarget == |g.code| && p_f < |g.code| && p_t < |g.code|
    requires Patchable(g, Jumps(g.code, t), p_t, reg, true) && Patchable(g, Jumps(g.code, f), p_f, reg, false)
    requires g1 == g.(code := Patched(g.code, Jumps(g.code, f), |g.code|, reg, p_f))
    ensures var T := Jumps(g.code, t);
            && IsList(g1.code, t) && Jumps(g1.code, t) == T && Patchable(g1, T, p_t, reg, true)
            && GenOK(env, g1, P + T) && Framed(g, g1, P + T) && Ready(env, before, g1, P, T, {}, a, fr, reg, false)
  {
    var T, F := Jumps(g.code, t), Jumps(g.code, f);
    PatchReady(env, before, g, P, T, F, a, fr, reg, false, p_f, g1);
    assert P + T + {} == P + T;
    FramedList(g, g1, P + T, t);
    PendInside(env, g, P + T + F);
    StillPatchable(g, g1, T, F, p_t, reg, p_f);
  }

  lemma StillPatchable(g: Gen, g1: Gen, T: set<int>, F: set<int>, p_t: int, reg: nat, p_f: int)
    requires Patchable(g, T, p_t, reg, true) && g1 == g.(code := Patched(g.code, F, |g.code|, reg, p_f)) && T !! F
    requires forall j :: j in T + F ==> 0 <= j < |g.code|
    ensures Patchable(g1, T, p_t, reg, true)
  {
  }

  lemma PatchedTrue(env: Env, before: Prog, g: Gen, P: set<int>, t: int, f: int, a: Expr, fr: nat, reg: nat, p_t: int, g1: Gen, g2: Gen)
    requires Opened(env, before, g, P, t, f, a, fr, reg, false) && g.lasttarget == |g.code| && p_t < |g.code|
    requires g1 == g.(code := g1.code) && |g1.code| == |g.code|
    requires var T := Jumps(g.code, t);
             && Jumps(g1.code, t) == T && Patchable(g1, T, p_t, reg, true)
             && GenOK(env, g1, P + T) && Framed(g, g1, P + T) && Ready(env, before, g1, P, T, {}, a, fr, reg, false)
    requires g2 == g1.(code := Patched(g1.code, Jumps(g1.code, t), |g1.code|, reg, p_t))
    ensures GenOK(env, g2, P) && InReg(env, before, g2, P, a, fr, reg) && Framed(g, g2, P)
  {
    var T := Jumps(g.code, t);
    assert P + T + {} == P + T;
    PatchReady(env, before, g1, P, T, {}, a, fr, reg, true, p_t, g2);
    assert P + {} + {} == P;
    ReadyInReg(env, before, g2, P, a, fr, reg);
    FramedLess(g, g1, P + T, P);
    FramedTrans(g, g1, g2, P);
  }

  // ----- registers ---------------------------------------------------------------------------------------------

  lemma FreeregMeans(env: Env, before: Prog, g: Gen, P: set<int>, e: ExpDesc, a: Expr, fr: nat, g': Gen)
    requires ExpOK(env, g, P, e) && Means(env, before, g, P, e, a, fr)
    requires g' == g.(freereg := g'.freereg) && g'.nactvar <= g'.freereg < MAXREGS
    ensures ExpOK(env, g', P, e) && Means(env, before, g', P, e, a, fr)
    ensures TList(g', e) == TList(g, e) && FList(g', e) == FList(g, e)
  {
    hide WF;
    var PE := P + TList(g, e) + FList(g, e);
    assert Full(env, g', PE) == Full(env, g, PE) && Full(env, g', PE + Own(e)) == Full(env, g, PE + Own(e));
    assert Base(env, g', P, e) == Base(env, g, P, e);
    forall R: Regs ensures Good(env, g', e, a, fr, Run(before, 0, R), Run(Base(env, g', P, e), 0, R)) {
      assert Good(env, g, e, a, fr, Run(before, 0, R), Run(Base(env, g, P, e), 0, R));
    }
  }

  /** `hasjumps`: the heads of the two lists are equal only when both are empty. */
  lemma SameListsEmpty(env: Env, g: Gen, P: set<int>, e: ExpDesc)
    requires ExpOK(env, g, P, e) && e.t == e.f
    ensures e.t == NO_JUMP && e.f == NO_JUMP
  {
    ListChain(g.code, e.t);
  }

  /** In a register or a constant that fits an operand. */
  predicate RKForm(e: ExpDesc) {
    e.t == NO_JUMP && e.f == NO_JUMP && ((e.k.VNonReloc? && e.k.info < BITRK) || (e.k.VK? && e.k.info <= MAXINDEXRK))
  }

  function RKIndex(e: ExpDesc): nat
    requires RKForm(e)
  {
    if e.k.VK? then BITRK + e.k.info else e.k.info
  }

  lemma KindKnown(env: Env, g: Gen, P: set<int>, e: ExpDesc)
    requires ExpOK(env, g, P, e)
    ensures KindOK(g, e.k) && g.freereg < MAXREGS
  {
  }

  lemma RKOperand(env: Env, before: Prog, g: Gen, P: set<int>, e: ExpDesc, a: Expr, fr: nat)
    requires ExpOK(env, g, P, e) && Means(env, before, g, P, e, a, fr) && e.t == NO_JUMP && e.f == NO_JUMP
    requires e.k.VNonReloc? || (e.k.VK? && e.k.info <= MAXINDEXRK)
    ensures RKForm(e) && Operand(env, before, g, P, RKIndex(e), a, fr)
  {
    NoList(g.code);
    MeansOperand(env, before, g, P, e, a, fr, RKIndex(e));
  }

  lemma ConstRekind(env: Env, before: Prog, g: Gen, P: set<int>, e: ExpDesc, a: Expr, fr: nat, g': Gen, i: nat)
    requires ExpOK(env, g, P, e) && Means(env, before, g, P, e, a, fr) && e.t == NO_JUMP && e.f == NO_JUMP && InPlace(e.k)
    requires g' == g.(k := g'.k) && ConstPrefix(g.k, g'.k) && i < |g'.k| && KindOK(g, e.k)
    requires forall R :: ValueOf(env, g, e, R) == g'.k[i]
    ensures var e' := ExpDesc(VK(i), NO_JUMP, NO_JUMP);
            ExpOK(env, g', P, e') && Means(env, before, g', P, e', a, fr) && Framed(g, g', P)
  {
    RekindMeans(env, before, g, P, e, a, fr, g', ExpDesc(VK(i), NO_JUMP, NO_JUMP));
  }

  // ----- conditions ----------------------------------------------------------------------------------------------

  lemma DischargedAny(env: Env, before: Prog, g: Gen, g1: Gen, P: set<int>, e: ExpDesc, a: Expr, fr: nat, g': Gen)
    requires g1 == g.(freereg := g1.freereg) && g1.freereg == g.freereg + 1 && g.freereg == fr && KindOK(g, e.k) && g.nactvar <= fr
    requires Placed(env, before, g1, P, e, a, fr, g', fr) && g'.freereg == g1.freereg && g'.nactvar == g.nactvar
    requires Framed(g1, g', P + TList(g1, e) + FList(g1, e))
    ensures var e' := ExpDesc(VNonReloc(fr), e.t, e.f);
            ExpOK(env, g', P, e') && Means(env, before, g', P, e', a, fr) && SameLists(g, e, g', e') && RegsOK(fr, g', e')
    ensures Framed(g, g', P + TList(g, e) + FList(g, e))
  {
  }

  /** The value was tested; `pc` is the list of the new jump (or empty). */
  ghost predicate Tested(env: Env, before: Prog, g: Gen, P: set<int>, e: ExpDesc, a: Expr, fr: nat, g': Gen, pc: int, cond: bool) {
    var T, F, N := TList(g, e), FList(g, e), Jumps(g'.code, pc);
    && IsList(g'.code, pc) && GenOK(env, g', P + T + F + N) && Framed(g, g', P + T + F) && N !! P + T + F
    && Splits(env, before, g', P, if cond then T + N else T, if cond then F else F + N, a, fr, !cond)
    && ExpListsOK(g, P, e)
  }

  ghost predicate ExpListsOK(g: Gen, P: set<int>, e: ExpDesc) {
    IsList(g.code, e.t) && IsList(g.code, e.f) && TList(g, e) !! FList(g, e) && TList(g, e) !! P && FList(g, e) !! P
  }

  lemma SingleList(code: seq<Instr>, j: nat)
    requires j < |code| && code[j] == Jmp(NO_JUMP)
    ensures IsList(code, j) && Jumps(code, j) == {j as int}
  {
    var s: seq<int> := [j];
    assert GetJump(code, j) == NO_JUMP;
    assert Chain(code, j, s);
    ListIs(code, j, s);
  }

  lemma NotTested(env: Env, before: Prog, g: Gen, P: set<int>, e: ExpDesc, a: Expr, fr: nat, g': Gen, pc: int, cond: bool)
    requires ExpOK(env, g, P, e) && Means(env, before, g, P, e, a, fr) && KindOK(g, e.k) && e.k.VReloc? && g.code[e.k.pc].Not?
    requires var c := g.code[..|g.code| - 1];
             && g' == g.(code := g'.code, jpc := NO_JUMP)
             && g'.code == Patched(c, Jumps(c, g.jpc), |c|, NO_REG, |c|) + [Test(g.code[e.k.pc].b, !cond), Jmp(NO_JUMP)]
    requires pc == |g.code| && IsList(g'.code, pc) && Jumps(g'.code, pc) == {pc}
    ensures Tested(env, before, g, P, e, a, fr, g', pc, cond)
  {
    EmittedBy(Cut(g, e.k.pc), g', [Test(g.code[e.k.pc].b, !cond), Jmp(NO_JUMP)]);
    assert g'.code[e.k.pc + 1] == Jmp(NO_JUMP);
    NotSplits(env, before, g, P, e, a, fr, g', cond);
  }

  lemma ValueTested(env: Env, before: Prog, g: Gen, P: set<int>, e: ExpDesc, a: Expr, fr: nat, g1: Gen, e1: ExpDesc, g': Gen, pc: int, cond: bool)
    requires ExpOK(env, g1, P, e1) && Means(env, before, g1, P, e1, a, fr) && e1.k.VNonReloc? && ExpListsOK(g, P, e)
    requires SameLists(g, e, g1, e1) && Framed(g, g1, P + TList(g, e) + FList(g, e)) && g.nactvar <= g'.freereg < MAXREGS
    requires g' == g1.(code := g'.code, jpc := NO_JUMP, freereg := g'.freereg)
    requires g'.code == Patched(g1.code, Jumps(g1.code, g1.jpc), |g1.code|, NO_REG, |g1.code|) + [TestSet(NO_REG, e1.k.info, cond), Jmp(NO_JUMP)]
    requires pc == |g1.code| + 1 && IsList(g'.code, pc) && Jumps(g'.code, pc) == {pc}
    ensures Tested(env, before, g, P, e, a, fr, g', pc, cond)
  {
    ExpBound(env, g1, P, e1);
    EmittedBy(g1, g', [TestSet(NO_REG, e1.k.info, cond), Jmp(NO_JUMP)]) by { GenFacts(env, g1, P + TList(g1, e1) + FList(g1, e1)); }
    assert g'.code[|g1.code| + 1] == Jmp(NO_JUMP);
    TestSplits(env, before, g1, P, e1, a, fr, g', cond);
    FramedTrans(g, g1, g', P + TList(g, e) + FList(g, e));
  }

  lemma JumpTested(env: Env, before: Prog, g: Gen, P: set<int>, e: ExpDesc, a: Expr, fr: nat, g': Gen, cond: bool)
    requires ExpOK(env, g, P, e) && Means(env, before, g, P, e, a, fr) && KindOK(g, e.k) && e.k.VJmp?
    requires g' == if cond then g else g.(code := g.code[e.k.pc - 1 := Negated(g.code[e.k.pc - 1])])
    ensures Tested(env, before, g, P, e, a, fr, g', e.k.pc, cond)
  {
    SingleList(g'.code, e.k.pc);
    JumpSplits(env, before, g, P, e, a, fr, g', cond);
  }

  lemma KnownTested(env: Env, before: Prog, g: Gen, P: set<int>, e: ExpDesc, a: Expr, fr: nat, cond: bool)
    requires ExpOK(env, g, P, e) && Means(env, before, g, P, e, a, fr) && KindOK(g, e.k)
    requires match e.k
             case VK(i) => !cond && Truthy(g.k[i])
             case VKFlt(_) => !cond
             case VKInt(_) => !cond
             case VTrue => !cond
             case VNil => cond
             case VFalse => cond
             case _ => false
    ensures Tested(env, before, g, P, e, a, fr, g, NO_JUMP, cond)
  {
    var T, F := TList(g, e), FList(g, e);
    NoList(g.code);
    assert T + {} == T && F + {} == F && P + T + F + {} == P + T + F && P + T + F + Own(e) == P + T + F;
    FramedRefl(g, g, P + T + F);
    KnownSplits(env, before, g, P, e, a, fr, !cond);
  }

  lemma TestedFacts(env: Env, before: Prog, g: Gen, P: set<int>, e: ExpDesc, a: Expr, fr: nat, g': Gen, pc: int, cond: bool)
    requires Tested(env, before, g, P, e, a, fr, g', pc, cond)
    ensures IsList(g'.code, pc) && IsList(g'.code, e.t) && IsList(g'.code, e.f)
    ensures TList(g', e) == TList(g, e) && FList(g', e) == FList(g, e)
    ensures Jumps(g'.code, pc) !! Jumps(g'.code, e.t) && Jumps(g'.code, pc) !! Jumps(g'.code, e.f)
  {
    FramedList(g, g', P + TList(g, e) + FList(g, e), e.t);
    FramedList(g, g', P + TList(g, e) + FList(g, e), e.f);
  }

  /** The new jump was appended to its list. */
  ghost predicate Split2(env: Env, before: Prog, g: Gen, P: set<int>, t: int, f: int, a: Expr, fr: nat, b: bool) {
    var T, F := Jumps(g.code, t), Jumps(g.code, f);
    && IsList(g.code, t) && IsList(g.code, f) && T !! F && T !! P && F !! P
    && GenOK(env, g, P + T + F) && Splits(env, before, g, P, T, F, a, fr, b)
  }

  lemma TestedJoined(env: Env, before: Prog, g: Gen, P: set<int>, e: ExpDesc, a: Expr, fr: nat, g2: Gen, pc: int, cond: bool, g3: Gen, l: int)
    requires Tested(env, before, g, P, e, a, fr, g2, pc, cond)
    requires g3 == g2.(code := g3.code) && IsList(g3.code, l)
    requires var h := if cond then e.t else e.f;
             Relinked(g2, g3, Jumps(g2.code, h)) && Jumps(g3.code, l) == Jumps(g2.code, h) + Jumps(g2.code, pc)
    ensures Split2(env, before, g3, P, if cond then l else e.t, if cond then e.f else l, a, fr, !cond) && Framed(g, g3, P)
    ensures IsList(g3.code, g3.jpc) && Jumps(g3.code, g3.jpc) !! P + Jumps(g3.code, l)
    ensures Jumps(g3.code, g3.jpc) !! Jumps(g3.code, if cond then e.f else e.t)
  {
    var T, F, N := TList(g, e), FList(g, e), Jumps(g2.code, pc);
    TestedFacts(env, before, g, P, e, a, fr, g2, pc, cond);
    var h, o := if cond then e.t else e.f, if cond then e.f else e.t;
    var T', F' := if cond then T + N else T, if cond then F else F + N;
    assert P + T' + F' == P + T + F + N;
    ListChain(g2.code, o);
    ListSame(g2.code, g3.code, o);
    GenFacts(env, g2, P + T + F + N);
    ListChain(g2.code, g2.jpc);
    ListSame(g2.code, g3.code, g2.jpc);
    LinkOut(env, g2, g3, P + T + F + N);
    RelinkedFramed(g2, g3, Jumps(g2.code, h), P);
    FramedLess(g, g2, P + T + F, P);
    FramedTrans(g, g2, g3, P);
    RelinkedCarries(g2, g3, Jumps(g2.code, h), T' + F');
    SplitsRelinked(env, before, g2, P, T', F', a, fr, !cond, g3);
  }

  lemma SplitsRelinked(env: Env, before: Prog, g: Gen, P: set<int>, T: set<int>, F: set<int>, a: Expr, fr: nat, b: bool, g': Gen)
    requires Splits(env, before, g, P, T, F, a, fr, b)
    requires forall R :: Out(env, g', P + T + F, R) == Out(env, g, P + T + F, R)
    requires forall j, R, v, c :: j in T + F && Carries(g.code, j, R, v, c) ==> Carries(g'.code, j, R, v, c)
    ensures Splits(env, before, g', P, T, F, a, fr, b)
  {
    hide Carries;
    forall R: Regs ensures SplitsOn(env, g', T, F, a, fr, b, Run(before, 0, R), Out(env, g', P + T + F, R)) {
      assert SplitsOn(env, g, T, F, a, fr, b, Run(before, 0, R), Out(env, g, P + T + F, R));
    }
  }

  /** Ready for the second operand: falls through when the truth value is `b`, the rest leaves by `l`. */
  ghost predicate Branched(env: Env, before: Prog, g: Gen, P: set<int>, l: int, a: Expr, fr: nat, b: bool) {
    var L := Jumps(g.code, l);
    && IsList(g.code, l) && L !! P && GenOK(env, g, P + L)
    && Splits(env, before, g, P, if b then {} else L, if b then L else {}, a, fr, b)
  }

  lemma TestedBranched(env: Env, before: Prog, g: Gen, P: set<int>, e: ExpDesc, a: Expr, fr: nat, g3: Gen, l: int, cond: bool, g': Gen)
    requires Split2(env, before, g3, P, if cond then l else e.t, if cond then e.f else l, a, fr, !cond)
    requires var o := if cond then e.f else e.t;
             && Relinked(g3, g', Jumps(g3.code, g3.jpc)) && g'.lasttarget == |g3.code|
             && IsList(g'.code, g'.jpc) && Jumps(g'.code, g'.jpc) == Jumps(g3.code, g3.jpc) + Jumps(g3.code, o)
    ensures Branched(env, before, g', P, l, a, fr, !cond) && Framed(g3, g', P)
  {
    var t, f := if cond then l else e.t, if cond then e.f else l;
    var T, F := Jumps(g3.code, t), Jumps(g3.code, f);
    SplitHere(env, before, g3, P, T, F, a, fr, !cond, g');
    var L := Jumps(g3.code, l);
    assert P + (if !cond then {} else T) + (if !cond then F else {}) == P + L;
    FramedList(g3, g', P + L, l);
    FramedLess(g3, g', P + L, P);
  }

  // ----- not ------------------------------------------------------------------------------------------------------

  /** The value was negated; the lists still belong to the value before. */
  ghost predicate Negates(env: Env, before: Prog, g: Gen, P: set<int>, e: ExpDesc, a: Expr, fr: nat, g1: Gen, e1: ExpDesc) {
    && ExpOK(env, g, P, e) && Means(env, before, g, P, e, a, fr)
    && ExpOK(env, g1, P, e1) && SameLists(g, e, g1, e1) && Framed(g, g1, P)
    && (forall R :: Run(Base(env, g1, P, e1), 0, R) == Run(Base(env, g, P, e), 0, R))
    && (forall R :: ValueOf(env, g1, e1, R) == Bool(!Truthy(ValueOf(env, g, e, R))))
  }

  lemma NegatesFacts(env: Env, before: Prog, g: Gen, P: set<int>, e: ExpDesc, a: Expr, fr: nat, g1: Gen, e1: ExpDesc)
    requires Negates(env, before, g, P, e, a, fr, g1, e1)
    ensures IsList(g1.code, e1.t) && IsList(g1.code, e1.f) && Jumps(g1.code, e1.t) !! Jumps(g1.code, e1.f)
  {
  }

  lemma NegatesJump(env: Env, before: Prog, g: Gen, P: set<int>, e: ExpDesc, a: Expr, fr: nat, g': Gen)
    requires ExpOK(env, g, P, e) && Means(env, before, g, P, e, a, fr) && KindOK(g, e.k) && e.k.VJmp?
    requires g' == g.(code := g.code[e.k.pc - 1 := Negated(g.code[e.k.pc - 1])])
    ensures Negates(env, before, g, P, e, a, fr, g', e)
  {
    NegatedExp(env, g, P, e, g');
  }

  lemma NegatesConst(env: Env, before: Prog, g: Gen, P: set<int>, e: ExpDesc, a: Expr, fr: nat, e': ExpDesc)
    requires ExpOK(env, g, P, e) && Means(env, before, g, P, e, a, fr) && KindOK(g, e.k)
    requires e.k.VNil? || e.k.VFalse? || e.k.VTrue? || e.k.VKFlt? || e.k.VKInt? || (e.k.VK? && Truthy(g.k[e.k.info]))
    requires e' == e.(k := if e.k.VNil? || e.k.VFalse? then VTrue else VFalse)
    ensures Negates(env, before, g, P, e, a, fr, g, e')
  {
    FramedRefl(g, g, P);
    assert P + TList(g, e') + FList(g, e') + Own(e') == P + TList(g, e) + FList(g, e) + Own(e);
  }

  lemma NegatesReg(env: Env, before: Prog, P: set<int>, a: Expr, fr: nat, g1: Gen, e1: ExpDesc, g': Gen)
    requires ExpOK(env, g1, P, e1) && Means(env, before, g1, P, e1, a, fr) && e1.k.VNonReloc?
    requires g1.nactvar <= g'.freereg < MAXREGS
    requires g' == g1.(code := g'.code, jpc := NO_JUMP, freereg := g'.freereg)
    requires g'.code == Patched(g1.code, Jumps(g1.code, g1.jpc), |g1.code|, NO_REG, |g1.code|) + [Not(0, e1.k.info)]
    ensures Negates(env, before, g1, P, e1, a, fr, g', ExpDesc(VReloc(|g1.code|), e1.t, e1.f))
  {
    ExpFacts(env, g1, P, e1);
    EmittedBy(g1, g', [Not(0, e1.k.info)]) by { GenFacts(env, g1, P + TList(g1, e1) + FList(g1, e1)); }
    NotEmitted(env, g1, P, e1, g');
  }

  lemma UnvaluedList(g: Gen, g': Gen, t: int, f: int)
    requires IsList(g.code, t) && IsList(g.code, f) && g' == g.(code := Unvalued(g.code, Jumps(g.code, t)))
    ensures IsList(g'.code, f) && Jumps(g'.code, f) == Jumps(g.code, f)
  {
    ListChain(g.code, f);
    ListSame(g.code, g'.code, f);
  }

  lemma UnvaluedTwice(g: Gen, g1: Gen, g2: Gen, t: int, f: int)
    requires g1 == g.(code := Unvalued(g.code, Jumps(g.code, t))) && g2 == g1.(code := Unvalued(g1.code, Jumps(g.code, f)))
    ensures g2 == g.(code := Unvalued(g.code, Jumps(g.code, t) + Jumps(g.code, f)))
  {
  }

  lemma NegatedMeans(env: Env, before: Prog, g: Gen, P: set<int>, e: ExpDesc, a: Expr, fr: nat, g1: Gen, e1: ExpDesc, g2: Gen)
    requires Negates(env, before, g, P, e, a, fr, g1, e1)
    requires g2 == g1.(code := Unvalued(g1.code, Jumps(g1.code, e1.t) + Jumps(g1.code, e1.f)))
    ensures var e2 := ExpDesc(e1.k, e1.f, e1.t);
            ExpOK(env, g2, P, e2) && Means(env, before, g2, P, e2, ENot(a), fr) && Framed(g, g2, P)
  {
    var e2 := ExpDesc(e1.k, e1.f, e1.t);
    NotMeans(env, before, g, P, e, a, fr, g1, e1, g2, e2);
    FramedTrans(g, g1, g2, P);
  }

  // ----- unary operators -------------------------------------------------------------------------------------------

  datatype UnOpr = OprNot | OprUnary(op: UnaryOp)

  datatype BinOpr = OprAnd | OprOr | OprCompare(cop: Compare) | OprArith(op: ArithOp)

  function UnaryExpr(op: UnOpr, a: Expr): Expr {
    match op
    case OprNot => ENot(a)
    case OprUnary(u) => EUnary(u, a)
  }

  function BinaryExpr(op: BinOpr, a: Expr, b: Expr): Expr {
    match op
    case OprAnd => EAnd(a, b)
    case OprOr => EOr(a, b)
    case OprCompare(c) => ECompare(c, a, b)
    case OprArith(o) => EArith(o, a, b)
  }

  /** `tonumeral`. */
  predicate IsNumeral(e: ExpDesc) {
    e.t == e.f && (e.k.VKInt? || e.k.VKFlt?)
  }

  function NumeralValue(e: ExpDesc): Value
    requires IsNumeral(e)
  {
    if e.k.VKInt? then Int(e.k.ival) else Flt(e.k.nval)
  }

  function NumeralKind(v: Value): ExpKind {
    match v
    case Int(n) => VKInt(n)
    case Flt(b) => VKFlt(b)
    case _ => VNil
  }

  lemma FoldedUnary(env: Env, before: Prog, g: Gen, P: set<int>, e: ExpDesc, a: Expr, fr: nat, op: UnaryOp, e': ExpDesc)
    requires ExpOK(env, g, P, e) && Means(env, before, g, P, e, a, fr) && IsNumeral(e) && FoldOK(env)
    requires env.foldUnary(op, NumeralValue(e)).Some?
    requires e' == ExpDesc(NumeralKind(env.foldUnary(op, NumeralValue(e)).value), NO_JUMP, NO_JUMP)
    ensures ExpOK(env, g, P, e') && Means(env, before, g, P, e', EUnary(op, a), fr) && Framed(g, g, P)
  {
    hide WF, GenOK, Framed, IsList, Jumps, Run, Good;
    SameListsEmpty(env, g, P, e);
    FramedRefl(g, g, P);
    NoListLands(env, g, P, e);
    assert P + TList(g, e') + FList(g, e') + Own(e') == P + TList(g, e) + FList(g, e) + Own(e);
    forall R: Regs ensures Good(env, g, e', EUnary(op, a), fr, Run(before, 0, R), Run(Base(env, g, P, e'), 0, R)) {
      FoldedOne(env, g, e, a, fr, op, e', Run(before, 0, R), Run(Base(env, g, P, e), 0, R));
    }
  }

  lemma FoldedOne(env: Env, g: Gen, e: ExpDesc, a: Expr, fr: nat, op: UnaryOp, e': ExpDesc, o0: Outcome, o: Outcome)
    requires KindOK(g, e.k) && IsNumeral(e) && FoldOK(env) && env.foldUnary(op, NumeralValue(e)).Some?
    requires TList(g, e) == {} && FList(g, e) == {} && Good(env, g, e, a, fr, o0, o)
    requires e' == ExpDesc(NumeralKind(env.foldUnary(op, NumeralValue(e)).value), NO_JUMP, NO_JUMP)
    ensures Good(env, g, e', EUnary(op, a), fr, o0, o)
  {
  }

  lemma NoListLands(env: Env, g: Gen, P: set<int>, e: ExpDesc)
    requires e.t == NO_JUMP && e.f == NO_JUMP
    ensures TList(g, e) == {} && FList(g, e) == {}
  {
    NoList(g.code);
  }

  lemma UnaryEmitted(env: Env, before: Prog, g: Gen, P: set<int>, e: ExpDesc, reg: nat, a: Expr, fr: nat, op: UnaryOp, g': Gen)
    requires ExpOK(env, g, P, e) && Operand(env, before, g, P, reg, a, fr) && !IsK(reg)
    requires e.t == NO_JUMP && e.f == NO_JUMP && !e.k.VJmp?
    requires g' == g.(code := g'.code, jpc := NO_JUMP, freereg := g'.freereg) && g.nactvar <= g'.freereg < MAXREGS
    requires g'.code == Patched(g.code, Jumps(g.code, g.jpc), |g.code|, NO_REG, |g.code|) + [Unary(op, 0, reg)]
    ensures var e' := ExpDesc(VReloc(|g.code|), NO_JUMP, NO_JUMP);
            ExpOK(env, g', P, e') && Means(env, before, g', P, e', EUnary(op, a), fr) && Framed(g, g', P)
  {
    ExpFacts(env, g, P, e);
    NoListLands(env, g, P, e);
    assert P + {} + {} == P;
    GenFacts(env, g, P);
    EmittedBy(g, g', [Unary(op, 0, reg)]);
    UnaryMeans(env, before, g, P, reg, a, fr, op, g');
  }

  // ----- binary operators ------------------------------------------------------------------------------------------

  /** The list that the first operand of `and` and `or` leaves open. */
  function InfixList(op: BinOpr, e: ExpDesc): int {
    match op
    case OprAnd => e.f
    case OprOr => e.t
    case _ => NO_JUMP
  }

  /** What `luaK_infix` leaves for `luaK_posfix`. */
  ghost predicate InfixDone(env: Env, before: Prog, g: Gen, P: set<int>, op: BinOpr, e: ExpDesc, a: Expr, fr: nat) {
    match op
    case OprAnd => e.t == NO_JUMP && Branched(env, before, g, P, e.f, a, fr, true) && g.freereg == fr
    case OprOr => e.f == NO_JUMP && Branched(env, before, g, P, e.t, a, fr, false) && g.freereg == fr
    case OprCompare(_) =>
      RKForm(e) && ExpOK(env, g, P, e) && Operand(env, before, g, P, RKIndex(e), a, fr) && RegsOK(fr, g, e)
    case OprArith(_) =>
      ExpOK(env, g, P, e) && RegsOK(fr, g, e) &&
      (if IsNumeral(e) then Means(env, before, g, P, e, a, fr)
       else RKForm(e) && Operand(env, before, g, P, RKIndex(e), a, fr))
  }

  lemma {:induction false} ExprMore(a: Expr, n: nat, m: nat)
    requires ExprOK(a, n) && n <= m
    ensures ExprOK(a, m)
  {
    match a
    case ENot(e) => ExprMore(e, n, m);
    case EUnary(_, e) => ExprMore(e, n, m);
    case EArith(_, x, y) => ExprMore(x, n, m); ExprMore(y, n, m);
    case ECompare(_, x, y) => ExprMore(x, n, m); ExprMore(y, n, m);
    case EAnd(x, y) => ExprMore(x, n, m); ExprMore(y, n, m);
    case EOr(x, y) => ExprMore(x, n, m); ExprMore(y, n, m);
    case _ =>
  }

  lemma BranchedFacts(env: Env, before: Prog, g: Gen, P: set<int>, l: int, a: Expr, fr: nat, b: bool)
    requires Branched(env, before, g, P, l, a, fr, b)
    ensures IsList(g.code, l) && Jumps(g.code, l) !! P && GenOK(env, g, P + Jumps(g.code, l))
  {
  }

  /** Everything is ready for `luaK_posfix`: the second operand was compiled behind the first. */
  ghost predicate Second(env: Env, before: Prog, g1: Gen, P: set<int>, op: BinOpr, e1: ExpDesc, a1: Expr, fr: nat,
                         g: Gen, e2: ExpDesc, a2: Expr) {
    var L := Jumps(g1.code, InfixList(op, e1));
    && InfixDone(env, before, g1, P, op, e1, a1, fr) && AtIn(before, P)
    && ExpOK(env, g, P + L, e2) && Means(env, Full(env, g1, P + L), g, P + L, e2, a2, g1.freereg)
    && Framed(g1, g, P + L) && RegsOK(g1.freereg, g, e2) && ExprOK(a1, g.nactvar) && ExprOK(a2, g.nactvar) && g.nactvar <= fr
    && g.nactvar == g1.nactvar && fr <= g1.freereg
    && (!op.OprAnd? && !op.OprOr? ==> L == {})
  }

  lemma SecondFacts(env: Env, before: Prog, g1: Gen, P: set<int>, op: BinOpr, e1: ExpDesc, a1: Expr, fr: nat, g: Gen, e2: ExpDesc, a2: Expr)
    requires Second(env, before, g1, P, op, e1, a1, fr, g, e2, a2)
    ensures var L := Jumps(g1.code, InfixList(op, e1));
            && InfixDone(env, before, g1, P, op, e1, a1, fr)
            && ExpOK(env, g, P + L, e2) && Means(env, Full(env, g1, P + L), g, P + L, e2, a2, g1.freereg)
            && Framed(g1, g, P + L) && RegsOK(g1.freereg, g, e2) && ExprOK(a1, fr) && ExprOK(a2, fr) && fr <= g1.freereg
            && g.nactvar == g1.nactvar
    ensures !op.OprAnd? && !op.OprOr? ==>
              ExpOK(env, g, P, e2) && Means(env, Full(env, g1, P), g, P, e2, a2, g1.freereg) && Framed(g1, g, P)
  {
    ExprMore(a1, g.nactvar, fr);
    ExprMore(a2, g.nactvar, fr);
    if !op.OprAnd? && !op.OprOr? { assert P + {} == P; }
  }

  lemma AndJoined(env: Env, before: Prog, g1: Gen, P: set<int>, l: int, a1: Expr, fr: nat, g2: Gen, e2: ExpDesc, a2: Expr, g3: Gen, e3: ExpDesc)
    requires Branched(env, before, g1, P, l, a1, fr, true) && ExprOK(a2, fr)
    requires var L := Jumps(g1.code, l);
             && ExpOK(env, g2, P + L, e2) && Means(env, Full(env, g1, P + L), g2, P + L, e2, a2, fr) && Framed(g1, g2, P + L)
             && Jumps(g2.code, l) == L
    requires g3 == g2.(code := g3.code) && Relinked(g2, g3, FList(g2, e2)) && IsList(g3.code, e3.f)
    requires e3 == ExpDesc(e2.k, e2.t, e3.f) && Jumps(g3.code, e3.f) == FList(g2, e2) + Jumps(g2.code, l)
    ensures ExpOK(env, g3, P, e3) && Means(env, before, g3, P, e3, EAnd(a1, a2), fr) && Framed(g1, g3, P)
  {
    var L := Jumps(g1.code, l);
    ExpFacts(env, g2, P + L, e2);
    ListChain(g2.code, e2.t);
    ListSame(g2.code, g3.code, e2.t);
    PcNotInList(env, g2, P + L, e2);
    JoinedMeans(env, before, g1, P, L, a1, fr, true, g2, e2, a2, fr, g3, e3);
    FramedLess(g1, g2, P + L, P);
    FramedTrans(g1, g2, g3, P);
  }

  lemma OrJoined(env: Env, before: Prog, g1: Gen, P: set<int>, l: int, a1: Expr, fr: nat, g2: Gen, e2: ExpDesc, a2: Expr, g3: Gen, e3: ExpDesc)
    requires Branched(env, before, g1, P, l, a1, fr, false) && ExprOK(a2, fr)
    requires var L := Jumps(g1.code, l);
             && ExpOK(env, g2, P + L, e2) && Means(env, Full(env, g1, P + L), g2, P + L, e2, a2, fr) && Framed(g1, g2, P + L)
             && Jumps(g2.code, l) == L
    requires g3 == g2.(code := g3.code) && Relinked(g2, g3, TList(g2, e2)) && IsList(g3.code, e3.t)
    requires e3 == ExpDesc(e2.k, e3.t, e2.f) && Jumps(g3.code, e3.t) == TList(g2, e2) + Jumps(g2.code, l)
    ensures ExpOK(env, g3, P, e3) && Means(env, before, g3, P, e3, EOr(a1, a2), fr) && Framed(g1, g3, P)
  {
    var L := Jumps(g1.code, l);
    ExpFacts(env, g2, P + L, e2);
    ListChain(g2.code, e2.f);
    ListSame(g2.code, g3.code, e2.f);
    PcNotInList(env, g2, P + L, e2);
    JoinedMeans(env, before, g1, P, L, a1, fr, false, g2, e2, a2, fr, g3, e3);
    FramedLess(g1, g2, P + L, P);
    FramedTrans(g1, g2, g3, P);
  }

  lemma PcNotInList(env: Env, g: Gen, P: set<int>, e: ExpDesc)
    requires ExpOK(env, g, P, e)
    ensures e.k.VJmp? ==> e.k.pc !in TList(g, e) && e.k.pc !in FList(g, e) && e.k.pc < |g.code|
  {
  }

  // ----- comparisons and arithmetic ------------------------------------------------------------------------------------

  predicate Temp(g: Gen, e: ExpDesc) { e.k.VNonReloc? && e.k.info >= g.nactvar }

  /** The temporaries of two operands are the registers from `fr` to the first free one. */
  predicate TwoRegs(fr: nat, g: Gen, e1: ExpDesc, e2: ExpDesc) {
    && (Temp(g, e1) && Temp(g, e2) ==>
          g.freereg == fr + 2 && ((e1.k.info == fr && e2.k.info == fr + 1) || (e2.k.info == fr && e1.k.info == fr + 1)))
    && (Temp(g, e1) && !Temp(g, e2) ==> g.freereg == fr + 1 && e1.k.info == fr)
    && (!Temp(g, e1) && Temp(g, e2) ==> g.freereg == fr + 1 && e2.k.info == fr)
    && (!Temp(g, e1) && !Temp(g, e2) ==> g.freereg == fr)
    && g.nactvar <= fr
  }

  lemma GenKnown(env: Env, g: Gen, P: set<int>, e: ExpDesc)
    requires ExpOK(env, g, P, e)
    ensures g.nactvar <= g.freereg < MAXREGS && KindOK(g, e.k) && IsList(g.code, g.jpc)
    ensures e.t == NO_JUMP && e.f == NO_JUMP && !e.k.VJmp? ==> GenOK(env, g, P)
  {
    NoList(g.code);
    if e.t == NO_JUMP && e.f == NO_JUMP && !e.k.VJmp? { assert P + {} + {} + {} == P; }
  }

  lemma BothOperands(env: Env, before: Prog, g1: Gen, P: set<int>, e1: ExpDesc, a1: Expr, fr: nat, g2: Gen, rk2: nat, a2: Expr)
    requires RKForm(e1) && ExpOK(env, g1, P, e1) && Operand(env, before, g1, P, RKIndex(e1), a1, fr) && RegsOK(fr, g1, e1)
    requires Operand(env, Full(env, g1, P), g2, P, rk2, a2, g1.freereg) && ExprOK(a2, fr) && ConstPrefix(g1.k, g2.k) && g1.nactvar <= fr
    ensures Operands(env, before, g2, P, RKIndex(e1), a1, rk2, a2, fr)
  {
    KindKnown(env, g1, P, e1);
    OperandKept(env, before, g1, P, RKIndex(e1), a1, fr, g2, rk2, a2, g1.freereg);
  }

  lemma Compared(env: Env, before: Prog, P: set<int>, x: nat, a: Expr, y: nat, b: Expr, fr: nat, op: Compare, g: Gen, g': Gen)
    requires GenOK(env, g, P) && Operands(env, before, g, P, x, a, y, b, fr)
    requires g' == g.(code := g'.code, jpc := NO_JUMP, freereg := g'.freereg) && g.nactvar <= g'.freereg < MAXREGS
    requires g'.code == Patched(g.code, Jumps(g.code, g.jpc), |g.code|, NO_REG, |g.code|) + [CompareInstr(op, x, y), Jmp(NO_JUMP)]
    ensures var e' := ExpDesc(VJmp(|g.code| + 1), NO_JUMP, NO_JUMP);
            ExpOK(env, g', P, e') && Means(env, before, g', P, e', ECompare(op, a, b), fr) && Framed(g, g', P)
  {
    GenFacts(env, g, P);
    EmittedBy(g, g', [CompareInstr(op, x, y), Jmp(NO_JUMP)]);
    assert g'.code[|g.code| + 1] == Jmp(NO_JUMP);
    CompareMeans(env, before, g, P, x, a, y, b, fr, op, g');
  }

  lemma Computed(env: Env, before: Prog, P: set<int>, x: nat, a: Expr, y: nat, b: Expr, fr: nat, op: ArithOp, g: Gen, g': Gen)
    requires GenOK(env, g, P) && Operands(env, before, g, P, x, a, y, b, fr)
    requires g' == g.(code := g'.code, jpc := NO_JUMP, freereg := g'.freereg) && g.nactvar <= g'.freereg < MAXREGS
    requires g'.code == Patched(g.code, Jumps(g.code, g.jpc), |g.code|, NO_REG, |g.code|) + [Arith(op, 0, x, y)]
    ensures var e' := ExpDesc(VReloc(|g.code|), NO_JUMP, NO_JUMP);
            ExpOK(env, g', P, e') && Means(env, before, g', P, e', EArith(op, a, b), fr) && Framed(g, g', P)
  {
    GenFacts(env, g, P);
    EmittedBy(g, g', [Arith(op, 0, x, y)]);
    ArithMeans(env, before, g, P, x, a, y, b, fr, op, g');
  }

  lemma FoldedBinary(env: Env, before: Prog, g1: Gen, P: set<int>, e1: ExpDesc, a1: Expr, fr: nat, g: Gen, e2: ExpDesc, a2: Expr,
                     op: ArithOp, e': ExpDesc)
    requires FoldOK(env) && IsNumeral(e1) && IsNumeral(e2) && env.fold(op, NumeralValue(e1), NumeralValue(e2)).Some?
    requires ExpOK(env, g1, P, e1) && Means(env, before, g1, P, e1, a1, fr)
    requires ExpOK(env, g, P, e2) && Means(env, Full(env, g1, P), g, P, e2, a2, g1.freereg) && fr <= g1.freereg && ExprOK(a2, fr)
    requires e' == ExpDesc(NumeralKind(env.fold(op, NumeralValue(e1), NumeralValue(e2)).value), NO_JUMP, NO_JUMP)
    ensures ExpOK(env, g, P, e') && Means(env, before, g, P, e', EArith(op, a1, a2), fr)
  {
    SameListsEmpty(env, g1, P, e1);
    SameListsEmpty(env, g, P, e2);
    NoListLands(env, g1, P, e1);
    NoListLands(env, g, P, e2);
    NoListLands(env, g, P, e');
    assert P + {} + {} == P && P + {} + {} + {} == P;
    assert P + TList(g, e') + FList(g, e') + Own(e') == P + TList(g, e2) + FList(g, e2) + Own(e2);
    hide GenOK, ExpOK, Jumps, IsList, Run, Good;
    forall R: Regs ensures Good(env, g, e', EArith(op, a1, a2), fr, Run(before, 0, R), Run(Base(env, g, P, e'), 0, R)) {
      assert Good(env, g1, e1, a1, fr, Run(before, 0, R), Out(env, g1, P, R));
      assert Good(env, g, e2, a2, g1.freereg, Out(env, g1, P, R), Out(env, g, P, R));
      FoldedPoint(env, g1, e1, a1, fr, g, e2, a2, op, e', Run(before, 0, R), Out(env, g1, P, R), Out(env, g, P, R));
    }
  }

  lemma FoldedPoint(env: Env, g1: Gen, e1: ExpDesc, a1: Expr, fr: nat, g: Gen, e2: ExpDesc, a2: Expr, op: ArithOp, e': ExpDesc,
                    o0: Outcome, o1: Outcome, o2: Outcome)
    requires FoldOK(env) && IsNumeral(e1) && IsNumeral(e2) && env.fold(op, NumeralValue(e1), NumeralValue(e2)).Some?
    requires Good(env, g1, e1, a1, fr, o0, o1) && Good(env, g, e2, a2, g1.freereg, o1, o2) && fr <= g1.freereg && ExprOK(a2, fr)
    requires e' == ExpDesc(NumeralKind(env.fold(op, NumeralValue(e1), NumeralValue(e2)).value), NO_JUMP, NO_JUMP)
    requires TList(g1, e1) == {} && FList(g1, e1) == {} && TList(g, e2) == {} && FList(g, e2) == {}
    ensures Good(env, g, e', EArith(op, a1, a2), fr, o0, o2)
  {
    hide Jumps, IsList;
    if o0.Fall? {
      EvalAgree(env, a2, o0.regs, o1.regs, fr);
      AgreeTrans(o0.regs, o1.regs, o2.regs, fr, g1.freereg);
    }
  }

  /** A numeral that was kept still has its value behind the second operand. */
  lemma NumeralAgain(env: Env, before: Prog, g1: Gen, P: set<int>, e1: ExpDesc, a1: Expr, fr: nat, g2: Gen, rk2: nat, a2: Expr)
    requires ExpOK(env, g1, P, e1) && Means(env, before, g1, P, e1, a1, fr) && IsNumeral(e1)
    requires Operand(env, Full(env, g1, P), g2, P, rk2, a2, g1.freereg) && GenOK(env, g2, P)
    requires ExprOK(a1, fr) && fr <= g1.freereg
    ensures ExpOK(env, g2, P, e1) && Means(env, Full(env, g2, P), g2, P, e1, a1, g2.freereg)
  {
    SameListsEmpty(env, g1, P, e1);
    NoListLands(env, g1, P, e1);
    NoListLands(env, g2, P, e1);
    NoList(g2.code);
    FullAtIn(env, g2, P);
    assert P + {} + {} == P && P + {} + {} + {} == P;
    hide GenOK, ExpOK, Jumps, IsList, Run, Good, OperandOn;
    forall R: Regs ensures Good(env, g2, e1, a1, g2.freereg, Run(Full(env, g2, P), 0, R), Run(Base(env, g2, P, e1), 0, R)) {
      assert Good(env, g1, e1, a1, fr, Run(before, 0, R), Out(env, g1, P, R));
      assert OperandOn(env, g2, rk2, a2, g1.freereg, Out(env, g1, P, R), Out(env, g2, P, R));
      AgainPoint(env, g1, e1, a1, fr, g2, rk2, a2, Run(before, 0, R), Out(env, g1, P, R), Out(env, g2, P, R));
    }
  }

  lemma AgainPoint(env: Env, g1: Gen, e1: ExpDesc, a1: Expr, fr: nat, g2: Gen, rk2: nat, a2: Expr, o0: Outcome, o1: Outcome, o2: Outcome)
    requires IsNumeral(e1) && Good(env, g1, e1, a1, fr, o0, o1) && OperandOn(env, g2, rk2, a2, g1.freereg, o1, o2)
    requires TList(g1, e1) == {} && FList(g1, e1) == {} && ExprOK(a1, fr) && fr <= g1.freereg
    ensures Good(env, g2, e1, a1, g2.freereg, o2, o2)
  {
    hide Jumps, IsList;
    if o2.Fall? {
      AgreeTrans(o0.regs, o1.regs, o2.regs, fr, g1.freereg);
      EvalAgree(env, a1, o0.regs, o2.regs, fr);
    }
  }

  lemma NumeralOperands(env: Env, before: Prog, g1: Gen, P: set<int>, e1: ExpDesc, a1: Expr, fr: nat, g2: Gen, f2: ExpDesc, rk2: nat, a2: Expr,
                        g3: Gen, f1: ExpDesc, rk1: nat)
    requires ExpOK(env, g1, P, e1) && Means(env, before, g1, P, e1, a1, fr) && IsNumeral(e1)
    requires Operand(env, Full(env, g1, P), g2, P, rk2, a2, g1.freereg) && ExpOK(env, g2, P, f2) && RKForm(f2) && rk2 == RKIndex(f2)
    requires RegsOK(g1.freereg, g2, f2) && Operand(env, Full(env, g2, P), g3, P, rk1, a1, g2.freereg) && ConstPrefix(g2.k, g3.k)
    requires ExprOK(a1, fr) && ExprOK(a2, fr) && fr <= g1.freereg <= g2.freereg
    ensures Operands(env, before, g3, P, rk1, a1, rk2, a2, fr)
  {
    SameListsEmpty(env, g1, P, e1);
    NoListLands(env, g1, P, e1);
    KindKnown(env, g2, P, f2);
    assert P + {} + {} == P;
    forall R: Regs ensures OperandOn(env, g2, rk2, a2, fr, Run(before, 0, R), Out(env, g2, P, R)) {
      var o0, o1, o2 := Run(before, 0, R), Out(env, g1, P, R), Out(env, g2, P, R);
      assert Good(env, g1, e1, a1, fr, o0, o1) && OperandOn(env, g2, rk2, a2, g1.freereg, o1, o2);
      if o0.Fall? {
        AgreeTrans(o0.regs, o1.regs, o2.regs, fr, g1.freereg);
        EvalAgree(env, a2, o0.regs, o1.regs, fr);
      }
    }
    OperandKept(env, before, g2, P, rk2, a2, fr, g3, rk1, a1, g2.freereg);
  }

  // ----- whole expressions ----------------------------------------------------------------------------------------------

  predicate IsLeaf(a: Expr) {
    a.ENil? || a.ETrue? || a.EFalse? || a.EConst? || a.ELocal? || a.EUpval?
  }

  function OperatorOf(a: Expr): (op: BinOpr)
    requires a.EAnd? || a.EOr? || a.ECompare? || a.EArith?
    ensures BinaryExpr(op, a.a, a.b) == a
  {
    match a
    case EAnd(_, _) => OprAnd
    case EOr(_, _) => OprOr
    case ECompare(c, _, _) => OprCompare(c)
    case EArith(o, _, _) => OprArith(o)
  }

  lemma LeafDone(env: Env, g: Gen, P: set<int>, a: Expr, g': Gen, e: ExpDesc)
    requires GenOK(env, g, P) && g' == g.(k := g'.k) && ConstPrefix(g.k, g'.k)
    requires e.t == NO_JUMP && e.f == NO_JUMP && InPlace(e.k) && !e.k.VNonReloc? && KindOK(g', e.k)
    requires forall R :: ValueOf(env, g', e, R) == Eval(env, a, R)
    ensures ExpOK(env, g', P, e) && Means(env, Full(env, g, P), g', P, e, a, g.freereg)
    ensures Framed(g, g', P) && RegsOK(g.freereg, g', e)
  {
    ConstsOut(env, g, P, g');
    LeafMeans(env, g', P, e, a, g.freereg);
    FullAtIn(env, g, P);
    forall R: Regs ensures Good(env, g', e, a, g.freereg, Run(Full(env, g, P), 0, R), Run(Base(env, g', P, e), 0, R)) {
      assert Out(env, g', P, R) == Out(env, g, P, R);
      assert Good(env, g', e, a, g.freereg, Run(Full(env, g', P), 0, R), Run(Base(env, g', P, e), 0, R));
    }
  }

  lemma InfixReady(env: Env, before: Prog, g: Gen, P: set<int>, op: BinOpr, e: ExpDesc, a: Expr, fr: nat)
    requires InfixDone(env, before, g, P, op, e, a, fr)
    ensures GenOK(env, g, P + Jumps(g.code, InfixList(op, e)))
    ensures !op.OprAnd? && !op.OprOr? ==> Jumps(g.code, InfixList(op, e)) == {}
    ensures g.nactvar <= fr ==> fr <= g.freereg
  {
    NoList(g.code);
    if !op.OprAnd? && !op.OprOr? {
      if IsNumeral(e) { SameListsEmpty(env, g, P, e); }
      GenKnown(env, g, P, e);
      assert P + {} == P;
    }
  }

  lemma SecondReady(env: Env, before: Prog, g1: Gen, P: set<int>, op: BinOpr, e1: ExpDesc, a1: Expr, fr: nat, g: Gen, e2: ExpDesc, a2: Expr)
    requires InfixDone(env, before, g1, P, op, e1, a1, fr) && AtIn(before, P) && g1.nactvar <= fr
    requires var L := Jumps(g1.code, InfixList(op, e1));
             && ExpOK(env, g, P + L, e2) && Means(env, Full(env, g1, P + L), g, P + L, e2, a2, g1.freereg)
             && Framed(g1, g, P + L) && RegsOK(g1.freereg, g, e2)
    requires ExprOK(a1, g1.nactvar) && ExprOK(a2, g1.nactvar) && g.nactvar == g1.nactvar
    ensures Second(env, before, g1, P, op, e1, a1, fr, g, e2, a2)
  {
    InfixReady(env, before, g1, P, op, e1, a1, fr);
  }

  // ----- return -----------------------------------------------------------------------------------------------------------

  function Evals(env: Env, exps: seq<Expr>, R: Regs): seq<Value> { seq(|exps|, j requires 0 <= j < |exps| => Eval(env, exps[j], R)) }

  predicate ExprsOK(exps: seq<Expr>, nactvar: nat) { forall x :: x in exps ==> ExprOK(x, nactvar) }

  function Returned(env: Env, exps: seq<Expr>, o: Outcome): Outcome {
    if o.Fall? then Ret(Evals(env, exps, o.regs)) else o
  }

  /** The values of the expressions are in consecutive registers from `first` on; registers below `fr` are as
      they were. */
  ghost predicate Loaded(env: Env, g0: Gen, g: Gen, exps: seq<Expr>, first: nat, fr: nat) {
    forall R: Regs :: LoadedOn(env, exps, first, fr, Out(env, g0, {}, R), Out(env, g, {}, R))
  }

  ghost predicate LoadedOn(env: Env, exps: seq<Expr>, first: nat, fr: nat, o0: Outcome, o1: Outcome) {
    if o0.Fall? then
      && o1.Fall? && Agree(o0.regs, o1.regs, fr, -1)
      && forall j :: 0 <= j < |exps| ==> Get(o1.regs, first + j) == Eval(env, exps[j], o0.regs)
    else o1 == o0
  }

  lemma LoadedNone(env: Env, g: Gen, first: nat, fr: nat)
    ensures Loaded(env, g, g, [], first, fr)
  {
  }

  /** One expression, in any register. */
  lemma LoadedOne(env: Env, g0: Gen, g: Gen, e: ExpDesc, a: Expr, fr: nat)
    requires ExpOK(env, g, {}, e) && Means(env, Full(env, g0, {}), g, {}, e, a, fr) && e.t == NO_JUMP && e.f == NO_JUMP && e.k.VNonReloc?
    ensures Loaded(env, g0, g, [a], e.k.info, fr) && GenOK(env, g, {})
  {
    RKOperand(env, Full(env, g0, {}), g, {}, e, a, fr);
    GenKnown(env, g, {}, e);
    hide Means, ExpOK, GenOK;
    forall R: Regs ensures LoadedOn(env, [a], e.k.info, fr, Out(env, g0, {}, R), Out(env, g, {}, R)) {
      assert OperandOn(env, g, e.k.info, a, fr, Out(env, g0, {}, R), Out(env, g, {}, R));
    }
  }

  /** One more expression, in the next register. */
  lemma LoadedMore(env: Env, g0: Gen, g1: Gen, g: Gen, exps: seq<Expr>, a: Expr, fr: nat, n: nat)
    requires Loaded(env, g0, g1, exps, fr, fr) && Loaded(env, g1, g, [a], fr + |exps|, fr + |exps|)
    requires ExprOK(a, n) && n <= fr
    ensures Loaded(env, g0, g, exps + [a], fr, fr)
  {
    forall R: Regs ensures LoadedOn(env, exps + [a], fr, fr, Out(env, g0, {}, R), Out(env, g, {}, R)) {
      var o0, o1, o := Out(env, g0, {}, R), Out(env, g1, {}, R), Out(env, g, {}, R);
      assert LoadedOn(env, exps, fr, fr, o0, o1) && LoadedOn(env, [a], fr + |exps|, fr + |exps|, o1, o);
      if o0.Fall? {
        EvalAgree(env, a, o0.regs, o1.regs, n);
        assert [a][0] == a && Get(o.regs, fr + |exps| + 0) == Eval(env, a, o1.regs);
        forall j | 0 <= j < |exps| ensures Get(o.regs, fr + j) == Eval(env, exps[j], o0.regs) { }
      }
    }
  }

  lemma LoadedFirst(env: Env, g0: Gen, g1: Gen, g: Gen, a: Expr, first: nat, fr: nat)
    requires Loaded(env, g0, g1, [], fr, fr) && Loaded(env, g1, g, [a], first, fr) && ExprOK(a, fr)
    ensures Loaded(env, g0, g, [a], first, fr)
  {
    forall R: Regs ensures LoadedOn(env, [a], first, fr, Out(env, g0, {}, R), Out(env, g, {}, R)) {
      var o0, o1 := Out(env, g0, {}, R), Out(env, g1, {}, R);
      assert LoadedOn(env, [], fr, fr, o0, o1) && LoadedOn(env, [a], first, fr, o1, Out(env, g, {}, R));
      if o0.Fall? { EvalAgree(env, a, o0.regs, o1.regs, fr); }
    }
  }

  lemma ReturnAfter(env: Env, g: Gen, first: nat, n: nat, g': Gen)
    requires GenOK(env, g, {}) && g' == g.(code := g'.code, jpc := NO_JUMP)
    requires g'.code == Patched(g.code, Jumps(g.code, g.jpc), |g.code|, NO_REG, |g.code|) + [Return(first, n + 1)]
    ensures GenOK(env, g', {}) && Jumps(g'.code, g'.jpc) == {}
    ensures forall R :: Out(env, g', {}, R) == ReturnOut(first, n, Out(env, g, {}, R))
  {
    hide GenOK, Patched, Jumps, Framed, Emitted, SuffixOK;
    var none: set<int> := {};
    assert none + none == none;
    GenFacts(env, g, {});
    NoList(g'.code);
    PatchedSize(g.code, Jumps(g.code, g.jpc), |g.code|, NO_REG, |g.code|);
    EmittedBy(g, g', [Return(first, n + 1)]);
    PlainSuffix(env, g, {}, g', Return(first, n + 1));
    EmitOut(env, g, g', {}, {});
  }

  function ReturnOut(first: nat, n: nat, o: Outcome): Outcome {
    if o.Fall? then Ret(seq(n, j => Get(o.regs, first + j))) else o
  }

  lemma ReturnEmitted(env: Env, g0: Gen, g: Gen, first: nat, exps: seq<Expr>, fr: nat, g': Gen)
    requires GenOK(env, g, {}) && Loaded(env, g0, g, exps, first, fr)
    requires g' == g.(code := g'.code, jpc := NO_JUMP)
    requires g'.code == Patched(g.code, Jumps(g.code, g.jpc), |g.code|, NO_REG, |g.code|) + [Return(first, |exps| + 1)]
    ensures GenOK(env, g', {}) && Jumps(g'.code, g'.jpc) == {}
    ensures forall R :: Out(env, g', {}, R) == Returned(env, exps, Out(env, g0, {}, R))
  {
    ReturnAfter(env, g, first, |exps|, g');
    hide GenOK, Jumps;
    forall R ensures Out(env, g', {}, R) == Returned(env, exps, Out(env, g0, {}, R)) {
      assert LoadedOn(env, exps, first, fr, Out(env, g0, {}, R), Out(env, g, {}, R));
    }
  }

  lemma ReturnsAlways(env: Env, g: Gen, exps: seq<Expr>, g': Gen)
    requires g.code == [] && GenOK(env, g', {}) && Jumps(g'.code, g'.jpc) == {}
    requires forall R :: Out(env, g', {}, R) == Returned(env, exps, Out(env, g, {}, R))
    ensures WF(Prog(env, g'.code, g'.k, {}, {}))
    ensures forall R :: Run(Prog(env, g'.code, g'.k, {}, {}), 0, R) == Ret(Evals(env, exps, R))
  {
    assert Full(env, g', {}) == Prog(env, g'.code, g'.k, {}, {});
    forall R ensures Run(Prog(env, g'.code, g'.k, {}, {}), 0, R) == Ret(Evals(env, exps, R)) {
      assert Out(env, g, {}, R) == Fall(R);
      assert Out(env, g', {}, R) == Returned(env, exps, Out(env, g, {}, R));
    }
  }
}
