/** lcode.c: lists of jumps threaded through the jumps themselves, and how patching them changes a run. */
module CodeJumps {
  import opened LuaCode

  // ----- lists ---------------------------------------------------------------------------------

  /** The next jump of a list, or NO_JUMP. */
  function GetJump(code: seq<Instr>, pc: int): int
    requires 0 <= pc < |code| && code[pc].Jmp?
  {
    if code[pc].sbx == NO_JUMP then NO_JUMP else pc + 1 + code[pc].sbx
  }

  /** The list with head `h` consists of the jumps at the positions `s`. */
  ghost predicate Chain(code: seq<Instr>, h: int, s: seq<int>)
    decreases |s|
  {
    if s == [] then h == NO_JUMP
    else h == s[0] && 0 <= h < |code| && code[h].Jmp? && Chain(code, GetJump(code, h), s[1..])
  }

  ghost predicate IsList(code: seq<Instr>, h: int) {
    exists s :: Chain(code, h, s)
  }

  ghost function ListOf(code: seq<Instr>, h: int): seq<int> {
    if IsList(code, h) then (var s :| Chain(code, h, s); s) else []
  }

  ghost function Jumps(code: seq<Instr>, h: int): set<int> {
    set j | j in ListOf(code, h)
  }

  /** A position determines the rest of its list, so lists are unique and never meet themselves. */
  lemma {:induction false} ChainUnique(code: seq<Instr>, h: int, s: seq<int>, t: seq<int>)
    requires Chain(code, h, s) && Chain(code, h, t)
    ensures s == t
    decreases |s|
  {
    if s != [] && t != [] {
      ChainUnique(code, GetJump(code, h), s[1..], t[1..]);
      assert s == [s[0]] + s[1..] && t == [t[0]] + t[1..];
    }
  }

  lemma {:induction false} ChainFrom(code: seq<Instr>, h: int, s: seq<int>, i: nat)
    requires Chain(code, h, s) && i < |s|
    ensures Chain(code, s[i], s[i..]) && 0 <= s[i] < |code| && code[s[i]].Jmp?
    decreases i
  {
    if i > 0 {
      ChainFrom(code, GetJump(code, h), s[1..], i - 1);
      assert s[1..][i - 1..] == s[i..];
    } else {
      assert s[0..] == s;
    }
  }

  lemma ChainDistinct(code: seq<Instr>, h: int, s: seq<int>)
    requires Chain(code, h, s)
    ensures forall i, j :: 0 <= i < j < |s| ==> s[i] != s[j]
  {
    forall i, j | 0 <= i < j < |s| ensures s[i] != s[j] {
      if s[i] == s[j] {
        ChainFrom(code, h, s, i);
        ChainFrom(code, h, s, j);
        ChainUnique(code, s[i], s[i..], s[j..]);
      }
    }
  }

  lemma ListIs(code: seq<Instr>, h: int, s: seq<int>)
    requires Chain(code, h, s)
    ensures IsList(code, h) && ListOf(code, h) == s && Jumps(code, h) == set j | j in s
  {
    ChainUnique(code, h, s, ListOf(code, h));
  }

  lemma ListChain(code: seq<Instr>, h: int)
    requires IsList(code, h)
    ensures Chain(code, h, ListOf(code, h))
    ensures forall j :: j in Jumps(code, h) ==> 0 <= j < |code| && code[j].Jmp?
    ensures h == NO_JUMP <==> Jumps(code, h) == {}
    ensures h != NO_JUMP ==> h in Jumps(code, h)
  {
    var s := ListOf(code, h);
    forall j | j in s ensures 0 <= j < |code| && code[j].Jmp? {
      var i :| 0 <= i < |s| && s[i] == j;
      ChainFrom(code, h, s, i);
    }
    if s != [] { assert s[0] in s; assert h in Jumps(code, h); }
  }

  lemma NoList(code: seq<Instr>)
    ensures IsList(code, NO_JUMP) && ListOf(code, NO_JUMP) == [] && Jumps(code, NO_JUMP) == {}
  {
    assert Chain(code, NO_JUMP, []);
    ListIs(code, NO_JUMP, []);
  }

  /** A list is not affected by changes elsewhere. */
  lemma {:induction false} ChainSame(code: seq<Instr>, code': seq<Instr>, h: int, s: seq<int>)
    requires Chain(code, h, s)
    requires forall j :: j in s && 0 <= j < |code| ==> j < |code'| && code'[j] == code[j]
    ensures Chain(code', h, s)
    decreases |s|
  {
    if s != [] {
      assert s[0] in s && forall j :: j in s[1..] ==> j in s;
      ChainSame(code, code', GetJump(code, h), s[1..]);
    }
  }

  lemma ListSame(code: seq<Instr>, code': seq<Instr>, h: int)
    requires IsList(code, h)
    requires forall j :: j in Jumps(code, h) && 0 <= j < |code| ==> j < |code'| && code'[j] == code[j]
    ensures IsList(code', h) && ListOf(code', h) == ListOf(code, h) && Jumps(code', h) == Jumps(code, h)
  {
    ListChain(code, h);
    assert forall j :: j in ListOf(code, h) ==> j in Jumps(code, h);
    ChainSame(code, code', h, ListOf(code, h));
    ListIs(code', h, ListOf(code, h));
  }

  // ----- joining lists -----------------------------------------------------------------------------

  /** The link of jump `j` set to `dest`. */
  function Fixed(code: seq<Instr>, j: int, dest: int): seq<Instr>
    requires 0 <= j < |code|
  {
    code[j := Jmp(dest - (j + 1))]
  }

  lemma {:induction false} ChainJoin(code: seq<Instr>, h: int, s: seq<int>, h2: int, s2: seq<int>)
    requires Chain(code, h, s) && Chain(code, h2, s2) && s != [] && s2 != []
    requires forall j :: j in s ==> j !in s2
    ensures var last := s[|s| - 1]; 0 <= last < |code| && code[last].Jmp? && Chain(Fixed(code, last, h2), h, s + s2)
    decreases |s|
  {
    var last := s[|s| - 1];
    ChainFrom(code, h, s, |s| - 1);
    var code' := Fixed(code, last, h2);
    if |s| == 1 {
      assert s == [last] && s + s2 == [last] + s2;
      ChainSame(code, code', h2, s2);
      ChainFrom(code, h2, s2, 0);
      assert last !in s2 && s2[0] in s2;
      assert GetJump(code', last) == h2;
      assert (s + s2)[1..] == s2;
    } else {
      ChainDistinct(code, h, s);
      ChainJoin(code, GetJump(code, h), s[1..], h2, s2);
      assert (s + s2)[1..] == s[1..] + s2;
      assert s[1..][|s| - 2] == last;
    }
  }

  // ----- runs ------------------------------------------------------------------------------------------

  /** The same program, apart from the links of jumps whose destination is open. */
  ghost predicate SameButLinks(m: Prog, m': Prog) {
    && m' == m.(code := m'.code) && |m'.code| == |m.code|
    && forall q :: 0 <= q < |m.code| ==>
         m'.code[q] == m.code[q] || ((q in m.here || q in m.pend) && m.code[q].Jmp? && m'.code[q].Jmp?)
  }

  lemma LinksWF(m: Prog, m': Prog)
    requires WF(m) && SameButLinks(m, m')
    ensures WF(m')
  {
    forall q | 0 <= q < |m'.code| ensures InstrOK(m', q) {
      assert InstrOK(m, q);
      if q + 1 < |m.code| { assert InstrOK(m, q + 1); }
    }
  }

  lemma RunLinks(m: Prog, m': Prog, p: nat, R: Regs)
    requires WF(m) && SameButLinks(m, m') && Entry(m.code, p)
    ensures Run(m', p, R) == Run(m, p, R)
  {
    var c := (o: Outcome) => o;
    forall q: nat, S: Regs | q < |m.code| && Entry(m.code, q) ensures Matched(m, m', c, q, S) {
      assert InstrOK(m, q);
    }
    Simulate(m, m', c, p, R);
  }

  /** Some pending jumps now lead to here. */
  function Arrive(S: set<int>, o: Outcome): Outcome {
    if o.At? && o.j in S then Fall(o.regs) else o
  }

  function ToHere(m: Prog, S: set<int>): Prog {
    m.(here := m.here + S, pend := m.pend - S)
  }

  lemma HereWF(m: Prog, S: set<int>)
    requires WF(m) && S <= m.pend
    ensures WF(ToHere(m, S))
  {
    forall q | 0 <= q < |m.code| ensures InstrOK(ToHere(m, S), q) {
      assert InstrOK(m, q);
    }
  }

  lemma RunHere(m: Prog, S: set<int>, p: nat, R: Regs)
    requires WF(m) && S <= m.pend && Entry(m.code, p)
    ensures Run(ToHere(m, S), p, R) == Arrive(S, Run(m, p, R))
  {
    var m' := ToHere(m, S);
    var c := (o: Outcome) => Arrive(S, o);
    forall q: nat, T: Regs | q < |m.code| && Entry(m.code, q) ensures Matched(m, m', c, q, T) {
      assert InstrOK(m, q);
    }
    Simulate(m, m', c, p, R);
  }

  /** Tests of pending jumps that no longer produce values. */
  function Unvalued(code: seq<Instr>, S: set<int>): seq<Instr> {
    seq(|code|, q requires 0 <= q < |code| => if q + 1 in S && code[q].TestSet? then Test(code[q].b, code[q].want) else code[q])
  }

  lemma UnvaluedWF(m: Prog, S: set<int>)
    requires WF(m) && S <= m.pend + m.here
    ensures WF(m.(code := Unvalued(m.code, S)))
  {
    var m' := m.(code := Unvalued(m.code, S));
    forall q | 0 <= q < |m.code| ensures InstrOK(m', q) {
      assert InstrOK(m, q);
      if q + 1 < |m.code| { assert InstrOK(m, q + 1); }
    }
  }

  lemma RunUnvalued(m: Prog, S: set<int>, p: nat, R: Regs)
    requires WF(m) && S <= m.pend + m.here && Entry(m.code, p)
    ensures Run(m.(code := Unvalued(m.code, S)), p, R) == Run(m, p, R)
  {
    var m' := m.(code := Unvalued(m.code, S));
    var c := (o: Outcome) => o;
    forall q: nat, T: Regs | q < |m.code| && Entry(m.code, q) ensures Matched(m, m', c, q, T) {
      assert InstrOK(m, q);
      if q + 1 < |m.code| { assert InstrOK(m, q + 1); }
    }
    Simulate(m, m', c, p, R);
  }

  /** Pending jumps get their destinations. */
  function Settled(m: Prog, S: set<int>, vtarget: int, reg: nat, dtarget: int): Prog {
    m.(code := Patched(m.code, S, vtarget, reg, dtarget), pend := m.pend - S)
  }

  ghost predicate TargetsOK(m: Prog, S: set<int>, vtarget: int, dtarget: int) {
    && S <= m.pend
    && forall j :: j in S && 0 <= j < |m.code| ==>
         (var d := if Valued(m.code, j) then vtarget else dtarget; j < d && Entry(m.code, d))
  }

  /** Where a settled jump continues: a valued one leaves its value in `reg`. */
  function Land(m: Prog, S: set<int>, vtarget: int, reg: nat, dtarget: int, o: Outcome): Outcome {
    if o.At? && o.j in S then
      var m' := Settled(m, S, vtarget, reg, dtarget);
      if Valued(m.code, o.j) then
        (if vtarget < 0 then Stuck else Run(m', vtarget, Set(o.regs, reg, Get(o.regs, m.code[o.j - 1].b))))
      else (if dtarget < 0 then Stuck else Run(m', dtarget, o.regs))
    else o
  }

  lemma SettledWF(m: Prog, S: set<int>, vtarget: int, reg: nat, dtarget: int)
    requires WF(m) && TargetsOK(m, S, vtarget, dtarget)
    ensures WF(Settled(m, S, vtarget, reg, dtarget))
  {
    hide InstrOK, TargetsOK;
    forall q | 0 <= q < |m.code| ensures InstrOK(Settled(m, S, vtarget, reg, dtarget), q) {
      assert InstrOK(m, q);
      SettledInstr(m, S, vtarget, reg, dtarget, q);
    }
  }

  lemma SettledInstr(m: Prog, S: set<int>, vtarget: int, reg: nat, dtarget: int, q: nat)
    requires WF(m) && TargetsOK(m, S, vtarget, dtarget) && q < |m.code| && InstrOK(m, q)
    ensures InstrOK(Settled(m, S, vtarget, reg, dtarget), q)
  {
    hide Entry;
    if q + 1 < |m.code| { assert InstrOK(m, q + 1); }
    PatchedEntry(m.code, S, vtarget, reg, dtarget);
  }

  lemma PatchedEntry(code: seq<Instr>, S: set<int>, vtarget: int, reg: nat, dtarget: int)
    ensures forall d :: Entry(Patched(code, S, vtarget, reg, dtarget), d) <==> Entry(code, d)
  {
  }

  lemma RunSettled(m: Prog, S: set<int>, vtarget: int, reg: nat, dtarget: int, p: nat, R: Regs)
    requires WF(m) && TargetsOK(m, S, vtarget, dtarget) && Entry(m.code, p)
    ensures Run(Settled(m, S, vtarget, reg, dtarget), p, R) == Land(m, S, vtarget, reg, dtarget, Run(m, p, R))
  {
    var m' := Settled(m, S, vtarget, reg, dtarget);
    var c := (o: Outcome) => Land(m, S, vtarget, reg, dtarget, o);
    forall q: nat, T: Regs | q < |m.code| && Entry(m.code, q) ensures Matched(m, m', c, q, T) {
      SettledStep(m, S, vtarget, reg, dtarget, q, T);
    }
    Simulate(m, m', c, p, R);
  }

  lemma SettledStep(m: Prog, S: set<int>, vtarget: int, reg: nat, dtarget: int, q: nat, T: Regs)
    requires WF(m) && TargetsOK(m, S, vtarget, dtarget) && q < |m.code| && Entry(m.code, q)
    ensures Matched(m, Settled(m, S, vtarget, reg, dtarget), (o: Outcome) => Land(m, S, vtarget, reg, dtarget, o), q, T)
  {
    hide WF, InstrOK, Patched, Land, Entry;
    var m', i := Settled(m, S, vtarget, reg, dtarget), m.code[q];
    if IsTest(i) && q + 1 in S && Holds(m.env, m.k, i, T) {
      SettledTaken(m, S, vtarget, reg, dtarget, q, T);
    } else if i.Jmp? && q in S {
      SettledJump(m, S, vtarget, reg, dtarget, q, T);
    } else {
      SettledOther(m, S, vtarget, reg, dtarget, q, T);
    }
  }

  lemma SettledTaken(m: Prog, S: set<int>, vtarget: int, reg: nat, dtarget: int, q: nat, T: Regs)
    requires WF(m) && TargetsOK(m, S, vtarget, dtarget) && q < |m.code|
    requires IsTest(m.code[q]) && q + 1 in S && Holds(m.env, m.k, m.code[q], T)
    ensures Step(m, q, T) == Done(At(q + 1, T))
    ensures Run(Settled(m, S, vtarget, reg, dtarget), q, T) == Land(m, S, vtarget, reg, dtarget, At(q + 1, T))
  {
    var m', i := Settled(m, S, vtarget, reg, dtarget), m.code[q];
    assert InstrOK(m, q);
    assert InstrOK(m, q + 1);
    if i.TestSet? {
      assert Valued(m.code, q + 1) && Set(T, i.b, Get(T, i.b)) == T;
      assert m'.code[q + 1] == Jmp(vtarget - (q + 2)) && m'.code[q] == Retargeted(i, reg);
      assert Step(m', q, T) == Next(vtarget, Set(T, reg, Get(T, i.b)));
    } else {
      assert m'.code[q + 1] == Jmp(dtarget - (q + 2)) && m'.code[q] == i;
      assert Step(m', q, T) == Next(dtarget, T);
    }
  }

  lemma SettledJump(m: Prog, S: set<int>, vtarget: int, reg: nat, dtarget: int, q: nat, T: Regs)
    requires WF(m) && TargetsOK(m, S, vtarget, dtarget) && q < |m.code| && Entry(m.code, q) && m.code[q].Jmp? && q in S
    ensures Step(m, q, T) == Done(At(q, T))
    ensures Run(Settled(m, S, vtarget, reg, dtarget), q, T) == Land(m, S, vtarget, reg, dtarget, At(q, T))
  {
    var m' := Settled(m, S, vtarget, reg, dtarget);
    assert InstrOK(m, q);
    assert !Valued(m.code, q);
    assert m'.code[q] == Jmp(dtarget - (q + 1));
    assert Step(m', q, T) == Next(dtarget, T);
  }

  lemma SettledOther(m: Prog, S: set<int>, vtarget: int, reg: nat, dtarget: int, q: nat, T: Regs)
    requires WF(m) && TargetsOK(m, S, vtarget, dtarget) && q < |m.code| && Entry(m.code, q)
    requires !(IsTest(m.code[q]) && q + 1 in S && Holds(m.env, m.k, m.code[q], T)) && !(m.code[q].Jmp? && q in S)
    ensures Matched(m, Settled(m, S, vtarget, reg, dtarget), (o: Outcome) => Land(m, S, vtarget, reg, dtarget, o), q, T)
  {
    assert InstrOK(m, q);
    if q + 1 < |m.code| { assert InstrOK(m, q + 1); }
    assert Step(m, q, T) == Step(Settled(m, S, vtarget, reg, dtarget), q, T);
  }
}
