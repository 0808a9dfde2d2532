/** lcode.c: the code generator for expressions. */
module CodeGen {
  import opened Options
  import opened LuaCode
  import opened CodeJumps
  import opened ExpSem
  import opened CodeSem
  import opened CodeReg
  import opened CodeSteps

  /** Errors of the original leave the function by a long jump. */
  datatype Status = Ok | SyntaxError {
    predicate IsFailure() { SyntaxError? }
    function PropagateFailure(): Status { this }
  }

  class FuncState {
    const env: Env
    var code: seq<Instr>
    var k: seq<Value>
    var cache: map<Value, nat>
    var jpc: int
    var lasttarget: nat
    var freereg: nat
    var nactvar: nat
    var maxstacksize: nat

    /** The frame of the function holds every register that is in use or occurs in the code. */
    ghost predicate Frame()
      reads this`code, this`freereg, this`maxstacksize
    {
      2 <= maxstacksize < MAXREGS && freereg <= maxstacksize && CodeFits(code, maxstacksize)
    }

    lemma InFrame()
      requires Frame()
      ensures 2 <= maxstacksize < MAXREGS && freereg <= maxstacksize
    {
    }

    lemma InCode(q: nat)
      requires Frame() && q < |code|
      ensures Fits(code[q], maxstacksize)
    {
    }

    ghost function Snap(): Gen
      reads this
    {
      Gen(code, k, jpc, lasttarget, freereg, nactvar)
    }

    constructor (env: Env, nactvar: nat)
      requires nactvar < MAXREGS
      ensures this.env == env && Snap() == Gen([], [], NO_JUMP, 0, nactvar, nactvar) && Frame()
      ensures GenOK(env, Snap(), {})
    {
      this.env := env;
      code, k, cache, jpc, lasttarget := [], [], map[], NO_JUMP, 0;
      freereg, this.nactvar := nactvar, nactvar;
      maxstacksize := if nactvar < 2 then 2 else nactvar;
      new;
      NoList(code);
    }

    // ----- jump lists ---------------------------------------------------------------------------

    /** `fixjump`: let the jump at `pc` lead to `dest`. */
    method FixJump(pc: int, dest: int) returns (r: Status)
      requires 0 <= pc < |code| && code[pc].Jmp? && -1 <= dest <= |code|
      modifies this`code
      ensures r.Ok? ==> code == Fixed(old(code), pc, dest)
      ensures r.Ok? && old(Frame()) ==> Frame()
      ensures r.SyntaxError? ==> TooBig(Snap())
    {
      var offset := dest - (pc + 1);
      if offset > MAXARG_sBx || -offset > MAXARG_sBx {
        return SyntaxError;
      }
      code := code[pc := Jmp(offset)];
      return Ok;
    }

    /** `luaK_concat`: append list `l2` to list `l1`. */
    method Concat(l1: int, l2: int) returns (r: Status, l: int)
      requires IsList(code, l1) && IsList(code, l2) && Jumps(code, l1) !! Jumps(code, l2)
      modifies this`code
      ensures r.Ok? ==> |code| == old(|code|) && IsList(code, l) && ListOf(code, l) == old(ListOf(code, l1) + ListOf(code, l2))
      ensures r.Ok? ==> Jumps(code, l) == old(Jumps(code, l1) + Jumps(code, l2))
      ensures r.Ok? ==> forall q :: 0 <= q < |code| ==>
                code[q] == old(code)[q] || (q in old(Jumps(code, l1)) && old(code)[q].Jmp? && code[q].Jmp?)
      ensures r.Ok? && (l1 == NO_JUMP || l2 == NO_JUMP) ==> code == old(code)
      ensures r.Ok? && old(Frame()) ==> Frame()
      ensures r.SyntaxError? ==> TooBig(Snap())
    {
      l := l1;
      ghost var s1, s2 := ListOf(code, l1), ListOf(code, l2);
      ListChain(code, l1);
      ListChain(code, l2);
      if l2 == NO_JUMP {
        assert s2 == [];
        assert s1 + s2 == s1;
        return Ok, l1;
      } else if l1 == NO_JUMP {
        assert s1 == [];
        assert s1 + s2 == s2;
        return Ok, l2;
      }
      var list := l1;
      ghost var i := 0;
      ChainFrom(code, l1, s1, 0);
      while GetJump(code, list) != NO_JUMP
        invariant 0 <= i < |s1| && list == s1[i] && Chain(code, list, s1[i..]) && 0 <= list < |code| && code[list].Jmp?
        decreases |s1| - i
      {
        assert s1[i..][1..] == s1[i + 1..];
        list := GetJump(code, list);
        i := i + 1;
      }
      assert s1[i..][1..] == s1[i + 1..];
      assert i == |s1| - 1;
      assert forall j :: j in s1 ==> j in Jumps(code, l1) && j !in s2 by {
        forall j | j in s1 ensures j in Jumps(code, l1) && j !in s2 {
          assert j in Jumps(code, l1);
          assert j in s2 ==> j in Jumps(code, l2);
        }
      }
      ChainJoin(code, l1, s1, l2, s2);
      :- FixJump(list, l2);
      ListIs(code, l1, s1 + s2);
      return Ok, l1;
    }

    /** `patchtestreg`: give the TESTSET that controls jump `node` a destination, or make it a TEST. */
    method PatchTestReg(node: int, reg: nat) returns (valued: bool)
      requires 0 <= node < |code|
      modifies this`code
      ensures valued == old(Valued(code, node))
      ensures code == if valued then old(code)[node - 1 := Retargeted(old(code)[node - 1], reg)] else old(code)
      ensures old(Frame()) && DestFits(reg, maxstacksize) ==> Frame()
    {
      if !(node >= 1 && code[node - 1].TestSet?) {
        return false;
      }
      var i := code[node - 1];
      if reg != NO_REG && reg != i.b {
        code := code[node - 1 := TestSet(reg, i.b, i.want)];
      } else {
        code := code[node - 1 := Test(i.b, i.want)];
      }
      return true;
    }

    /** `removevalues`: no test of the list produces a value. */
    method RemoveValues(head: int)
      requires IsList(code, head)
      modifies this`code
      ensures code == Unvalued(old(code), old(Jumps(code, head))) && (old(Frame()) ==> Frame())
    {
      ghost var c0, s := code, ListOf(code, head);
      ListChain(code, head);
      var list := head;
      ghost var i, S := 0, {};
      assert Unvalued(c0, {}) == c0;
      while list != NO_JUMP
        invariant 0 <= i <= |s| && Chain(c0, list, s[i..]) && S == (set j | j in s[..i])
        invariant code == Unvalued(c0, S) && (old(Frame()) ==> Frame())
        decreases |s| - i
      {
        ChainFrom(c0, list, s[i..], 0);
        ghost var c1 := code;
        var valued := PatchTestReg(list, NO_REG);
        UnvaluedMore(c0, S, list);
        assert code == Unvalued(c0, S + {list});
        assert s[..i + 1] == s[..i] + [list];
        S := S + {list};
        assert s[i..][1..] == s[i + 1..];
        list := GetJump(code, list);
        i := i + 1;
      }
      assert s[..i] == s;
    }

    /** `patchlistaux`: patch the destinations and registers of a list of tests. */
    method PatchListAux(head: int, vtarget: int, reg: nat, dtarget: int) returns (r: Status)
      requires IsList(code, head) && -1 <= vtarget <= |code| && -1 <= dtarget <= |code|
      modifies this`code
      ensures r.Ok? ==> code == Patched(old(code), old(Jumps(code, head)), vtarget, reg, dtarget)
      ensures r.Ok? && old(Frame()) && DestFits(reg, maxstacksize) ==> Frame()
      ensures r.SyntaxError? ==> TooBig(Snap())
    {
      hide Frame, DestFits, Patched, Retargeted, Fixed;
      ghost var c0, s := code, ListOf(code, head);
      ListChain(code, head);
      ChainDistinct(code, head, s);
      var list := head;
      ghost var i, S := 0, {};
      PatchedNone(c0, vtarget, reg, dtarget);
      while list != NO_JUMP
        invariant 0 <= i <= |s| && Chain(c0, list, s[i..]) && S == (set j | j in s[..i])
        invariant code == Patched(c0, S, vtarget, reg, dtarget)
        invariant old(Frame()) && DestFits(reg, maxstacksize) ==> Frame()
        decreases |s| - i
      {
        ChainFrom(c0, list, s[i..], 0);
        PatchedKeeps(c0, S, vtarget, reg, dtarget);
        assert list !in S;
        var next := GetJump(code, list);
        assert next == GetJump(c0, list);
        var valued := PatchTestReg(list, reg);
        ghost var c1 := code;
        :- FixJump(list, if valued then vtarget else dtarget);
        PatchTurn(c0, S, list, vtarget, reg, dtarget, c1, code);
        assert s[..i + 1] == s[..i] + [list];
        S := S + {list};
        assert s[i..][1..] == s[i + 1..];
        list := next;
        i := i + 1;
      }
      assert s[..i] == s;
      return Ok;
    }

    /** `need_value`: does some jump of the list produce no value? */
    method NeedValue(head: int) returns (need: bool)
      requires IsList(code, head)
      ensures need <==> exists j :: j in Jumps(code, head) && !Valued(code, j)
    {
      hide Jumps, ListOf, IsList;
      ghost var s := ListOf(code, head);
      ListChain(code, head);
      var list := head;
      ghost var i := 0;
      AllValuedStart(code, s);
      while list != NO_JUMP
        invariant 0 <= i <= |s| && Chain(code, list, s[i..]) && ValuedUpTo(code, s, i)
        decreases |s| - i
      {
        ChainFrom(code, list, s[i..], 0);
        ValuedStep(code, head, s, i);
        if !(list >= 1 && code[list - 1].TestSet?) {
          return true;
        }
        assert s[i..][1..] == s[i + 1..];
        list := GetJump(code, list);
        i := i + 1;
      }
      ValuedAll(code, head, s, i);
      return false;
    }

    /** `luaK_getlabel`: mark the current position as a jump target. */
    method GetLabel() returns (pc: nat)
      modifies this`lasttarget
      ensures pc == |code| && lasttarget == |code|
    {
      lasttarget := |code|;
      return |code|;
    }

    /** `luaK_code`, after `dischargejpc`: the pending jumps to here lead to the new instruction. */
    method Emit(i: Instr) returns (r: Status, pc: nat)
      requires IsList(code, jpc)
      modifies this`code, this`jpc
      ensures r.Ok? ==> pc == old(|code|) && jpc == NO_JUMP
      ensures r.Ok? ==> code == Patched(old(code), old(Jumps(code, jpc)), pc, NO_REG, pc) + [i]
      ensures r.Ok? && old(jpc) == NO_JUMP ==> code == old(code) + [i]
      ensures r.Ok? && old(Frame()) && Fits(i, maxstacksize) ==> Frame()
      ensures r.SyntaxError? ==> TooBig(Snap())
    {
      pc := |code|;
      ListChain(code, jpc);
      PatchedNone(code, |code|, NO_REG, |code|);
      :- PatchListAux(jpc, |code|, NO_REG, |code|);
      jpc := NO_JUMP;
      code := code + [i];
      return Ok, pc;
    }

    /** `luaK_patchtohere`: add a list to the jumps to here. */
    method PatchToHere(list: int) returns (r: Status)
      requires IsList(code, jpc) && IsList(code, list) && Jumps(code, jpc) !! Jumps(code, list)
      modifies this`code, this`jpc, this`lasttarget
      ensures r.Ok? ==> Relinked(old(Snap()), Snap(), old(Jumps(code, jpc))) && lasttarget == |code|
      ensures r.Ok? ==> IsList(code, jpc) && Jumps(code, jpc) == old(Jumps(code, jpc) + Jumps(code, list))
      ensures r.Ok? && old(jpc) == NO_JUMP ==> code == old(code)
      ensures r.Ok? && old(Frame()) ==> Frame()
      ensures r.SyntaxError? ==> TooBig(Snap())
    {
      var here := GetLabel();
      var l :- Concat(jpc, list);
      jpc := l;
      return Ok;
    }

    /** `luaK_jump`: an open jump that takes over the jumps to here. */
    method Jump() returns (r: Status, j: int)
      requires IsList(code, jpc)
      modifies this`code, this`jpc
      ensures r.Ok? ==> jpc == NO_JUMP && |code| == old(|code|) + 1 && code[..old(|code|)] == old(code) && code[old(|code|)].Jmp?
      ensures r.Ok? ==> IsList(code, j) && Jumps(code, j) == {old(|code|)} + old(Jumps(code, jpc))
      ensures r.Ok? && old(jpc) == NO_JUMP ==> j == old(|code|) && code == old(code) + [Jmp(NO_JUMP)]
      ensures r.Ok? && old(Frame()) ==> Frame()
      ensures r.SyntaxError? ==> TooBig(Snap())
    {
      j := NO_JUMP;
      var list := jpc;
      ghost var n, c0 := |code|, code;
      ListChain(code, jpc);
      jpc := NO_JUMP;
      NoList(code);
      var pc :- Emit(Jmp(NO_JUMP));
      assert Chain(code, n, [n]) by { assert GetJump(code, n) == NO_JUMP; }
      ListIs(code, n, [n]);
      ListSame(c0, code, list);
      j :- Concat(pc, list);
      return Ok, j;
    }

    /** `condjump`: a test and the jump it controls. */
    method CondJump(i: Instr) returns (r: Status, j: int)
      requires IsList(code, jpc) && IsTest(i)
      modifies this`code, this`jpc
      ensures r.Ok? ==> j == old(|code|) + 1 && jpc == NO_JUMP
      ensures r.Ok? ==> code == Patched(old(code), old(Jumps(code, jpc)), old(|code|), NO_REG, old(|code|)) + [i, Jmp(NO_JUMP)]
      ensures r.Ok? ==> IsList(code, j) && Jumps(code, j) == {j}
      ensures r.Ok? && old(Frame()) && Fits(i, maxstacksize) ==> Frame()
      ensures r.SyntaxError? ==> TooBig(Snap())
    {
      j := NO_JUMP;
      var pc :- Emit(i);
      NoList(code);
      j :- Jump();
      return Ok, j;
    }

    // ----- registers and constants ----------------------------------------------------------------------

    /** `luaK_reserveregs` with `luaK_checkstack`. */
    method ReserveRegs(n: nat) returns (r: Status)
      requires Frame()
      modifies this`freereg, this`maxstacksize
      ensures Frame() && maxstacksize >= old(maxstacksize) && (r.Ok? ==> freereg == old(freereg) + n && freereg < MAXREGS)
      ensures r.SyntaxError? ==> freereg == old(freereg) && freereg + n >= MAXREGS
    {
      ghost var was := maxstacksize;
      var newstack := freereg + n;
      if newstack > maxstacksize {
        if newstack >= MAXREGS {
          return SyntaxError;
        }
        maxstacksize := newstack;
      }
      freereg := newstack;
      FitsMore(code, was, maxstacksize);
      return Ok;
    }

    /** `freereg`: free a register that is neither a constant nor a local. */
    method FreeReg(reg: nat)
      requires !IsK(reg) && reg >= nactvar ==> reg + 1 == freereg
      modifies this`freereg
      ensures freereg == if !IsK(reg) && reg >= nactvar then reg else old(freereg)
      ensures old(Frame()) ==> Frame()
    {
      if !IsK(reg) && reg >= nactvar {
        freereg := freereg - 1;
      }
    }

    method FreeExp(e: ExpDesc)
      requires e.k.VNonReloc? && e.k.info < BITRK && e.k.info >= nactvar ==> e.k.info + 1 == freereg
      modifies this`freereg
      ensures freereg == if e.k.VNonReloc? && e.k.info < BITRK && e.k.info >= nactvar then e.k.info else old(freereg)
      ensures old(Frame()) ==> Frame()
    {
      if e.k.VNonReloc? {
        FreeReg(e.k.info);
      }
    }

    /** `addk`: the index of a constant, reused if it is known. */
    method AddK(v: Value) returns (i: nat)
      modifies this`k, this`cache
      ensures ConstPrefix(old(k), k) && i < |k| && k[i] == v
    {
      if v in cache {
        i := cache[v];
        if i < |k| && k[i] == v {
          return;
        }
      }
      i := |k|;
      cache := cache[v := i];
      k := k + [v];
    }

    // ----- values into registers ---------------------------------------------------------------------------

    method ReplaceLast(i: Instr)
      requires Frame() && code != [] && Fits(i, maxstacksize)
      modifies this`code
      ensures code == old(code)[|old(code)| - 1 := i] && Frame()
    {
      code := code[|code| - 1 := i];
    }

    /** `luaK_nil`: set `n` registers to nil, if possible by widening the previous LOADNIL. */
    method LuaNil(from: nat, n: nat, ghost P: set<int>) returns (r: Status)
      requires GenOK(env, Snap(), P) && n > 0
      requires Frame() && from + n <= maxstacksize
      modifies this`code, this`jpc
      ensures r.Ok? ==> Frame()
      ensures r.Ok? ==> GenOK(env, Snap(), P) && Framed(old(Snap()), Snap(), P)
      ensures r.Ok? ==> forall R :: Out(env, Snap(), P, R) == NilsOut(from, n - 1, Out(env, old(Snap()), P, R))
      ensures r.SyntaxError? ==> TooBig(Snap())
    {
      hide Frame, GenOK, Framed, Patched, Jumps, IsList;
      ghost var g := Snap();
      GenFacts(env, g, P);
      if |code| > lasttarget {
        var previous := code[|code| - 1];
        if previous.LoadNil? {
          var l := from + n - 1;
          var pfrom := previous.a;
          var pl := pfrom + previous.n;
          if (pfrom <= from && from <= pl + 1) || (from <= pfrom && pfrom <= l + 1) {
            var from' := if pfrom < from then pfrom else from;
            var l' := if pl > l then pl else l;
            InCode(|code| - 1);
            ReplaceLast(LoadNil(from', l' - from'));
            NilsByMerge(env, g, P, Snap(), from, n - 1);
            return Ok;
          }
        }
      }
      var pc :- Emit(LoadNil(from, n - 1));
      NilsByEmit(env, g, P, Snap(), from, n - 1);
      return Ok;
    }

    /** `luaK_codek`: load constant `i`. */
    method CodeK(reg: nat, i: nat, ghost P: set<int>) returns (r: Status)
      requires GenOK(env, Snap(), P) && i < |k|
      requires Frame() && reg < maxstacksize
      modifies this`code, this`jpc
      ensures r.Ok? ==> Frame()
      ensures r.Ok? ==> GenOK(env, Snap(), P) && Framed(old(Snap()), Snap(), P)
      ensures r.Ok? ==> forall R :: Out(env, Snap(), P, R) == SetOut(reg, k[i], Out(env, old(Snap()), P, R))
      ensures r.SyntaxError? ==> TooBig(Snap())
    {
      ghost var g := Snap();
      GenFacts(env, g, P);
      if i <= MAXARG_Bx {
        var pc :- Emit(LoadK(reg, i));
        PlainByEmit(env, g, P, Snap(), LoadK(reg, i), k[i]);
      } else {
        var pc :- Emit(LoadKX(reg));
        NoList(code);
        var pc' :- Emit(ExtraArg(i));
        WideByEmit(env, g, P, Snap(), reg, i);
      }
      return Ok;
    }

    /** `luaK_dischargevars`: the expression is no variable any more. */
    method DischargeVars(e: ExpDesc, ghost before: Prog, ghost P: set<int>, ghost a: Expr, ghost fr: nat)
      returns (r: Status, e': ExpDesc)
      requires ExpOK(env, Snap(), P, e) && Means(env, before, Snap(), P, e, a, fr)
      requires Frame()
      modifies this`code, this`jpc
      ensures r.Ok? ==> Frame()
      ensures r.Ok? ==> ExpOK(env, Snap(), P, e') && Means(env, before, Snap(), P, e', a, fr)
      ensures r.Ok? ==> DischargedKind(e.k, e'.k) && SameLists(old(Snap()), e, Snap(), e')
      ensures r.Ok? ==> Framed(old(Snap()), Snap(), P) && Framed(old(Snap()), Snap(), P + TList(old(Snap()), e) + FList(old(Snap()), e))
      ensures r.Ok? && !e.k.VUpval? ==> Snap() == old(Snap())
      ensures r.Ok? ==> forall n :: RegsOK(n, old(Snap()), e) ==> RegsOK(n, Snap(), e')
      ensures r.SyntaxError? ==> TooBig(Snap())
    {
      hide GenOK, ExpOK, Means, Framed, Jumps, IsList;
      ghost var g := Snap();
      e' := e;
      ExpFacts(env, g, P, e);
      KindKnown(env, g, P, e);
      match e.k {
      case VLocal(info) =>
        e' := e.(k := VNonReloc(info));
        LocalMeans(env, before, g, P, e, a, fr, e');
      case VUpval(info) =>
        var pc :- Emit(GetUpval(0, info));
        e' := e.(k := VReloc(pc));
        UpvalEmitted(env, before, g, P, e, a, fr, Snap());
      case _ =>
      }
      if !e.k.VUpval? { FramedRefl(g, g, P + TList(g, e) + FList(g, e)); }
      FramedLess(g, Snap(), P + TList(g, e) + FList(g, e), P);
      r := Ok;
    }

    /** `discharge2reg`: put the value into `reg`; a bare test is left alone. */
    method Discharge2Reg(e: ExpDesc, reg: nat, ghost before: Prog, ghost P: set<int>, ghost a: Expr, ghost fr: nat)
      returns (r: Status, e': ExpDesc)
      requires ExpOK(env, Snap(), P, e) && Means(env, before, Snap(), P, e, a, fr) && reg < freereg
      requires Frame() && (e.k.VNonReloc? ==> e.k.info < maxstacksize)
      modifies this`code, this`jpc, this`k, this`cache
      ensures r.Ok? ==> Frame()
      ensures r.Ok? && e.k.VJmp? ==> e' == e && Snap() == old(Snap())
      ensures r.Ok? && !e.k.VJmp? ==> e' == ExpDesc(VNonReloc(reg), e.t, e.f) && Placed(env, before, old(Snap()), P, e, a, fr, Snap(), reg)
      ensures r.Ok? ==> Framed(old(Snap()), Snap(), P) && freereg == old(freereg)
      ensures r.Ok? && !e.k.VJmp? ==> Framed(old(Snap()), Snap(), P + TList(old(Snap()), e) + FList(old(Snap()), e))
      ensures r.SyntaxError? ==> TooBig(Snap())
    {
      hide GenOK, ExpOK, Means, Framed, Jumps, IsList, Placed, LoadOK;
      ghost var g := Snap();
      e' := e;
      ExpFacts(env, g, P, e);
      var e1 :- DischargeVars(e, before, P, a, fr);
      ghost var g1 := Snap();
      if e1.k.VJmp? {
        return Ok, e1;
      }
      ExpFacts(env, g1, P, e1);
      :- LoadValue(e1, reg, P);
      e' := ExpDesc(VNonReloc(reg), e1.t, e1.f);
      LoadPlaced(env, before, g, P, e, a, fr, g1, e1, Snap(), reg);
      FramedTrans(g, g1, Snap(), P + TList(g, e) + FList(g, e));
      FramedLess(g, Snap(), P + TList(g, e) + FList(g, e), P);
      return Ok, e';
    }

    /** The instruction that loads each kind of value. */
    method LoadValue(e: ExpDesc, reg: nat, ghost P: set<int>) returns (r: Status)
      requires ExpOK(env, Snap(), P, e) && reg < freereg && !e.k.VJmp? && !e.k.VLocal? && !e.k.VUpval?
      requires KindOK(Snap(), e.k)
      requires Frame() && (e.k.VNonReloc? ==> e.k.info < maxstacksize)
      modifies this`code, this`jpc, this`k, this`cache
      ensures r.Ok? ==> Frame()
      ensures r.Ok? ==> var PE := P + TList(old(Snap()), e) + FList(old(Snap()), e);
                GenOK(env, Snap(), PE) && Framed(old(Snap()), Snap(), PE)
      ensures r.Ok? ==> LoadOK(env, old(Snap()), P, e, Snap(), reg)
      ensures r.SyntaxError? ==> TooBig(Snap())
    {
      hide GenOK, ExpOK, Means, Framed, Jumps, IsList, LoadOK;
      ghost var g := Snap();
      ghost var PE := P + TList(g, e) + FList(g, e);
      ExpFacts(env, g, P, e);
      match e.k {
      case VNil =>
        :- LuaNil(reg, 1, PE);
        LoadNils(env, g, P, e, Snap(), reg);
      case VFalse =>
        :- LoadBoolean(reg, false, PE);
        LoadBy(env, g, P, e, Snap(), reg, Bool(false));
      case VTrue =>
        :- LoadBoolean(reg, true, PE);
        LoadBy(env, g, P, e, Snap(), reg, Bool(true));
      case VK(info) =>
        :- CodeK(reg, info, PE);
        LoadBy(env, g, P, e, Snap(), reg, g.k[info]);
      case VKFlt(nval) =>
        :- LoadNumber(reg, Flt(nval), PE);
        LoadBy(env, g, P, e, Snap(), reg, Flt(nval));
      case VKInt(ival) =>
        :- LoadNumber(reg, Int(ival), PE);
        LoadBy(env, g, P, e, Snap(), reg, Int(ival));
      case VReloc(pc) =>
        code := code[pc := WithA(code[pc], reg)];
        LoadRelocated(env, g, P, e, Snap(), reg);
      case VNonReloc(info) =>
        :- MoveTo(reg, info, PE);
        LoadMoved(env, g, P, e, Snap(), reg);
      }
      return Ok;
    }

    method LoadBoolean(reg: nat, b: bool, ghost P: set<int>) returns (r: Status)
      requires GenOK(env, Snap(), P)
      requires Frame() && reg < maxstacksize
      modifies this`code, this`jpc
      ensures r.Ok? ==> Frame()
      ensures r.Ok? ==> GenOK(env, Snap(), P) && Framed(old(Snap()), Snap(), P)
      ensures r.Ok? ==> forall R :: Out(env, Snap(), P, R) == SetOut(reg, Bool(b), Out(env, old(Snap()), P, R))
      ensures r.SyntaxError? ==> TooBig(Snap())
    {
      ghost var g := Snap();
      var pc :- Emit(LoadBool(reg, b, false));
      PlainByEmit(env, g, P, Snap(), LoadBool(reg, b, false), Bool(b));
      return Ok;
    }

    method LoadNumber(reg: nat, v: Value, ghost P: set<int>) returns (r: Status)
      requires GenOK(env, Snap(), P)
      requires Frame() && reg < maxstacksize
      modifies this`code, this`jpc, this`k, this`cache
      ensures r.Ok? ==> Frame()
      ensures r.Ok? ==> GenOK(env, Snap(), P) && Framed(old(Snap()), Snap(), P)
      ensures r.Ok? ==> forall R :: Out(env, Snap(), P, R) == SetOut(reg, v, Out(env, old(Snap()), P, R))
      ensures r.SyntaxError? ==> TooBig(Snap())
    {
      hide GenOK, Framed;
      ghost var g := Snap();
      var i := AddK(v);
      ConstsOut(env, g, P, Snap());
      ghost var g2 := Snap();
      :- CodeK(reg, i, P);
      FramedTrans(g, g2, Snap(), P);
      return Ok;
    }

    method MoveTo(reg: nat, info: nat, ghost P: set<int>) returns (r: Status)
      requires GenOK(env, Snap(), P)
      requires Frame() && reg < maxstacksize && info < maxstacksize
      modifies this`code, this`jpc
      ensures r.Ok? ==> Frame()
      ensures r.Ok? ==> GenOK(env, Snap(), P) && Framed(old(Snap()), Snap(), P)
      ensures r.Ok? ==> forall R :: Out(env, Snap(), P, R) == MoveOut(reg, info, Out(env, old(Snap()), P, R))
      ensures r.SyntaxError? ==> TooBig(Snap())
    {
      ghost var g := Snap();
      if reg != info {
        var pc :- Emit(Move(reg, info));
        MoveByEmit(env, g, P, Snap(), reg, info);
      } else {
        StayPut(env, g, P, reg);
        FramedRefl(g, g, P);
      }
      return Ok;
    }

    /** `exp2reg`: put the final value into `reg`, whichever way it is computed. */
    method Exp2Reg(e: ExpDesc, reg: nat, ghost before: Prog, ghost P: set<int>, ghost a: Expr, ghost fr: nat)
      returns (r: Status, e': ExpDesc)
      requires ExpOK(env, Snap(), P, e) && Means(env, before, Snap(), P, e, a, fr) && reg < freereg
      requires Frame() && (e.k.VNonReloc? ==> e.k.info < maxstacksize)
      modifies this`code, this`jpc, this`k, this`cache, this`lasttarget
      ensures r.Ok? ==> Frame()
      ensures r.Ok? ==> GenOK(env, Snap(), P) && InReg(env, before, Snap(), P, a, fr, reg) && Framed(old(Snap()), Snap(), P)
      ensures r.Ok? ==> e' == ExpDesc(VNonReloc(reg), NO_JUMP, NO_JUMP) && freereg == old(freereg)
      ensures r.SyntaxError? ==> TooBig(Snap())
    {
      hide GenOK, ExpOK, Means, Framed, Jumps, IsList, Placed, Opened, InReg;
      ghost var g := Snap();
      e' := ExpDesc(VNonReloc(reg), NO_JUMP, NO_JUMP);
      ExpBound(env, g, P, e);
      var e1 :- Discharge2Reg(e, reg, before, P, a, fr);
      ghost var g1 := Snap();
      var t := e1.t;
      if e1.k.VJmp? {
        t :- JoinTest(e1, reg, before, P, a, fr);
      } else {
        PlacedOpened(env, before, g, P, e, a, fr, g1, reg);
        FramedRefl(g1, g1, P);
      }
      ghost var g2 := Snap();
      FramedTrans(g, g1, g2, P);
      :- FinishJumps(t, e1.f, reg, e1.k.VJmp?, before, P, a, fr);
      FramedTrans(g, g2, Snap(), P);
      return Ok, e';
    }

    /** The jump of a bare test joins the true list. */
    method JoinTest(e: ExpDesc, reg: nat, ghost before: Prog, ghost P: set<int>, ghost a: Expr, ghost fr: nat)
      returns (r: Status, t: int)
      requires ExpOK(env, Snap(), P, e) && Means(env, before, Snap(), P, e, a, fr) && e.k.VJmp? && reg < MAXREGS
      requires Frame()
      modifies this`code
      ensures r.Ok? ==> Frame()
      ensures r.Ok? ==> Opened(env, before, Snap(), P, t, e.f, a, fr, reg, true) && Framed(old(Snap()), Snap(), P)
      ensures r.SyntaxError? ==> TooBig(Snap())
    {
      hide GenOK, Means, Framed, Jumps, IsList, Opened, Ready;
      ghost var g := Snap();
      t := e.t;
      JumpList(env, g, P, e);
      t :- Concat(e.t, e.k.pc);
      TestOpened(env, before, g, P, e, a, fr, reg, Snap(), t);
      return Ok, t;
    }

    /** The part of `exp2reg` that deals with jumps. `test`: falling through means false. */
    method FinishJumps(t: int, f: int, reg: nat, test: bool, ghost before: Prog, ghost P: set<int>, ghost a: Expr, ghost fr: nat)
      returns (r: Status)
      requires Opened(env, before, Snap(), P, t, f, a, fr, reg, test)
      requires Frame() && reg < maxstacksize
      modifies this`code, this`jpc, this`lasttarget
      ensures r.Ok? ==> Frame()
      ensures r.Ok? ==> GenOK(env, Snap(), P) && InReg(env, before, Snap(), P, a, fr, reg) && Framed(old(Snap()), Snap(), P)
      ensures r.SyntaxError? ==> TooBig(Snap())
    {
      hide GenOK, Framed, Jumps, IsList, Opened, InReg, Patchable;
      ghost var g := Snap();
      OpenedFacts(env, before, g, P, t, f, a, fr, reg, test);
      if t == f {
        NoJumps(env, before, g, P, t, a, fr, reg, test);
        FramedRefl(g, g, P);
        return Ok;
      }
      var p_f, p_t := NO_JUMP, NO_JUMP;
      var need := NeedValue(t);
      if !need {
        need := NeedValue(f);
      }
      if need {
        p_f, p_t :- CodeLoads(t, f, reg, test, before, P, a, fr);
      } else {
        AllValued(g, t, f, reg);
        FramedRefl(g, g, P);
      }
      ghost var m := Snap();
      var final := GetLabel();
      Labelled(env, before, m, P, t, f, a, fr, reg, Snap(), p_f, p_t);
      ghost var l := Snap();
      FramedRefl(m, l, P);
      FramedTrans(g, m, l, P);
      :- PatchLists(t, f, final, reg, p_f, p_t, before, P, a, fr);
      FramedTrans(g, l, Snap(), P);
      return Ok;
    }

    /** Code that loads false, skips, and loads true, for jumps that carry no value. */
    method CodeLoads(t: int, f: int, reg: nat, test: bool, ghost before: Prog, ghost P: set<int>, ghost a: Expr, ghost fr: nat)
      returns (r: Status, p_f: int, p_t: int)
      requires Opened(env, before, Snap(), P, t, f, a, fr, reg, test)
      requires Frame() && reg < maxstacksize
      modifies this`code, this`jpc, this`lasttarget
      ensures r.Ok? ==> Frame()
      ensures r.Ok? ==> Opened(env, before, Snap(), P, t, f, a, fr, reg, false) && Framed(old(Snap()), Snap(), P)
      ensures r.Ok? ==> Patchable(Snap(), Jumps(code, t), p_t, reg, true) && Patchable(Snap(), Jumps(code, f), p_f, reg, false)
      ensures r.Ok? ==> -1 <= p_f < |code| && -1 <= p_t < |code|
      ensures r.SyntaxError? ==> TooBig(Snap())
    {
      hide Frame, GenOK, Framed, Jumps, IsList, Opened, Ready, Patchable;
      ghost var g := Snap();
      OpenedFacts(env, before, g, P, t, f, a, fr, reg, test);
      p_f, p_t := NO_JUMP, NO_JUMP;
      var fj := NO_JUMP;
      if !test {
        fj :- Jump();
      }
      ghost var g1 := Snap();
      OpenedJumped(env, before, g, P, t, f, a, fr, reg, test, g1, fj);
      p_f :- CodeLoadBool(reg, false, true);
      p_t :- CodeLoadBool(reg, true, false);
      ghost var g2 := Snap();
      LoadsLists(env, g1, g2, P + Jumps(g.code, t) + Jumps(g.code, f), reg, fj);
      :- PatchToHere(fj);
      LoadsOpened(env, before, g, P, t, f, a, fr, reg, test, g1, fj, g2, Snap());
      return Ok, p_f, p_t;
    }

    method CodeLoadBool(reg: nat, b: bool, skip: bool) returns (r: Status, pc: int)
      requires IsList(code, jpc)
      requires Frame() && reg < maxstacksize
      modifies this`code, this`jpc, this`lasttarget
      ensures r.Ok? ==> Frame()
      ensures r.Ok? && old(jpc) == NO_JUMP ==>
                pc == old(|code|) && code == old(code) + [LoadBool(reg, b, skip)] && jpc == NO_JUMP && lasttarget == pc
      ensures r.Ok? ==> IsList(code, jpc)
      ensures r.SyntaxError? ==> TooBig(Snap())
    {
      pc := 0;
      var here := GetLabel();
      pc :- Emit(LoadBool(reg, b, skip));
      NoList(code);
      return Ok, pc;
    }

    method PatchLists(t: int, f: int, final: nat, reg: nat, p_f: int, p_t: int,
                      ghost before: Prog, ghost P: set<int>, ghost a: Expr, ghost fr: nat) returns (r: Status)
      requires Opened(env, before, Snap(), P, t, f, a, fr, reg, false) && final == |code| && lasttarget == |code|
      requires Patchable(Snap(), Jumps(code, t), p_t, reg, true) && Patchable(Snap(), Jumps(code, f), p_f, reg, false)
      requires -1 <= p_f < |code| && -1 <= p_t < |code|
      requires Frame() && reg < maxstacksize
      modifies this`code
      ensures r.Ok? ==> Frame()
      ensures r.Ok? ==> GenOK(env, Snap(), P) && InReg(env, before, Snap(), P, a, fr, reg) && Framed(old(Snap()), Snap(), P)
      ensures r.SyntaxError? ==> TooBig(Snap())
    {
      hide GenOK, Framed, Jumps, IsList, Opened, Ready, InReg, Patchable;
      ghost var g := Snap();
      OpenedFacts(env, before, g, P, t, f, a, fr, reg, false);
      :- PatchListAux(f, final, reg, p_f);
      ghost var g1 := Snap();
      PatchedFalse(env, before, g, P, t, f, a, fr, reg, p_f, p_t, g1);
      :- PatchListAux(t, final, reg, p_t);
      PatchedTrue(env, before, g, P, t, f, a, fr, reg, p_t, g1, Snap());
      return Ok;
    }

    // ----- any register, constants ------------------------------------------------------------------------

    /** `luaK_exp2nextreg`: the final value goes to the next free register. */
    method Exp2NextReg(e: ExpDesc, ghost before: Prog, ghost P: set<int>, ghost a: Expr, ghost fr: nat)
      returns (r: Status, e': ExpDesc)
      requires ExpOK(env, Snap(), P, e) && Means(env, before, Snap(), P, e, a, fr)
      requires RegsOK(fr, Snap(), e) && nactvar <= fr && Frame()
      modifies this`code, this`jpc, this`k, this`cache, this`lasttarget, this`freereg, this`maxstacksize
      ensures (r.Ok? ==> Frame() && fr < maxstacksize) && maxstacksize >= old(maxstacksize)
      ensures r.Ok? ==> ExpOK(env, Snap(), P, e') && Means(env, before, Snap(), P, e', a, fr) && Framed(old(Snap()), Snap(), P)
      ensures r.Ok? ==> e' == ExpDesc(VNonReloc(fr), NO_JUMP, NO_JUMP) && freereg == fr + 1
      ensures r.SyntaxError? ==> TooBig(Snap())
    {
      hide GenOK, ExpOK, Means, Framed, Jumps, IsList, InReg;
      ghost var g := Snap();
      e' := e;
      var e1 :- DischargeVars(e, before, P, a, fr);
      ghost var g1 := Snap();
      ExpBound(env, g1, P, e1);
      KindKnown(env, g1, P, e1);
      FreeExp(e1);
      :- ReserveRegs(1);
      ghost var g2 := Snap();
      FreeregMeans(env, before, g1, P, e1, a, fr, g2);
      FramedRefl(g1, g2, P);
      FramedTrans(g, g1, g2, P);
      e' :- Exp2Reg(e1, freereg - 1, before, P, a, fr);
      InRegMeans(env, before, Snap(), P, a, fr, fr);
      FramedTrans(g, g2, Snap(), P);
      return Ok, e';
    }

    /** `luaK_exp2anyreg`: the final value goes to some register. */
    method Exp2AnyReg(e: ExpDesc, ghost before: Prog, ghost P: set<int>, ghost a: Expr, ghost fr: nat)
      returns (r: Status, reg: nat, e': ExpDesc)
      requires ExpOK(env, Snap(), P, e) && Means(env, before, Snap(), P, e, a, fr)
      requires RegsOK(fr, Snap(), e) && nactvar <= fr && Frame()
      modifies this`code, this`jpc, this`k, this`cache, this`lasttarget, this`freereg, this`maxstacksize
      ensures (r.Ok? ==> Frame() && reg < maxstacksize) && maxstacksize >= old(maxstacksize)
      ensures r.Ok? ==> ExpOK(env, Snap(), P, e') && Means(env, before, Snap(), P, e', a, fr) && Framed(old(Snap()), Snap(), P)
      ensures r.Ok? ==> e' == ExpDesc(VNonReloc(reg), NO_JUMP, NO_JUMP) && RegsOK(fr, Snap(), e')
      ensures r.Ok? && e.k.VNonReloc? && e.t == NO_JUMP && e.f == NO_JUMP ==> Snap() == old(Snap()) && e' == e
      ensures r.SyntaxError? ==> TooBig(Snap())
    {
      hide GenOK, ExpOK, Means, Framed, Jumps, IsList, InReg;
      ghost var g := Snap();
      e', reg := e, 0;
      var e1 :- DischargeVars(e, before, P, a, fr);
      ghost var g1 := Snap();
      KindKnown(env, g1, P, e1);
      if e1.k.VNonReloc? {
        if e1.t == e1.f {
          SameListsEmpty(env, g1, P, e1);
          return Ok, e1.k.info, e1;
        }
        if e1.k.info >= nactvar {
          e' :- Exp2Reg(e1, e1.k.info, before, P, a, fr);
          InRegMeans(env, before, Snap(), P, a, fr, e1.k.info);
          FramedTrans(g, g1, Snap(), P);
          return Ok, e'.k.info, e';
        }
      }
      e' :- Exp2NextReg(e1, before, P, a, fr);
      FramedTrans(g, g1, Snap(), P);
      return Ok, e'.k.info, e';
    }

    /** `luaK_exp2val`: the value is in a register or is a constant. */
    method Exp2Val(e: ExpDesc, ghost before: Prog, ghost P: set<int>, ghost a: Expr, ghost fr: nat)
      returns (r: Status, e': ExpDesc)
      requires ExpOK(env, Snap(), P, e) && Means(env, before, Snap(), P, e, a, fr)
      requires RegsOK(fr, Snap(), e) && nactvar <= fr && Frame()
      modifies this`code, this`jpc, this`k, this`cache, this`lasttarget, this`freereg, this`maxstacksize
      ensures (r.Ok? ==> Frame()) && maxstacksize >= old(maxstacksize)
      ensures r.Ok? ==> ExpOK(env, Snap(), P, e') && Means(env, before, Snap(), P, e', a, fr) && Framed(old(Snap()), Snap(), P)
      ensures r.Ok? ==> RegsOK(fr, Snap(), e') && e'.t == NO_JUMP && e'.f == NO_JUMP
      ensures r.Ok? && RKForm(e) ==> Snap() == old(Snap()) && e' == e
      ensures r.SyntaxError? ==> TooBig(Snap())
    {
      hide GenOK, ExpOK, Means, Framed, Jumps, IsList;
      e' := e;
      if e.t != e.f {
        var reg;
        reg, e' :- Exp2AnyReg(e, before, P, a, fr);
      } else {
        SameListsEmpty(env, Snap(), P, e);
        e' :- DischargeVars(e, before, P, a, fr);
      }
      return Ok, e';
    }

    /** The index of a constant for a descriptor, if it is one. */
    method ConstantFor(e: ExpDesc) returns (c: bool, i: nat)
      requires KindOK(Snap(), e.k)
      modifies this`k, this`cache
      ensures ConstPrefix(old(k), k)
      ensures c <==> e.k.VTrue? || e.k.VFalse? || e.k.VNil? || e.k.VKInt? || e.k.VKFlt? || e.k.VK?
      ensures c ==> i < |k| && forall R :: ValueOf(env, old(Snap()), e, R) == k[i]
      ensures !c ==> k == old(k)
      ensures e.k.VK? ==> k == old(k) && i == e.k.info
    {
      c, i := true, 0;
      match e.k {
      case VTrue => i := AddK(Bool(true));
      case VFalse => i := AddK(Bool(false));
      case VNil => i := AddK(Nil);
      case VKInt(n) => i := AddK(Int(n));
      case VKFlt(n) => i := AddK(Flt(n));
      case VK(info) => i := info;
      case _ => c := false;
      }
    }

    /** `luaK_exp2RK`: the value is in a register or a constant of small index. */
    method Exp2RK(e: ExpDesc, ghost before: Prog, ghost P: set<int>, ghost a: Expr, ghost fr: nat)
      returns (r: Status, rk: nat, e': ExpDesc)
      requires ExpOK(env, Snap(), P, e) && Means(env, before, Snap(), P, e, a, fr)
      requires RegsOK(fr, Snap(), e) && nactvar <= fr && Frame()
      modifies this`code, this`jpc, this`k, this`cache, this`lasttarget, this`freereg, this`maxstacksize
      ensures (r.Ok? ==> Frame() && RKFits(rk, maxstacksize)) && maxstacksize >= old(maxstacksize)
      ensures r.Ok? ==> ExpOK(env, Snap(), P, e') && Operand(env, before, Snap(), P, rk, a, fr) && Framed(old(Snap()), Snap(), P)
      ensures r.Ok? ==> RegsOK(fr, Snap(), e') && RKForm(e') && rk == RKIndex(e')
      ensures r.Ok? && RKForm(e) ==> Snap() == old(Snap()) && e' == e
      ensures r.SyntaxError? ==> TooBig(Snap())
    {
      hide GenOK, ExpOK, Means, Framed, Jumps, IsList, Operand;
      ghost var g := Snap();
      e', rk := e, 0;
      var e1 :- Exp2Val(e, before, P, a, fr);
      ghost var g1 := Snap();
      KindKnown(env, g1, P, e1);
      var c, i := ConstantFor(e1);
      if c {
        ghost var g2 := Snap();
        ConstRekind(env, before, g1, P, e1, a, fr, g2, i);
        e1 := ExpDesc(VK(i), NO_JUMP, NO_JUMP);
        FramedTrans(g, g1, g2, P);
        if i <= MAXINDEXRK {
          RKOperand(env, before, g2, P, e1, a, fr);
          return Ok, BITRK + i, e1;
        }
      }
      ghost var g2 := Snap();
      rk, e' :- Exp2AnyReg(e1, before, P, a, fr);
      FramedTrans(g, g2, Snap(), P);
      RKOperand(env, before, Snap(), P, e', a, fr);
      return Ok, rk, e';
    }

    // ----- conditions ------------------------------------------------------------------------------------------

    /** `discharge2anyreg`. */
    method Discharge2AnyReg(e: ExpDesc, ghost before: Prog, ghost P: set<int>, ghost a: Expr, ghost fr: nat)
      returns (r: Status, e': ExpDesc)
      requires ExpOK(env, Snap(), P, e) && Means(env, before, Snap(), P, e, a, fr) && !e.k.VJmp?
      requires RegsOK(fr, Snap(), e) && nactvar <= fr && Frame()
      modifies this`code, this`jpc, this`k, this`cache, this`freereg, this`maxstacksize
      ensures (r.Ok? ==> Frame()) && maxstacksize >= old(maxstacksize)
      ensures r.Ok? ==> ExpOK(env, Snap(), P, e') && Means(env, before, Snap(), P, e', a, fr) && SameLists(old(Snap()), e, Snap(), e')
      ensures r.Ok? ==> e'.k.VNonReloc? && RegsOK(fr, Snap(), e') && Framed(old(Snap()), Snap(), P + TList(old(Snap()), e) + FList(old(Snap()), e))
      ensures r.SyntaxError? ==> TooBig(Snap())
    {
      hide GenOK, ExpOK, Means, Framed, Jumps, IsList;
      ghost var g := Snap();
      e' := e;
      if e.k.VNonReloc? {
        FramedRefl(g, g, P + TList(g, e) + FList(g, e));
        return Ok, e;
      }
      KindKnown(env, g, P, e);
      :- ReserveRegs(1);
      ghost var g1 := Snap();
      FreeregMeans(env, before, g, P, e, a, fr, g1);
      e' :- Discharge2Reg(e, freereg - 1, before, P, a, fr);
      DischargedAny(env, before, g, g1, P, e, a, fr, Snap());
      return Ok, e';
    }

    /** `jumponcond`: jump if the value is `cond`. */
    method JumpOnCond(e: ExpDesc, cond: bool, ghost before: Prog, ghost P: set<int>, ghost a: Expr, ghost fr: nat)
      returns (r: Status, pc: int)
      requires ExpOK(env, Snap(), P, e) && Means(env, before, Snap(), P, e, a, fr) && !e.k.VJmp?
      requires RegsOK(fr, Snap(), e) && nactvar <= fr && Frame()
      modifies this`code, this`jpc, this`k, this`cache, this`freereg, this`maxstacksize
      ensures (r.Ok? ==> Frame()) && maxstacksize >= old(maxstacksize)
      ensures r.Ok? ==> Tested(env, before, old(Snap()), P, e, a, fr, Snap(), pc, cond) && freereg == fr
      ensures r.SyntaxError? ==> TooBig(Snap())
    {
      hide GenOK, ExpOK, Means, Framed, Jumps, Tested, Frame;
      ghost var g := Snap();
      pc := NO_JUMP;
      KindKnown(env, g, P, e);
      if e.k.VReloc? {
        if code[e.k.pc].Not? {
          pc :- JumpOnNot(e, cond, before, P, a, fr);
          return Ok, pc;
        }
      }
      pc :- JumpOnValue(e, cond, before, P, a, fr);
      return Ok, pc;
    }

    method JumpOnValue(e: ExpDesc, cond: bool, ghost before: Prog, ghost P: set<int>, ghost a: Expr, ghost fr: nat)
      returns (r: Status, pc: int)
      requires ExpOK(env, Snap(), P, e) && Means(env, before, Snap(), P, e, a, fr) && !e.k.VJmp?
      requires RegsOK(fr, Snap(), e) && nactvar <= fr && Frame()
      modifies this`code, this`jpc, this`k, this`cache, this`freereg, this`maxstacksize
      ensures (r.Ok? ==> Frame()) && maxstacksize >= old(maxstacksize)
      ensures r.Ok? ==> Tested(env, before, old(Snap()), P, e, a, fr, Snap(), pc, cond) && freereg == fr
      ensures r.SyntaxError? ==> TooBig(Snap())
    {
      hide GenOK, ExpOK, Means, Framed, Jumps, Tested, Frame;
      ghost var g := Snap();
      pc := NO_JUMP;
      ExpFacts(env, g, P, e);
      var e1 :- Discharge2AnyReg(e, before, P, a, fr);
      ghost var g1 := Snap();
      ExpFacts(env, g1, P, e1);
      InFrame();
      FreeExp(e1);
      pc :- CondJump(TestSet(NO_REG, e1.k.info, cond));
      ValueTested(env, before, g, P, e, a, fr, g1, e1, Snap(), pc, cond);
      return Ok, pc;
    }

    /** A value that is a negation: the operand is tested in its place. */
    method JumpOnNot(e: ExpDesc, cond: bool, ghost before: Prog, ghost P: set<int>, ghost a: Expr, ghost fr: nat)
      returns (r: Status, pc: int)
      requires ExpOK(env, Snap(), P, e) && Means(env, before, Snap(), P, e, a, fr) && KindOK(Snap(), e.k)
      requires e.k.VReloc? && code[e.k.pc].Not? && RegsOK(fr, Snap(), e) && nactvar <= fr && Frame()
      modifies this`code, this`jpc
      ensures r.Ok? ==> Frame()
      ensures r.Ok? ==> Tested(env, before, old(Snap()), P, e, a, fr, Snap(), pc, cond) && freereg == fr
      ensures r.SyntaxError? ==> TooBig(Snap())
    {
      hide GenOK, ExpOK, Means, Framed, Jumps, Tested;
      ghost var g := Snap();
      pc := NO_JUMP;
      ExpFacts(env, g, P, e);
      var ie := code[e.k.pc];
      assert Fits(ie, maxstacksize);
      code := code[..|code| - 1];
      NoList(code);
      pc :- CondJump(Test(ie.b, !cond));
      NotTested(env, before, g, P, e, a, fr, Snap(), pc, cond);
      return Ok, pc;
    }

    /** The jump taken when the value is `cond`: none if the value is known to be the opposite. */
    method TestFor(e: ExpDesc, cond: bool, ghost before: Prog, ghost P: set<int>, ghost a: Expr, ghost fr: nat)
      returns (r: Status, pc: int)
      requires ExpOK(env, Snap(), P, e) && Means(env, before, Snap(), P, e, a, fr)
      requires RegsOK(fr, Snap(), e) && nactvar <= fr && Frame()
      requires e.k.VK? && e.k.info < |k| ==> Truthy(k[e.k.info])
      modifies this`code, this`jpc, this`k, this`cache, this`freereg, this`maxstacksize
      ensures (r.Ok? ==> Frame()) && maxstacksize >= old(maxstacksize)
      ensures r.Ok? ==> Tested(env, before, old(Snap()), P, e, a, fr, Snap(), pc, cond) && freereg == fr
      ensures r.SyntaxError? ==> TooBig(Snap())
    {
      hide GenOK, ExpOK, Means, Framed, Jumps, IsList, Tested;
      ghost var g := Snap();
      pc := NO_JUMP;
      KindKnown(env, g, P, e);
      match e.k {
      case VJmp(j) =>
        if !cond {
          code := code[j - 1 := Negated(code[j - 1])];
        }
        pc := j;
        JumpTested(env, before, g, P, e, a, fr, Snap(), cond);
      case VK(_) =>
        if cond { pc :- JumpOnCond(e, cond, before, P, a, fr); } else { KnownTested(env, before, g, P, e, a, fr, cond); }
      case VKFlt(_) =>
        if cond { pc :- JumpOnCond(e, cond, before, P, a, fr); } else { KnownTested(env, before, g, P, e, a, fr, cond); }
      case VKInt(_) =>
        if cond { pc :- JumpOnCond(e, cond, before, P, a, fr); } else { KnownTested(env, before, g, P, e, a, fr, cond); }
      case VTrue =>
        if cond { pc :- JumpOnCond(e, cond, before, P, a, fr); } else { KnownTested(env, before, g, P, e, a, fr, cond); }
      case VNil =>
        if !cond { pc :- JumpOnCond(e, cond, before, P, a, fr); } else { KnownTested(env, before, g, P, e, a, fr, cond); }
      case VFalse =>
        if !cond { pc :- JumpOnCond(e, cond, before, P, a, fr); } else { KnownTested(env, before, g, P, e, a, fr, cond); }
      case _ =>
        pc :- JumpOnCond(e, cond, before, P, a, fr);
      }
      return Ok, pc;
    }

    /** `luaK_goiftrue`: fall through if true, else jump along the false list. */
    method GoIfTrue(e: ExpDesc, ghost before: Prog, ghost P: set<int>, ghost a: Expr, ghost fr: nat)
      returns (r: Status, e': ExpDesc)
      requires ExpOK(env, Snap(), P, e) && Means(env, before, Snap(), P, e, a, fr)
      requires RegsOK(fr, Snap(), e) && nactvar <= fr && Frame()
      requires e.k.VK? && e.k.info < |k| ==> Truthy(k[e.k.info])
      modifies this`code, this`jpc, this`k, this`cache, this`lasttarget, this`freereg, this`maxstacksize
      ensures (r.Ok? ==> Frame()) && maxstacksize >= old(maxstacksize)
      ensures r.Ok? ==> e'.t == NO_JUMP && Branched(env, before, Snap(), P, e'.f, a, fr, true) && Framed(old(Snap()), Snap(), P)
      ensures r.Ok? ==> freereg == fr
      ensures r.SyntaxError? ==> TooBig(Snap())
    {
      hide GenOK, ExpOK, Means, Framed, Jumps, IsList, Tested, Branched;
      ghost var g := Snap();
      e' := e;
      var e1 :- DischargeVars(e, before, P, a, fr);
      ghost var g1 := Snap();
      KindKnown(env, g1, P, e1);
      var pc :- TestFor(e1, false, before, P, a, fr);
      ghost var g2 := Snap();
      TestedFacts(env, before, g1, P, e1, a, fr, g2, pc, false);
      var f :- Concat(e1.f, pc);
      ghost var g3 := Snap();
      TestedJoined(env, before, g1, P, e1, a, fr, g2, pc, false, g3, f);
      :- PatchToHere(e1.t);
      TestedBranched(env, before, g1, P, e1, a, fr, g3, f, false, Snap());
      FramedTrans(g, g1, g3, P);
      FramedTrans(g, g3, Snap(), P);
      return Ok, ExpDesc(e1.k, NO_JUMP, f);
    }

    /** `luaK_goiffalse`: fall through if false, else jump along the true list. */
    method GoIfFalse(e: ExpDesc, ghost before: Prog, ghost P: set<int>, ghost a: Expr, ghost fr: nat)
      returns (r: Status, e': ExpDesc)
      requires ExpOK(env, Snap(), P, e) && Means(env, before, Snap(), P, e, a, fr)
      requires RegsOK(fr, Snap(), e) && nactvar <= fr && Frame()
      requires e.k.VK? && e.k.info < |k| ==> Truthy(k[e.k.info])
      modifies this`code, this`jpc, this`k, this`cache, this`lasttarget, this`freereg, this`maxstacksize
      ensures (r.Ok? ==> Frame()) && maxstacksize >= old(maxstacksize)
      ensures r.Ok? ==> e'.f == NO_JUMP && Branched(env, before, Snap(), P, e'.t, a, fr, false) && Framed(old(Snap()), Snap(), P)
      ensures r.Ok? ==> freereg == fr
      ensures r.SyntaxError? ==> TooBig(Snap())
    {
      hide GenOK, ExpOK, Means, Framed, Jumps, IsList, Tested, Branched;
      ghost var g := Snap();
      e' := e;
      var e1 :- DischargeVars(e, before, P, a, fr);
      ghost var g1 := Snap();
      KindKnown(env, g1, P, e1);
      var pc :- TestFor(e1, true, before, P, a, fr);
      ghost var g2 := Snap();
      TestedFacts(env, before, g1, P, e1, a, fr, g2, pc, true);
      var t :- Concat(e1.t, pc);
      ghost var g3 := Snap();
      TestedJoined(env, before, g1, P, e1, a, fr, g2, pc, true, g3, t);
      :- PatchToHere(e1.f);
      TestedBranched(env, before, g1, P, e1, a, fr, g3, t, true, Snap());
      FramedTrans(g, g1, g3, P);
      FramedTrans(g, g3, Snap(), P);
      return Ok, ExpDesc(e1.k, t, NO_JUMP);
    }

    // ----- operators ----------------------------------------------------------------------------------------------

    /** `codenot`. */
    method CodeNot(e: ExpDesc, ghost before: Prog, ghost P: set<int>, ghost a: Expr, ghost fr: nat)
      returns (r: Status, e': ExpDesc)
      requires ExpOK(env, Snap(), P, e) && Means(env, before, Snap(), P, e, a, fr)
      requires RegsOK(fr, Snap(), e) && nactvar <= fr && Frame()
      requires e.k.VK? && e.k.info < |k| ==> Truthy(k[e.k.info])
      modifies this`code, this`jpc, this`k, this`cache, this`freereg, this`maxstacksize
      ensures (r.Ok? ==> Frame()) && maxstacksize >= old(maxstacksize)
      ensures r.Ok? ==> ExpOK(env, Snap(), P, e') && Means(env, before, Snap(), P, e', ENot(a), fr) && Framed(old(Snap()), Snap(), P)
      ensures r.Ok? ==> RegsOK(fr, Snap(), e') && !e'.k.VK?
      ensures r.SyntaxError? ==> TooBig(Snap())
    {
      hide GenOK, ExpOK, Means, Framed, Jumps, IsList, Negates;
      ghost var g := Snap();
      e' := e;
      var e1 :- DischargeVars(e, before, P, a, fr);
      ghost var g1 := Snap();
      KindKnown(env, g1, P, e1);
      var e2, m, em :- NegateValue(e1, before, P, a, fr);
      ghost var g2 := Snap();
      NegatesFacts(env, before, m, P, em, a, fr, g2, e2);
      e' := ExpDesc(e2.k, e2.f, e2.t);
      RemoveValues(e'.f);
      ghost var g3 := Snap();
      UnvaluedList(g2, g3, e2.t, e2.f);
      RemoveValues(e'.t);
      UnvaluedTwice(g2, g3, Snap(), e2.t, e2.f);
      NegatedMeans(env, before, m, P, em, a, fr, g2, e2, Snap());
      FramedTrans(g, g1, m, P);
      FramedTrans(g, m, Snap(), P);
      return Ok, e';
    }

    /** The part of `codenot` that depends on the kind; the lists are exchanged afterwards. */
    method NegateValue(e: ExpDesc, ghost before: Prog, ghost P: set<int>, ghost a: Expr, ghost fr: nat)
      returns (r: Status, e': ExpDesc, ghost m: Gen, ghost em: ExpDesc)
      requires ExpOK(env, Snap(), P, e) && Means(env, before, Snap(), P, e, a, fr) && !e.k.VLocal? && !e.k.VUpval?
      requires RegsOK(fr, Snap(), e) && nactvar <= fr && Frame()
      requires e.k.VK? && e.k.info < |k| ==> Truthy(k[e.k.info])
      modifies this`code, this`jpc, this`k, this`cache, this`freereg, this`maxstacksize
      ensures (r.Ok? ==> Frame()) && maxstacksize >= old(maxstacksize)
      ensures r.Ok? ==> Negates(env, before, m, P, em, a, fr, Snap(), e') && Framed(old(Snap()), m, P)
      ensures r.Ok? ==> RegsOK(fr, Snap(), e') && !e'.k.VK?
      ensures r.SyntaxError? ==> TooBig(Snap())
    {
      hide GenOK, ExpOK, Means, Framed, Jumps, IsList, Negates;
      ghost var g := Snap();
      e', m, em := e, g, e;
      FramedRefl(g, g, P);
      KindKnown(env, g, P, e);
      match e.k {
      case VJmp(pc) =>
        code := code[pc - 1 := Negated(code[pc - 1])];
        NegatesJump(env, before, g, P, e, a, fr, Snap());
      case VReloc(_) =>
        e', m, em :- EmitNot(e, before, P, a, fr);
      case VNonReloc(_) =>
        e', m, em :- EmitNot(e, before, P, a, fr);
      case _ =>
        e' := e.(k := if e.k.VNil? || e.k.VFalse? then VTrue else VFalse);
        NegatesConst(env, before, g, P, e, a, fr, e');
      }
      return Ok, e', m, em;
    }

    method EmitNot(e: ExpDesc, ghost before: Prog, ghost P: set<int>, ghost a: Expr, ghost fr: nat)
      returns (r: Status, e': ExpDesc, ghost m: Gen, ghost em: ExpDesc)
      requires ExpOK(env, Snap(), P, e) && Means(env, before, Snap(), P, e, a, fr) && !e.k.VJmp?
      requires RegsOK(fr, Snap(), e) && nactvar <= fr && Frame()
      modifies this`code, this`jpc, this`k, this`cache, this`freereg, this`maxstacksize
      ensures (r.Ok? ==> Frame()) && maxstacksize >= old(maxstacksize)
      ensures r.Ok? ==> Negates(env, before, m, P, em, a, fr, Snap(), e') && Framed(old(Snap()), m, P)
      ensures r.Ok? ==> RegsOK(fr, Snap(), e') && e'.k.VReloc?
      ensures r.SyntaxError? ==> TooBig(Snap())
    {
      hide GenOK, ExpOK, Means, Framed, Jumps, IsList, Negates;
      ghost var g := Snap();
      e', m, em := e, g, e;
      var e1 :- Discharge2AnyReg(e, before, P, a, fr);
      m, em := Snap(), e1;
      FramedLess(g, m, P + TList(g, e) + FList(g, e), P);
      ExpFacts(env, m, P, e1);
      FreeExp(e1);
      var pc :- Emit(Not(0, e1.k.info));
      e' := ExpDesc(VReloc(pc), e1.t, e1.f);
      NegatesReg(env, before, P, a, fr, m, e1, Snap());
      return Ok, e', m, em;
    }

    /** `codeunexpval`: unary operators other than `not`. */
    method CodeUnary(op: UnaryOp, e: ExpDesc, ghost before: Prog, ghost P: set<int>, ghost a: Expr, ghost fr: nat)
      returns (r: Status, e': ExpDesc)
      requires ExpOK(env, Snap(), P, e) && Means(env, before, Snap(), P, e, a, fr)
      requires RegsOK(fr, Snap(), e) && nactvar <= fr && Frame()
      modifies this`code, this`jpc, this`k, this`cache, this`lasttarget, this`freereg, this`maxstacksize
      ensures (r.Ok? ==> Frame()) && maxstacksize >= old(maxstacksize)
      ensures r.Ok? ==> ExpOK(env, Snap(), P, e') && Means(env, before, Snap(), P, e', EUnary(op, a), fr)
      ensures r.Ok? ==> Framed(old(Snap()), Snap(), P) && RegsOK(fr, Snap(), e') && !e'.k.VK?
      ensures r.SyntaxError? ==> TooBig(Snap())
    {
      hide GenOK, ExpOK, Means, Framed, Jumps, IsList, Operand;
      ghost var g := Snap();
      e' := e;
      var reg;
      reg, e' :- Exp2AnyReg(e, before, P, a, fr);
      ghost var g1 := Snap();
      RKOperand(env, before, g1, P, e', a, fr);
      ExpFacts(env, g1, P, e');
      KindKnown(env, g1, P, e');
      FreeExp(e');
      var pc :- Emit(Unary(op, 0, reg));
      UnaryEmitted(env, before, g1, P, e', reg, a, fr, op, Snap());
      FramedTrans(g, g1, Snap(), P);
      return Ok, ExpDesc(VReloc(pc), NO_JUMP, NO_JUMP);
    }

    /** `luaK_prefix`. */
    method Prefix(op: UnOpr, e: ExpDesc, ghost before: Prog, ghost P: set<int>, ghost a: Expr, ghost fr: nat)
      returns (r: Status, e': ExpDesc)
      requires ExpOK(env, Snap(), P, e) && Means(env, before, Snap(), P, e, a, fr) && FoldOK(env)
      requires RegsOK(fr, Snap(), e) && nactvar <= fr && Frame()
      requires e.k.VK? && e.k.info < |k| ==> Truthy(k[e.k.info])
      modifies this`code, this`jpc, this`k, this`cache, this`lasttarget, this`freereg, this`maxstacksize
      ensures (r.Ok? ==> Frame()) && maxstacksize >= old(maxstacksize)
      ensures r.Ok? ==> ExpOK(env, Snap(), P, e') && Means(env, before, Snap(), P, e', UnaryExpr(op, a), fr)
      ensures r.Ok? ==> Framed(old(Snap()), Snap(), P) && RegsOK(fr, Snap(), e') && !e'.k.VK?
      ensures r.SyntaxError? ==> TooBig(Snap())
    {
      hide GenOK, ExpOK, Means, Framed, Jumps, IsList, Operand;
      ghost var g := Snap();
      e' := e;
      if op.OprNot? {
        e' :- CodeNot(e, before, P, a, fr);
        return Ok, e';
      }
      if !op.op.Len? && IsNumeral(e) {
        var v := env.foldUnary(op.op, NumeralValue(e));
        if v.Some? {
          e' := ExpDesc(NumeralKind(v.value), NO_JUMP, NO_JUMP);
          FoldedUnary(env, before, g, P, e, a, fr, op.op, e');
          return Ok, e';
        }
      }
      e' :- CodeUnary(op.op, e, before, P, a, fr);
      return Ok, e';
    }

    /** `luaK_infix`: process the first operand before the second is read. */
    method Infix(op: BinOpr, e: ExpDesc, ghost before: Prog, ghost P: set<int>, ghost a: Expr, ghost fr: nat)
      returns (r: Status, e': ExpDesc)
      requires ExpOK(env, Snap(), P, e) && Means(env, before, Snap(), P, e, a, fr)
      requires RegsOK(fr, Snap(), e) && nactvar <= fr && Frame()
      requires e.k.VK? && e.k.info < |k| ==> Truthy(k[e.k.info])
      modifies this`code, this`jpc, this`k, this`cache, this`lasttarget, this`freereg, this`maxstacksize
      ensures (r.Ok? ==> Frame()) && maxstacksize >= old(maxstacksize)
      ensures r.Ok? ==> InfixDone(env, before, Snap(), P, op, e', a, fr) && Framed(old(Snap()), Snap(), P)
      ensures r.SyntaxError? ==> TooBig(Snap())
    {
      hide GenOK, ExpOK, Means, Framed, Jumps, IsList, Operand, Branched;
      ghost var g := Snap();
      e' := e;
      match op {
      case OprAnd =>
        e' :- GoIfTrue(e, before, P, a, fr);
      case OprOr =>
        e' :- GoIfFalse(e, before, P, a, fr);
      case OprCompare(_) =>
        var rk;
        rk, e' :- Exp2RK(e, before, P, a, fr);
      case OprArith(_) =>
        if IsNumeral(e) {
          FramedRefl(g, g, P);
        } else {
          var rk;
          rk, e' :- Exp2RK(e, before, P, a, fr);
        }
      }
      return Ok, e';
    }

    method FreeExps(e1: ExpDesc, e2: ExpDesc, ghost fr: nat)
      requires TwoRegs(fr, Snap(), e1, e2) && freereg < BITRK
      requires Frame()
      modifies this`freereg
      ensures Frame()
      ensures freereg == fr
    {
      var r1 := if e1.k.VNonReloc? then e1.k.info as int else -1;
      var r2 := if e2.k.VNonReloc? then e2.k.info as int else -1;
      if r1 > r2 {
        FreeExp(e1);
        FreeExp(e2);
      } else {
        FreeExp(e2);
        FreeExp(e1);
      }
    }

    /** `luaK_posfix`: finish a binary operation after its second operand was read. `g1` is the state
        in which the first operand was finished. */
    method Posfix(op: BinOpr, e1: ExpDesc, e2: ExpDesc, ghost g1: Gen, ghost before: Prog, ghost P: set<int>,
                  ghost a1: Expr, ghost a2: Expr, ghost fr: nat) returns (r: Status, e': ExpDesc)
      requires Second(env, before, g1, P, op, e1, a1, fr, Snap(), e2, a2) && FoldOK(env)
      requires nactvar <= fr && Frame() && (e2.k.VK? && e2.k.info < |k| ==> Truthy(k[e2.k.info]))
      modifies this`code, this`jpc, this`k, this`cache, this`lasttarget, this`freereg, this`maxstacksize
      ensures (r.Ok? ==> Frame()) && maxstacksize >= old(maxstacksize)
      ensures r.Ok? ==> ExpOK(env, Snap(), P, e') && Means(env, before, Snap(), P, e', BinaryExpr(op, a1, a2), fr)
      ensures r.Ok? ==> Framed(g1, Snap(), P) && RegsOK(fr, Snap(), e') && (e'.k.VK? && e'.k.info < |k| ==> Truthy(k[e'.k.info]))
      ensures r.SyntaxError? ==> TooBig(Snap())
    {
      hide Second;
      e' := e2;
      match op {
      case OprAnd => e' :- PosfixAnd(e1, e2, g1, before, P, a1, a2, fr);
      case OprOr => e' :- PosfixOr(e1, e2, g1, before, P, a1, a2, fr);
      case OprCompare(c) => e' :- CodeComp(c, e1, e2, g1, before, P, a1, a2, fr);
      case OprArith(o) => e' :- CodeArith(o, e1, e2, g1, before, P, a1, a2, fr);
      }
      return Ok, e';
    }

    method PosfixAnd(e1: ExpDesc, e2: ExpDesc, ghost g1: Gen, ghost before: Prog, ghost P: set<int>,
                     ghost a1: Expr, ghost a2: Expr, ghost fr: nat) returns (r: Status, e': ExpDesc)
      requires Second(env, before, g1, P, OprAnd, e1, a1, fr, Snap(), e2, a2)
      requires nactvar <= fr && (e2.k.VK? && e2.k.info < |k| ==> Truthy(k[e2.k.info]))
      requires Frame()
      modifies this`code, this`jpc
      ensures r.Ok? ==> Frame()
      ensures r.Ok? ==> ExpOK(env, Snap(), P, e') && Means(env, before, Snap(), P, e', EAnd(a1, a2), fr)
      ensures r.Ok? ==> Framed(g1, Snap(), P) && RegsOK(fr, Snap(), e') && (e'.k.VK? && e'.k.info < |k| ==> Truthy(k[e'.k.info]))
      ensures r.SyntaxError? ==> TooBig(Snap())
    {
      hide Frame, GenOK, ExpOK, Means, Framed, Jumps, IsList, Second, Branched;
      ghost var g := Snap();
      ghost var L := Jumps(g1.code, e1.f);
      e' := e2;
      SecondFacts(env, before, g1, P, OprAnd, e1, a1, fr, g, e2, a2);
      var e :- DischargeVars(e2, Full(env, g1, P + L), P + L, a2, fr);
      ghost var g2 := Snap();
      FramedTrans(g1, g, g2, P + L);
      FramedList(g1, g2, P + L, e1.f) by { BranchedFacts(env, before, g1, P, e1.f, a1, fr, true); }
      ExpFacts(env, g2, P + L, e);
      var f :- Concat(e.f, e1.f);
      e' := ExpDesc(e.k, e.t, f);
      AndJoined(env, before, g1, P, e1.f, a1, fr, g2, e, a2, Snap(), e');
      return Ok, e';
    }

    method PosfixOr(e1: ExpDesc, e2: ExpDesc, ghost g1: Gen, ghost before: Prog, ghost P: set<int>,
                    ghost a1: Expr, ghost a2: Expr, ghost fr: nat) returns (r: Status, e': ExpDesc)
      requires Second(env, before, g1, P, OprOr, e1, a1, fr, Snap(), e2, a2)
      requires nactvar <= fr && (e2.k.VK? && e2.k.info < |k| ==> Truthy(k[e2.k.info]))
      requires Frame()
      modifies this`code, this`jpc
      ensures r.Ok? ==> Frame()
      ensures r.Ok? ==> ExpOK(env, Snap(), P, e') && Means(env, before, Snap(), P, e', EOr(a1, a2), fr)
      ensures r.Ok? ==> Framed(g1, Snap(), P) && RegsOK(fr, Snap(), e') && (e'.k.VK? && e'.k.info < |k| ==> Truthy(k[e'.k.info]))
      ensures r.SyntaxError? ==> TooBig(Snap())
    {
      hide Frame, GenOK, ExpOK, Means, Framed, Jumps, IsList, Second, Branched;
      ghost var g := Snap();
      ghost var L := Jumps(g1.code, e1.t);
      e' := e2;
      SecondFacts(env, before, g1, P, OprOr, e1, a1, fr, g, e2, a2);
      var e :- DischargeVars(e2, Full(env, g1, P + L), P + L, a2, fr);
      ghost var g2 := Snap();
      FramedTrans(g1, g, g2, P + L);
      FramedList(g1, g2, P + L, e1.t) by { BranchedFacts(env, before, g1, P, e1.t, a1, fr, false); }
      ExpFacts(env, g2, P + L, e);
      var t :- Concat(e.t, e1.t);
      e' := ExpDesc(e.k, t, e.f);
      OrJoined(env, before, g1, P, e1.t, a1, fr, g2, e, a2, Snap(), e');
      return Ok, e';
    }

    /** `codecomp`: comparisons. */
    method CodeComp(op: Compare, e1: ExpDesc, e2: ExpDesc, ghost g1: Gen, ghost before: Prog, ghost P: set<int>,
                    ghost a1: Expr, ghost a2: Expr, ghost fr: nat) returns (r: Status, e': ExpDesc)
      requires Second(env, before, g1, P, OprCompare(op), e1, a1, fr, Snap(), e2, a2) && nactvar <= fr && Frame()
      modifies this`code, this`jpc, this`k, this`cache, this`lasttarget, this`freereg, this`maxstacksize
      ensures (r.Ok? ==> Frame()) && maxstacksize >= old(maxstacksize)
      ensures r.Ok? ==> ExpOK(env, Snap(), P, e') && Means(env, before, Snap(), P, e', ECompare(op, a1, a2), fr)
      ensures r.Ok? ==> Framed(g1, Snap(), P) && RegsOK(fr, Snap(), e') && e'.k.VJmp?
      ensures r.SyntaxError? ==> TooBig(Snap())
    {
      hide GenOK, ExpOK, Means, Framed, Jumps, IsList, Second, Operand;
      ghost var g := Snap();
      e' := e2;
      SecondFacts(env, before, g1, P, OprCompare(op), e1, a1, fr, g, e2, a2);
      var rk1 := if e1.k.VK? then BITRK + e1.k.info else e1.k.info;
      var rk2;
      rk2, e' :- Exp2RK(e2, Full(env, g1, P), P, a2, g1.freereg);
      ghost var g2 := Snap();
      FramedTrans(g1, g, g2, P);
      FramedFacts(g1, g2, P);
      BothOperands(env, before, g1, P, e1, a1, fr, g2, rk2, a2);
      GenKnown(env, g2, P, e');
      GenKnown(env, g1, P, e1);
      FreeExps(e1, e', fr);
      e' :- FinishCompare(op, rk1, rk2, g2, before, P, a1, a2, fr);
      FramedTrans(g1, g2, Snap(), P);
      return Ok, e';
    }

    method FinishCompare(op: Compare, rk1: nat, rk2: nat, ghost g: Gen, ghost before: Prog, ghost P: set<int>,
                         ghost a1: Expr, ghost a2: Expr, ghost fr: nat) returns (r: Status, e': ExpDesc)
      requires GenOK(env, g, P) && Operands(env, before, g, P, rk1, a1, rk2, a2, fr)
      requires Snap() == g.(freereg := freereg) && nactvar <= freereg == fr < MAXREGS
      requires Frame() && RKFits(rk1, maxstacksize) && RKFits(rk2, maxstacksize)
      modifies this`code, this`jpc
      ensures r.Ok? ==> Frame()
      ensures r.Ok? ==> ExpOK(env, Snap(), P, e') && Means(env, before, Snap(), P, e', ECompare(op, a1, a2), fr)
      ensures r.Ok? ==> Framed(g, Snap(), P) && e'.k.VJmp?
      ensures r.SyntaxError? ==> TooBig(Snap())
    {
      hide GenOK, ExpOK, Means, Framed, Operand;
      e' := ExpDesc(VNil, NO_JUMP, NO_JUMP);
      GenFacts(env, g, P);
      var pc :- CondJump(CompareInstr(op, rk1, rk2));
      Compared(env, before, P, rk1, a1, rk2, a2, fr, op, g, Snap());
      return Ok, ExpDesc(VJmp(pc), NO_JUMP, NO_JUMP);
    }

    method FinishArith(op: ArithOp, rk1: nat, rk2: nat, ghost g: Gen, ghost before: Prog, ghost P: set<int>,
                       ghost a1: Expr, ghost a2: Expr, ghost fr: nat) returns (r: Status, e': ExpDesc)
      requires GenOK(env, g, P) && Operands(env, before, g, P, rk1, a1, rk2, a2, fr)
      requires Snap() == g.(freereg := freereg) && nactvar <= freereg == fr < MAXREGS
      requires Frame() && RKFits(rk1, maxstacksize) && RKFits(rk2, maxstacksize)
      modifies this`code, this`jpc
      ensures r.Ok? ==> Frame()
      ensures r.Ok? ==> ExpOK(env, Snap(), P, e') && Means(env, before, Snap(), P, e', EArith(op, a1, a2), fr)
      ensures r.Ok? ==> Framed(g, Snap(), P) && e'.k.VReloc?
      ensures r.SyntaxError? ==> TooBig(Snap())
    {
      hide GenOK, ExpOK, Means, Framed, Operand;
      e' := ExpDesc(VNil, NO_JUMP, NO_JUMP);
      GenFacts(env, g, P);
      var pc :- Emit(Instr.Arith(op, 0, rk1, rk2));
      Computed(env, before, P, rk1, a1, rk2, a2, fr, op, g, Snap());
      return Ok, ExpDesc(VReloc(pc), NO_JUMP, NO_JUMP);
    }

    /** Arithmetic: folded, or computed by an instruction (`codebinexpval`). */
    method CodeArith(op: ArithOp, e1: ExpDesc, e2: ExpDesc, ghost g1: Gen, ghost before: Prog, ghost P: set<int>,
                     ghost a1: Expr, ghost a2: Expr, ghost fr: nat) returns (r: Status, e': ExpDesc)
      requires Second(env, before, g1, P, OprArith(op), e1, a1, fr, Snap(), e2, a2) && FoldOK(env)
      requires nactvar <= fr && Frame()
      modifies this`code, this`jpc, this`k, this`cache, this`lasttarget, this`freereg, this`maxstacksize
      ensures (r.Ok? ==> Frame()) && maxstacksize >= old(maxstacksize)
      ensures r.Ok? ==> ExpOK(env, Snap(), P, e') && Means(env, before, Snap(), P, e', EArith(op, a1, a2), fr)
      ensures r.Ok? ==> Framed(g1, Snap(), P) && RegsOK(fr, Snap(), e') && !e'.k.VK?
      ensures r.SyntaxError? ==> TooBig(Snap())
    {
      hide GenOK, ExpOK, Means, Framed, Jumps, IsList, Second, Operand;
      ghost var g := Snap();
      e' := e2;
      SecondFacts(env, before, g1, P, OprArith(op), e1, a1, fr, g, e2, a2);
      if IsNumeral(e1) && IsNumeral(e2) {
        var v := env.fold(op, NumeralValue(e1), NumeralValue(e2));
        if v.Some? {
          e' := ExpDesc(NumeralKind(v.value), NO_JUMP, NO_JUMP);
          FoldedBinary(env, before, g1, P, e1, a1, fr, g, e2, a2, op, e');
          return Ok, e';
        }
      }
      e' :- CodeBinary(op, e1, e2, g1, before, P, a1, a2, fr);
      return Ok, e';
    }

    /** `codebinexpval`. */
    method CodeBinary(op: ArithOp, e1: ExpDesc, e2: ExpDesc, ghost g1: Gen, ghost before: Prog, ghost P: set<int>,
                      ghost a1: Expr, ghost a2: Expr, ghost fr: nat) returns (r: Status, e': ExpDesc)
      requires Second(env, before, g1, P, OprArith(op), e1, a1, fr, Snap(), e2, a2)
      requires nactvar <= fr && Frame()
      modifies this`code, this`jpc, this`k, this`cache, this`lasttarget, this`freereg, this`maxstacksize
      ensures (r.Ok? ==> Frame()) && maxstacksize >= old(maxstacksize)
      ensures r.Ok? ==> ExpOK(env, Snap(), P, e') && Means(env, before, Snap(), P, e', EArith(op, a1, a2), fr)
      ensures r.Ok? ==> Framed(g1, Snap(), P) && RegsOK(fr, Snap(), e') && !e'.k.VK?
      ensures r.SyntaxError? ==> TooBig(Snap())
    {
      hide GenOK, ExpOK, Means, Framed, Jumps, IsList, Second, Operand;
      ghost var g := Snap();
      e' := e2;
      SecondFacts(env, before, g1, P, OprArith(op), e1, a1, fr, g, e2, a2);
      var rk1, rk2, f1, f2;
      rk2, f2 :- Exp2RK(e2, Full(env, g1, P), P, a2, g1.freereg);
      ghost var g2 := Snap();
      FramedTrans(g1, g, g2, P);
      rk1, f1 :- FirstOperand(e1, f2, rk2, g1, before, P, a1, a2, fr);
      ghost var g3 := Snap();
      FramedTrans(g1, g2, g3, P);
      FreeExps(f1, f2, fr);
      e' :- FinishArith(op, rk1, rk2, g3, before, P, a1, a2, fr);
      FramedTrans(g1, g3, Snap(), P);
      return Ok, e';
    }

    /** The first operand of an arithmetic operation: a numeral that was kept is placed only now. */
    method FirstOperand(e1: ExpDesc, f2: ExpDesc, rk2: nat, ghost g1: Gen, ghost before: Prog, ghost P: set<int>,
                        ghost a1: Expr, ghost a2: Expr, ghost fr: nat) returns (r: Status, rk1: nat, f1: ExpDesc)
      requires ExpOK(env, g1, P, e1) && RegsOK(fr, g1, e1) && nactvar <= fr <= g1.freereg && Frame()
      requires if IsNumeral(e1) then Means(env, before, g1, P, e1, a1, fr) else RKForm(e1) && Operand(env, before, g1, P, RKIndex(e1), a1, fr)
      requires ExpOK(env, Snap(), P, f2) && Operand(env, Full(env, g1, P), Snap(), P, rk2, a2, g1.freereg) && Framed(g1, Snap(), P)
      requires RKForm(f2) && rk2 == RKIndex(f2) && RegsOK(g1.freereg, Snap(), f2) && ExprOK(a1, fr) && ExprOK(a2, fr)
      modifies this`code, this`jpc, this`k, this`cache, this`lasttarget, this`freereg, this`maxstacksize
      ensures (r.Ok? ==> Frame() && RKFits(rk1, maxstacksize)) && maxstacksize >= old(maxstacksize)
      ensures r.Ok? ==> GenOK(env, Snap(), P) && Operands(env, before, Snap(), P, rk1, a1, rk2, a2, fr)
      ensures r.Ok? ==> Framed(old(Snap()), Snap(), P) && TwoRegs(fr, Snap(), f1, f2) && freereg < MAXREGS
      ensures r.SyntaxError? ==> TooBig(Snap())
    {
      hide GenOK, ExpOK, Means, Framed, Jumps, IsList, Operand;
      ghost var g2 := Snap();
      FramedFacts(g1, g2, P);
      GenKnown(env, g2, P, f2);
      GenKnown(env, g1, P, e1);
      if IsNumeral(e1) {
        NumeralAgain(env, before, g1, P, e1, a1, fr, g2, rk2, a2);
        rk1, f1 :- Exp2RK(e1, Full(env, g2, P), P, a1, g2.freereg);
        FramedFacts(g2, Snap(), P);
        GenKnown(env, Snap(), P, f1);
        NumeralOperands(env, before, g1, P, e1, a1, fr, g2, f2, rk2, a2, Snap(), f1, rk1);
      } else {
        // already an operand: exp2RK leaves it alone
        rk1, f1 := if e1.k.VK? then BITRK + e1.k.info else e1.k.info, e1;
        BothOperands(env, before, g1, P, e1, a1, fr, g2, rk2, a2);
        FramedRefl(g2, g2, P);
      }
      return Ok, rk1, f1;
    }

    // ----- whole expressions ---------------------------------------------------------------------------------------

    /** `simpleexp` for literals, locals and upvalues. */
    method SimpleExp(a: Expr) returns (e: ExpDesc)
      requires ExprOK(a, nactvar) && IsLeaf(a)
      modifies this`k, this`cache
      ensures ConstPrefix(old(k), k) && e.t == NO_JUMP && e.f == NO_JUMP && InPlace(e.k) && !e.k.VNonReloc? && KindOK(Snap(), e.k)
      ensures forall R :: ValueOf(env, Snap(), e, R) == Eval(env, a, R)
      ensures e.k.VK? && e.k.info < |k| ==> Truthy(k[e.k.info])
    {
      var kind;
      match a {
      case ENil => kind := VNil;
      case ETrue => kind := VTrue;
      case EFalse => kind := VFalse;
      case ELocal(reg) => kind := VLocal(reg);
      case EUpval(u) => kind := VUpval(u);
      case EConst(v) =>
        if v.Int? {
          kind := VKInt(v.n);
        } else if v.Flt? {
          kind := VKFlt(v.bits);
        } else {
          var i := AddK(v);
          kind := VK(i);
        }
      }
      e := ExpDesc(kind, NO_JUMP, NO_JUMP);
    }

    /** `subexpr`: compile an expression; the descriptor stands for it. */
    method Expression(a: Expr, ghost P: set<int>) returns (r: Status, e: ExpDesc)
      requires GenOK(env, Snap(), P) && ExprOK(a, nactvar) && FoldOK(env) && Frame()
      modifies this`code, this`jpc, this`k, this`cache, this`lasttarget, this`freereg, this`maxstacksize
      ensures (r.Ok? ==> Frame()) && maxstacksize >= old(maxstacksize)
      ensures r.Ok? ==> ExpOK(env, Snap(), P, e) && Framed(old(Snap()), Snap(), P)
      ensures r.Ok? ==> Means(env, Full(env, old(Snap()), P), Snap(), P, e, a, old(freereg)) && RegsOK(old(freereg), Snap(), e)
      ensures r.Ok? ==> (e.k.VK? && e.k.info < |k| ==> Truthy(k[e.k.info]))
      decreases a
      ensures r.SyntaxError? ==> TooBig(Snap())
    {
      hide GenOK, ExpOK, Means, Framed, Jumps, IsList, Second, InfixDone, AtIn;
      ghost var g := Snap();
      ghost var before, fr := Full(env, g, P), freereg;
      GenFacts(env, g, P);
      FullAtIn(env, g, P);
      if IsLeaf(a) {
        e := SimpleExp(a);
        LeafDone(env, g, P, a, Snap(), e);
        return Ok, e;
      }
      e := ExpDesc(VNil, NO_JUMP, NO_JUMP);
      if a.ENot? || a.EUnary? {
        var op := if a.ENot? then OprNot else OprUnary(a.uop);
        var e1 :- Expression(a.e, P);
        ghost var g1 := Snap();
        GenKnown(env, g1, P, e1);
        e :- Prefix(op, e1, before, P, a.e, fr);
        FramedTrans(g, g1, Snap(), P);
        return Ok, e;
      }
      var op := OperatorOf(a);
      var e1 :- Expression(a.a, P);
      ghost var g1 := Snap();
      GenKnown(env, g1, P, e1);
      e1 :- Infix(op, e1, before, P, a.a, fr);
      ghost var g2 := Snap();
      FramedTrans(g, g1, g2, P);
      ghost var L := Jumps(g2.code, InfixList(op, e1));
      FramedFacts(g, g2, P);
      InfixReady(env, before, g2, P, op, e1, a.a, fr);
      var e2 :- Expression(a.b, P + L);
      FramedFacts(g2, Snap(), P + L);
      SecondReady(env, before, g2, P, op, e1, a.a, fr, Snap(), e2, a.b);
      e :- Posfix(op, e1, e2, g2, before, P, a.a, a.b, fr);
      FramedTrans(g, g2, Snap(), P);
      return Ok, e;
    }

    // ----- statements ------------------------------------------------------------------------------------------------

    /** `luaK_storevar` for a local: it gets the value of the expression, other registers in use keep theirs. */
    method StoreLocal(reg: nat, a: Expr, ghost P: set<int>) returns (r: Status)
      requires GenOK(env, Snap(), P) && ExprOK(a, nactvar) && FoldOK(env) && Frame() && reg < nactvar
      modifies this`code, this`jpc, this`k, this`cache, this`lasttarget, this`freereg, this`maxstacksize
      ensures (r.Ok? ==> Frame()) && maxstacksize >= old(maxstacksize)
      ensures r.Ok? ==> GenOK(env, Snap(), P) && InReg(env, Full(env, old(Snap()), P), Snap(), P, a, old(freereg), reg)
      ensures r.Ok? ==> freereg == old(freereg)
      ensures r.SyntaxError? ==> TooBig(Snap())
    {
      hide GenOK, ExpOK, Means, Framed, Jumps, IsList, InReg;
      ghost var g := Snap();
      ghost var before := Full(env, g, P);
      GenFacts(env, g, P);
      var e :- Expression(a, P);
      ghost var g1 := Snap();
      GenKnown(env, g1, P, e);
      FreeExp(e);
      FreeregMeans(env, before, g1, P, e, a, g.freereg, Snap());
      e :- Exp2Reg(e, reg, before, P, a, g.freereg);
      return Ok;
    }

    /** `explist`: all values but the last go to the next registers; `e` stands for the last expression,
        compiled from `m` on. */
    method ExpList(exps: seq<Expr>) returns (r: Status, e: ExpDesc, ghost m: Gen)
      requires GenOK(env, Snap(), {}) && exps != [] && ExprsOK(exps, nactvar) && FoldOK(env) && Frame()
      modifies this`code, this`jpc, this`k, this`cache, this`lasttarget, this`freereg, this`maxstacksize
      ensures (r.Ok? ==> Frame()) && maxstacksize >= old(maxstacksize)
      ensures r.Ok? ==> Loaded(env, old(Snap()), m, exps[..|exps| - 1], old(freereg), old(freereg)) && m.freereg == old(freereg) + |exps| - 1
      ensures r.Ok? ==> ExpOK(env, Snap(), {}, e) && Means(env, Full(env, m, {}), Snap(), {}, e, exps[|exps| - 1], m.freereg)
      ensures r.Ok? ==> RegsOK(m.freereg, Snap(), e)
      ensures r.SyntaxError? ==> TooBig(Snap())
    {
      hide GenOK, ExpOK, Means, Framed, Jumps, IsList, Loaded;
      ghost var g := Snap();
      GenFacts(env, g, {});
      m := g;
      LoadedNone(env, g, freereg, freereg);
      assert exps[..0] == [];
      e :- Expression(exps[0], {});
      var i := 1;
      while i < |exps|
        invariant 1 <= i <= |exps| && Frame() && nactvar == g.nactvar
        invariant Loaded(env, g, m, exps[..i - 1], g.freereg, g.freereg) && m.freereg == g.freereg + i - 1
        invariant ExpOK(env, Snap(), {}, e) && Means(env, Full(env, m, {}), Snap(), {}, e, exps[i - 1], m.freereg)
        invariant RegsOK(m.freereg, Snap(), e) && maxstacksize >= old(maxstacksize)
      {
        e :- Exp2NextReg(e, Full(env, m, {}), {}, exps[i - 1], m.freereg);
        LoadedOne(env, m, Snap(), e, exps[i - 1], m.freereg);
        assert exps[..i - 1] + [exps[i - 1]] == exps[..i];
        LoadedMore(env, g, m, Snap(), exps[..i - 1], exps[i - 1], g.freereg, g.nactvar);
        m := Snap();
        e :- Expression(exps[i], {});
        i := i + 1;
      }
      return Ok, e, m;
    }

    /** `retstat`: the registers that are returned. A single value may stay in the register it is in; several go to
        the registers behind the locals. */
    method ReturnRegs(exps: seq<Expr>) returns (r: Status, first: nat)
      requires GenOK(env, Snap(), {}) && ExprsOK(exps, nactvar) && FoldOK(env) && Frame() && freereg == nactvar
      modifies this`code, this`jpc, this`k, this`cache, this`lasttarget, this`freereg, this`maxstacksize
      ensures r.Ok? ==> Frame() && first + |exps| <= maxstacksize && GenOK(env, Snap(), {})
      ensures r.Ok? ==> Loaded(env, old(Snap()), Snap(), exps, first, old(freereg))
      ensures r.SyntaxError? ==> TooBig(Snap())
    {
      hide GenOK, ExpOK, Means, Framed, Jumps, IsList, Loaded;
      ghost var g := Snap();
      first := 0;
      GenFacts(env, g, {});
      if exps == [] {
        LoadedNone(env, g, first, freereg);
        return Ok, first;
      }
      var e;
      ghost var m;
      e, m :- ExpList(exps);
      ghost var last := exps[|exps| - 1];
      assert exps[..|exps| - 1] + [last] == exps;
      if |exps| == 1 {
        first, e :- Exp2AnyReg(e, Full(env, m, {}), {}, last, m.freereg);
        LoadedOne(env, m, Snap(), e, last, m.freereg);
        LoadedFirst(env, g, m, Snap(), last, first, m.freereg);
      } else {
        e :- Exp2NextReg(e, Full(env, m, {}), {}, last, m.freereg);
        LoadedOne(env, m, Snap(), e, last, m.freereg);
        first := nactvar;
        LoadedMore(env, g, m, Snap(), exps[..|exps| - 1], last, g.freereg, g.nactvar);
      }
      return Ok, first;
    }

    /** `retstat`. */
    method ReturnStat(exps: seq<Expr>) returns (r: Status)
      requires GenOK(env, Snap(), {}) && ExprsOK(exps, nactvar) && FoldOK(env) && Frame() && freereg == nactvar
      modifies this`code, this`jpc, this`k, this`cache, this`lasttarget, this`freereg, this`maxstacksize
      ensures r.Ok? ==> GenOK(env, Snap(), {}) && Jumps(code, jpc) == {} && Frame()
      ensures r.Ok? ==> forall R :: Out(env, Snap(), {}, R) == Returned(env, exps, Out(env, old(Snap()), {}, R))
      ensures r.SyntaxError? ==> TooBig(Snap())
    {
      hide GenOK, Jumps, IsList, Loaded, ExprsOK;
      ghost var g := Snap();
      var first :- ReturnRegs(exps);
      ghost var g2 := Snap();
      GenFacts(env, g2, {});
      var pc :- Emit(Return(first, |exps| + 1));
      ReturnEmitted(env, g, g2, first, exps, g.freereg, Snap());
      return Ok;
    }
  }

  /** A function that returns the values of expressions over its locals: in the finished code no jump
      is open and every TESTSET has a destination, no instruction leaves the frame, and every run returns exactly
      those values. It fails only for want of registers or when a jump could become too long. */
  method CompileReturn(env: Env, nactvar: nat, exps: seq<Expr>) returns (r: Status, fs: FuncState)
    requires nactvar < MAXREGS && ExprsOK(exps, nactvar) && FoldOK(env)
    ensures fresh(fs) && fs.env == env
    ensures r.Ok? ==> WF(Prog(env, fs.code, fs.k, {}, {}))
    ensures r.Ok? ==> forall R :: Run(Prog(env, fs.code, fs.k, {}, {}), 0, R) == Ret(Evals(env, exps, R))
    ensures r.Ok? ==> CodeFits(fs.code, fs.maxstacksize) && fs.maxstacksize < MAXREGS
    ensures r.SyntaxError? ==> TooBig(fs.Snap())
  {
    hide GenOK, WF, Run, Jumps;
    fs := new FuncState(env, nactvar);
    ghost var g := fs.Snap();
    r := fs.ReturnStat(exps);
    if r.Ok? {
      ReturnsAlways(env, g, exps, fs.Snap());
    }
  }
}
