/**
 * What the emitted code computes.  An expression's code, run from any
 * 16-aligned stack with the variables in their frame slots, leaves the
 * expression's value in d0 and gives back `sp`, `fp` and every cell from
 * `sp` up unchanged, as long as no call inside it passes anything but a
 * number or a variable before its last argument.  A function's code, run
 * with its arguments in d0, d1, ..., returns its body's value in d0 and
 * restores `sp`, `fp` and `lr`, as long as it has an even number of
 * parameters.  The conditions are sufficient, not necessary: some programs
 * outside them still compute the right value, and `ClobberedArgument` and
 * `OddFrameFaults` show programs outside them whose code goes wrong.
 */
module AsmCorrect {
  import opened Wrappers
  import opened Ast
  import opened AsmCode
  import opened AsmFacts
  import opened AsmMachine

  /** `mem'` agrees with `mem` at every address from `low` up. */
  ghost predicate Kept(mem: map<int, Word>, mem': map<int, Word>, low: int) {
    forall a | low <= a :: (a in mem <==> a in mem') && (a in mem ==> mem[a] == mem'[a])
  }

  /** Every variable of `env` holds its value in its slot `st[x]` below the frame pointer, at or above `low`. */
  ghost predicate Slots(st: SymbolTable, env: map<string, real>, m: Machine, low: int) {
    forall x | x in env ::
      x in st && low <= m.fp - st[x] && m.fp - st[x] in m.mem && m.mem[m.fp - st[x]] == Val(env[x])
  }

  /** `m'` holds `v` in d0 and agrees with `m` on `sp`, `fp` and the cells from `sp` up. */
  ghost predicate Computes(m: Machine, m': Machine, v: real) {
    0 in m'.d && m'.d[0] == v && m'.sp == m.sp && m'.fp == m.fp && Kept(m.mem, m'.mem, m.sp)
  }

  predicate Leaf(e: Expr) {
    e.Number? || e.Variable?
  }

  /** At every call inside `e`, the arguments before the last are numbers or variables. */
  predicate Safe(e: Expr)
    decreases e
  {
    match e
    case Number(_) => true
    case Variable(_) => true
    case Binary(_, lhs, rhs) => Safe(lhs) && Safe(rhs)
    case Call(_, args) =>
      (forall k | 0 <= k < |args| - 1 :: Leaf(args[k])) && (|args| > 0 ==> Safe(args[|args| - 1]))
  }

  lemma {:induction false} RunAppend(a: seq<Instr>, b: seq<Instr>, m: Machine, ctx: Context)
    ensures Run(a + b, m, ctx) == if Run(a, m, ctx).None? then None else Run(b, Run(a, m, ctx).value, ctx)
    decreases |b|
  {
    if |b| == 0 {
      assert a + b == a;
    } else {
      assert (a + b)[..|a + b| - 1] == a + b[..|b| - 1];
      RunAppend(a, b[..|b| - 1], m, ctx);
    }
  }

  lemma RunSnoc(a: seq<Instr>, i: Instr, m: Machine, ctx: Context)
    ensures Run(a + [i], m, ctx) == if Run(a, m, ctx).None? then None else Step(i, Run(a, m, ctx).value, ctx)
  {
    assert (a + [i])[..|a|] == a;
  }

  lemma RunOne(i: Instr, m: Machine, ctx: Context)
    ensures Run([i], m, ctx) == Step(i, m, ctx)
  {
    assert [i][..0] == [];
  }

  lemma KeptTrans(a: map<int, Word>, b: map<int, Word>, c: map<int, Word>, low: int, low': int)
    requires Kept(a, b, low) && Kept(b, c, low') && low' <= low
    ensures Kept(a, c, low)
  {
  }

  lemma SlotsKept(st: SymbolTable, env: map<string, real>, m: Machine, m': Machine, low: int, low': int)
    requires Slots(st, env, m, low) && m'.fp == m.fp && Kept(m.mem, m'.mem, low) && low' <= low
    ensures Slots(st, env, m', low')
  {
  }

  /** The values `EvalArgs` collects are those of the arguments, one by one. */
  lemma {:induction false} EvalArgsEach(args: seq<Expr>, j: nat, env: map<string, real>, ctx: Context)
    requires j <= |args|
    ensures EvalArgs(args, j, env, ctx).Some? <==> forall k | j <= k < |args| :: Eval(args[k], env, ctx).Some?
    ensures EvalArgs(args, j, env, ctx).Some? ==>
              |EvalArgs(args, j, env, ctx).value| == |args| - j &&
              forall k | j <= k < |args| :: Eval(args[k], env, ctx) == Some(EvalArgs(args, j, env, ctx).value[k - j])
    decreases |args| - j
  {
    if j < |args| {
      EvalArgsEach(args, j + 1, env, ctx);
    }
  }

  /** A number or a variable: its line sets d0 to its value and changes nothing else. */
  lemma LeafCorrect(e: Expr, st: SymbolTable, env: map<string, real>, ctx: Context, m: Machine)
    requires Leaf(e) && Eval(e, env, ctx).Some? && Slots(st, env, m, m.sp)
    ensures ExprCode(e, st).err.None?
    ensures Run(ExprCode(e, st).code, m, ctx) == Some(m.(d := m.d[0 := Eval(e, env, ctx).value]))
  {
    if e.Number? {
      NumberRuns(e.val, ctx, m);
    } else {
      VariableRuns(e.name, st, env, ctx, m);
    }
  }

  lemma NumberRuns(text: string, ctx: Context, m: Machine)
    ensures Run([LoadImm(text)], m, ctx) == Some(m.(d := m.d[0 := ctx.num(text)]))
  {
    RunOne(LoadImm(text), m, ctx);
  }

  lemma VariableRuns(x: string, st: SymbolTable, env: map<string, real>, ctx: Context, m: Machine)
    requires x in env && Slots(st, env, m, m.sp)
    ensures x in st && Run([LoadLocal(st[x])], m, ctx) == Some(m.(d := m.d[0 := env[x]]))
  {
    RunOne(LoadLocal(st[x]), m, ctx);
  }

  /** The code of a safe expression with a value computes that value. */
  lemma {:induction false} ExprCorrect(e: Expr, st: SymbolTable, env: map<string, real>, ctx: Context, m: Machine)
    requires Safe(e) && Eval(e, env, ctx).Some?
    requires Slots(st, env, m, m.sp) && m.sp % 16 == 0
    ensures ExprCode(e, st).err.None? && Run(ExprCode(e, st).code, m, ctx).Some?
    ensures Computes(m, Run(ExprCode(e, st).code, m, ctx).value, Eval(e, env, ctx).value)
    decreases e, 2
  {
    match e
    case Number(_) =>
      LeafCorrect(e, st, env, ctx, m);
    case Variable(_) =>
      LeafCorrect(e, st, env, ctx, m);
    case Binary(op, lhs, rhs) =>
      BinaryCorrect(op, lhs, rhs, st, env, ctx, m);
    case Call(callee, args) =>
      CallCorrect(callee, args, st, env, ctx, m);
  }

  /** Right operand, spill, left operand, reload into d1, operator: d0 ends as left op right. */
  lemma {:induction false} BinaryCorrect(op: char, lhs: Expr, rhs: Expr, st: SymbolTable, env: map<string, real>,
                                         ctx: Context, m: Machine)
    requires Safe(lhs) && Safe(rhs) && Eval(Binary(op, lhs, rhs), env, ctx).Some?
    requires Slots(st, env, m, m.sp) && m.sp % 16 == 0
    ensures BinaryCode(op, lhs, rhs, st).err.None? && Run(BinaryCode(op, lhs, rhs, st).code, m, ctx).Some?
    ensures Computes(m, Run(BinaryCode(op, lhs, rhs, st).code, m, ctx).value, Eval(Binary(op, lhs, rhs), env, ctx).value)
    ensures 1 in Run(BinaryCode(op, lhs, rhs, st).code, m, ctx).value.d
    ensures Run(BinaryCode(op, lhs, rhs, st).code, m, ctx).value.d[1] == Eval(rhs, env, ctx).value
    decreases Binary(op, lhs, rhs), 1
  {
    var vl := Eval(lhs, env, ctx).value;
    var vr := Eval(rhs, env, ctx).value;
    var a := ArithOf(op).value;
    var r := ExprCode(rhs, st);
    var l := ExprCode(lhs, st);
    ExprCorrect(rhs, st, env, ctx, m);
    var m1 := Run(r.code, m, ctx).value;
    var m2 := Spill(m, m1, vr, ctx);
    SlotsKept(st, env, m, m2, m.sp, m2.sp);
    ExprCorrect(lhs, st, env, ctx, m2);
    var m3 := Run(l.code, m2, ctx).value;
    var m5 := ReloadApply(m, m2, m3, vl, vr, a, ctx);
    BinaryRuns(r.code, l.code, a, m, m1, m2, m3, m5, ctx);
    assert BinaryCode(op, lhs, rhs, st) == Emission(r.code + [Push] + l.code + [Pop("d1")] + [Arith(a)], None);
  }

  /** `str d0, [sp, #-16]!` after the right operand. */
  lemma Spill(m: Machine, m1: Machine, vr: real, ctx: Context) returns (m2: Machine)
    requires Computes(m, m1, vr) && m.sp % 16 == 0
    ensures Step(Push, m1, ctx) == Some(m2)
    ensures m2.sp == m.sp - 16 && m2.fp == m.fp && Kept(m.mem, m2.mem, m.sp)
    ensures m.sp - 16 in m2.mem && m2.mem[m.sp - 16] == Val(vr) && m2.sp % 16 == 0
  {
    m2 := m1.(sp := m.sp - 16, mem := m1.mem[m.sp - 16 := Val(vr)]);
  }

  /** `ldr d1, [sp], #16` and the operator, after the left operand. */
  lemma ReloadApply(m: Machine, m2: Machine, m3: Machine, vl: real, vr: real, a: ArithOp, ctx: Context)
    returns (m5: Machine)
    requires m2.sp == m.sp - 16 && m2.fp == m.fp && Kept(m.mem, m2.mem, m.sp)
    requires m.sp - 16 in m2.mem && m2.mem[m.sp - 16] == Val(vr) && m.sp % 16 == 0
    requires Computes(m2, m3, vl)
    ensures Run([Pop("d1"), Arith(a)], m3, ctx) == Some(m5) && Computes(m, m5, Apply(a, vl, vr))
    ensures 1 in m5.d && m5.d[1] == vr
  {
    assert m.sp - 16 in m3.mem && m3.mem[m.sp - 16] == Val(vr);
    var m4 := ReloadD1(m3, m.sp, vr, ctx);
    m5 := m4.(d := m4.d[0 := Apply(a, vl, vr)]);
    assert Step(Arith(a), m4, ctx) == Some(m5);
    KeptTrans(m.mem, m2.mem, m3.mem, m.sp, m2.sp);
    RunOne(Pop("d1"), m3, ctx);
    RunSnoc([Pop("d1")], Arith(a), m3, ctx);
    assert [Pop("d1")] + [Arith(a)] == [Pop("d1"), Arith(a)];
  }

  /** `ldr d1, [sp], #16` with the spilled value on top of the stack. */
  lemma ReloadD1(m3: Machine, sp: int, vr: real, ctx: Context) returns (m4: Machine)
    requires sp % 16 == 0 && m3.sp == sp - 16 && sp - 16 in m3.mem && m3.mem[sp - 16] == Val(vr)
    ensures Step(Pop("d1"), m3, ctx) == Some(m4) && m4 == m3.(d := m3.d[1 := vr], sp := sp)
  {
    assert RegIndex("d1") == Some(1);
    m4 := m3.(d := m3.d[1 := vr], sp := sp);
  }

  lemma BinaryRuns(r: seq<Instr>, l: seq<Instr>, a: ArithOp, m: Machine, m1: Machine, m2: Machine, m3: Machine,
                   m5: Machine, ctx: Context)
    requires Run(r, m, ctx) == Some(m1) && Step(Push, m1, ctx) == Some(m2) && Run(l, m2, ctx) == Some(m3)
    requires Run([Pop("d1"), Arith(a)], m3, ctx) == Some(m5)
    ensures Run(r + [Push] + l + [Pop("d1")] + [Arith(a)], m, ctx) == Some(m5)
  {
    RunSnoc(r, Push, m, ctx);
    RunAppend(r + [Push], l, m, ctx);
    RunAppend(r + [Push] + l, [Pop("d1"), Arith(a)], m, ctx);
    assert r + [Push] + l + [Pop("d1")] + [Arith(a)] == r + [Push] + l + [Pop("d1"), Arith(a)];
  }

  /** `m'` agrees with `m` on `sp`, `fp` and the cells from `sp` up, and holds `vals[j..]` in d<j>, d<j+1>, .... */
  ghost predicate Placed(m: Machine, m': Machine, vals: seq<real>, j: nat) {
    m'.sp == m.sp && m'.fp == m.fp && Kept(m.mem, m'.mem, m.sp) &&
    forall k | j <= k < |vals| :: k in m'.d && m'.d[k] == vals[k]
  }

  /** The arguments, then `bl`: d0 ends as the routine's value on the arguments' values. */
  lemma {:induction false} CallCorrect(callee: string, args: seq<Expr>, st: SymbolTable, env: map<string, real>,
                                       ctx: Context, m: Machine)
    requires Safe(Call(callee, args)) && Eval(Call(callee, args), env, ctx).Some?
    requires Slots(st, env, m, m.sp) && m.sp % 16 == 0
    ensures CallCode(callee, args, st).err.None? && Run(CallCode(callee, args, st).code, m, ctx).Some?
    ensures Computes(m, Run(CallCode(callee, args, st).code, m, ctx).value, Eval(Call(callee, args), env, ctx).value)
    decreases Call(callee, args), 1
  {
    var vals := EvalArgs(args, 0, env, ctx).value;
    EvalArgsEach(args, 0, env, ctx);
    var m' := CallRuns(callee, args, st, env, ctx, m, vals);
  }

  /** `CallCorrect` once the arguments' values are known. */
  lemma {:induction false} CallRuns(callee: string, args: seq<Expr>, st: SymbolTable, env: map<string, real>,
                                    ctx: Context, m: Machine, vals: seq<real>) returns (m': Machine)
    requires |args| == |vals| && forall k | 0 <= k < |args| :: Eval(args[k], env, ctx) == Some(vals[k])
    requires (forall k | 0 <= k < |args| - 1 :: Leaf(args[k])) && (|args| > 0 ==> Safe(args[|args| - 1]))
    requires callee in ctx.lib && ctx.lib[callee].arity == |args|
    requires Slots(st, env, m, m.sp) && m.sp % 16 == 0
    ensures CallCode(callee, args, st).err.None? && Run(CallCode(callee, args, st).code, m, ctx) == Some(m')
    ensures Computes(m, m', ctx.lib[callee].fn(vals))
    decreases Call(callee, args), 0
  {
    ArgsCorrect(args, 0, st, env, ctx, m, vals);
    var a := ArgsCode(args, 0, st);
    var m1 := Run(a.code, m, ctx).value;
    Branch(callee, m, m1, vals, ctx);
    RunSnoc(a.code, BranchLink(callee), m, ctx);
    m' := Step(BranchLink(callee), m1, ctx).value;
  }

  /** `bl` with every argument in place returns the routine's value on them. */
  lemma Branch(callee: string, m: Machine, m1: Machine, vals: seq<real>, ctx: Context)
    requires Placed(m, m1, vals, 0) && m.sp % 16 == 0
    requires callee in ctx.lib && ctx.lib[callee].arity == |vals|
    ensures Step(BranchLink(callee), m1, ctx).Some?
    ensures Computes(m, Step(BranchLink(callee), m1, ctx).value, ctx.lib[callee].fn(vals))
  {
    assert ArgValues(m1.d, |vals|) == vals;
  }

  /**
   * The argument loop down to index `j`: each of `args[j..]` is in its
   * register.  Only the last argument, computed first, may be more than a
   * number or a variable, since the others are computed once the later
   * registers are already set.
   */
  lemma {:induction false} ArgsCorrect(args: seq<Expr>, j: nat, st: SymbolTable, env: map<string, real>, ctx: Context,
                                       m: Machine, vals: seq<real>)
    requires j <= |args| == |vals|
    requires forall k | j <= k < |args| :: Eval(args[k], env, ctx) == Some(vals[k])
    requires forall k | j <= k < |args| - 1 :: Leaf(args[k])
    requires j < |args| ==> Safe(args[|args| - 1])
    requires Slots(st, env, m, m.sp) && m.sp % 16 == 0
    ensures ArgsCode(args, j, st).err.None? && Run(ArgsCode(args, j, st).code, m, ctx).Some?
    ensures Placed(m, Run(ArgsCode(args, j, st).code, m, ctx).value, vals, j)
    decreases args, |args| - j
  {
    if j < |args| {
      ArgsCorrect(args, j + 1, st, env, ctx, m, vals);
      var done := ArgsCode(args, j + 1, st);
      var m1 := Run(done.code, m, ctx).value;
      SlotsKept(st, env, m, m1, m.sp, m1.sp);
      var a := ExprCode(args[j], st);
      if j == |args| - 1 {
        ExprCorrect(args[j], st, env, ctx, m1);
      } else {
        LeafCorrect(args[j], st, env, ctx, m1);
      }
      var m2 := Run(a.code, m1, ctx).value;
      var m3 := PlaceArg(m, m1, m2, vals, j, ctx);
      ArgRuns(done.code, a.code, j, m, m1, m2, m3, ctx);
      assert ArgsCode(args, j, st) == Emission(done.code + a.code + [MoveArg(j)], None);
    }
  }

  /** `fmov d<j>, d0` once argument `j` is in d0 and the later ones are still in place. */
  lemma PlaceArg(m: Machine, m1: Machine, m2: Machine, vals: seq<real>, j: nat, ctx: Context) returns (m3: Machine)
    requires j < |vals| && Placed(m, m1, vals, j + 1) && Computes(m1, m2, vals[j])
    requires j < |vals| - 1 ==> m2.d == m1.d[0 := vals[j]]
    ensures Step(MoveArg(j), m2, ctx) == Some(m3) && Placed(m, m3, vals, j)
  {
    m3 := m2.(d := m2.d[j := m2.d[0]]);
    KeptTrans(m.mem, m1.mem, m2.mem, m.sp, m1.sp);
  }

  lemma ArgRuns(done: seq<Instr>, a: seq<Instr>, j: nat, m: Machine, m1: Machine, m2: Machine, m3: Machine,
                ctx: Context)
    requires Run(done, m, ctx) == Some(m1) && Run(a, m1, ctx) == Some(m2)
    requires Step(MoveArg(j), m2, ctx) == Some(m3)
    ensures Run(done + a + [MoveArg(j)], m, ctx) == Some(m3)
  {
    RunAppend(done, a, m, ctx);
    RunSnoc(done + a, MoveArg(j), m, ctx);
  }

  predicate Distinct(names: seq<string>) {
    forall i, j | 0 <= i < j < |names| :: names[i] != names[j]
  }

  /** Each parameter is bound to its own argument, and nothing else is bound. */
  lemma {:induction false} ParamEnvAt(params: seq<string>, vals: seq<real>)
    requires |params| == |vals| && Distinct(params)
    ensures forall x | x in ParamEnv(params, vals) :: x in params
    ensures forall i | 0 <= i < |params| :: params[i] in ParamEnv(params, vals) && ParamEnv(params, vals)[params[i]] == vals[i]
    decreases |params|
  {
    if |params| > 0 {
      var n := |params|;
      ParamEnvAt(params[..n - 1], vals[..n - 1]);
      assert params == params[..n - 1] + [params[n - 1]];
    }
  }

  /** The argument stores of `params[..k]`: parameter `i` lands at `fp - 8 * (i + 1)`, nothing from `fp` up changes. */
  lemma {:induction false} StoresRun(params: seq<string>, st: SymbolTable, vals: seq<real>, k: nat, m: Machine,
                                     ctx: Context) returns (m': Machine)
    requires k <= |params| == |vals|
    requires forall i | 0 <= i < |params| :: params[i] in st && st[params[i]] == 8 * (i + 1)
    requires forall i | 0 <= i < |vals| :: i in m.d && m.d[i] == vals[i]
    ensures forall p | p in params[..k] :: p in st
    ensures Run(StoreArgs(params[..k], st), m, ctx) == Some(m')
    ensures m'.d == m.d && m'.sp == m.sp && m'.fp == m.fp && m'.lr == m.lr && Kept(m.mem, m'.mem, m.fp)
    ensures forall i | 0 <= i < k :: Slot(m.fp, i) in m'.mem && m'.mem[Slot(m.fp, i)] == Val(vals[i])
    decreases k
  {
    if k == 0 {
      m' := m;
      assert StoreArgs(params[..0], st) == [];
    } else {
      var m1 := StoresRun(params, st, vals, k - 1, m, ctx);
      m' := StoreStep(m1, k, vals[k - 1], ctx);
      StoresRunNext(params, st, k, m, m1, m', ctx);
      StoredSlots(vals, k, m, m1, m');
    }
  }

  lemma StoresRunNext(params: seq<string>, st: SymbolTable, k: nat, m: Machine, m1: Machine, m': Machine, ctx: Context)
    requires 1 <= k <= |params|
    requires forall i | 0 <= i < |params| :: params[i] in st && st[params[i]] == 8 * (i + 1)
    requires forall p | p in params[..k - 1] :: p in st
    requires Run(StoreArgs(params[..k - 1], st), m, ctx) == Some(m1) && Step(StoreArg(k - 1, 8 * k), m1, ctx) == Some(m')
    ensures forall p | p in params[..k] :: p in st
    ensures Run(StoreArgs(params[..k], st), m, ctx) == Some(m')
  {
    assert params[..k][..k - 1] == params[..k - 1];
    assert StoreArgs(params[..k], st) == StoreArgs(params[..k - 1], st) + [StoreArg(k - 1, 8 * k)];
    RunSnoc(StoreArgs(params[..k - 1], st), StoreArg(k - 1, 8 * k), m, ctx);
  }

  lemma StoredSlots(vals: seq<real>, k: nat, m: Machine, m1: Machine, m': Machine)
    requires 1 <= k <= |vals|
    requires m1.fp == m.fp && forall i | 0 <= i < k - 1 :: Slot(m.fp, i) in m1.mem && m1.mem[Slot(m.fp, i)] == Val(vals[i])
    requires m' == m1.(mem := m1.mem[m.fp - 8 * k := Val(vals[k - 1])])
    ensures forall i | 0 <= i < k :: Slot(m.fp, i) in m'.mem && m'.mem[Slot(m.fp, i)] == Val(vals[i])
  {
    assert Slot(m.fp, k - 1) == m.fp - 8 * k;
  }

  /** The slot of parameter `i`: `[x29, #-8 * (i + 1)]`. */
  function Slot(fp: int, i: nat): int {
    fp - 8 * (i + 1)
  }

  /** `str d<k-1>, [x29, #-8k]`. */
  lemma StoreStep(m: Machine, k: nat, v: real, ctx: Context) returns (m': Machine)
    requires k >= 1 && k - 1 in m.d && m.d[k - 1] == v
    ensures Step(StoreArg(k - 1, 8 * k), m, ctx) == Some(m')
    ensures m' == m.(mem := m.mem[m.fp - 8 * k := Val(v)])
  {
    m' := m.(mem := m.mem[m.fp - 8 * k := Val(v)]);
  }

  /** A function's lines before its body, with a frame of `size` bytes below the saved frame record. */
  function FrameHead(name: string, size: int, params: seq<string>, st: SymbolTable): seq<Instr>
    requires forall p | p in params :: p in st
  {
    [Globl(name), Align, Label(name)] + Prologue + [SubSp(size)] + StoreArgs(params, st)
  }

  /** `add sp`, then the epilogue. */
  function FrameTail(size: int): seq<Instr> {
    [AddSp(size)] + Epilogue
  }

  /** `.globl`, `.p2align`, label, prologue and `sub sp`: the frame record is saved and `size` bytes reserved below it. */
  lemma EnterFrame(name: string, size: int, m: Machine, ctx: Context) returns (m0: Machine)
    requires m.sp % 16 == 0
    ensures Run([Globl(name), Align, Label(name)] + Prologue + [SubSp(size)], m, ctx) == Some(m0)
    ensures m0 == m.(sp := m.sp - 16 - size, fp := m.sp - 16, mem := m.mem[m.sp - 16 := Addr(m.fp)][m.sp - 8 := Addr(m.lr)])
  {
    Directives(name, m, ctx);
    m0 := Reserve(size, m, ctx);
    RunAppend([Globl(name), Align, Label(name)], Prologue + [SubSp(size)], m, ctx);
    assert [Globl(name), Align, Label(name)] + Prologue + [SubSp(size)] ==
           [Globl(name), Align, Label(name)] + (Prologue + [SubSp(size)]);
  }

  lemma Directives(name: string, m: Machine, ctx: Context)
    ensures Run([Globl(name), Align, Label(name)], m, ctx) == Some(m)
  {
    var c := [Globl(name), Align, Label(name)];
    assert c[..2][..1] == [Globl(name)] && c[..2] == [Globl(name), Align];
    RunOne(Globl(name), m, ctx);
  }

  lemma Reserve(size: int, m: Machine, ctx: Context) returns (m0: Machine)
    requires m.sp % 16 == 0
    ensures Run(Prologue + [SubSp(size)], m, ctx) == Some(m0)
    ensures m0 == m.(sp := m.sp - 16 - size, fp := m.sp - 16, mem := m.mem[m.sp - 16 := Addr(m.fp)][m.sp - 8 := Addr(m.lr)])
  {
    var saved := m.(sp := m.sp - 16, mem := m.mem[m.sp - 16 := Addr(m.fp)][m.sp - 8 := Addr(m.lr)]);
    assert Step(SaveFrame, m, ctx) == Some(saved);
    var c := Prologue + [SubSp(size)];
    assert c[..2][..1] == [SaveFrame] && c[..2] == [SaveFrame, SetFrame];
    RunOne(SaveFrame, m, ctx);
    m0 := saved.(fp := saved.sp, sp := saved.sp - size);
  }

  /** The lines before a function's body, with a frame of `size` bytes: every parameter is in its slot. */
  lemma EnterFunction(name: string, params: seq<string>, st: SymbolTable, size: int, vals: seq<real>, ctx: Context,
                      m: Machine) returns (m1: Machine)
    requires Distinct(params) && |vals| == |params| && size >= 8 * |params|
    requires forall i | 0 <= i < |params| :: params[i] in st && st[params[i]] == 8 * (i + 1)
    requires m.sp % 16 == 0 && forall i | 0 <= i < |vals| :: i in m.d && m.d[i] == vals[i]
    ensures forall p | p in params :: p in st
    ensures Run(FrameHead(name, size, params, st), m, ctx) == Some(m1)
    ensures m1.sp == m.sp - 16 - size && m1.fp == m.sp - 16 && m1.d == m.d && Kept(m.mem, m1.mem, m.sp)
    ensures m.sp - 16 in m1.mem && m1.mem[m.sp - 16] == Addr(m.fp) && m.sp - 8 in m1.mem && m1.mem[m.sp - 8] == Addr(m.lr)
    ensures Slots(st, ParamEnv(params, vals), m1, m1.sp)
  {
    var m0 := EnterFrame(name, size, m, ctx);
    assert params[..|params|] == params;
    m1 := StoresRun(params, st, vals, |params|, m0, ctx);
    RunAppend([Globl(name), Align, Label(name)] + Prologue + [SubSp(size)], StoreArgs(params, st), m, ctx);
    ParamSlots(params, st, vals, size, m1);
  }

  /** Once every argument is stored, each parameter's slot holds its value, within the reserved frame. */
  lemma ParamSlots(params: seq<string>, st: SymbolTable, vals: seq<real>, size: int, m1: Machine)
    requires Distinct(params) && |vals| == |params| && size >= 8 * |params| && m1.sp == m1.fp - size
    requires forall i | 0 <= i < |params| :: params[i] in st && st[params[i]] == 8 * (i + 1)
    requires forall i | 0 <= i < |params| :: Slot(m1.fp, i) in m1.mem && m1.mem[Slot(m1.fp, i)] == Val(vals[i])
    ensures Slots(st, ParamEnv(params, vals), m1, m1.sp)
  {
    var env := ParamEnv(params, vals);
    ParamEnvAt(params, vals);
    forall x | x in env
      ensures x in st && m1.sp <= m1.fp - st[x] && m1.fp - st[x] in m1.mem && m1.mem[m1.fp - st[x]] == Val(env[x])
    {
      var i :| 0 <= i < |params| && params[i] == x;
      assert m1.fp - st[x] == Slot(m1.fp, i);
    }
  }

  /** `add sp`, then the epilogue: the frame is released and `fp`, `lr` and `sp` are the caller's again. */
  lemma LeaveFunction(size: int, m: Machine, m1: Machine, m2: Machine, v: real, ctx: Context) returns (m3: Machine)
    requires m.sp % 16 == 0 && size >= 0
    requires m1.sp == m.sp - 16 - size && m1.fp == m.sp - 16 && Kept(m.mem, m1.mem, m.sp)
    requires m.sp - 16 in m1.mem && m1.mem[m.sp - 16] == Addr(m.fp) && m.sp - 8 in m1.mem && m1.mem[m.sp - 8] == Addr(m.lr)
    requires Computes(m1, m2, v)
    ensures Run(FrameTail(size), m2, ctx) == Some(m3)
    ensures Computes(m, m3, v) && m3.lr == m.lr
  {
    var released := m2.(sp := m.sp - 16);
    assert Step(AddSp(size), m2, ctx) == Some(released);
    m3 := released.(fp := m.fp, lr := m.lr, sp := m.sp);
    assert Step(RestoreFrame, released, ctx) == Some(m3);
    RunOne(AddSp(size), m2, ctx);
    RunSnoc([AddSp(size)], RestoreFrame, m2, ctx);
    RunSnoc([AddSp(size), RestoreFrame], Ret, m2, ctx);
    assert [AddSp(size), RestoreFrame] + [Ret] == [AddSp(size)] + Epilogue;
    KeptTrans(m.mem, m1.mem, m2.mem, m.sp, m1.sp);
  }

  /** `Computes`, and the link register is the caller's again. */
  ghost predicate Returns(m: Machine, m': Machine, v: real) {
    Computes(m, m', v) && m'.lr == m.lr
  }

  /**
   * A function with an even number of distinct parameters and a safe body,
   * entered with 16-aligned `sp` and its arguments in d0, d1, ...: its code
   * returns the body's value in d0, with `sp`, `fp`, `lr` and the caller's
   * stack as they were.
   */
  lemma FunctionCorrect(f: Function, st: SymbolTable, vals: seq<real>, ctx: Context, m: Machine)
    requires Distinct(f.proto.args) && |vals| == |f.proto.args| && |f.proto.args| % 2 == 0
    requires Safe(f.body) && Eval(f.body, ParamEnv(f.proto.args, vals), ctx).Some?
    requires m.sp % 16 == 0 && forall i | 0 <= i < |vals| :: i in m.d && m.d[i] == vals[i]
    ensures FunctionCode(f, st).0.err.None? && Run(FunctionCode(f, st).0.code, m, ctx).Some?
    ensures Returns(m, Run(FunctionCode(f, st).0.code, m, ctx).value, Eval(f.body, ParamEnv(f.proto.args, vals), ctx).value)
  {
    var params := f.proto.args;
    var st' := BindParams(st, params);
    FunctionCodeParts(f, st);
    ParamOffsets(st, params);
    BodyInFrame(f.proto.name, params, st', f.body, vals, ctx, m);
    assert FunctionHead(f, st') == FrameHead(f.proto.name, 8 * |params|, params, st');
  }

  /** The head with a frame of 8 bytes per parameter, a safe body, and the tail, run in a row. */
  lemma BodyInFrame(name: string, params: seq<string>, st: SymbolTable, body: Expr, vals: seq<real>, ctx: Context,
                    m: Machine)
    requires Distinct(params) && |vals| == |params| && |params| % 2 == 0
    requires forall i | 0 <= i < |params| :: params[i] in st && st[params[i]] == 8 * (i + 1)
    requires Safe(body) && Eval(body, ParamEnv(params, vals), ctx).Some?
    requires m.sp % 16 == 0 && forall i | 0 <= i < |vals| :: i in m.d && m.d[i] == vals[i]
    ensures forall p | p in params :: p in st
    ensures ExprCode(body, st).err.None?
    ensures var code := FrameHead(name, 8 * |params|, params, st) + ExprCode(body, st).code + FrameTail(8 * |params|);
            Run(code, m, ctx).Some? && Returns(m, Run(code, m, ctx).value, Eval(body, ParamEnv(params, vals), ctx).value)
  {
    var n := |params|;
    var m1 := EvenEnter(name, params, st, vals, ctx, m);
    var env := ParamEnv(params, vals);
    ExprCorrect(body, st, env, ctx, m1);
    var code := ExprCode(body, st).code;
    var m2 := Run(code, m1, ctx).value;
    var m3 := LeaveFunction(8 * n, m, m1, m2, Eval(body, env, ctx).value, ctx);
    ThreeParts(FrameHead(name, 8 * n, params, st), code, FrameTail(8 * n), m, m1, m2, m3, ctx);
  }

  /** The lines before the body, with an even number of parameters: `sp` is left 16-aligned. */
  lemma EvenEnter(name: string, params: seq<string>, st: SymbolTable, vals: seq<real>, ctx: Context, m: Machine)
    returns (m1: Machine)
    requires Distinct(params) && |vals| == |params| && |params| % 2 == 0
    requires forall i | 0 <= i < |params| :: params[i] in st && st[params[i]] == 8 * (i + 1)
    requires m.sp % 16 == 0 && forall i | 0 <= i < |vals| :: i in m.d && m.d[i] == vals[i]
    ensures forall p | p in params :: p in st
    ensures Run(FrameHead(name, 8 * |params|, params, st), m, ctx) == Some(m1)
    ensures m1.sp == m.sp - 16 - 8 * |params| && m1.fp == m.sp - 16 && Kept(m.mem, m1.mem, m.sp)
    ensures m.sp - 16 in m1.mem && m1.mem[m.sp - 16] == Addr(m.fp) && m.sp - 8 in m1.mem && m1.mem[m.sp - 8] == Addr(m.lr)
    ensures Slots(st, ParamEnv(params, vals), m1, m1.sp) && m1.sp % 16 == 0
  {
    var n := |params|;
    m1 := EnterFunction(name, params, st, 8 * n, vals, ctx, m);
    Aligned(m.sp, n / 2);
    assert m1.sp == m.sp - 16 * (n / 2 + 1);
  }

  /** The lines before the body, with an odd number of parameters: `sp` is left 8 bytes off a multiple of 16. */
  lemma OddEnter(name: string, params: seq<string>, st: SymbolTable, vals: seq<real>, ctx: Context, m: Machine)
    returns (m1: Machine)
    requires Distinct(params) && |vals| == |params| && |params| % 2 == 1
    requires forall i | 0 <= i < |params| :: params[i] in st && st[params[i]] == 8 * (i + 1)
    requires m.sp % 16 == 0 && forall i | 0 <= i < |vals| :: i in m.d && m.d[i] == vals[i]
    ensures forall p | p in params :: p in st
    ensures Run(FrameHead(name, 8 * |params|, params, st), m, ctx) == Some(m1)
    ensures Slots(st, ParamEnv(params, vals), m1, m1.sp) && m1.sp % 16 == 8
  {
    var n := |params|;
    m1 := EnterFunction(name, params, st, 8 * n, vals, ctx, m);
    OffAligned(m.sp, n / 2);
    assert m1.sp == m.sp - 16 * (n / 2) - 24;
  }

  lemma Aligned(sp: int, k: int)
    requires sp % 16 == 0
    ensures (sp - 16 * (k + 1)) % 16 == 0
  {
  }

  lemma OffAligned(sp: int, k: int)
    requires sp % 16 == 0
    ensures (sp - 16 * k - 24) % 16 == 8
  {
  }

  /** With distinct names, parameter `i` sits at offset `8 * (i + 1)`. */
  lemma ParamOffsets(st: SymbolTable, params: seq<string>)
    requires Distinct(params)
    ensures forall i | 0 <= i < |params| :: params[i] in BindParams(st, params) && BindParams(st, params)[params[i]] == 8 * (i + 1)
  {
    forall i | 0 <= i < |params|
      ensures params[i] in BindParams(st, params) && BindParams(st, params)[params[i]] == 8 * (i + 1)
    {
      ParamOffset(st, params, i);
    }
  }

  lemma ThreeParts(a: seq<Instr>, b: seq<Instr>, c: seq<Instr>, m: Machine, m1: Machine, m2: Machine, m3: Machine,
                   ctx: Context)
    requires Run(a, m, ctx) == Some(m1) && Run(b, m1, ctx) == Some(m2) && Run(c, m2, ctx) == Some(m3)
    ensures Run(a + b + c, m, ctx) == Some(m3)
  {
    RunAppend(a, b, m, ctx);
    RunAppend(a + b, c, m, ctx);
  }

  /**
   * A call `f(lhs op rhs, c)`: the code sets d1 to `c`, then computes the
   * sum, whose reload of the spilled `rhs` goes to d1, so `f` is branched
   * to with the value of `rhs` as its second argument in place of `c`'s.
   */
  lemma ClobberedArgument(callee: string, op: char, lhs: Expr, rhs: Expr, c: Expr, st: SymbolTable,
                          env: map<string, real>, ctx: Context, m: Machine)
    requires Safe(lhs) && Safe(rhs) && Leaf(c)
    requires Eval(Binary(op, lhs, rhs), env, ctx).Some? && Eval(c, env, ctx).Some?
    requires callee in ctx.lib && ctx.lib[callee].arity == 2
    requires Slots(st, env, m, m.sp) && m.sp % 16 == 0
    ensures Eval(Call(callee, [Binary(op, lhs, rhs), c]), env, ctx) ==
            Some(ctx.lib[callee].fn([Eval(Binary(op, lhs, rhs), env, ctx).value, Eval(c, env, ctx).value]))
    ensures CallCode(callee, [Binary(op, lhs, rhs), c], st).err.None?
    ensures Run(CallCode(callee, [Binary(op, lhs, rhs), c], st).code, m, ctx).Some?
    ensures Run(CallCode(callee, [Binary(op, lhs, rhs), c], st).code, m, ctx).value.d[0] ==
            ctx.lib[callee].fn([Eval(Binary(op, lhs, rhs), env, ctx).value, Eval(rhs, env, ctx).value])
  {
    EvalPair(callee, Binary(op, lhs, rhs), c, env, ctx);
    ClobberRun(callee, op, lhs, rhs, c, st, env, ctx, m);
  }

  lemma EvalPair(callee: string, a: Expr, c: Expr, env: map<string, real>, ctx: Context)
    requires Eval(a, env, ctx).Some? && Eval(c, env, ctx).Some?
    requires callee in ctx.lib && ctx.lib[callee].arity == 2
    ensures Eval(Call(callee, [a, c]), env, ctx) == Some(ctx.lib[callee].fn([Eval(a, env, ctx).value, Eval(c, env, ctx).value]))
  {
    var args := [a, c];
    EvalArgsEach(args, 0, env, ctx);
    assert EvalArgs(args, 0, env, ctx).value == [Eval(a, env, ctx).value, Eval(c, env, ctx).value];
  }

  lemma ClobberRun(callee: string, op: char, lhs: Expr, rhs: Expr, c: Expr, st: SymbolTable,
                   env: map<string, real>, ctx: Context, m: Machine)
    requires Safe(lhs) && Safe(rhs) && Leaf(c)
    requires Eval(Binary(op, lhs, rhs), env, ctx).Some? && Eval(c, env, ctx).Some?
    requires callee in ctx.lib && ctx.lib[callee].arity == 2
    requires Slots(st, env, m, m.sp) && m.sp % 16 == 0
    ensures CallCode(callee, [Binary(op, lhs, rhs), c], st).err.None?
    ensures Run(CallCode(callee, [Binary(op, lhs, rhs), c], st).code, m, ctx).Some?
    ensures Run(CallCode(callee, [Binary(op, lhs, rhs), c], st).code, m, ctx).value.d[0] ==
            ctx.lib[callee].fn([Eval(Binary(op, lhs, rhs), env, ctx).value, Eval(rhs, env, ctx).value])
  {
    var args := [Binary(op, lhs, rhs), c];
    var mc := ClobberArgs(op, lhs, rhs, c, st, env, ctx, m);
    BranchTwo(callee, mc, Eval(args[0], env, ctx).value, Eval(rhs, env, ctx).value, ctx);
    RunSnoc(ArgsCode(args, 0, st).code, BranchLink(callee), m, ctx);
  }

  /** The argument lines of `f(lhs op rhs, c)`: d0 ends as the sum and d1 as `rhs`, not `c`. */
  lemma ClobberArgs(op: char, lhs: Expr, rhs: Expr, c: Expr, st: SymbolTable, env: map<string, real>, ctx: Context,
                    m: Machine) returns (mc: Machine)
    requires Safe(lhs) && Safe(rhs) && Leaf(c)
    requires Eval(Binary(op, lhs, rhs), env, ctx).Some? && Eval(c, env, ctx).Some?
    requires Slots(st, env, m, m.sp) && m.sp % 16 == 0
    ensures ArgsCode([Binary(op, lhs, rhs), c], 0, st).err.None?
    ensures Run(ArgsCode([Binary(op, lhs, rhs), c], 0, st).code, m, ctx) == Some(mc) && mc.sp == m.sp
    ensures 0 in mc.d && mc.d[0] == Eval(Binary(op, lhs, rhs), env, ctx).value
    ensures 1 in mc.d && mc.d[1] == Eval(rhs, env, ctx).value
  {
    var args := [Binary(op, lhs, rhs), c];
    var ma := SecondArg(args[0], c, st, env, ctx, m);
    var done := ArgsCode(args, 1, st);
    mc := SumIntoD1(op, lhs, rhs, st, env, ctx, m, ma);
    var first := ExprCode(args[0], st).code + [MoveArg(0)];
    RunAppend(done.code, first, m, ctx);
    FirstOfTwo(args, st);
  }

  /** Two arguments whose lines both succeed: the first one's lines and its move to d0 come last. */
  lemma FirstOfTwo(args: seq<Expr>, st: SymbolTable)
    requires |args| == 2 && ArgsCode(args, 1, st).err.None? && ExprCode(args[0], st).err.None?
    ensures ArgsCode(args, 0, st) == Emission(ArgsCode(args, 1, st).code + (ExprCode(args[0], st).code + [MoveArg(0)]), None)
  {
  }

  /** The lines for the second of two arguments, a number or a variable: it is moved to d1. */
  lemma SecondArg(a: Expr, c: Expr, st: SymbolTable, env: map<string, real>, ctx: Context, m: Machine)
    returns (ma: Machine)
    requires Leaf(c) && Eval(c, env, ctx).Some? && Slots(st, env, m, m.sp) && m.sp % 16 == 0
    ensures ArgsCode([a, c], 1, st).err.None? && Run(ArgsCode([a, c], 1, st).code, m, ctx) == Some(ma)
    ensures ma.sp == m.sp && ma.fp == m.fp && Kept(m.mem, ma.mem, m.sp)
  {
    var vc := Eval(c, env, ctx).value;
    ArgsCorrect([a, c], 1, st, env, ctx, m, [0.0, vc]);
    ma := Run(ArgsCode([a, c], 1, st).code, m, ctx).value;
  }

  /** `bl` with d0 and d1 set, to a routine of two arguments. */
  lemma BranchTwo(callee: string, m: Machine, v0: real, v1: real, ctx: Context)
    requires callee in ctx.lib && ctx.lib[callee].arity == 2 && m.sp % 16 == 0
    requires 0 in m.d && m.d[0] == v0 && 1 in m.d && m.d[1] == v1
    ensures Step(BranchLink(callee), m, ctx).Some? && Step(BranchLink(callee), m, ctx).value.d[0] == ctx.lib[callee].fn([v0, v1])
  {
    assert ArgValues(m.d, 2) == [v0, v1];
  }

  /** The first argument `lhs op rhs` and its move to d0, run once d1 is set: d1 ends as `rhs`. */
  lemma SumIntoD1(op: char, lhs: Expr, rhs: Expr, st: SymbolTable, env: map<string, real>, ctx: Context,
                  m: Machine, ma: Machine) returns (mc: Machine)
    requires Safe(lhs) && Safe(rhs) && Eval(Binary(op, lhs, rhs), env, ctx).Some?
    requires Slots(st, env, m, m.sp) && m.sp % 16 == 0 && ma.sp == m.sp && ma.fp == m.fp && Kept(m.mem, ma.mem, m.sp)
    ensures ExprCode(Binary(op, lhs, rhs), st).err.None?
    ensures Run(ExprCode(Binary(op, lhs, rhs), st).code + [MoveArg(0)], ma, ctx) == Some(mc)
    ensures mc.sp == m.sp && 0 in mc.d && mc.d[0] == Eval(Binary(op, lhs, rhs), env, ctx).value
    ensures 1 in mc.d && mc.d[1] == Eval(rhs, env, ctx).value
  {
    SlotsKept(st, env, m, ma, m.sp, ma.sp);
    BinaryCorrect(op, lhs, rhs, st, env, ctx, ma);
    var mb := Run(ExprCode(Binary(op, lhs, rhs), st).code, ma, ctx).value;
    mc := mb.(d := mb.d[0 := mb.d[0]]);
    RunSnoc(ExprCode(Binary(op, lhs, rhs), st).code, MoveArg(0), ma, ctx);
  }

  /** An expression with a value has code that does not panic, once every variable has a slot. */
  lemma {:induction false} ExprDefined(e: Expr, st: SymbolTable, env: map<string, real>, ctx: Context)
    requires Eval(e, env, ctx).Some? && forall x | x in env :: x in st
    ensures ExprCode(e, st).err.None?
    decreases e, 1
  {
    match e
    case Number(_) =>
    case Variable(_) =>
    case Binary(op, lhs, rhs) =>
      ExprDefined(lhs, st, env, ctx);
      ExprDefined(rhs, st, env, ctx);
    case Call(callee, args) =>
      EvalArgsEach(args, 0, env, ctx);
      ArgsDefined(args, 0, st, env, ctx);
  }

  lemma {:induction false} ArgsDefined(args: seq<Expr>, j: nat, st: SymbolTable, env: map<string, real>, ctx: Context)
    requires j <= |args| && forall x | x in env :: x in st
    requires forall k | j <= k < |args| :: Eval(args[k], env, ctx).Some?
    ensures ArgsCode(args, j, st).err.None?
    decreases args, |args| - j
  {
    if j < |args| {
      ArgsDefined(args, j + 1, st, env, ctx);
      ExprDefined(args[j], st, env, ctx);
    }
  }

  /**
   * A function with an odd number of parameters whose body is an operator
   * with a number or a variable on its right: its frame leaves `sp` 8 bytes
   * off a multiple of 16, so the spill after the right operand faults,
   * although the body has a value (`def f(x) x + x` is one).
   */
  lemma OddFrameFaults(f: Function, st: SymbolTable, vals: seq<real>, ctx: Context, m: Machine)
    requires Distinct(f.proto.args) && |vals| == |f.proto.args| && |f.proto.args| % 2 == 1
    requires f.body.Binary? && Leaf(f.body.rhs) && Safe(f.body) && Eval(f.body, ParamEnv(f.proto.args, vals), ctx).Some?
    requires m.sp % 16 == 0 && forall i | 0 <= i < |vals| :: i in m.d && m.d[i] == vals[i]
    ensures FunctionCode(f, st).0.err.None? && Run(FunctionCode(f, st).0.code, m, ctx) == None
  {
    var params := f.proto.args;
    var n := |params|;
    var st' := BindParams(st, params);
    var env := ParamEnv(params, vals);
    FunctionCodeParts(f, st);
    ParamOffsets(st, params);
    var m1 := OddEnter(f.proto.name, params, st', vals, ctx, m);
    ExprDefined(f.body, st', env, ctx);
    BodySpillFaults(f.body.op, f.body.lhs, f.body.rhs, st', env, ctx, m1);
    ThreePartsFault(FrameHead(f.proto.name, 8 * n, params, st'), ExprCode(f.body, st').code, FrameTail(8 * n), m, m1, ctx);
    assert FunctionHead(f, st') == FrameHead(f.proto.name, 8 * n, params, st');
  }

  /** An operator whose right operand is a number or a variable, run with `sp` 8 bytes off: the spill faults. */
  lemma BodySpillFaults(op: char, lhs: Expr, rhs: Expr, st: SymbolTable, env: map<string, real>, ctx: Context,
                        m: Machine)
    requires Leaf(rhs) && Eval(rhs, env, ctx).Some? && Slots(st, env, m, m.sp) && m.sp % 16 == 8
    requires BinaryCode(op, lhs, rhs, st).err.None?
    ensures Run(BinaryCode(op, lhs, rhs, st).code, m, ctx) == None
  {
    var r := ExprCode(rhs, st).code;
    var l := ExprCode(lhs, st).code;
    LeafCorrect(rhs, st, env, ctx, m);
    RunSnoc(r, Push, m, ctx);
    RunAppend(r + [Push], l + [Pop("d1")] + [Arith(ArithOf(op).value)], m, ctx);
    assert BinaryCode(op, lhs, rhs, st).code == r + [Push] + (l + [Pop("d1")] + [Arith(ArithOf(op).value)]);
  }

  lemma ThreePartsFault(a: seq<Instr>, b: seq<Instr>, c: seq<Instr>, m: Machine, m1: Machine, ctx: Context)
    requires Run(a, m, ctx) == Some(m1) && Run(b, m1, ctx) == None
    ensures Run(a + b + c, m, ctx) == None
  {
    RunAppend(a, b, m, ctx);
    RunAppend(a + b, c, m, ctx);
  }
}
