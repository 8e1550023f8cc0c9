/**
 * The emitter with its two faults corrected, and the correctness it then
 * has with no condition on the program.  A call spills each argument as
 * it is computed, from last to first, and pops them into d0, d1, ... only
 * once all are computed, so computing one argument can no longer
 * overwrite another's register.  A function reserves its parameter slots
 * in a frame rounded up to a multiple of 16 bytes, so `sp` stays aligned.
 */
module AsmFixed {
  import opened Wrappers
  import opened Ast
  import opened AsmCode
  import opened AsmFacts
  import opened AsmMachine
  import opened AsmCorrect

  /** The name of argument register `k`, as `pop` takes it. */
  function RegName(k: nat): string {
    "d" + NatToString(k)
  }

  /** `ldr d0, [sp], #16`, `ldr d1, [sp], #16`, ...: the top `n` stack entries into d0 .. d<n-1>. */
  function PopArgs(n: nat): seq<Instr> {
    if n == 0 then [] else PopArgs(n - 1) + [Pop(RegName(n - 1))]
  }

  /** The bytes reserved for `n` parameter slots: 8 each, rounded up to a multiple of 16. */
  function FrameSize(n: nat): nat {
    16 * ((n + 1) / 2)
  }

  /** `ExprCode` with the corrected call. */
  function FixedExprCode(e: Expr, st: SymbolTable): Emission
    decreases e, 2
  {
    match e
    case Number(_) => ExprCode(e, st)
    case Variable(_) => ExprCode(e, st)
    case Binary(op, lhs, rhs) => FixedBinaryCode(op, lhs, rhs, st)
    case Call(callee, args) => FixedCallCode(callee, args, st)
  }

  /** `BinaryCode` over the corrected operands. */
  function FixedBinaryCode(op: char, lhs: Expr, rhs: Expr, st: SymbolTable): Emission
    decreases Binary(op, lhs, rhs), 1
  {
    var r := FixedExprCode(rhs, st);
    if r.err.Some? then r
    else
      var l := FixedExprCode(lhs, st);
      if l.err.Some? then Emission(r.code + [Push] + l.code, l.err)
      else
        var operands := r.code + [Push] + l.code + [Pop("d1")];
        if ArithOf(op).Some? then Emission(operands + [Arith(ArithOf(op).value)], None)
        else Emission(operands, Some(if op == '<' then LessNotImplemented else InvalidBinop(op)))
  }

  /** The corrected call: every argument spilled, last first, then all popped into their registers, then `bl`. */
  function FixedCallCode(callee: string, args: seq<Expr>, st: SymbolTable): Emission
    decreases Call(callee, args), 1
  {
    var a := FixedArgsCode(args, 0, st);
    if a.err.Some? then a else Emission(a.code + PopArgs(|args|) + [BranchLink(callee)], None)
  }

  /** The corrected argument loop down to index `j`: each argument's code, then its spill. */
  function FixedArgsCode(args: seq<Expr>, j: nat, st: SymbolTable): Emission
    requires j <= |args|
    decreases args, |args| - j
  {
    if j == |args| then Emission([], None)
    else
      var done := FixedArgsCode(args, j + 1, st);
      if done.err.Some? then done
      else
        var a := FixedExprCode(args[j], st);
        if a.err.Some? then Emission(done.code + a.code, a.err)
        else Emission(done.code + a.code + [Push], None)
  }

  /** `FunctionCode` with a frame of `FrameSize` bytes and the corrected body. */
  function FixedFunctionCode(f: Function, st: SymbolTable): (Emission, SymbolTable)
  {
    var name := f.proto.name;
    var st' := BindParams(st, f.proto.args);
    BindParamsKeys(st, f.proto.args);
    var body := FixedExprCode(f.body, st');
    var size := FrameSize(|f.proto.args|);
    var code := FrameHead(name, size, f.proto.args, st') + body.code;
    if body.err.Some? then (Emission(code, body.err), st')
    else (Emission(code + FrameTail(size), None), st')
  }

  /** `pop` reads the register name `RegName(k)` back as register `k`. */
  lemma RegNameIndex(k: nat)
    ensures RegIndex(RegName(k)) == Some(k)
  {
    var s := NatToString(k);
    assert RegName(k)[1..] == s;
    DecimalRoundTrip(k);
  }

  lemma FrameSizeFits(n: nat)
    ensures FrameSize(n) >= 8 * n && FrameSize(n) % 16 == 0
  {
    var h := (n + 1) / 2;
    assert 2 * h >= n;
    AlignedUp(0, h);
  }

  lemma AlignedUp(sp: int, k: nat)
    requires sp % 16 == 0
    ensures (sp + 16 * k) % 16 == 0
  {
  }

  /** The stack entry `i` places above `sp`. */
  function Entry(sp: int, i: nat): int {
    sp + 16 * i
  }

  /** The pops of `PopArgs(k)` from a stack whose entry `i` holds `vals[i]`: register `i` gets `vals[i]`. */
  lemma {:induction false} PopsRun(k: nat, m: Machine, vals: seq<real>, ctx: Context) returns (m': Machine)
    requires k <= |vals| && m.sp % 16 == 0
    requires forall i | 0 <= i < |vals| :: Entry(m.sp, i) in m.mem && m.mem[Entry(m.sp, i)] == Val(vals[i])
    ensures Run(PopArgs(k), m, ctx) == Some(m')
    ensures m'.sp == Entry(m.sp, k) && m'.fp == m.fp && m'.mem == m.mem
    ensures forall i | 0 <= i < k :: i in m'.d && m'.d[i] == vals[i]
    decreases k
  {
    if k == 0 {
      m' := m;
    } else {
      var m1 := PopsRun(k - 1, m, vals, ctx);
      m' := PopNext(k, m, m1, vals, ctx);
      RunSnoc(PopArgs(k - 1), Pop(RegName(k - 1)), m, ctx);
    }
  }

  lemma PopNext(k: nat, m: Machine, m1: Machine, vals: seq<real>, ctx: Context) returns (m': Machine)
    requires 1 <= k <= |vals| && m.sp % 16 == 0
    requires Entry(m.sp, k - 1) in m.mem && m.mem[Entry(m.sp, k - 1)] == Val(vals[k - 1])
    requires m1.sp == Entry(m.sp, k - 1) && m1.mem == m.mem
    requires forall i | 0 <= i < k - 1 :: i in m1.d && m1.d[i] == vals[i]
    ensures Step(Pop(RegName(k - 1)), m1, ctx) == Some(m')
    ensures m'.sp == Entry(m.sp, k) && m'.fp == m1.fp && m'.mem == m.mem
    ensures forall i | 0 <= i < k :: i in m'.d && m'.d[i] == vals[i]
  {
    RegNameIndex(k - 1);
    AlignedUp(m.sp, k - 1);
    m' := m1.(d := m1.d[k - 1 := vals[k - 1]], sp := m1.sp + 16);
  }

  /** The corrected code of any expression with a value computes that value. */
  lemma {:induction false} FixedExprCorrect(e: Expr, st: SymbolTable, env: map<string, real>, ctx: Context, m: Machine)
    requires Eval(e, env, ctx).Some?
    requires Slots(st, env, m, m.sp) && m.sp % 16 == 0
    ensures FixedExprCode(e, st).err.None? && Run(FixedExprCode(e, st).code, m, ctx).Some?
    ensures Computes(m, Run(FixedExprCode(e, st).code, m, ctx).value, Eval(e, env, ctx).value)
    decreases e, 2
  {
    match e
    case Number(_) =>
      LeafCorrect(e, st, env, ctx, m);
    case Variable(_) =>
      LeafCorrect(e, st, env, ctx, m);
    case Binary(op, lhs, rhs) =>
      FixedBinaryCorrect(op, lhs, rhs, st, env, ctx, m);
    case Call(callee, args) =>
      FixedCallCorrect(callee, args, st, env, ctx, m);
  }

  lemma {:induction false} FixedBinaryCorrect(op: char, lhs: Expr, rhs: Expr, st: SymbolTable,
                                              env: map<string, real>, ctx: Context, m: Machine)
    requires Eval(Binary(op, lhs, rhs), env, ctx).Some?
    requires Slots(st, env, m, m.sp) && m.sp % 16 == 0
    ensures FixedBinaryCode(op, lhs, rhs, st).err.None? && Run(FixedBinaryCode(op, lhs, rhs, st).code, m, ctx).Some?
    ensures Computes(m, Run(FixedBinaryCode(op, lhs, rhs, st).code, m, ctx).value, Eval(Binary(op, lhs, rhs), env, ctx).value)
    decreases Binary(op, lhs, rhs), 1
  {
    var vl := Eval(lhs, env, ctx).value;
    var vr := Eval(rhs, env, ctx).value;
    var a := ArithOf(op).value;
    var r := FixedExprCode(rhs, st);
    var l := FixedExprCode(lhs, st);
    FixedExprCorrect(rhs, st, env, ctx, m);
    var m1 := Run(r.code, m, ctx).value;
    var m2 := Spill(m, m1, vr, ctx);
    SlotsKept(st, env, m, m2, m.sp, m2.sp);
    FixedExprCorrect(lhs, st, env, ctx, m2);
    var m3 := Run(l.code, m2, ctx).value;
    var m5 := ReloadApply(m, m2, m3, vl, vr, a, ctx);
    BinaryRuns(r.code, l.code, a, m, m1, m2, m3, m5, ctx);
    assert FixedBinaryCode(op, lhs, rhs, st) == Emission(r.code + [Push] + l.code + [Pop("d1")] + [Arith(a)], None);
  }

  /** All arguments spilled, all popped into d0, d1, ..., then `bl`: the routine gets every argument's value. */
  lemma {:induction false} FixedCallCorrect(callee: string, args: seq<Expr>, st: SymbolTable, env: map<string, real>,
                                            ctx: Context, m: Machine)
    requires Eval(Call(callee, args), env, ctx).Some?
    requires Slots(st, env, m, m.sp) && m.sp % 16 == 0
    ensures FixedCallCode(callee, args, st).err.None? && Run(FixedCallCode(callee, args, st).code, m, ctx).Some?
    ensures Computes(m, Run(FixedCallCode(callee, args, st).code, m, ctx).value, Eval(Call(callee, args), env, ctx).value)
    decreases Call(callee, args), 1
  {
    var vals := EvalArgs(args, 0, env, ctx).value;
    EvalArgsEach(args, 0, env, ctx);
    var m' := FixedCallRuns(callee, args, st, env, ctx, m, vals);
  }

  /** `FixedCallCorrect` once the arguments' values are known. */
  lemma {:induction false} FixedCallRuns(callee: string, args: seq<Expr>, st: SymbolTable, env: map<string, real>,
                                         ctx: Context, m: Machine, vals: seq<real>) returns (m': Machine)
    requires |args| == |vals| && forall k | 0 <= k < |args| :: Eval(args[k], env, ctx) == Some(vals[k])
    requires callee in ctx.lib && ctx.lib[callee].arity == |args|
    requires Slots(st, env, m, m.sp) && m.sp % 16 == 0
    ensures FixedCallCode(callee, args, st).err.None? && Run(FixedCallCode(callee, args, st).code, m, ctx) == Some(m')
    ensures Computes(m, m', ctx.lib[callee].fn(vals))
    decreases Call(callee, args), 0
  {
    FixedArgsCorrect(args, 0, st, env, ctx, m, vals);
    var a := FixedArgsCode(args, 0, st);
    var m1 := Run(a.code, m, ctx).value;
    m' := PopAndBranch(callee, m, m1, vals, ctx);
    RunAppend(a.code, PopArgs(|args|) + [BranchLink(callee)], m, ctx);
    assert a.code + PopArgs(|args|) + [BranchLink(callee)] == a.code + (PopArgs(|args|) + [BranchLink(callee)]);
  }

  /** Once every argument is spilled, the pops and `bl`: d0 ends as the routine's value on them. */
  lemma PopAndBranch(callee: string, m: Machine, m1: Machine, vals: seq<real>, ctx: Context) returns (m3: Machine)
    requires Spilled(m, m1, vals, 0) && m.sp % 16 == 0
    requires callee in ctx.lib && ctx.lib[callee].arity == |vals|
    ensures Run(PopArgs(|vals|) + [BranchLink(callee)], m1, ctx) == Some(m3)
    ensures Computes(m, m3, ctx.lib[callee].fn(vals))
  {
    var m2 := PopsRun(|vals|, m1, vals, ctx);
    Branch(callee, m, m2, vals, ctx);
    m3 := Step(BranchLink(callee), m2, ctx).value;
    RunSnoc(PopArgs(|vals|), BranchLink(callee), m1, ctx);
  }

  /**
   * The corrected argument loop down to index `j`: `sp` has moved down one
   * entry per argument, and entry `i` above it holds argument `j + i`.
   */
  lemma {:induction false} FixedArgsCorrect(args: seq<Expr>, j: nat, st: SymbolTable, env: map<string, real>,
                                            ctx: Context, m: Machine, vals: seq<real>)
    requires j <= |args| == |vals|
    requires forall k | j <= k < |args| :: Eval(args[k], env, ctx) == Some(vals[k])
    requires Slots(st, env, m, m.sp) && m.sp % 16 == 0
    ensures FixedArgsCode(args, j, st).err.None? && Run(FixedArgsCode(args, j, st).code, m, ctx).Some?
    ensures Spilled(m, Run(FixedArgsCode(args, j, st).code, m, ctx).value, vals, j)
    decreases args, |args| - j
  {
    if j < |args| {
      FixedArgsCorrect(args, j + 1, st, env, ctx, m, vals);
      var done := FixedArgsCode(args, j + 1, st);
      var m1 := Run(done.code, m, ctx).value;
      SlotsKept(st, env, m, m1, m.sp, m1.sp);
      FixedExprCorrect(args[j], st, env, ctx, m1);
      var a := FixedExprCode(args[j], st);
      var m2 := Run(a.code, m1, ctx).value;
      var m3 := SpillArg(m, m1, m2, vals, j, ctx);
      RunAppend(done.code, a.code, m, ctx);
      RunSnoc(done.code + a.code, Push, m, ctx);
      assert FixedArgsCode(args, j, st) == Emission(done.code + a.code + [Push], None);
    }
  }

  /** `sp` sits one entry per argument of `vals[j..]` below `m`'s, and entry `i` holds `vals[j + i]`. */
  ghost predicate Spilled(m: Machine, m': Machine, vals: seq<real>, j: nat)
    requires j <= |vals|
  {
    m'.sp == m.sp - 16 * (|vals| - j) && m'.sp % 16 == 0 && m'.fp == m.fp && Kept(m.mem, m'.mem, m.sp) &&
    forall i | 0 <= i < |vals| - j :: Entry(m'.sp, i) in m'.mem && m'.mem[Entry(m'.sp, i)] == Val(vals[j + i])
  }

  /** `str d0, [sp, #-16]!` once argument `j` is in d0: it becomes the top entry. */
  lemma SpillArg(m: Machine, m1: Machine, m2: Machine, vals: seq<real>, j: nat, ctx: Context) returns (m3: Machine)
    requires j < |vals| && Spilled(m, m1, vals, j + 1) && Computes(m1, m2, vals[j])
    ensures Step(Push, m2, ctx) == Some(m3) && Spilled(m, m3, vals, j)
  {
    m3 := m2.(sp := m1.sp - 16, mem := m2.mem[m1.sp - 16 := Val(vals[j])]);
    Aligned(m1.sp, 0);
    KeptTrans(m.mem, m1.mem, m2.mem, m.sp, m1.sp);
    assert Kept(m2.mem, m3.mem, m1.sp);
    KeptTrans(m.mem, m2.mem, m3.mem, m.sp, m1.sp);
    forall i | 0 <= i < |vals| - j
      ensures Entry(m3.sp, i) in m3.mem && m3.mem[Entry(m3.sp, i)] == Val(vals[j + i])
    {
      if i > 0 {
        var a := Entry(m1.sp, i - 1);
        assert Entry(m3.sp, i) == a && a >= m1.sp && (j + 1) + (i - 1) == j + i;
      }
    }
  }

  /**
   * The corrected code of any function with distinct parameters, entered
   * with 16-aligned `sp` and its arguments in d0, d1, ...: it returns its
   * body's value in d0, with `sp`, `fp`, `lr` and the caller's stack as
   * they were, whatever the number of parameters.
   */
  lemma FixedFunctionCorrect(f: Function, st: SymbolTable, vals: seq<real>, ctx: Context, m: Machine)
    requires Distinct(f.proto.args) && |vals| == |f.proto.args|
    requires Eval(f.body, ParamEnv(f.proto.args, vals), ctx).Some?
    requires m.sp % 16 == 0 && forall i | 0 <= i < |vals| :: i in m.d && m.d[i] == vals[i]
    ensures FixedFunctionCode(f, st).0.err.None? && Run(FixedFunctionCode(f, st).0.code, m, ctx).Some?
    ensures Returns(m, Run(FixedFunctionCode(f, st).0.code, m, ctx).value, Eval(f.body, ParamEnv(f.proto.args, vals), ctx).value)
  {
    var params := f.proto.args;
    var st' := BindParams(st, params);
    BindParamsKeys(st, params);
    ParamOffsets(st, params);
    FixedBodyInFrame(f.proto.name, params, st', f.body, vals, ctx, m);
  }

  lemma FixedBodyInFrame(name: string, params: seq<string>, st: SymbolTable, body: Expr, vals: seq<real>,
                         ctx: Context, m: Machine)
    requires Distinct(params) && |vals| == |params|
    requires forall i | 0 <= i < |params| :: params[i] in st && st[params[i]] == 8 * (i + 1)
    requires Eval(body, ParamEnv(params, vals), ctx).Some?
    requires m.sp % 16 == 0 && forall i | 0 <= i < |vals| :: i in m.d && m.d[i] == vals[i]
    ensures forall p | p in params :: p in st
    ensures FixedExprCode(body, st).err.None?
    ensures var size := FrameSize(|params|);
            var code := FrameHead(name, size, params, st) + FixedExprCode(body, st).code + FrameTail(size);
            Run(code, m, ctx).Some? && Returns(m, Run(code, m, ctx).value, Eval(body, ParamEnv(params, vals), ctx).value)
  {
    var size := FrameSize(|params|);
    var m1 := FixedEnter(name, params, st, vals, ctx, m);
    var env := ParamEnv(params, vals);
    FixedExprCorrect(body, st, env, ctx, m1);
    var code := FixedExprCode(body, st).code;
    var m2 := Run(code, m1, ctx).value;
    var m3 := LeaveFunction(size, m, m1, m2, Eval(body, env, ctx).value, ctx);
    ThreeParts(FrameHead(name, size, params, st), code, FrameTail(size), m, m1, m2, m3, ctx);
  }

  /** The lines before the body, with the rounded frame: every parameter is in its slot, and `sp` is 16-aligned. */
  lemma FixedEnter(name: string, params: seq<string>, st: SymbolTable, vals: seq<real>, ctx: Context, m: Machine)
    returns (m1: Machine)
    requires Distinct(params) && |vals| == |params|
    requires forall i | 0 <= i < |params| :: params[i] in st && st[params[i]] == 8 * (i + 1)
    requires m.sp % 16 == 0 && forall i | 0 <= i < |vals| :: i in m.d && m.d[i] == vals[i]
    ensures forall p | p in params :: p in st
    ensures Run(FrameHead(name, FrameSize(|params|), params, st), m, ctx) == Some(m1)
    ensures m1.sp == m.sp - 16 - FrameSize(|params|) && m1.fp == m.sp - 16 && Kept(m.mem, m1.mem, m.sp)
    ensures m.sp - 16 in m1.mem && m1.mem[m.sp - 16] == Addr(m.fp) && m.sp - 8 in m1.mem && m1.mem[m.sp - 8] == Addr(m.lr)
    ensures Slots(st, ParamEnv(params, vals), m1, m1.sp) && m1.sp % 16 == 0
  {
    FrameSizeFits(|params|);
    m1 := EnterFunction(name, params, st, FrameSize(|params|), vals, ctx, m);
    FrameAligned(m.sp, |params|);
  }

  lemma FrameAligned(sp: int, n: nat)
    requires sp % 16 == 0
    ensures (sp - 16 - FrameSize(n)) % 16 == 0
  {
    Aligned(sp, (n + 1) / 2);
  }
}
