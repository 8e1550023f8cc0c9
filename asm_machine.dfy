/**
 * What the lines `AsmCode` describes do when an AArch64 processor runs
 * them, and what the expressions they come from mean.  The machine holds
 * the floating-point registers, the stack and frame pointers, the link
 * register and the memory cells the code reads and writes.  Accesses that
 * use `sp` as base fault unless `sp` is a multiple of 16, as the
 * architecture's stack alignment check makes them.
 */
module AsmMachine {
  import opened Wrappers
  import opened Ast
  import opened AsmCode

  /** A memory cell: a double, or a saved frame pointer or link register. */
  datatype Word = Val(v: real) | Addr(a: int)

  /** A routine `bl` can reach: how many arguments it reads from d0, d1, ... and the value it returns in d0. */
  datatype Routine = Routine(arity: nat, fn: seq<real> -> real)

  /** The routines callable by name, and the value each number literal denotes. */
  datatype Context = Context(lib: map<string, Routine>, num: string -> real)

  /** Registers d<i>, sp, x29 (`fp`), x30 (`lr`) and memory, one 8-byte cell per address used. */
  datatype Machine = Machine(d: map<nat, real>, sp: int, fp: int, lr: int, mem: map<int, Word>)

  /** x30 after a `bl`: the return address, which the model does not track and takes as this value. */
  const ReturnAddress: int := 0

  function Apply(op: ArithOp, x: real, y: real): real {
    match op
    case FAdd => x + y
    case FSub => x - y
    case FMul => x * y
  }

  /** The register `d<k>` a name such as "d1" denotes. */
  function RegIndex(reg: string): Option<nat> {
    if |reg| >= 2 && reg[0] == 'd' && (forall i | 1 <= i < |reg| :: '0' <= reg[i] <= '9') then
      assert forall i | 0 <= i < |reg[1..]| :: reg[1..][i] == reg[i + 1];
      Some(DecimalValue(reg[1..]))
    else None
  }

  /** The first `n` argument registers, in order. */
  function ArgValues(d: map<nat, real>, n: nat): (vs: seq<real>)
    requires forall i | 0 <= i < n :: i in d
    ensures |vs| == n && forall i | 0 <= i < n :: vs[i] == d[i]
  {
    seq(n, i requires 0 <= i < n => d[i])
  }

  /** The cells at or above `low`. */
  function Above(mem: map<int, Word>, low: int): map<int, Word> {
    map a | a in mem && a >= low :: mem[a]
  }

  /** One line, run on `m`: `None` is a fault, or a branch to a routine that does not exist. */
  function Step(i: Instr, m: Machine, ctx: Context): Option<Machine> {
    match i
    case SaveFrame =>
      if m.sp % 16 != 0 then None
      else Some(m.(sp := m.sp - 16, mem := m.mem[m.sp - 16 := Addr(m.fp)][m.sp - 8 := Addr(m.lr)]))
    case SetFrame => Some(m.(fp := m.sp))
    case RestoreFrame =>
      if m.sp % 16 == 0 && m.sp in m.mem && m.mem[m.sp].Addr? && m.sp + 8 in m.mem && m.mem[m.sp + 8].Addr? then
        Some(m.(fp := m.mem[m.sp].a, lr := m.mem[m.sp + 8].a, sp := m.sp + 16))
      else None
    case Ret => Some(m)
    case Push =>
      if m.sp % 16 == 0 && 0 in m.d then Some(m.(sp := m.sp - 16, mem := m.mem[m.sp - 16 := Val(m.d[0])]))
      else None
    case Pop(reg) =>
      if RegIndex(reg).Some? && m.sp % 16 == 0 && m.sp in m.mem && m.mem[m.sp].Val? then
        Some(m.(d := m.d[RegIndex(reg).value := m.mem[m.sp].v], sp := m.sp + 16))
      else None
    case LoadImm(text) => Some(m.(d := m.d[0 := ctx.num(text)]))
    case LoadLocal(offset) =>
      if m.fp - offset in m.mem && m.mem[m.fp - offset].Val? then Some(m.(d := m.d[0 := m.mem[m.fp - offset].v]))
      else None
    case Arith(op) =>
      if 0 in m.d && 1 in m.d then Some(m.(d := m.d[0 := Apply(op, m.d[0], m.d[1])])) else None
    case MoveArg(ix) =>
      if 0 in m.d then Some(m.(d := m.d[ix := m.d[0]])) else None
    case BranchLink(callee) =>
      if callee in ctx.lib && m.sp % 16 == 0 && (forall k | 0 <= k < ctx.lib[callee].arity :: k in m.d) then
        var r := ctx.lib[callee];
        Some(Machine(map[0 := r.fn(ArgValues(m.d, r.arity))], m.sp, m.fp, ReturnAddress, Above(m.mem, m.sp)))
      else None
    case Globl(_) => Some(m)
    case Align => Some(m)
    case Label(_) => Some(m)
    case SubSp(amount) => Some(m.(sp := m.sp - amount))
    case StoreArg(ix, offset) =>
      if ix in m.d then Some(m.(mem := m.mem[m.fp - offset := Val(m.d[ix])])) else None
    case AddSp(amount) => Some(m.(sp := m.sp + amount))
  }

  /** A run of lines from `m`, stopping at the first fault. */
  function Run(code: seq<Instr>, m: Machine, ctx: Context): Option<Machine>
    decreases |code|
  {
    if |code| == 0 then Some(m)
    else
      match Run(code[..|code| - 1], m, ctx)
      case None => None
      case Some(m') => Step(code[|code| - 1], m', ctx)
  }

  /**
   * The value of an expression whose variables take their values from
   * `env`: `None` where it has none (an unknown name or routine, a wrong
   * number of arguments, or an operator the emitter does not implement).
   */
  function Eval(e: Expr, env: map<string, real>, ctx: Context): Option<real>
    decreases e, 1
  {
    match e
    case Number(text) => Some(ctx.num(text))
    case Variable(name) => if name in env then Some(env[name]) else None
    case Binary(op, lhs, rhs) =>
      var l := Eval(lhs, env, ctx);
      var r := Eval(rhs, env, ctx);
      if l.Some? && r.Some? && ArithOf(op).Some? then Some(Apply(ArithOf(op).value, l.value, r.value)) else None
    case Call(callee, args) =>
      var vs := EvalArgs(args, 0, env, ctx);
      if vs.Some? && callee in ctx.lib && ctx.lib[callee].arity == |args| then Some(ctx.lib[callee].fn(vs.value))
      else None
  }

  /** The values of `args[j..]`, if all have one. */
  function EvalArgs(args: seq<Expr>, j: nat, env: map<string, real>, ctx: Context): Option<seq<real>>
    requires j <= |args|
    decreases args, |args| - j
  {
    if j == |args| then Some([])
    else
      var v := Eval(args[j], env, ctx);
      var rest := EvalArgs(args, j + 1, env, ctx);
      if v.Some? && rest.Some? then Some([v.value] + rest.value) else None
  }

  /** The variables of a function whose parameters `params` received the values `vals`. */
  function ParamEnv(params: seq<string>, vals: seq<real>): map<string, real>
    requires |params| == |vals|
    decreases |params|
  {
    if |params| == 0 then map[]
    else ParamEnv(params[..|params| - 1], vals[..|vals| - 1])[params[|params| - 1] := vals[|vals| - 1]]
  }
}
