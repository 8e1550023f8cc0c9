/**
 * What the ARMv8 emitter of asmgen.go prints, as pure functions of the
 * AST and the symbol table.  Each printed line is an `Instr`; `Render`
 * gives the exact text `fmt.Printf` writes for it.  A `panic` becomes an
 * `Emission` whose `err` is set: the lines printed before the panic are
 * kept, nothing after it is printed.
 */
module AsmCode {
  import opened Wrappers
  import opened Ast

  /** The frame offset of each name, as `ASMGen.symbolTable` holds it. */
  type SymbolTable = map<string, int>

  datatype ArithOp = FAdd | FSub | FMul

  /** One line of output. */
  datatype Instr =
    | SaveFrame                          // addPrologue, first line
    | SetFrame                           // addPrologue, second line
    | RestoreFrame                       // addEpilogue, first line
    | Ret                                // addEpilogue, second line
    | Push                               // push: spill d0
    | Pop(reg: string)                   // pop: reload into `reg`
    | LoadImm(text: string)              // a number literal into d0
    | LoadLocal(offset: int)             // a parameter slot into d0
    | Arith(op: ArithOp)                 // d0 := d0 op d1
    | MoveArg(ix: nat)                   // d0 into argument register d<ix>
    | BranchLink(callee: string)         // bl _callee
    | Globl(name: string)                // .globl  _name
    | Align                              // .p2align 2
    | Label(name: string)                // _name:
    | SubSp(amount: int)                 // reserve the parameter slots
    | StoreArg(ix: nat, offset: int)     // argument register d<ix> into its slot
    | AddSp(amount: int)                 // release the parameter slots

  /** The panics of asmgen.go. */
  datatype GenError =
    | UnknownVar(name: string)           // asmgen.go:50-52
    | LessNotImplemented                 // asmgen.go:69-70
    | InvalidBinop(op: char)             // asmgen.go:71-72

  /** The lines printed, and the panic that stopped printing, if any. */
  datatype Emission = Emission(code: seq<Instr>, err: Option<GenError>)

  function Digit(d: nat): (c: char)
    requires d < 10
    ensures '0' <= c <= '9'
  {
    ('0' as int + d) as char
  }

  /** `%d` of a non-negative integer: its decimal digits, no leading zeros. */
  function NatToString(n: nat): (s: string)
    ensures |s| > 0 && (forall i | 0 <= i < |s| :: '0' <= s[i] <= '9')
    ensures |s| > 1 ==> s[0] != '0'
  {
    if n < 10 then [Digit(n)] else NatToString(n / 10) + [Digit(n % 10)]
  }

  /** `%d` of any integer. */
  function IntToString(n: int): string {
    if n < 0 then "-" + NatToString(-n) else NatToString(n)
  }

  /** The value of a string of decimal digits. */
  function DecimalValue(s: string): nat
    requires forall i | 0 <= i < |s| :: '0' <= s[i] <= '9'
  {
    if |s| == 0 then 0 else 10 * DecimalValue(s[..|s| - 1]) + (s[|s| - 1] as int - '0' as int)
  }

  /**
   * The text `fmt.Printf` writes for each line (asmgen.go:25-114).  Every
   * line ends with a line break; a label starts in the first column and
   * everything else is indented by a tab.
   */
  function Render(i: Instr): (s: string)
    ensures |s| >= 2 && s[|s| - 1] == '\n'
    ensures s[0] == (if i.Label? then '_' else '\t')
  {
    match i
    case SaveFrame => "\tstp\tx29, x30, [sp, #-16]!\n"
    case SetFrame => "\tmov\tx29, sp\n"
    case RestoreFrame => "\tldp     x29, x30, [sp], #16\n"
    case Ret => "\tret\n\n"
    case Push => "\tstr d0, [sp, #-16]!\n"
    case Pop(reg) => "\tldr\t" + reg + ", [sp], #16\n"
    case LoadImm(text) => "\tfmov d0, #" + text + "\n"
    case LoadLocal(offset) => "\tldr d0, [x29, #-" + IntToString(offset) + "]\n"
    case Arith(FAdd) => "\tfadd d0, d0, d1\n"
    case Arith(FSub) => "\tfsub d0, d0, d1\n"
    case Arith(FMul) => "\tfmul d0, d0, d1\n"
    case MoveArg(ix) => "\tfmov\td" + NatToString(ix) + ", d0\n"
    case BranchLink(callee) => "\tbl _" + callee + "\n"
    case Globl(name) => "\t.globl  _" + name + "\n"
    case Align => "\t.p2align 2\n"
    case Label(name) => "_" + name + ":\n"
    case SubSp(amount) => "\tsub sp, sp, " + IntToString(amount) + "\n"
    case StoreArg(ix, offset) => "\tstr d" + NatToString(ix) + ", [x29, #-" + IntToString(offset) + "]\n"
    case AddSp(amount) => "\tadd sp, sp, " + IntToString(amount) + "\n"
  }

  /** The printed text of a run of lines, one string per `Printf`. */
  function Text(code: seq<Instr>): (t: seq<string>)
    ensures |t| == |code|
  {
    if |code| == 0 then [] else Text(code[..|code| - 1]) + [Render(code[|code| - 1])]
  }

  /** The arithmetic instruction of each implemented operator (asmgen.go:62-68). */
  function ArithOf(op: char): Option<ArithOp> {
    if op == '+' then Some(FAdd)
    else if op == '-' then Some(FSub)
    else if op == '*' then Some(FMul)
    else None
  }

  /**
   * The `asmGen` method of each expression node (asmgen.go:43-84).  An
   * "Unknown var" panic, wherever in the tree it comes from, names a
   * variable that really is missing from the table.
   */
  function ExprCode(e: Expr, st: SymbolTable): (em: Emission)
    ensures em.err.Some? && em.err.value.UnknownVar? ==> em.err.value.name !in st
    decreases e, 2
  {
    match e
    case Number(val) => Emission([LoadImm(val)], None)
    case Variable(name) =>
      if name in st then Emission([LoadLocal(st[name])], None) else Emission([], Some(UnknownVar(name)))
    case Binary(op, lhs, rhs) => BinaryCode(op, lhs, rhs, st)
    case Call(callee, args) => CallCode(callee, args, st)
  }

  /** `BinaryExprAST.asmGen` (asmgen.go:56-74): right operand, spill, left operand, reload, operator. */
  function BinaryCode(op: char, lhs: Expr, rhs: Expr, st: SymbolTable): (em: Emission)
    ensures em.err.Some? && em.err.value.UnknownVar? ==> em.err.value.name !in st
    ensures em.err.None? ==> ArithOf(op).Some?
    decreases Binary(op, lhs, rhs), 1
  {
    var r := ExprCode(rhs, st);
    if r.err.Some? then r
    else
      var l := ExprCode(lhs, st);
      if l.err.Some? then Emission(r.code + [Push] + l.code, l.err)
      else
        var operands := r.code + [Push] + l.code + [Pop("d1")];
        if ArithOf(op).Some? then Emission(operands + [Arith(ArithOf(op).value)], None)
        else Emission(operands, Some(if op == '<' then LessNotImplemented else InvalidBinop(op)))
  }

  /** `CallExprAST.asmGen` (asmgen.go:76-84): the arguments from last to first, then the branch. */
  function CallCode(callee: string, args: seq<Expr>, st: SymbolTable): (em: Emission)
    ensures em.err.Some? && em.err.value.UnknownVar? ==> em.err.value.name !in st
    decreases Call(callee, args), 1
  {
    var a := ArgsCode(args, 0, st);
    if a.err.Some? then a else Emission(a.code + [BranchLink(callee)], None)
  }

  /**
   * The argument loop of asmgen.go:78-81 once it has handled every index
   * from `|args| - 1` down to `j`: each argument's code, then its move
   * into `d<ix>`.
   */
  function ArgsCode(args: seq<Expr>, j: nat, st: SymbolTable): (em: Emission)
    requires j <= |args|
    ensures em.err.Some? && em.err.value.UnknownVar? ==> em.err.value.name !in st
    decreases args, |args| - j
  {
    if j == |args| then Emission([], None)
    else
      var done := ArgsCode(args, j + 1, st);
      if done.err.Some? then done
      else
        var a := ExprCode(args[j], st);
        if a.err.Some? then Emission(done.code + a.code, a.err)
        else Emission(done.code + a.code + [MoveArg(j)], None)
  }

  /**
   * The table after the offset loop of asmgen.go:96-100 has run over
   * `params`: each parameter's slot is a multiple of 8 inside the frame of
   * `8 * |params|` bytes, and every other name keeps its old offset.
   */
  function BindParams(st: SymbolTable, params: seq<string>): (st': SymbolTable)
    ensures st.Keys <= st'.Keys
    decreases |params|
  {
    if |params| == 0 then st
    else BindParams(st, params[..|params| - 1])[params[|params| - 1] := 8 * |params|]
  }

  /** `addPrologue` (asmgen.go:25-28): save the frame and link registers, set the frame pointer. */
  const Prologue: seq<Instr> := [SaveFrame, SetFrame]

  /** `addEpilogue` (asmgen.go:30-33): restore both registers and return. */
  const Epilogue: seq<Instr> := [RestoreFrame, Ret]

  /** One `str d<ix>` per parameter, in declaration order (asmgen.go:106-108). */
  function StoreArgs(params: seq<string>, st: SymbolTable): seq<Instr>
    requires forall p | p in params :: p in st
  {
    if |params| == 0 then []
    else StoreArgs(params[..|params| - 1], st) + [StoreArg(|params| - 1, st[params[|params| - 1]])]
  }

  /** The lines before the body: header, label, prologue, frame and argument stores. */
  function FunctionHead(f: Function, st: SymbolTable): seq<Instr>
    requires forall p | p in f.proto.args :: p in st
  {
    var name := f.proto.name;
    [Globl(name), Align, Label(name)] + Prologue + [SubSp(8 * |f.proto.args|)] + StoreArgs(f.proto.args, st)
  }

  /**
   * `FunctionAST.asmGen` (asmgen.go:88-114) against the table `st` it
   * finds: the lines it prints and the table it leaves.
   */
  function FunctionCode(f: Function, st: SymbolTable): (r: (Emission, SymbolTable))
    ensures r.0.err.Some? && r.0.err.value.UnknownVar? ==> r.0.err.value.name !in st && r.0.err.value.name !in f.proto.args
  {
    var st' := BindParams(st, f.proto.args);
    BindParamsKeys(st, f.proto.args);
    var body := ExprCode(f.body, st');
    var size := 8 * |f.proto.args|;
    var code := FunctionHead(f, st') + body.code;
    if body.err.Some? then (Emission(code, body.err), st')
    else (Emission(code + [AddSp(size)] + Epilogue, None), st')
  }

  /** `FunctionCode` piece by piece: the head, the body, and the tail unless the body panicked. */
  lemma FunctionCodeParts(f: Function, st: SymbolTable)
    ensures forall p | p in f.proto.args :: p in BindParams(st, f.proto.args)
    ensures FunctionCode(f, st).1 == BindParams(st, f.proto.args)
    ensures FunctionCode(f, st).0.err == ExprCode(f.body, BindParams(st, f.proto.args)).err
    ensures FunctionCode(f, st).0.code ==
              FunctionHead(f, BindParams(st, f.proto.args)) + ExprCode(f.body, BindParams(st, f.proto.args)).code +
              (if ExprCode(f.body, BindParams(st, f.proto.args)).err.Some? then [] else [AddSp(8 * |f.proto.args|)] + Epilogue)
  {
    BindParamsKeys(st, f.proto.args);
  }

  /** Every parameter is in the table once the offset loop has run, and no name leaves it. */
  lemma {:induction false} BindParamsKeys(st: SymbolTable, params: seq<string>)
    ensures BindParams(st, params).Keys == st.Keys + set p | p in params
    ensures forall p | p in params :: p in BindParams(st, params)
    decreases |params|
  {
    if |params| > 0 {
      var init := params[..|params| - 1];
      BindParamsKeys(st, init);
      assert params == init + [params[|params| - 1]];
    }
  }

  /** Once an argument panics, no argument left of it is emitted: the loop's result is fixed. */
  lemma {:induction false} ArgsErrorSticks(args: seq<Expr>, j: nat, k: nat, st: SymbolTable)
    requires k <= j < |args| && ArgsCode(args, j, st).err.Some?
    ensures ArgsCode(args, k, st) == ArgsCode(args, j, st)
    decreases j - k
  {
    if k < j {
      ArgsErrorSticks(args, j, k + 1, st);
    }
  }
}
