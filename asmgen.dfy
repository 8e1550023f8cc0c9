/**
 * The emitter of asmgen.go as it runs: an `ASMGen` object whose symbol
 * table and frame size its methods update, and whose output is the text
 * printed so far.  Each method is proved to print exactly the lines the
 * matching `AsmCode` function describes and to stop where that function
 * says it panics.
 */
module AsmGen {
  import opened Wrappers
  import opened Ast
  import opened AsmCode

  /** `ASMGen` (asmgen.go:10-13), with standard output as `out`. */
  class ASMGen {
    var symbolTable: SymbolTable
    var stkSize: int
    /** Every string printed so far, one per `Printf`. */
    var out: seq<string>
    /** The lines behind `out`. */
    ghost var code: seq<Instr>

    /**
     * `out` is the text of `code`; stated for every sequence equal to
     * `code`, so the text function is only unfolded where a proof names it.
     */
    ghost predicate Valid()
      reads this
    {
      forall c: seq<Instr> :: c == code ==> out == Text(c)
    }

    /** `newASMGen` (asmgen.go:19-23): an empty table and nothing printed. */
    constructor ()
      ensures Valid() && symbolTable == map[] && stkSize == 0 && code == [] && out == []
    {
      symbolTable := map[];
      stkSize := 0;
      out := [];
      code := [];
    }

    /** One `fmt.Printf` of the line `i`. */
    method Print(i: Instr)
      requires Valid()
      modifies this
      ensures Valid() && code == old(code) + [i] && out == old(out) + [Render(i)]
      ensures symbolTable == old(symbolTable) && stkSize == old(stkSize)
    {
      assert out == Text(code);
      assert (code + [i])[..|code|] == code;
      assert Text(code + [i]) == out + [Render(i)];
      code := code + [i];
      out := out + [Render(i)];
    }

    /** `addPrologue` (asmgen.go:25-28) */
    method AddPrologue()
      requires Valid()
      modifies this
      ensures Valid() && code == old(code) + Prologue
      ensures symbolTable == old(symbolTable) && stkSize == old(stkSize)
    {
      Print(SaveFrame);
      Print(SetFrame);
    }

    /** `addEpilogue` (asmgen.go:30-33) */
    method AddEpilogue()
      requires Valid()
      modifies this
      ensures Valid() && code == old(code) + Epilogue
      ensures symbolTable == old(symbolTable) && stkSize == old(stkSize)
    {
      Print(RestoreFrame);
      Print(Ret);
    }

    /** `push` (asmgen.go:35-37) */
    method Push()
      requires Valid()
      modifies this
      ensures Valid() && code == old(code) + [Instr.Push]
      ensures symbolTable == old(symbolTable) && stkSize == old(stkSize)
    {
      Print(Instr.Push);
    }

    /** `pop` (asmgen.go:39-41) */
    method Pop(reg: string)
      requires Valid()
      modifies this
      ensures Valid() && code == old(code) + [Instr.Pop(reg)]
      ensures symbolTable == old(symbolTable) && stkSize == old(stkSize)
    {
      Print(Instr.Pop(reg));
    }

    /** `asmGen` on any expression: the node's own method. */
    method ExprAsm(e: Expr) returns (err: Option<GenError>)
      requires Valid()
      modifies this
      ensures Valid() && symbolTable == old(symbolTable) && stkSize == old(stkSize)
      ensures code == old(code) + ExprCode(e, symbolTable).code && err == ExprCode(e, symbolTable).err
      decreases e, 1
    {
      match e
      case Number(_) =>
        NumberAsm(e);
        err := None;
      case Variable(_) =>
        err := VariableAsm(e);
      case Binary(_, _, _) =>
        err := BinaryAsm(e);
      case Call(_, _) =>
        err := CallAsm(e);
    }

    /** `NumberExprAST.asmGen` (asmgen.go:43-46) */
    method NumberAsm(n: Expr)
      requires Valid() && n.Number?
      modifies this
      ensures Valid() && symbolTable == old(symbolTable) && stkSize == old(stkSize)
      ensures code == old(code) + ExprCode(n, symbolTable).code && ExprCode(n, symbolTable).err == None
    {
      Print(LoadImm(n.val));
    }

    /** `VariableExprAST.asmGen` (asmgen.go:48-54) */
    method VariableAsm(v: Expr) returns (err: Option<GenError>)
      requires Valid() && v.Variable?
      modifies this
      ensures Valid() && symbolTable == old(symbolTable) && stkSize == old(stkSize)
      ensures code == old(code) + ExprCode(v, symbolTable).code && err == ExprCode(v, symbolTable).err
    {
      if v.name !in symbolTable {
        return Some(UnknownVar(v.name));
      }
      var offset := symbolTable[v.name];
      Print(LoadLocal(offset));
      err := None;
    }

    /** `BinaryExprAST.asmGen` (asmgen.go:56-74) */
    method BinaryAsm(b: Expr) returns (err: Option<GenError>)
      requires Valid() && b.Binary?
      modifies this
      ensures Valid() && symbolTable == old(symbolTable) && stkSize == old(stkSize)
      ensures code == old(code) + ExprCode(b, symbolTable).code && err == ExprCode(b, symbolTable).err
      decreases b, 0
    {
      ghost var r := ExprCode(b.rhs, symbolTable);
      ghost var l := ExprCode(b.lhs, symbolTable);
      err := ExprAsm(b.rhs);
      if err.Some? {
        return;
      }
      Push();
      err := ExprAsm(b.lhs);
      if err.Some? {
        assert code == old(code) + (r.code + [Instr.Push] + l.code);
        return;
      }
      Pop("d1");
      ghost var operands := r.code + [Instr.Push] + l.code + [Instr.Pop("d1")];
      assert code == old(code) + operands;
      err := ApplyOp(b.op);
    }

    /** The operator switch of asmgen.go:62-73, run once both operands are in d0 and d1. */
    method ApplyOp(op: char) returns (err: Option<GenError>)
      requires Valid()
      modifies this
      ensures Valid() && symbolTable == old(symbolTable) && stkSize == old(stkSize)
      ensures ArithOf(op).Some? ==> code == old(code) + [Arith(ArithOf(op).value)] && err == None
      ensures ArithOf(op).None? ==> code == old(code) &&
                                    err == Some(if op == '<' then LessNotImplemented else InvalidBinop(op))
    {
      match op {
        case '+' =>
          Print(Arith(FAdd));
          err := None;
        case '-' =>
          Print(Arith(FSub));
          err := None;
        case '*' =>
          Print(Arith(FMul));
          err := None;
        case '<' => err := Some(LessNotImplemented);
        case _ => err := Some(InvalidBinop(op));
      }
    }

    /** `CallExprAST.asmGen` (asmgen.go:76-84) */
    method CallAsm(c: Expr) returns (err: Option<GenError>)
      requires Valid() && c.Call?
      modifies this
      ensures Valid() && symbolTable == old(symbolTable) && stkSize == old(stkSize)
      ensures code == old(code) + ExprCode(c, symbolTable).code && err == ExprCode(c, symbolTable).err
      decreases c, 0
    {
      var funName := c.callee;
      var ix := |c.args| - 1;
      while ix >= 0
        invariant -1 <= ix < |c.args|
        invariant Valid() && symbolTable == old(symbolTable) && stkSize == old(stkSize)
        invariant ArgsCode(c.args, ix + 1, symbolTable).err == None
        invariant code == old(code) + ArgsCode(c.args, ix + 1, symbolTable).code
        decreases ix
      {
        err := ExprAsm(c.args[ix]);
        if err.Some? {
          ArgsErrorSticks(c.args, ix, 0, symbolTable);
          return;
        }
        Print(MoveArg(ix));
        ix := ix - 1;
      }
      Print(BranchLink(funName));
      err := None;
    }

    /** `PrototypeAST.asmGen` (asmgen.go:86): prints nothing, changes nothing. */
    method PrototypeAsm(p: Prototype)
      requires Valid()
      ensures Valid() && code == old(code) && out == old(out) && symbolTable == old(symbolTable)
    {
    }

    /** `FunctionAST.asmGen` (asmgen.go:88-114) */
    method FunctionAsm(f: Function) returns (err: Option<GenError>)
      requires Valid()
      modifies this
      ensures Valid()
      ensures symbolTable == FunctionCode(f, old(symbolTable)).1
      ensures stkSize == 8 * |f.proto.args|
      ensures code == old(code) + FunctionCode(f, old(symbolTable)).0.code
      ensures err == FunctionCode(f, old(symbolTable)).0.err
    {
      FunctionCodeParts(f, old(symbolTable));
      var offset := FunctionEntry(f);
      ghost var entered := code;
      err := ExprAsm(f.body);
      if err.Some? {
        return;
      }
      Print(AddSp(offset));
      AddEpilogue();
      assert code == entered + ExprCode(f.body, symbolTable).code + ([AddSp(offset)] + Epilogue);
    }

    /**
     * The part of `FunctionAST.asmGen` before the body (asmgen.go:90-108):
     * header and label, parameter offsets, prologue, frame and argument stores.
     */
    method FunctionEntry(f: Function) returns (offset: int)
      requires Valid()
      modifies this
      ensures Valid() && offset == 8 * |f.proto.args| && stkSize == offset
      ensures symbolTable == BindParams(old(symbolTable), f.proto.args)
      ensures forall p | p in f.proto.args :: p in symbolTable
      ensures code == old(code) + FunctionHead(f, symbolTable)
    {
      var params := f.proto.args;
      Header(f.proto.name);
      offset := BindOffsets(params);
      stkSize := offset;
      BindParamsKeys(old(symbolTable), params);
      AddPrologue();
      Print(SubSp(offset));
      StoreParams(params);
    }

    /** The directive, alignment and label lines that open a function (asmgen.go:89-93). */
    method Header(funName: string)
      requires Valid()
      modifies this
      ensures Valid() && symbolTable == old(symbolTable) && stkSize == old(stkSize)
      ensures code == old(code) + [Globl(funName), Align, Label(funName)]
    {
      Print(Globl(funName));
      Print(Align);
      Print(Label(funName));
    }

    /** The offset loop of asmgen.go:96-100: parameter i gets offset 8 * (i + 1). */
    method BindOffsets(params: seq<string>) returns (offset: int)
      requires Valid()
      modifies this
      ensures Valid() && code == old(code) && stkSize == old(stkSize)
      ensures symbolTable == BindParams(old(symbolTable), params) && offset == 8 * |params|
    {
      offset := 0;
      for i := 0 to |params|
        invariant Valid() && code == old(code) && stkSize == old(stkSize)
        invariant offset == 8 * i && symbolTable == BindParams(old(symbolTable), params[..i])
      {
        offset := offset + 8;
        assert params[..i + 1][..i] == params[..i];
        symbolTable := symbolTable[params[i] := offset];
      }
      assert params[..|params|] == params;
    }

    /** The store loop of asmgen.go:106-108: each argument register into its parameter's slot. */
    method StoreParams(params: seq<string>)
      requires Valid() && forall p | p in params :: p in symbolTable
      modifies this
      ensures Valid() && symbolTable == old(symbolTable) && stkSize == old(stkSize)
      ensures code == old(code) + StoreArgs(params, symbolTable)
    {
      for ix := 0 to |params|
        invariant Valid() && symbolTable == old(symbolTable) && stkSize == old(stkSize)
        invariant code == old(code) + StoreArgs(params[..ix], symbolTable)
      {
        assert params[..ix + 1][..ix] == params[..ix];
        Print(StoreArg(ix, symbolTable[params[ix]]));
      }
      assert params[..|params|] == params;
    }
  }
}
