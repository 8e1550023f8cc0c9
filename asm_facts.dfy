/** What the emitter's output looks like, stated over `AsmCode`. */
module AsmFacts {
  import opened Wrappers
  import opened Ast
  import opened AsmCode

  /** `%d` is read back as the number printed. */
  lemma {:induction false} DecimalRoundTrip(n: nat)
    ensures DecimalValue(NatToString(n)) == n
  {
    if n >= 10 {
      var s := NatToString(n);
      assert s[..|s| - 1] == NatToString(n / 10);
      DecimalRoundTrip(n / 10);
    }
  }

  /** The text of two runs of lines is the text of the first, then of the second. */
  lemma {:induction false} TextAppend(a: seq<Instr>, b: seq<Instr>)
    ensures Text(a + b) == Text(a) + Text(b)
    decreases |b|
  {
    if |b| == 0 {
      assert a + b == a;
    } else {
      var b' := b[..|b| - 1];
      assert (a + b)[..|a + b| - 1] == a + b';
      TextAppend(a, b');
    }
  }

  /** Each line of the text is the rendering of the line at the same place. */
  lemma {:induction false} TextLines(code: seq<Instr>)
    ensures forall i | 0 <= i < |code| :: Text(code)[i] == Render(code[i])
    decreases |code|
  {
    if |code| > 0 {
      TextLines(code[..|code| - 1]);
    }
  }

  /**
   * The i-th parameter gets offset 8 * (i + 1), provided no later
   * parameter has the same name; a repeated name keeps its last offset.
   */
  lemma {:induction false} ParamOffset(st: SymbolTable, params: seq<string>, i: nat)
    requires i < |params|
    requires forall j | i < j < |params| :: params[j] != params[i]
    ensures params[i] in BindParams(st, params) && BindParams(st, params)[params[i]] == 8 * (i + 1)
    decreases |params|
  {
    if i < |params| - 1 {
      var init := params[..|params| - 1];
      ParamOffset(st, init, i);
      assert params[|params| - 1] != params[i];
    }
  }

  /** Names the parameters do not mention keep whatever offset an earlier function gave them. */
  lemma {:induction false} EarlierNamesKept(st: SymbolTable, params: seq<string>, x: string)
    requires x !in params
    ensures x in BindParams(st, params) <==> x in st
    ensures x in st ==> BindParams(st, params)[x] == st[x]
    decreases |params|
  {
    if |params| > 0 {
      var init := params[..|params| - 1];
      assert forall p | p in init :: p in params;
      EarlierNamesKept(st, init, x);
    }
  }

  /** The argument stores: one per parameter, in declaration order, each at its name's slot. */
  lemma {:induction false} StoresInOrder(params: seq<string>, st: SymbolTable)
    requires forall p | p in params :: p in st
    ensures |StoreArgs(params, st)| == |params|
    ensures forall i | 0 <= i < |params| :: StoreArgs(params, st)[i] == StoreArg(i, st[params[i]])
    decreases |params|
  {
    if |params| > 0 {
      var init := params[..|params| - 1];
      assert forall p | p in init :: p in params;
      StoresInOrder(init, st);
    }
  }

  /**
   * The fixed order of a function's lines: `.globl`, `.p2align`, label,
   * prologue, `sub sp` by 8 per parameter, the stores, the body, and, unless
   * the body panicked, `add sp` by the same amount and the epilogue.
   */
  lemma FunctionLayout(f: Function, st: SymbolTable)
    ensures var (em, st') := FunctionCode(f, st);
            var n := |f.proto.args|;
            var body := ExprCode(f.body, st');
            |em.code| == 6 + n + |body.code| + (if body.err.Some? then 0 else 3) &&
            em.code[..6] == [Globl(f.proto.name), Align, Label(f.proto.name), SaveFrame, SetFrame, SubSp(8 * n)] &&
            (forall i | 0 <= i < n :: f.proto.args[i] in st' && em.code[6 + i] == StoreArg(i, st'[f.proto.args[i]])) &&
            em.code[6 + n..6 + n + |body.code|] == body.code &&
            em.err == body.err &&
            (body.err.None? ==> em.code[6 + n + |body.code|..] == [AddSp(8 * n), RestoreFrame, Ret])
  {
    var st' := BindParams(st, f.proto.args);
    FunctionCodeParts(f, st);
    StoresInOrder(f.proto.args, st');
    var head := FunctionHead(f, st');
    assert head[..6] == [Globl(f.proto.name), Align, Label(f.proto.name), SaveFrame, SetFrame, SubSp(8 * |f.proto.args|)];
  }

  /** The stack depth after each line: `str d0, [sp, #-16]!` pushes, `ldr ..., [sp], #16` pops. */
  function Walk(code: seq<Instr>, depth: nat): (r: Option<nat>)
    decreases |code|
  {
    if |code| == 0 then Some(depth)
    else
      var d := code[|code| - 1];
      match Walk(code[..|code| - 1], depth)
      case None => None
      case Some(k) =>
        if d.Push? then Some(k + 1)
        else if d.Pop? then (if k == 0 then None else Some(k - 1))
        else Some(k)
  }

  lemma {:induction false} WalkAppend(a: seq<Instr>, b: seq<Instr>, depth: nat)
    ensures Walk(a + b, depth) == (if Walk(a, depth).None? then None else Walk(b, Walk(a, depth).value))
    decreases |b|
  {
    if |b| == 0 {
      assert a + b == a;
    } else {
      var b' := b[..|b| - 1];
      assert (a + b)[..|a + b| - 1] == a + b';
      WalkAppend(a, b', depth);
    }
  }

  /**
   * The lines of `em`, started at stack depth `depth`, never pop an empty
   * stack and end no shallower; when `em` did not panic they end at `depth`.
   */
  ghost predicate Balanced(em: Emission, depth: nat) {
    Walk(em.code, depth).Some? && Walk(em.code, depth).value >= depth &&
    (em.err.None? ==> Walk(em.code, depth) == Some(depth))
  }

  /**
   * Spills and reloads balance: the code of an expression that emits
   * without panicking never pops more than it pushed and leaves the stack
   * as deep as it found it; one that panics never underflows either.
   */
  lemma {:induction false} ExprBalanced(e: Expr, st: SymbolTable, depth: nat)
    ensures Balanced(ExprCode(e, st), depth)
    decreases e, 2
  {
    match e
    case Number(_) =>
    case Variable(_) =>
    case Binary(op, lhs, rhs) => BinaryBalanced(op, lhs, rhs, st, depth);
    case Call(callee, args) =>
      ArgsBalanced(args, 0, st, depth);
      var a := ArgsCode(args, 0, st);
      if a.err.None? {
        WalkAppend(a.code, [BranchLink(callee)], depth);
      }
  }

  lemma {:induction false} BinaryBalanced(op: char, lhs: Expr, rhs: Expr, st: SymbolTable, depth: nat)
    ensures Balanced(BinaryCode(op, lhs, rhs, st), depth)
    decreases Binary(op, lhs, rhs), 1
  {
    var r := ExprCode(rhs, st);
    ExprBalanced(rhs, st, depth);
    if r.err.None? {
      var l := ExprCode(lhs, st);
      ExprBalanced(lhs, st, depth + 1);
      if l.err.None? {
        OperandsBalanced(op, r.code, l.code, depth);
      } else {
        WalkSpill(r.code, l.code, depth);
        assert Balanced(Emission(r.code + [Push] + l.code, l.err), depth);
      }
    }
  }

  /** Balanced right operand, spill, balanced left operand, reload, and the operator: balanced. */
  lemma OperandsBalanced(op: char, r: seq<Instr>, l: seq<Instr>, depth: nat)
    requires Walk(r, depth) == Some(depth) && Walk(l, depth + 1) == Some(depth + 1)
    ensures Walk(r + [Push] + l + [Pop("d1")], depth) == Some(depth)
    ensures ArithOf(op).Some? ==> Walk(r + [Push] + l + [Pop("d1")] + [Arith(ArithOf(op).value)], depth) == Some(depth)
  {
    WalkSpill(r, l, depth);
    WalkAppend(r + [Push] + l, [Pop("d1")], depth);
    if ArithOf(op).Some? {
      WalkAppend(r + [Push] + l + [Pop("d1")], [Arith(ArithOf(op).value)], depth);
    }
  }

  /** Code that keeps the depth, a spill, then code run one deeper. */
  lemma WalkSpill(x: seq<Instr>, y: seq<Instr>, depth: nat)
    requires Walk(x, depth) == Some(depth)
    ensures Walk(x + [Push] + y, depth) == Walk(y, depth + 1)
  {
    WalkAppend(x, [Push], depth);
    WalkAppend(x + [Push], y, depth);
  }

  lemma {:induction false} ArgsBalanced(args: seq<Expr>, j: nat, st: SymbolTable, depth: nat)
    requires j <= |args|
    ensures Balanced(ArgsCode(args, j, st), depth)
    decreases args, |args| - j
  {
    if j < |args| {
      var done := ArgsCode(args, j + 1, st);
      ArgsBalanced(args, j + 1, st, depth);
      if done.err.None? {
        var a := ExprCode(args[j], st);
        ExprBalanced(args[j], st, depth);
        WalkAppend(done.code, a.code, depth);
        if a.err.None? {
          WalkAppend(done.code + a.code, [MoveArg(j)], depth);
          assert ArgsCode(args, j, st) == Emission(done.code + a.code + [MoveArg(j)], None);
        } else {
          assert ArgsCode(args, j, st) == Emission(done.code + a.code, a.err);
        }
      }
    }
  }

  /**
   * An operator node panics exactly when its operator is none of `+`, `-`
   * and `*` (after both operands are emitted), with "not implemented" for
   * `<` and "Invalid binop" otherwise; the reload into d1 is printed first.
   */
  lemma OperatorCases(op: char, lhs: Expr, rhs: Expr, st: SymbolTable)
    requires ExprCode(rhs, st).err.None? && ExprCode(lhs, st).err.None?
    ensures var b := ExprCode(Binary(op, lhs, rhs), st);
            var operands := ExprCode(rhs, st).code + [Push] + ExprCode(lhs, st).code + [Pop("d1")];
            (b.err.None? <==> op == '+' || op == '-' || op == '*') &&
            (op == '<' ==> b == Emission(operands, Some(LessNotImplemented))) &&
            (op != '<' && b.err.Some? ==> b == Emission(operands, Some(InvalidBinop(op)))) &&
            (b.err.None? ==> b.code == operands + [Arith(if op == '+' then FAdd else if op == '-' then FSub else FMul)])
  {
  }

  /** A panicking operand stops the node: nothing after the failing operand's own lines is printed. */
  lemma OperandErrors(op: char, lhs: Expr, rhs: Expr, st: SymbolTable)
    ensures ExprCode(rhs, st).err.Some? ==> ExprCode(Binary(op, lhs, rhs), st) == ExprCode(rhs, st)
    ensures ExprCode(rhs, st).err.None? && ExprCode(lhs, st).err.Some? ==>
              ExprCode(Binary(op, lhs, rhs), st) ==
                Emission(ExprCode(rhs, st).code + [Push] + ExprCode(lhs, st).code, ExprCode(lhs, st).err)
  {
  }

  /** A number prints one line, `fmov d0, #` and the literal's text as written. */
  lemma NumberLine(val: string, st: SymbolTable)
    ensures ExprCode(Number(val), st).err.None?
    ensures Text(ExprCode(Number(val), st).code) == ["\tfmov d0, #" + val + "\n"]
  {
    assert Text([LoadImm(val)])[0] == Render(LoadImm(val));
  }

  /**
   * A variable prints one load from its slot when the table knows it, and
   * otherwise panics with "Unknown var" before printing anything.
   */
  lemma VariableLine(name: string, st: SymbolTable)
    ensures ExprCode(Variable(name), st).err.None? <==> name in st
    ensures name in st ==> Text(ExprCode(Variable(name), st).code) == ["\tldr d0, [x29, #-" + IntToString(st[name]) + "]\n"]
    ensures name !in st ==> ExprCode(Variable(name), st) == Emission([], Some(UnknownVar(name)))
  {
    if name in st {
      assert Text([LoadLocal(st[name])])[0] == Render(LoadLocal(st[name]));
    }
  }

  /**
   * A call panics only if one of its arguments does: neither the callee nor
   * the number of arguments is checked.
   */
  lemma {:induction false} CallChecksNothing(callee: string, args: seq<Expr>, st: SymbolTable)
    ensures ExprCode(Call(callee, args), st).err.None? <==> forall i | 0 <= i < |args| :: ExprCode(args[i], st).err.None?
  {
    ArgsFail(args, 0, st);
  }

  lemma {:induction false} ArgsFail(args: seq<Expr>, j: nat, st: SymbolTable)
    requires j <= |args|
    ensures ArgsCode(args, j, st).err.None? <==> forall i | j <= i < |args| :: ExprCode(args[i], st).err.None?
    decreases |args| - j
  {
    if j < |args| {
      ArgsFail(args, j + 1, st);
    }
  }

  /**
   * The shape of a call that does not panic: the last argument is emitted
   * first, the first argument is moved into d0 just before the branch, and
   * the branch to `_callee` is the last line.
   */
  lemma {:induction false} CallShape(callee: string, args: seq<Expr>, st: SymbolTable)
    requires ExprCode(Call(callee, args), st).err.None?
    ensures var code := ExprCode(Call(callee, args), st).code;
            |code| > 0 && code[|code| - 1] == BranchLink(callee)
    ensures |args| > 0 ==>
              var code := ExprCode(Call(callee, args), st).code;
              var last := ExprCode(args[|args| - 1], st).code;
              |code| >= |last| + 2 && code[|code| - 2] == MoveArg(0) && code[..|last|] == last
  {
    if |args| > 0 {
      ArgsFirst(args, 0, st);
    }
  }

  /** The argument loop starts with the code of the last argument. */
  lemma {:induction false} ArgsFirst(args: seq<Expr>, j: nat, st: SymbolTable)
    requires j < |args| && ArgsCode(args, j, st).err.None?
    ensures var c := ArgsCode(args, j, st).code;
            var last := ExprCode(args[|args| - 1], st).code;
            |last| < |c| && c[..|last|] == last && c[|c| - 1] == MoveArg(j)
    decreases |args| - j
  {
    if j < |args| - 1 {
      ArgsFirst(args, j + 1, st);
    } else {
      assert ArgsCode(args, j + 1, st).code == [];
    }
  }
}
