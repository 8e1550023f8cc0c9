/**
 * The parse vectors of parse_test.go, stated over token streams and
 * composed from the one-step facts.  The parts of a vector are stated for
 * any stream that starts with the tokens in question; `ParseTests` shows
 * that each whole stream is what the scanner yields for the test's input
 * bytes.
 */
module GrammarExamples {
  import opened Wrappers
  import opened Lexer
  import opened Ast
  import opened Grammar
  import opened GrammarFacts

  /** `sin(1)` is an anonymous function calling `sin` with the number 1. */
  lemma SinCallTokens(ts: seq<Lexeme>)
    requires ts == [Id("sin"), Op("("), Num("1"), Op(")"), EofLexeme]
    ensures Wf(ts)
    ensures ParseTopLevel(ts) ==
              Success((Some(FunctionDecl(Function(Prototype(AnonName, []), Call("sin", [Number("1")])))), [EofLexeme]))
  {
    SinExpr(ts);
    TopLevelExpression(ts);
  }

  /** `sin(1)` followed by the end is one call expression. */
  lemma SinExpr(ts: seq<Lexeme>)
    requires Wf(ts) && |ts| == 5
    requires ts[0] == Id("sin") && ts[1] == Op("(") && ts[2] == Num("1") && ts[3] == Op(")")
    ensures ParseExpr(ts) == Success((Call("sin", [Number("1")]), [EofLexeme]))
  {
    assert ArgsAhead([Num("1")], ts[2..]);
    CallAtomArguments([Num("1")], ts);
    assert Exprs([Num("1")]) == [Number("1")];
    BinOpRhsStops(0, Call("sin", [Number("1")]), ts[4..]);
    assert ts[4..] == [EofLexeme];
  }

  /** `foo(b, 4.0)`: a call whose two arguments keep their order. */
  lemma FooCall(ts: seq<Lexeme>)
    requires Wf(ts) && |ts| > 6
    requires ts[0] == Id("foo") && ts[1] == Op("(") && ts[2] == Id("b") && ts[3] == Op(",") && ts[4] == Num("4.0") && ts[5] == Op(")")
    ensures ParsePrimary(ts) == Success((Call("foo", [Variable("b"), Number("4.0")]), ts[6..]))
  {
    var atoms := [Id("b"), Num("4.0")];
    BFourAhead(ts[2..]);
    CallAtomArguments(atoms, ts);
    BFourExprs();
  }

  /** `b, 4.0)`: two single-token arguments and the closing parenthesis. */
  lemma BFourAhead(ts: seq<Lexeme>)
    requires |ts| > 4 && ts[0] == Id("b") && ts[1] == Op(",") && ts[2] == Num("4.0") && ts[3] == Op(")")
    ensures ArgsAhead([Id("b"), Num("4.0")], ts)
  {
    assert [Id("b"), Num("4.0")][1..] == [Num("4.0")];
    assert ArgsAhead([Num("4.0")], ts[2..]);
  }

  /** The arguments `b` and `4.0` as expressions. */
  lemma BFourExprs()
    ensures Exprs([Id("b"), Num("4.0")]) == [Variable("b"), Number("4.0")]
  {
  }

  /** `+ foo(b, 4.0)` at the end of the input: the call is the right operand of `+`. */
  lemma PlusFooCall(lhs: Expr, ts: seq<Lexeme>)
    requires Wf(ts) && |ts| == 8 && ts[0] == Op("+")
    requires ts[1] == Id("foo") && ts[2] == Op("(") && ts[3] == Id("b") && ts[4] == Op(",") && ts[5] == Num("4.0") && ts[6] == Op(")")
    ensures ParseBinOpRhs(0, lhs, ts) == Success((Binary('+', lhs, Call("foo", [Variable("b"), Number("4.0")])), [EofLexeme]))
  {
    var call := Call("foo", [Variable("b"), Number("4.0")]);
    FooCall(ts[1..]);
    BinOpRhsStep(0, lhs, ts, call, ts[7..], call, ts[7..]);
    BinOpRhsStops(0, Binary('+', lhs, call), ts[7..]);
    assert ts[7..] == [EofLexeme];
  }

  /** The head `def foo(a b)`: the prototype of `foo` with parameters `a` and `b`, in order. */
  lemma DefFooHead(head: seq<Lexeme>, body: seq<Lexeme>)
    requires head == [Lexeme(TokDef, ""), Id("foo"), Op("("), Id("a"), Id("b"), Op(")")]
    requires Wf(body)
    ensures Wf(head + body)
    ensures ParsePrototype(Adv(head + body)) == Success((Prototype("foo", ["a", "b"]), body))
  {
    WfPrefix(head, body);
    var ts := head + body;
    assert Adv(ts) == head[1..] + body;
    PrototypeParses(["a", "b"], Adv(ts));
    assert Adv(ts)[5..] == body;
  }

  /** `def foo(a b) a + foo(b, 4.0)`: a definition whose body adds `a` to a recursive call. */
  lemma DefFooTokens(head: seq<Lexeme>, body: seq<Lexeme>)
    requires head == [Lexeme(TokDef, ""), Id("foo"), Op("("), Id("a"), Id("b"), Op(")")]
    requires body == [Id("a"), Op("+"), Id("foo"), Op("("), Id("b"), Op(","), Num("4.0"), Op(")"), EofLexeme]
    ensures Wf(head + body)
    ensures ParseTopLevel(head + body) ==
              Success((Some(FunctionDecl(Function(Prototype("foo", ["a", "b"]),
                Binary('+', Variable("a"), Call("foo", [Variable("b"), Number("4.0")]))))), [EofLexeme]))
  {
    assert "+"[0] != "("[0];
    VariablePrimary(body);
    PlusFooCall(Variable("a"), body[1..]);
    DefFooHead(head, body);
    TopLevelDefinition(head + body, Prototype("foo", ["a", "b"]), body,
      Binary('+', Variable("a"), Call("foo", [Variable("b"), Number("4.0")])), [EofLexeme]);
  }

  /** `extern sin(a)` is the prototype of `sin` with the one parameter `a`. */
  lemma ExternSinTokens(ts: seq<Lexeme>)
    requires ts == [Lexeme(TokExtern, ""), Id("sin"), Op("("), Id("a"), Op(")"), EofLexeme]
    ensures Wf(ts)
    ensures ParseTopLevel(ts) == Success((Some(PrototypeDecl(Prototype("sin", ["a"]))), [EofLexeme]))
  {
    ExternSinParses(ts);
  }

  /** Any well-formed six-token stream spelling `extern sin(a)` parses so. */
  lemma ExternSinParses(ts: seq<Lexeme>)
    requires Wf(ts) && |ts| == 6 && ts[0] == Lexeme(TokExtern, "")
    requires ts[1] == Id("sin") && ts[2] == Op("(") && ts[3] == Id("a") && ts[4] == Op(")")
    ensures ParseTopLevel(ts) == Success((Some(PrototypeDecl(Prototype("sin", ["a"]))), [EofLexeme]))
  {
    SinPrototype(ts[1..]);
    TopLevelExtern(ts, Prototype("sin", ["a"]), [EofLexeme]);
  }

  /** `sin(a)` followed by the end is the prototype of `sin` with the parameter `a`. */
  lemma SinPrototype(ts: seq<Lexeme>)
    requires Wf(ts) && |ts| == 5
    requires ts[0] == Id("sin") && ts[1] == Op("(") && ts[2] == Id("a") && ts[3] == Op(")")
    ensures ParsePrototype(ts) == Success((Prototype("sin", ["a"]), [EofLexeme]))
  {
    PrototypeParses(["a"], ts);
    assert ts[4..] == [EofLexeme];
  }

  /** `x + y` is an anonymous function adding two variables. */
  lemma SumOfVariablesTokens(ts: seq<Lexeme>)
    requires ts == [Id("x"), Op("+"), Id("y"), EofLexeme]
    ensures Wf(ts)
    ensures ParseTopLevel(ts) ==
              Success((Some(FunctionDecl(Function(Prototype(AnonName, []), Binary('+', Variable("x"), Variable("y"))))), [EofLexeme]))
  {
    assert "+"[0] != "("[0];
    VariablePrimary(ts);
    FoldAtom(0, Variable("x"), ts[1..]);
    BinOpRhsStops(0, Binary('+', Variable("x"), Variable("y")), ts[3..]);
    TopLevelExpression(ts);
  }

  /** In `3*4-5)`, the `*` takes its two operands before the `-` is seen. */
  lemma InnerProduct(ts: seq<Lexeme>)
    requires Wf(ts) && |ts| > 4
    requires ts[0] == Op("*") && ts[1] == Num("4") && ts[2] == Op("-")
    ensures ParseBinOpRhs(0, Number("3"), ts) == ParseBinOpRhs(0, Binary('*', Number("3"), Number("4")), ts[2..])
  {
    assert "-"[0] != "("[0];
    FoldAtom(0, Number("3"), ts);
  }

  /** In `3*4-5)`, the product is the left operand of `-`, and the ')' ends the climb. */
  lemma InnerDifferenceTail(lhs: Expr, ts: seq<Lexeme>)
    requires Wf(ts) && |ts| > 2
    requires ts[0] == Op("-") && ts[1] == Num("5") && ts[2] == Op(")")
    ensures ParseBinOpRhs(0, lhs, ts) == Success((Binary('-', lhs, Number("5")), ts[2..]))
  {
    assert ")"[0] != "("[0];
    FoldAtom(0, lhs, ts);
    BinOpRhsStops(0, Binary('-', lhs, Number("5")), ts[2..]);
  }

  /** The group `(3*4-5)` is a primary, and both parentheses are consumed. */
  lemma Group(ts: seq<Lexeme>)
    requires Wf(ts) && |ts| > 7
    requires ts[0] == Op("(") && ts[1] == Num("3") && ts[2] == Op("*") && ts[3] == Num("4")
    requires ts[4] == Op("-") && ts[5] == Num("5") && ts[6] == Op(")")
    ensures ParsePrimary(ts) == Success((Binary('-', Binary('*', Number("3"), Number("4")), Number("5")), ts[7..]))
  {
    var inner := ts[1..];
    NumberPrimary(inner);
    InnerProduct(inner[1..]);
    InnerDifferenceTail(Binary('*', Number("3"), Number("4")), inner[3..]);
    ParenPrimary(ts, Binary('-', Binary('*', Number("3"), Number("4")), Number("5")), inner[5..]);
  }

  /** `- 4` at the end of the input folds onto what came before. */
  lemma MinusFour(lhs: Expr, ts: seq<Lexeme>)
    requires Wf(ts) && |ts| == 3 && ts[0] == Op("-") && ts[1] == Num("4")
    ensures ParseBinOpRhs(0, lhs, ts) == Success((Binary('-', lhs, Number("4")), [EofLexeme]))
  {
    FoldAtom(0, lhs, ts);
    BinOpRhsStops(0, Binary('-', lhs, Number("4")), ts[2..]);
    assert ts[2..] == [EofLexeme];
  }

  /** `+(3*4-5)` followed by a `-`: the group is the right operand of `+`, folded before the `-`. */
  lemma PlusGroup(lhs: Expr, ts: seq<Lexeme>)
    requires Wf(ts) && |ts| > 8
    requires ts[0] == Op("+") && ts[1] == Op("(") && ts[2] == Num("3") && ts[3] == Op("*") && ts[4] == Num("4")
    requires ts[5] == Op("-") && ts[6] == Num("5") && ts[7] == Op(")") && ts[8] == Op("-")
    ensures ParseBinOpRhs(0, lhs, ts) ==
              ParseBinOpRhs(0, Binary('+', lhs, Binary('-', Binary('*', Number("3"), Number("4")), Number("5"))), ts[8..])
  {
    var g := Binary('-', Binary('*', Number("3"), Number("4")), Number("5"));
    Group(ts[1..]);
    BinOpRhsStep(0, lhs, ts, g, ts[8..], g, ts[8..]);
  }

  /** `4+(3*4-5)-4` as an expression: the group is one operand, and the additive operators fold from the left. */
  lemma ParenthesisedExpr(ts: seq<Lexeme>)
    requires Wf(ts) && |ts| == 12 && ts[0] == Num("4")
    requires ts[1] == Op("+") && ts[2] == Op("(") && ts[3] == Num("3") && ts[4] == Op("*") && ts[5] == Num("4")
    requires ts[6] == Op("-") && ts[7] == Num("5") && ts[8] == Op(")") && ts[9] == Op("-") && ts[10] == Num("4")
    ensures ParseExpr(ts) ==
              Success((Binary('-', Binary('+', Number("4"), Binary('-', Binary('*', Number("3"), Number("4")), Number("5"))),
                              Number("4")), [EofLexeme]))
  {
    NumberPrimary(ts);
    GroupThenMinusFour(Number("4"), ts[1..]);
  }

  /** `+(3*4-5)-4` to the end: the group is added first and 4 is subtracted from the sum. */
  lemma GroupThenMinusFour(lhs: Expr, ts: seq<Lexeme>)
    requires Wf(ts) && |ts| == 11
    requires ts[0] == Op("+") && ts[1] == Op("(") && ts[2] == Num("3") && ts[3] == Op("*") && ts[4] == Num("4")
    requires ts[5] == Op("-") && ts[6] == Num("5") && ts[7] == Op(")") && ts[8] == Op("-") && ts[9] == Num("4")
    ensures ParseBinOpRhs(0, lhs, ts) ==
              Success((Binary('-', Binary('+', lhs, Binary('-', Binary('*', Number("3"), Number("4")), Number("5"))),
                              Number("4")), [EofLexeme]))
  {
    PlusGroup(lhs, ts);
    MinusFour(Binary('+', lhs, Binary('-', Binary('*', Number("3"), Number("4")), Number("5"))), ts[8..]);
  }

  /** `4+(3*4-5)-4` at the top level is an anonymous function around that expression. */
  lemma ParenthesisedTokens(ts: seq<Lexeme>)
    requires ts == [Num("4"), Op("+"), Op("("), Num("3"), Op("*"), Num("4"), Op("-"), Num("5"), Op(")"),
                    Op("-"), Num("4"), EofLexeme]
    ensures Wf(ts)
    ensures ParseTopLevel(ts) ==
              Success((Some(FunctionDecl(Function(Prototype(AnonName, []),
                Binary('-', Binary('+', Number("4"), Binary('-', Binary('*', Number("3"), Number("4")), Number("5"))),
                       Number("4"))))), [EofLexeme]))
  {
    ParenthesisedExpr(ts);
    TopLevelExpression(ts);
  }
}
