/**
 * What the parser promises: precedence climbing, left folding, calls,
 * prototypes, the top-level dispatch and the syntax errors.
 */
module GrammarFacts {
  import opened Wrappers
  import opened Lexer
  import opened Ast
  import opened Grammar

  function Id(s: string): Lexeme { Lexeme(TokIdentifier, s) }
  function Num(s: string): Lexeme { Lexeme(TokNumber, s) }
  function Op(s: string): Lexeme { Lexeme(TokOperator, s) }

  /** Tokens that are not the end token and carry text where needed, put in front of a stream. */
  lemma WfPrefix(pre: seq<Lexeme>, rest: seq<Lexeme>)
    requires Wf(rest)
    requires forall i | 0 <= i < |pre| :: pre[i].tok != TokEOF
    requires forall i | 0 <= i < |pre| :: pre[i].tok == TokOperator ==> |pre[i].lit| > 0
    ensures Wf(pre + rest)
  {
    var ts := pre + rest;
    forall i | 0 <= i < |ts| - 1 ensures ts[i].tok != TokEOF {
      if i >= |pre| {
        assert ts[i] == rest[i - |pre|];
      }
    }
  }

  /** Every suffix of a stream that keeps its end token is a stream. */
  lemma WfDrop(ts: seq<Lexeme>, k: nat)
    requires Wf(ts) && k < |ts|
    ensures Wf(ts[k..])
  {
    var r := ts[k..];
    forall i | 0 <= i < |r| - 1 ensures r[i].tok != TokEOF {
      assert r[i] == ts[k + i];
    }
  }

  /** A number token is a primary on its own. */
  lemma NumberPrimary(ts: seq<Lexeme>)
    requires Wf(ts) && ts[0].tok == TokNumber
    ensures ParsePrimary(ts) == Success((Number(ts[0].lit), ts[1..]))
  {
  }

  /** An identifier not followed by '(' is a variable, and only the name is consumed. */
  lemma VariablePrimary(ts: seq<Lexeme>)
    requires Wf(ts) && ts[0].tok == TokIdentifier && ts[1].lit != "("
    ensures ParsePrimary(ts) == Success((Variable(ts[0].lit), ts[1..]))
  {
  }

  /**
   * The loop stops as soon as the current token binds less tightly than
   * `prec`, handing back what it has folded and consuming nothing: this is
   * what happens at ')', ',', ';', the end, or any non-operator token.
   */
  lemma BinOpRhsStops(prec: int, lhs: Expr, ts: seq<Lexeme>)
    requires Wf(ts) && 0 <= prec
    requires TokPrecedence(ts[0]) < prec
    ensures ParseBinOpRhs(prec, lhs, ts) == Success((lhs, ts))
  {
  }

  /** An operator whose right operand fails to parse fails the whole climb with that error. */
  lemma BinOpRhsOperandFails(prec: int, lhs: Expr, ts: seq<Lexeme>)
    requires Wf(ts) && 0 <= prec && TokPrecedence(ts[0]) >= prec
    requires ParsePrimary(Adv(ts)).Failure?
    ensures ParseBinOpRhs(prec, lhs, ts) == Failure(ParsePrimary(Adv(ts)).error)
  {
  }

  /** A tighter operator after the right operand whose own climb fails fails the whole climb with that error. */
  lemma BinOpRhsNestedFails(prec: int, lhs: Expr, ts: seq<Lexeme>, rhs: Expr, rest: seq<Lexeme>)
    requires Wf(ts) && 0 <= prec && TokPrecedence(ts[0]) >= prec
    requires ParsePrimary(Adv(ts)) == Success((rhs, rest))
    requires TokPrecedence(rest[0]) > TokPrecedence(ts[0])
    requires ParseBinOpRhs(TokPrecedence(ts[0]) + 1, rhs, rest).Failure?
    ensures ParseBinOpRhs(prec, lhs, ts) == Failure(ParseBinOpRhs(TokPrecedence(ts[0]) + 1, rhs, rest).error)
  {
  }

  /** Tokens that are not binary operators have precedence -1, so they end every climb. */
  lemma NonOperatorsStop(l: Lexeme)
    requires l.tok == TokOperator ==> |l.lit| > 0
    requires l.tok != TokOperator || l.lit in {")", ",", ";", "(", "="}
    ensures TokPrecedence(l) == -1
  {
  }

  /**
   * One turn of the loop: the operator is consumed, its right operand
   * parsed, and a tighter operator after it absorbed into that operand
   * before the node is folded onto the left side.
   */
  lemma BinOpRhsStep(prec: int, lhs: Expr, ts: seq<Lexeme>, rhs: Expr, rest: seq<Lexeme>, rhs': Expr, rest': seq<Lexeme>)
    requires Wf(ts) && 0 <= prec
    requires TokPrecedence(ts[0]) >= prec
    requires ParsePrimary(Adv(ts)) == Success((rhs, rest))
    requires TokPrecedence(rest[0]) > TokPrecedence(ts[0]) ==>
               ParseBinOpRhs(TokPrecedence(ts[0]) + 1, rhs, rest) == Success((rhs', rest'))
    requires TokPrecedence(rest[0]) <= TokPrecedence(ts[0]) ==> rhs' == rhs && rest' == rest
    ensures Wf(rest')
    ensures ParseBinOpRhs(prec, lhs, ts) == ParseBinOpRhs(prec, Binary(ts[0].lit[0], lhs, rhs'), rest')
  {
  }

  /**
   * Equal precedence folds to the left: `x o1 y o2 z` with `o1` and `o2`
   * equally tight gives `(x o1 y) o2 z`.
   */
  lemma {:induction false} EqualPrecedenceFoldsLeft(
    ts: seq<Lexeme>, x: Expr, t1: seq<Lexeme>, y: Expr, t2: seq<Lexeme>, z: Expr, t3: seq<Lexeme>)
    requires Wf(ts) && ParsePrimary(ts) == Success((x, t1))
    requires TokPrecedence(t1[0]) >= 0
    requires ParsePrimary(Adv(t1)) == Success((y, t2))
    requires TokPrecedence(t2[0]) == TokPrecedence(t1[0])
    requires ParsePrimary(Adv(t2)) == Success((z, t3))
    requires TokPrecedence(t3[0]) < 0
    ensures ParseExpr(ts) == Success((Binary(t2[0].lit[0], Binary(t1[0].lit[0], x, y), z), t3))
  {
    BinOpRhsStep(0, x, t1, y, t2, y, t2);
    BinOpRhsStep(0, Binary(t1[0].lit[0], x, y), t2, z, t3, z, t3);
    BinOpRhsStops(0, Binary(t2[0].lit[0], Binary(t1[0].lit[0], x, y), z), t3);
  }

  /**
   * A strictly tighter operator after the right operand is absorbed into
   * it: `x o1 y o2 z` with `o2` tighter gives `x o1 (y o2 z)`.
   */
  lemma {:induction false} TighterOperatorNests(
    ts: seq<Lexeme>, x: Expr, t1: seq<Lexeme>, y: Expr, t2: seq<Lexeme>, z: Expr, t3: seq<Lexeme>)
    requires Wf(ts) && ParsePrimary(ts) == Success((x, t1))
    requires TokPrecedence(t1[0]) >= 0
    requires ParsePrimary(Adv(t1)) == Success((y, t2))
    requires TokPrecedence(t2[0]) > TokPrecedence(t1[0])
    requires ParsePrimary(Adv(t2)) == Success((z, t3))
    requires TokPrecedence(t3[0]) < 0
    ensures ParseExpr(ts) == Success((Binary(t1[0].lit[0], x, Binary(t2[0].lit[0], y, z)), t3))
  {
    var p1 := TokPrecedence(t1[0]);
    BinOpRhsStep(p1 + 1, y, t2, z, t3, z, t3);
    BinOpRhsStops(p1 + 1, Binary(t2[0].lit[0], y, z), t3);
    BinOpRhsStep(0, x, t1, y, t2, Binary(t2[0].lit[0], y, z), t3);
    BinOpRhsStops(0, Binary(t1[0].lit[0], x, Binary(t2[0].lit[0], y, z)), t3);
  }

  /**
   * One turn of the loop whose right operand is a single token and is not
   * followed by a tighter operator: the node is folded at once.
   */
  lemma FoldAtom(prec: int, lhs: Expr, ts: seq<Lexeme>)
    requires Wf(ts) && 0 <= prec && TokPrecedence(ts[0]) >= prec
    requires IsAtom(ts[1]) && ts[2].lit != "(" && TokPrecedence(ts[2]) <= TokPrecedence(ts[0])
    ensures ParseBinOpRhs(prec, lhs, ts) == ParseBinOpRhs(prec, Binary(ts[0].lit[0], lhs, AtomExpr(ts[1])), ts[2..])
  {
    assert ParsePrimary(Adv(ts)) == Success((AtomExpr(ts[1]), ts[2..]));
  }

  /** A single-token call argument: a number, or a name that is not followed by '('. */
  predicate IsAtom(l: Lexeme) {
    (l.tok == TokNumber || l.tok == TokIdentifier) && l.lit != ")"
  }

  function AtomExpr(l: Lexeme): Expr {
    if l.tok == TokNumber then Number(l.lit) else Variable(l.lit)
  }

  /** A single-token operand followed by something that is neither '(' nor a binary operator is a whole expression. */
  lemma AtomExpression(ts: seq<Lexeme>)
    requires Wf(ts) && IsAtom(ts[0])
    requires ts[1].lit != "(" && TokPrecedence(ts[1]) < 0
    ensures ParseExpr(ts) == Success((AtomExpr(ts[0]), ts[1..]))
  {
    assert ParsePrimary(ts) == Success((AtomExpr(ts[0]), ts[1..]));
    BinOpRhsStops(0, AtomExpr(ts[0]), ts[1..]);
  }

  /** The expressions a list of single-token arguments parses to. */
  function Exprs(atoms: seq<Lexeme>): seq<Expr> {
    seq(|atoms|, i requires 0 <= i < |atoms| => AtomExpr(atoms[i]))
  }

  /**
   * The tree a flat chain `x o1 y1 o2 y2 ... on yn` denotes when every
   * operator associates to the left: `(((x o1 y1) o2 y2) ... on yn)`.
   */
  function LeftFold(acc: Expr, ops: seq<char>, ys: seq<Expr>): Expr
    requires |ops| == |ys|
    decreases |ops|
  {
    if |ops| == 0 then acc else LeftFold(Binary(ops[0], acc, ys[0]), ops[1..], ys[1..])
  }

  /** The tokens `o1 y1 o2 y2 ... on yn`, one one-byte operator before each operand. */
  function Chain(ops: seq<char>, atoms: seq<Lexeme>): (ts: seq<Lexeme>)
    requires |ops| == |atoms|
    ensures |ts| == 2 * |ops|
  {
    if |ops| == 0 then [] else [Op([ops[0]]), atoms[0]] + Chain(ops[1..], atoms[1..])
  }

  /** A chain in front of a stream is a stream. */
  lemma ChainInFront(ops: seq<char>, atoms: seq<Lexeme>, rest: seq<Lexeme>)
    requires |ops| == |atoms| && Wf(rest)
    requires forall i | 0 <= i < |atoms| :: IsAtom(atoms[i])
    ensures Wf(Chain(ops, atoms) + rest)
  {
    ChainTokens(ops, atoms);
    WfPrefix(Chain(ops, atoms), rest);
  }

  /** No token of a chain is the end token, and every operator in it has text. */
  lemma {:induction false} ChainTokens(ops: seq<char>, atoms: seq<Lexeme>)
    requires |ops| == |atoms|
    requires forall i | 0 <= i < |atoms| :: IsAtom(atoms[i])
    ensures forall i | 0 <= i < |Chain(ops, atoms)| :: Chain(ops, atoms)[i].tok != TokEOF
    ensures forall i | 0 <= i < |Chain(ops, atoms)| :: Chain(ops, atoms)[i].tok == TokOperator ==> |Chain(ops, atoms)[i].lit| > 0
    decreases |ops|
  {
    if |ops| > 0 {
      ChainTokens(ops[1..], atoms[1..]);
      var c := Chain(ops, atoms);
      var t := Chain(ops[1..], atoms[1..]);
      assert c == [Op([ops[0]]), atoms[0]] + t;
      forall i | 2 <= i < |c| ensures c[i] == t[i - 2] {
      }
    }
  }

  /** The first operator and operand of a chain, in front of the rest of it. */
  lemma ChainHead(ops: seq<char>, atoms: seq<Lexeme>, rest: seq<Lexeme>)
    requires |ops| == |atoms| && |ops| > 0
    ensures Chain(ops, atoms) + rest == [Op([ops[0]]), atoms[0]] + (Chain(ops[1..], atoms[1..]) + rest)
  {
    assert Chain(ops, atoms) == [Op([ops[0]]), atoms[0]] + Chain(ops[1..], atoms[1..]);
  }

  /** One turn of the loop over a chain: its first operator and operand are folded onto the left side. */
  lemma ChainStep(prec: int, p: int, lhs: Expr, ops: seq<char>, atoms: seq<Lexeme>, rest: seq<Lexeme>)
    requires |ops| == |atoms| && |ops| > 0 && 0 <= prec <= p
    requires forall i | 0 <= i < |ops| :: TokPrecedence(Op([ops[i]])) == p
    requires forall i | 0 <= i < |atoms| :: IsAtom(atoms[i])
    requires Wf(rest) && rest[0].lit != "(" && TokPrecedence(rest[0]) < prec
    ensures Wf(Chain(ops, atoms) + rest) && Wf(Chain(ops[1..], atoms[1..]) + rest)
    ensures ParseBinOpRhs(prec, lhs, Chain(ops, atoms) + rest) ==
            ParseBinOpRhs(prec, Binary(ops[0], lhs, AtomExpr(atoms[0])), Chain(ops[1..], atoms[1..]) + rest)
  {
    var tail := Chain(ops[1..], atoms[1..]) + rest;
    var ts := Chain(ops, atoms) + rest;
    ChainInFront(ops, atoms, rest);
    ChainInFront(ops[1..], atoms[1..], rest);
    ChainSplit(ops, atoms, rest);
    assert TokPrecedence(ts[0]) == p;
    FoldAtom(prec, lhs, ts);
  }

  /** The first two tokens of a chain in front of a stream, the token after them, and what follows. */
  lemma ChainSplit(ops: seq<char>, atoms: seq<Lexeme>, rest: seq<Lexeme>)
    requires |ops| == |atoms| && |ops| > 0 && |rest| > 0
    ensures (Chain(ops, atoms) + rest)[0] == Op([ops[0]]) && (Chain(ops, atoms) + rest)[1] == atoms[0]
    ensures (Chain(ops, atoms) + rest)[2..] == Chain(ops[1..], atoms[1..]) + rest
    ensures (Chain(ops, atoms) + rest)[2] == if |ops| == 1 then rest[0] else Op([ops[1]])
  {
    ChainHead(ops, atoms, rest);
    if |ops| > 1 {
      ChainHead(ops[1..], atoms[1..], rest);
    } else {
      assert Chain(ops[1..], atoms[1..]) + rest == rest;
    }
  }

  /**
   * The loop over a flat chain of equally tight operators with single-token
   * operands folds every operator onto the left side in turn, and stops at
   * the first token that binds less tightly than `prec`.
   */
  lemma {:induction false} ChainFoldsLeft(prec: int, p: int, lhs: Expr, ops: seq<char>, atoms: seq<Lexeme>, rest: seq<Lexeme>)
    requires |ops| == |atoms| && 0 <= prec <= p
    requires forall i | 0 <= i < |ops| :: TokPrecedence(Op([ops[i]])) == p
    requires forall i | 0 <= i < |atoms| :: IsAtom(atoms[i])
    requires Wf(rest) && rest[0].lit != "(" && TokPrecedence(rest[0]) < prec
    ensures Wf(Chain(ops, atoms) + rest)
    ensures ParseBinOpRhs(prec, lhs, Chain(ops, atoms) + rest) == Success((LeftFold(lhs, ops, Exprs(atoms)), rest))
    decreases |ops|
  {
    ChainInFront(ops, atoms, rest);
    if |ops| == 0 {
      assert Chain(ops, atoms) + rest == rest;
      BinOpRhsStops(prec, lhs, rest);
    } else {
      ChainStep(prec, p, lhs, ops, atoms, rest);
      ChainFoldsLeft(prec, p, Binary(ops[0], lhs, AtomExpr(atoms[0])), ops[1..], atoms[1..], rest);
      LeftFoldStep(lhs, ops, atoms);
    }
  }

  /** `LeftFold` over the operands of a chain takes its first operator and operand first. */
  lemma LeftFoldStep(lhs: Expr, ops: seq<char>, atoms: seq<Lexeme>)
    requires |ops| == |atoms| && |ops| > 0
    ensures LeftFold(lhs, ops, Exprs(atoms)) == LeftFold(Binary(ops[0], lhs, AtomExpr(atoms[0])), ops[1..], Exprs(atoms[1..]))
  {
    assert Exprs(atoms)[1..] == Exprs(atoms[1..]);
  }

  /**
   * Equally tight operators associate to the left however many there are:
   * `x o1 y1 ... on yn` parses as `LeftFold`, and the whole chain is one
   * expression.
   */
  lemma FlatChainFoldsLeft(x: Lexeme, p: int, ops: seq<char>, atoms: seq<Lexeme>, rest: seq<Lexeme>)
    requires |ops| == |atoms| && 0 <= p && IsAtom(x)
    requires forall i | 0 <= i < |ops| :: TokPrecedence(Op([ops[i]])) == p
    requires forall i | 0 <= i < |atoms| :: IsAtom(atoms[i])
    requires Wf(rest) && rest[0].lit != "(" && TokPrecedence(rest[0]) < 0
    ensures Wf([x] + (Chain(ops, atoms) + rest))
    ensures ParseExpr([x] + (Chain(ops, atoms) + rest)) == Success((LeftFold(AtomExpr(x), ops, Exprs(atoms)), rest))
  {
    var tail := Chain(ops, atoms) + rest;
    ChainFoldsLeft(0, p, AtomExpr(x), ops, atoms, rest);
    assert |ops| > 0 ==> TokPrecedence(Op([ops[0]])) == p;
    AtomInFront(x, ops, atoms, rest);
    AtomThenRest([x] + tail);
  }

  /** An operand in front of a chain: a stream whose second token is not '('. */
  lemma AtomInFront(x: Lexeme, ops: seq<char>, atoms: seq<Lexeme>, rest: seq<Lexeme>)
    requires |ops| == |atoms| && IsAtom(x) && (|ops| > 0 ==> ops[0] != '(')
    requires forall i | 0 <= i < |atoms| :: IsAtom(atoms[i])
    requires Wf(rest) && rest[0].lit != "("
    ensures Wf([x] + (Chain(ops, atoms) + rest))
    ensures ([x] + (Chain(ops, atoms) + rest))[1..] == Chain(ops, atoms) + rest
    ensures ([x] + (Chain(ops, atoms) + rest))[1].lit != "("
  {
    var tail := Chain(ops, atoms) + rest;
    ChainInFront(ops, atoms, rest);
    WfPrefix([x], tail);
    assert ([x] + tail)[1..] == tail;
    if |ops| == 0 {
      assert tail == rest;
    } else {
      ChainHead(ops, atoms, rest);
      assert tail[0] == Op([ops[0]]);
    }
  }

  /** A single-token operand not followed by '(' is a primary, and the expression goes on with the loop after it. */
  lemma AtomThenRest(ts: seq<Lexeme>)
    requires Wf(ts) && IsAtom(ts[0]) && ts[1].lit != "("
    ensures ParseExpr(ts) == ParseBinOpRhs(0, AtomExpr(ts[0]), ts[1..])
  {
    assert ParsePrimary(ts) == Success((AtomExpr(ts[0]), ts[1..]));
  }

  /**
   * An argument of any shape followed by ',': the argument is appended and
   * the loop goes round again after the comma.
   */
  lemma ArgThenComma(ts: seq<Lexeme>, args: seq<Expr>, e: Expr, rest: seq<Lexeme>)
    requires Wf(ts) && ts[0].lit != ")" && ParseExpr(ts) == Success((e, rest)) && rest[0].lit == ","
    ensures ParseArgs(ts, args) == ParseArgs(Adv(rest), args + [e])
  {
  }

  /** An argument of any shape followed by ')': the loop ends at the ')' with the argument appended. */
  lemma ArgThenClose(ts: seq<Lexeme>, args: seq<Expr>, e: Expr, rest: seq<Lexeme>)
    requires Wf(ts) && ts[0].lit != ")" && ParseExpr(ts) == Success((e, rest)) && rest[0].lit == ")"
    ensures ParseArgs(ts, args) == Success((args + [e], rest))
  {
  }

  /** A single-token argument followed by ','. */
  lemma AtomArgThenComma(ts: seq<Lexeme>, args: seq<Expr>)
    requires Wf(ts) && IsAtom(ts[0]) && ts[1] == Op(",")
    ensures ParseArgs(ts, args) == ParseArgs(ts[2..], args + [AtomExpr(ts[0])])
  {
    assert ","[0] != "("[0] && ","[0] != ")"[0];
    AtomExpression(ts);
    ArgThenComma(ts, args, AtomExpr(ts[0]), ts[1..]);
    assert Adv(ts[1..]) == ts[2..];
  }

  /** A single-token argument followed by ')'. */
  lemma AtomArgThenClose(ts: seq<Lexeme>, args: seq<Expr>)
    requires Wf(ts) && IsAtom(ts[0]) && ts[1] == Op(")")
    ensures ParseArgs(ts, args) == Success((args + [AtomExpr(ts[0])], ts[1..]))
  {
    assert ")"[0] != "("[0];
    AtomExpression(ts);
    ArgThenClose(ts, args, AtomExpr(ts[0]), ts[1..]);
  }

  /**
   * `ts` spells the arguments `es` up to the stream `close` at the closing
   * ')': each argument's tokens parse as that expression and are followed
   * by ',' (then the next argument) or, after the last one, by the ')'.
   */
  predicate ArgsLead(es: seq<Expr>, ts: seq<Lexeme>, close: seq<Lexeme>)
    decreases |es|
  {
    Wf(ts) && Wf(close) &&
    if |es| == 0 then ts == close && ts[0].lit == ")"
    else
      ts[0].lit != ")" && ParseExpr(ts).Success? && ParseExpr(ts).value.0 == es[0] &&
      var rest := ParseExpr(ts).value.1;
      if |es| == 1 then rest == close && rest[0].lit == ")"
      else rest[0].lit == "," && ArgsLead(es[1..], Adv(rest), close)
  }

  /** The argument loop collects arguments of any shape in source order and stops at the ')' without consuming it. */
  lemma {:induction false} ArgsCollected(es: seq<Expr>, args: seq<Expr>, ts: seq<Lexeme>, close: seq<Lexeme>)
    requires ArgsLead(es, ts, close)
    ensures ParseArgs(ts, args) == Success((args + es, close))
    decreases |es|
  {
    if |es| == 0 {
      assert args + es == args;
    } else {
      var rest := ParseExpr(ts).value.1;
      if |es| == 1 {
        ArgThenClose(ts, args, es[0], rest);
        assert es == [es[0]];
      } else {
        ArgThenComma(ts, args, es[0], rest);
        ArgsCollected(es[1..], args + [es[0]], Adv(rest), close);
        assert (args + [es[0]]) + es[1..] == args + es;
      }
    }
  }

  /** `ts` starts with the atoms separated by commas and then ')'. */
  predicate ArgsAhead(atoms: seq<Lexeme>, ts: seq<Lexeme>)
    decreases |atoms|
  {
    if |atoms| == 0 then |ts| > 0 && ts[0] == Op(")")
    else if |atoms| == 1 then |ts| > 1 && ts[0] == atoms[0] && ts[1] == Op(")")
    else |ts| > 2 && ts[0] == atoms[0] && ts[1] == Op(",") && ArgsAhead(atoms[1..], ts[2..])
  }

  /** Where the closing ')' of `n` arguments sits. */
  function CloseAt(n: nat): nat { if n == 0 then 0 else 2 * n - 1 }

  /**
   * The argument loop collects single-token arguments in source order and
   * stops at the closing ')' without consuming it.
   */
  lemma {:induction false} ArgsInOrder(atoms: seq<Lexeme>, args: seq<Expr>, ts: seq<Lexeme>)
    requires forall i | 0 <= i < |atoms| :: IsAtom(atoms[i])
    requires Wf(ts) && ArgsAhead(atoms, ts)
    ensures CloseAt(|atoms|) < |ts|
    ensures ParseArgs(ts, args) == Success((args + Exprs(atoms), ts[CloseAt(|atoms|)..]))
    decreases |atoms|, 1
  {
    if |atoms| == 0 {
      assert args + Exprs(atoms) == args && ts[0..] == ts;
    } else if |atoms| == 1 {
      AtomArgThenClose(ts, args);
      assert Exprs(atoms) == [AtomExpr(atoms[0])];
    } else {
      ArgsInOrderMore(atoms, args, ts);
    }
  }

  /** The step of `ArgsInOrder` for two or more arguments: one argument, a ',', and the rest. */
  lemma {:induction false} ArgsInOrderMore(atoms: seq<Lexeme>, args: seq<Expr>, ts: seq<Lexeme>)
    requires |atoms| > 1 && forall i | 0 <= i < |atoms| :: IsAtom(atoms[i])
    requires Wf(ts) && ArgsAhead(atoms, ts)
    ensures CloseAt(|atoms|) < |ts|
    ensures ParseArgs(ts, args) == Success((args + Exprs(atoms), ts[CloseAt(|atoms|)..]))
    decreases |atoms|, 0
  {
    var e := AtomExpr(atoms[0]);
    AtomArgThenComma(ts, args);
    ArgsInOrder(atoms[1..], args + [e], ts[2..]);
    assert ts[2..][CloseAt(|atoms| - 1)..] == ts[CloseAt(|atoms|)..];
    ExprsCons(atoms, args);
  }

  lemma ExprsCons(atoms: seq<Lexeme>, args: seq<Expr>)
    requires |atoms| > 0
    ensures (args + [AtomExpr(atoms[0])]) + Exprs(atoms[1..]) == args + Exprs(atoms)
  {
    assert Exprs(atoms) == [AtomExpr(atoms[0])] + Exprs(atoms[1..]);
  }

  /** A name and '(' start a call whose arguments are what the argument loop collects. */
  lemma CallStep(ts: seq<Lexeme>, args: seq<Expr>, rest: seq<Lexeme>)
    requires Wf(ts) && ts[0].tok == TokIdentifier && ts[1] == Op("(")
    requires ParseArgs(Adv(Adv(ts)), []) == Success((args, rest))
    ensures ParsePrimary(ts) == Success((Call(ts[0].lit, args), Adv(rest)))
  {
  }

  /**
   * `f(e1, ..., en)`: a name and '(' followed by arguments of any shape
   * is a call to that name with exactly those arguments in source order,
   * and the closing ')' is consumed.
   */
  lemma CallArguments(es: seq<Expr>, ts: seq<Lexeme>, close: seq<Lexeme>)
    requires Wf(ts) && ts[0].tok == TokIdentifier && ts[1].lit == "(" && ArgsLead(es, ts[2..], close)
    ensures ParsePrimary(ts) == Success((Call(ts[0].lit, es), Adv(close)))
  {
    assert Adv(Adv(ts)) == ts[2..];
    ArgsCollected(es, [], ts[2..], close);
    assert [] + es == es;
  }

  /** `f(a1, ..., an)` with single-token arguments, and `f()`: everything up to the ')' is consumed. */
  lemma CallAtomArguments(atoms: seq<Lexeme>, ts: seq<Lexeme>)
    requires forall i | 0 <= i < |atoms| :: IsAtom(atoms[i])
    requires Wf(ts) && ts[0].tok == TokIdentifier && ts[1] == Op("(") && ArgsAhead(atoms, ts[2..])
    ensures CloseAt(|atoms|) + 3 <= |ts|
    ensures ParsePrimary(ts) == Success((Call(ts[0].lit, Exprs(atoms)), ts[CloseAt(|atoms|) + 3..]))
  {
    assert Adv(Adv(ts)) == ts[2..];
    ArgsInOrder(atoms, [], ts[2..]);
    var close := ts[2..][CloseAt(|atoms|)..];
    ArgsAheadClose(atoms, ts[2..]);
    assert [] + Exprs(atoms) == Exprs(atoms);
    CallStep(ts, Exprs(atoms), close);
    assert Adv(close) == ts[CloseAt(|atoms|) + 3..];
  }

  /** The token at the closing position is the ')'. */
  lemma {:induction false} ArgsAheadClose(atoms: seq<Lexeme>, ts: seq<Lexeme>)
    requires ArgsAhead(atoms, ts)
    ensures CloseAt(|atoms|) < |ts| && ts[CloseAt(|atoms|)] == Op(")")
    decreases |atoms|
  {
    if |atoms| > 1 {
      ArgsAheadClose(atoms[1..], ts[2..]);
    }
  }

  /** Appending the head of `xs` and then its tail appends `xs`. */
  lemma AppendHead<T>(acc: seq<T>, xs: seq<T>)
    requires |xs| > 0
    ensures acc + [xs[0]] + xs[1..] == acc + xs
  {
    assert [xs[0]] + xs[1..] == xs;
  }

  /** One turn of the parameter loop: an identifier is taken and the stream advances past it. */
  lemma ParamStep(ts: seq<Lexeme>, acc: seq<string>)
    requires Wf(ts) && ts[0].tok == TokIdentifier
    ensures Wf(ts[1..]) && ParseParams(ts, acc) == ParseParams(ts[1..], acc + [ts[0].lit])
  {
  }

  /** The parameter loop takes every name in a row, in order, and stops at the first non-identifier. */
  lemma {:induction false} ParamsCollected(names: seq<string>, acc: seq<string>, ts: seq<Lexeme>)
    requires Wf(ts) && |ts| > |names|
    requires forall i | 0 <= i < |names| :: ts[i] == Id(names[i])
    requires ts[|names|].tok != TokIdentifier
    ensures ParseParams(ts, acc) == (acc + names, ts[|names|..])
    decreases |names|
  {
    if |names| == 0 {
      assert acc + names == acc && ts[|names|..] == ts;
    } else {
      ParamStep(ts, acc);
      var ts' := ts[1..];
      forall i | 0 <= i < |names| - 1 ensures ts'[i] == Id(names[1..][i]) {
        assert ts'[i] == ts[i + 1];
      }
      ParamsCollected(names[1..], acc + [names[0]], ts');
      assert ts'[|names| - 1..] == ts[|names|..];
      AppendHead(acc, names);
    }
  }

  /** A name, '(', the names the parameter loop collects and ')' make a prototype. */
  lemma PrototypeStep(ts: seq<Lexeme>, params: seq<string>, rest: seq<Lexeme>)
    requires Wf(ts) && ts[0].tok == TokIdentifier && ts[1] == Op("(")
    requires ParseParams(Adv(Adv(ts)), []) == (params, rest) && rest[0].lit == ")"
    ensures ParsePrototype(ts) == Success((Prototype(ts[0].lit, params), Adv(rest)))
  {
  }

  /** `name ( p1 p2 ... )` is a prototype with exactly those parameters in that order. */
  lemma PrototypeParses(names: seq<string>, ts: seq<Lexeme>)
    requires Wf(ts) && ts[0].tok == TokIdentifier && ts[1] == Op("(") && |ts| > |names| + 2
    requires forall i | 0 <= i < |names| :: ts[2..][i] == Id(names[i])
    requires ts[|names| + 2] == Op(")")
    ensures ParsePrototype(ts) == Success((Prototype(ts[0].lit, names), ts[|names| + 3..]))
  {
    assert Adv(Adv(ts)) == ts[2..];
    ParamsCollected(names, [], ts[2..]);
    assert [] + names == names;
    var rest := ts[2..][|names|..];
    assert rest[0] == Op(")");
    assert Adv(rest) == ts[|names| + 3..];
    PrototypeStep(ts, names, rest);
  }

  /**
   * A prototype fails unless it is a name, '(', names, ')': without a name
   * first, without '(' after it, or with anything but ')' after the names
   * (a comma included).
   */
  lemma PrototypeShape(ts: seq<Lexeme>)
    requires Wf(ts)
    ensures ts[0].tok != TokIdentifier ==> ParsePrototype(ts) == Failure(ExpectedIdentifier)
    ensures ts[0].tok == TokIdentifier && Adv(ts)[0].lit != "(" ==> ParsePrototype(ts) == Failure(ExpectedOpenParen)
    ensures ts[0].tok == TokIdentifier && Adv(ts)[0].lit == "(" ==>
              var (params, rest) := ParseParams(Adv(Adv(ts)), []);
              ParsePrototype(ts) ==
                if rest[0].lit == ")" then Success((Prototype(ts[0].lit, params), Adv(rest)))
                else Failure(ExpectedProtoCloseParen)
  {
  }

  /**
   * `name ( p1 ... pn` followed by anything but a name or ')' fails with
   * the missing-')' error: the loop stops there and the ')' test fails.
   */
  lemma UnclosedParams(names: seq<string>, ts: seq<Lexeme>)
    requires Wf(ts) && ts[0].tok == TokIdentifier && ts[1] == Op("(") && |ts| > |names| + 2
    requires forall i | 0 <= i < |names| :: ts[2..][i] == Id(names[i])
    requires ts[|names| + 2].tok != TokIdentifier && ts[|names| + 2].lit != ")"
    ensures ParsePrototype(ts) == Failure(ExpectedProtoCloseParen)
  {
    assert Adv(Adv(ts)) == ts[2..];
    ParamsCollected(names, [], ts[2..]);
  }

  /** Parameters are not separated by commas: `f(a, b)` fails at the ',' with the missing-')' error. */
  lemma CommaBetweenParams(ts: seq<Lexeme>)
    requires Wf(ts) && ts[0].tok == TokIdentifier && ts[1] == Op("(") && ts[2].tok == TokIdentifier && ts[3] == Op(",")
    ensures ParsePrototype(ts) == Failure(ExpectedProtoCloseParen)
  {
    UnclosedParams([ts[2].lit], ts);
  }

  /** Where a primary is expected: an operator other than '(' or a token that starts no expression fails. */
  lemma PrimaryErrors(ts: seq<Lexeme>)
    requires Wf(ts)
    ensures ts[0].tok == TokOperator && ts[0].lit != "(" ==> ParsePrimary(ts) == Failure(UnexpectedOperator)
    ensures ts[0].tok in {TokEOF, TokDef, TokExtern} ==> ParsePrimary(ts) == Failure(UnknownToken)
    ensures ts[0].tok !in {TokIdentifier, TokNumber, TokOperator} ==> ParsePrimary(ts) == Failure(UnknownToken)
  {
  }

  /** A parenthesised expression closed by ')' is the expression inside; both parentheses are consumed. */
  lemma ParenPrimary(ts: seq<Lexeme>, e: Expr, rest: seq<Lexeme>)
    requires Wf(ts) && ts[0] == Op("(")
    requires ParseExpr(Adv(ts)) == Success((e, rest)) && rest[0].lit == ")"
    ensures ParsePrimary(ts) == Success((e, Adv(rest)))
  {
  }

  /** A parenthesised expression not followed by ')' fails, whatever the expression was. */
  lemma MissingCloseParen(ts: seq<Lexeme>)
    requires Wf(ts) && ts[0] == Op("(")
    requires ParseExpr(ts[1..]).Success? && ParseExpr(ts[1..]).value.1[0].lit != ")"
    ensures ParsePrimary(ts) == Failure(ExpectedCloseParen)
  {
  }

  /** Between call arguments anything but ',' or ')' fails. */
  lemma StrayTokenInArguments(ts: seq<Lexeme>, args: seq<Expr>)
    requires Wf(ts) && ts[0].lit != ")"
    requires ParseExpr(ts).Success?
    requires ParseExpr(ts).value.1[0].lit != ")" && ParseExpr(ts).value.1[0].lit != ","
    ensures ParseArgs(ts, args) == Failure(ExpectedCommaOrCloseParen)
  {
  }

  /** At the end of the input the top level yields nil and consumes nothing. */
  lemma TopLevelEnd(ts: seq<Lexeme>)
    requires Wf(ts) && ts[0].tok == TokEOF
    ensures ParseTopLevel(ts) == Success((None, ts))
  {
  }

  /** `def` followed by a prototype and a body is a function declaration made of the two. */
  lemma TopLevelDefinition(ts: seq<Lexeme>, proto: Prototype, rest: seq<Lexeme>, body: Expr, rest': seq<Lexeme>)
    requires Wf(ts) && ts[0].tok == TokDef
    requires ParsePrototype(Adv(ts)) == Success((proto, rest))
    requires Wf(rest) && ParseExpr(rest) == Success((body, rest'))
    ensures ParseTopLevel(ts) == Success((Some(FunctionDecl(Function(proto, body))), rest'))
  {
  }

  /** `def` whose prototype fails fails with the prototype's error. */
  lemma TopLevelDefinitionFails(ts: seq<Lexeme>)
    requires Wf(ts) && ts[0].tok == TokDef && ParsePrototype(Adv(ts)).Failure?
    ensures ParseTopLevel(ts) == Failure(ParsePrototype(Adv(ts)).error)
  {
  }

  /** `extern` followed by a prototype is a prototype declaration, with no body. */
  lemma TopLevelExtern(ts: seq<Lexeme>, proto: Prototype, rest: seq<Lexeme>)
    requires Wf(ts) && ts[0].tok == TokExtern
    requires ParsePrototype(Adv(ts)) == Success((proto, rest))
    ensures ParseTopLevel(ts) == Success((Some(PrototypeDecl(proto)), rest))
  {
  }

  /**
   * Any other token starts a bare expression, which becomes the body of an
   * anonymous function without parameters; a failing expression fails the unit.
   */
  lemma TopLevelExpression(ts: seq<Lexeme>)
    requires Wf(ts) && ts[0].tok !in {TokEOF, TokDef, TokExtern, ';' as int}
    ensures ParseExpr(ts).Failure? ==> ParseTopLevel(ts) == Failure(ParseExpr(ts).error)
    ensures ParseExpr(ts).Success? ==>
              ParseTopLevel(ts) ==
                Success((Some(FunctionDecl(Function(Prototype(AnonName, []), ParseExpr(ts).value.0))), ParseExpr(ts).value.1))
  {
  }

  /**
   * The `case ';'` arm compares the token kind, not the text: an operator
   * `;` at the start of a unit is parsed as an expression and fails.
   */
  lemma LeadingSemicolonFails(ts: seq<Lexeme>)
    requires Wf(ts) && ts[0] == Op(";")
    ensures ParseTopLevel(ts) == Failure(UnexpectedOperator)
  {
    assert ";"[0] != "("[0];
    assert ParsePrimary(ts) == Failure(UnexpectedOperator);
  }

  /** A ')' right after a ',' ends the argument list: `f(1,)` is a call with one argument. */
  lemma TrailingCommaAccepted(ts: seq<Lexeme>)
    requires Wf(ts) && ts[0].tok == TokIdentifier && ts[1] == Op("(")
    requires IsAtom(ts[2]) && ts[3] == Op(",") && ts[4] == Op(")")
    ensures ParsePrimary(ts) == Success((Call(ts[0].lit, [AtomExpr(ts[2])]), ts[5..]))
  {
    assert Adv(Adv(ts)) == ts[2..];
    AtomArgThenComma(ts[2..], []);
    assert ts[2..][2..] == ts[4..] && [] + [AtomExpr(ts[2])] == [AtomExpr(ts[2])];
    assert ParseArgs(ts[4..], [AtomExpr(ts[2])]) == Success(([AtomExpr(ts[2])], ts[4..]));
    CallStep(ts, [AtomExpr(ts[2])], ts[4..]);
    assert Adv(ts[4..]) == ts[5..];
  }

  /** An argument that is itself an expression: `f(x + y)` is a call with the one argument `x + y`. */
  lemma CompoundArgument(ts: seq<Lexeme>)
    requires Wf(ts) && ts[0].tok == TokIdentifier && ts[1] == Op("(")
    requires IsAtom(ts[2]) && ts[3] == Op("+") && IsAtom(ts[4]) && ts[5] == Op(")")
    ensures ParsePrimary(ts) == Success((Call(ts[0].lit, [Binary('+', AtomExpr(ts[2]), AtomExpr(ts[4]))]), ts[6..]))
  {
    var e := Binary('+', AtomExpr(ts[2]), AtomExpr(ts[4]));
    SumBeforeClose(ts[2..]);
    assert ts[2..][3..] == ts[5..];
    assert ArgsLead([e], ts[2..], ts[5..]);
    CallArguments([e], ts, ts[5..]);
    assert Adv(ts[5..]) == ts[6..];
  }

  /** `x + y )`: the sum of two single-token operands, stopping at the ')'. */
  lemma SumBeforeClose(ts: seq<Lexeme>)
    requires Wf(ts) && IsAtom(ts[0]) && ts[1] == Op("+") && IsAtom(ts[2]) && ts[3] == Op(")")
    ensures ParseExpr(ts) == Success((Binary('+', AtomExpr(ts[0]), AtomExpr(ts[2])), ts[3..]))
  {
    assert "+"[0] == '+' && ")"[0] == ')';
    assert TokPrecedence(ts[1]) == 20 && TokPrecedence(ts[3]) == -1;
    AtomThenRest(ts);
    var tail := ts[1..];
    assert tail[0] == ts[1] && tail[1] == ts[2] && tail[2] == ts[3] && tail[2..] == ts[3..];
    FoldAtom(0, AtomExpr(ts[0]), tail);
    BinOpRhsStops(0, Binary('+', AtomExpr(ts[0]), AtomExpr(ts[2])), ts[3..]);
  }
}
