/**
 * The recursive-descent parser of parse.go as functions over the token
 * stream the scanner yields.  A stream is the current token followed by
 * every token still to come; consuming a token drops the first element,
 * except that the end token is never consumed (the scanner keeps
 * returning it).
 */
module Grammar {
  import opened Wrappers
  import opened Lexer
  import opened Ast

  /** The panics of parse.go, one per message. */
  datatype ParseError =
    | ExpectedCloseParen          // "Expected ')'" after a parenthesised expression
    | ExpectedCommaOrCloseParen   // "Expected ',' or ')'" between call arguments
    | UnexpectedOperator          // an operator other than '(' where a primary is expected
    | UnknownToken                // end, `def` or `extern` where a primary is expected
    | ExpectedIdentifier          // a prototype that does not start with a name
    | ExpectedOpenParen           // a prototype name not followed by '('
    | ExpectedProtoCloseParen     // a parameter list not closed by ')'

  /** A parse result: the value and the stream left after it. */
  type Parsed<T> = Result<(T, seq<Lexeme>), ParseError>

  /**
   * A stream as the scanner yields it: it ends with the end token, holds
   * no earlier end token, and every operator token has text.
   */
  predicate Wf(ts: seq<Lexeme>) {
    |ts| > 0 && ts[|ts| - 1] == EofLexeme &&
    (forall i | 0 <= i < |ts| - 1 :: ts[i].tok != TokEOF) &&
    (forall i | 0 <= i < |ts| :: ts[i].tok == TokOperator ==> |ts[i].lit| > 0)
  }

  /** `getNextToken` on a stream. */
  function Adv(ts: seq<Lexeme>): (r: seq<Lexeme>)
    requires Wf(ts)
    ensures Wf(r)
    ensures ts[0].tok == TokEOF ==> r == ts
    ensures ts[0].tok != TokEOF ==> r == ts[1..] && |r| < |ts|
  {
    if ts[0].tok == TokEOF then ts else ts[1..]
  }

  /** `BinopPrecedence` */
  const BinopPrecedence: map<char, int> := map['<' := 10, '+' := 20, '-' := 20, '*' := 40]

  /** `GetTokPrecendence`: only the first byte of an operator's text is looked up. */
  function TokPrecedence(l: Lexeme): (prec: int)
    requires l.tok == TokOperator ==> |l.lit| > 0
    ensures prec == 10 <==> l.tok == TokOperator && l.lit[0] == '<'
    ensures prec == 20 <==> l.tok == TokOperator && (l.lit[0] == '+' || l.lit[0] == '-')
    ensures prec == 40 <==> l.tok == TokOperator && l.lit[0] == '*'
    ensures prec == -1 <==> !(l.tok == TokOperator && l.lit[0] in {'<', '+', '-', '*'})
  {
    if l.tok != TokOperator then -1
    else if l.lit[0] in BinopPrecedence then BinopPrecedence[l.lit[0]]
    else -1
  }

  /** `ParseExpression`: a primary, then the operators that follow it. */
  function ParseExpr(ts: seq<Lexeme>): (r: Parsed<Expr>)
    requires Wf(ts)
    ensures r.Success? ==> Wf(r.value.1) && |r.value.1| < |ts|
    decreases |ts|, 3
  {
    match ParsePrimary(ts)
    case Failure(e) => Failure(e)
    case Success((lhs, rest)) => ParseBinOpRhs(0, lhs, rest)
  }

  /** `ParsePrimary`: dispatch on the current token. */
  function ParsePrimary(ts: seq<Lexeme>): (r: Parsed<Expr>)
    requires Wf(ts)
    ensures r.Success? ==> Wf(r.value.1) && |r.value.1| < |ts|
    decreases |ts|, 2
  {
    if ts[0].tok == TokIdentifier then ParseIdentifierExpr(ts)
    else if ts[0].tok == TokNumber then Success((Number(ts[0].lit), Adv(ts)))
    else if ts[0].tok == TokOperator then
      if ts[0].lit == "(" then ParseParenExpr(ts) else Failure(UnexpectedOperator)
    else Failure(UnknownToken)
  }

  /** `ParseParenExpr`: the current token is the '(' being consumed. */
  function ParseParenExpr(ts: seq<Lexeme>): (r: Parsed<Expr>)
    requires Wf(ts) && ts[0].tok != TokEOF
    ensures r.Success? ==> Wf(r.value.1) && |r.value.1| < |ts|
    decreases |ts|, 1
  {
    match ParseExpr(Adv(ts))
    case Failure(e) => Failure(e)
    case Success((e, rest)) =>
      if rest[0].lit != ")" then Failure(ExpectedCloseParen) else Success((e, Adv(rest)))
  }

  /** `ParseIdentifierExpr`: a variable, or a call when '(' follows the name. */
  function ParseIdentifierExpr(ts: seq<Lexeme>): (r: Parsed<Expr>)
    requires Wf(ts) && ts[0].tok == TokIdentifier
    ensures r.Success? ==> Wf(r.value.1) && |r.value.1| < |ts|
    decreases |ts|, 1
  {
    var name := ts[0].lit;
    var afterName := Adv(ts);
    if afterName[0].lit != "(" then Success((Variable(name), afterName))
    else
      match ParseArgs(Adv(afterName), [])
      case Failure(e) => Failure(e)
      case Success((args, rest)) => Success((Call(name, args), Adv(rest)))
  }

  /**
   * The argument loop of `ParseIdentifierExpr` (parse.go:101-116), from the
   * loop test on: it stops at the ')' it does not consume.  The loop test
   * is made again after a ',', so a ')' right after a ',' also ends it.
   */
  function ParseArgs(ts: seq<Lexeme>, args: seq<Expr>): (r: Result<(seq<Expr>, seq<Lexeme>), ParseError>)
    requires Wf(ts)
    ensures r.Success? ==> Wf(r.value.1) && |r.value.1| <= |ts| && r.value.1[0].lit == ")"
    decreases |ts|, 4
  {
    if ts[0].lit == ")" then Success((args, ts))
    else
      match ParseExpr(ts)
      case Failure(e) => Failure(e)
      case Success((arg, rest)) =>
        if rest[0].lit == ")" then Success((args + [arg], rest))
        else if rest[0].lit != "," then Failure(ExpectedCommaOrCloseParen)
        else ParseArgs(Adv(rest), args + [arg])
  }

  /**
   * `ParseBinOpRhs`: fold operators of precedence at least `prec` onto
   * `lhs`; the `for` loop is the tail call at the end.
   */
  function ParseBinOpRhs(prec: int, lhs: Expr, ts: seq<Lexeme>): (r: Parsed<Expr>)
    requires Wf(ts) && 0 <= prec
    ensures r.Success? ==> Wf(r.value.1) && |r.value.1| <= |ts|
    decreases |ts|, 4
  {
    var tokPrec := TokPrecedence(ts[0]);
    if tokPrec < prec then Success((lhs, ts))
    else
      var op := ts[0].lit[0];
      match ParsePrimary(Adv(ts))
      case Failure(e) => Failure(e)
      case Success((rhs, rest)) =>
        var rhsTail :=
          if TokPrecedence(rest[0]) > tokPrec then ParseBinOpRhs(tokPrec + 1, rhs, rest)
          else Success((rhs, rest));
        match rhsTail
        case Failure(e) => Failure(e)
        case Success((rhs', rest')) => ParseBinOpRhs(prec, Binary(op, lhs, rhs'), rest')
  }

  /** The parameter loop of `ParsePrototype`: collect names while the token is an identifier. */
  function ParseParams(ts: seq<Lexeme>, params: seq<string>): (r: (seq<string>, seq<Lexeme>))
    requires Wf(ts)
    ensures Wf(r.1) && |r.1| <= |ts| && r.1[0].tok != TokIdentifier
    decreases |ts|
  {
    if ts[0].tok == TokIdentifier then ParseParams(Adv(ts), params + [ts[0].lit]) else (params, ts)
  }

  /** `ParsePrototype`: a name, '(', names without commas, ')'. */
  function ParsePrototype(ts: seq<Lexeme>): (r: Parsed<Prototype>)
    requires Wf(ts)
    ensures r.Success? ==> Wf(r.value.1) && |r.value.1| < |ts|
  {
    if ts[0].tok != TokIdentifier then Failure(ExpectedIdentifier)
    else
      var afterName := Adv(ts);
      if afterName[0].lit != "(" then Failure(ExpectedOpenParen)
      else
        var (params, rest) := ParseParams(Adv(afterName), []);
        if rest[0].lit != ")" then Failure(ExpectedProtoCloseParen)
        else Success((Prototype(ts[0].lit, params), Adv(rest)))
  }

  /** `ParseDefinition`: the current token is the `def` being consumed. */
  function ParseDefinition(ts: seq<Lexeme>): (r: Parsed<Function>)
    requires Wf(ts)
    ensures r.Success? ==> Wf(r.value.1) && |r.value.1| < |ts|
  {
    match ParsePrototype(Adv(ts))
    case Failure(e) => Failure(e)
    case Success((proto, rest)) =>
      match ParseExpr(rest)
      case Failure(e) => Failure(e)
      case Success((body, rest')) => Success((Function(proto, body), rest'))
  }

  /** `ParseExtern`: the current token is the `extern` being consumed. */
  function ParseExtern(ts: seq<Lexeme>): (r: Parsed<Prototype>)
    requires Wf(ts)
    ensures r.Success? ==> Wf(r.value.1) && |r.value.1| < |ts|
  {
    ParsePrototype(Adv(ts))
  }

  /** `ParseTopLevelExpr`: a bare expression inside an anonymous, parameterless function. */
  function ParseTopLevelExpr(ts: seq<Lexeme>): (r: Parsed<Function>)
    requires Wf(ts)
    ensures r.Success? ==> Wf(r.value.1) && |r.value.1| < |ts|
  {
    match ParseExpr(ts)
    case Failure(e) => Failure(e)
    case Success((e, rest)) => Success((Function(Prototype(AnonName, []), e), rest))
  }

  /**
   * `ParseTopLevel`: `None` is Go's nil.  The `case ';'` arm compares the
   * token KIND with the rune ';' (59), as parse.go:263 does.
   */
  function ParseTopLevel(ts: seq<Lexeme>): (r: Parsed<Option<Decl>>)
    requires Wf(ts)
    ensures r.Success? ==> Wf(r.value.1) && |r.value.1| <= |ts|
    decreases |ts|
  {
    if ts[0].tok == TokEOF then Success((None, ts))
    else if ts[0].tok == ';' as int then ParseTopLevel(Adv(ts))
    else if ts[0].tok == TokDef then
      match ParseDefinition(ts)
      case Failure(e) => Failure(e)
      case Success((f, rest)) => Success((Some(FunctionDecl(f)), rest))
    else if ts[0].tok == TokExtern then
      match ParseExtern(ts)
      case Failure(e) => Failure(e)
      case Success((p, rest)) => Success((Some(PrototypeDecl(p)), rest))
    else
      match ParseTopLevelExpr(ts)
      case Failure(e) => Failure(e)
      case Success((f, rest)) => Success((Some(FunctionDecl(f)), rest))
  }
}
