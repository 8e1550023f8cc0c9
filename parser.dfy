/**
 * The parser of parse.go as it is written: an object holding a scanner and
 * the current token, advanced one token at a time.  Every parse method is
 * proved to return what the matching `Grammar` function says, for the
 * token stream the parser stands at (`Toks()`), and to leave the parser at
 * the stream that function leaves.
 */
module Parser {
  import opened Wrappers
  import opened Lexer
  import opened Ast
  import opened Grammar
  import opened LexerFacts
  import GrammarFacts

  /** A method's result `r` and final stream `rest` agree with the specification `spec`. */
  ghost predicate Agrees<T>(spec: Parsed<T>, r: Result<T, ParseError>, rest: seq<Lexeme>) {
    match r
    case Success(v) => spec == Success((v, rest))
    case Failure(e) => spec == Failure(e)
  }

  class Parser {
    var scanner: Scanner
    var curTok: Token
    var lit: string
    /** The current token followed by every token the scanner will still yield. */
    ghost var toks: seq<Lexeme>

    /**
     * The scanner is consistent, an operator token has text, the end token
     * means the scanner itself sits at the end sentinel, and `toks` is the
     * current token followed by what the scanner yields from its position.
     * That last link is stated for every position equal to the scanner's,
     * so the stream function is only unfolded where a proof names it.
     */
    ghost predicate Valid()
      reads this, scanner
    {
      scanner.Valid() &&
      (curTok == TokOperator ==> |lit| > 0) &&
      (curTok == TokEOF ==> lit == "" && scanner.lastChar == EOF) &&
      Wf(toks) && toks[0] == Lexeme(curTok, lit) &&
      (curTok == TokEOF ==> toks == [EofLexeme]) &&
      (forall p: nat :: p == scanner.pos && curTok != TokEOF ==> toks[1..] == TokensFrom(scanner.src, p))
    }

    /** The token stream the parser stands at. */
    ghost function Toks(): (ts: seq<Lexeme>)
      reads this, scanner
      requires Valid()
      ensures Wf(ts) && ts[0] == Lexeme(curTok, lit)
    {
      toks
    }

    /** `Init`: a fresh scanner over `src`, and its first token read. */
    constructor Init(src: seq<byte>)
      ensures Valid() && fresh(scanner)
      ensures Toks() == TokensFrom(src, 0)
    {
      var sc := new Scanner(src);
      var t, l := sc.GetTok();
      scanner, curTok, lit := sc, t, l;
      toks := TokensFrom(src, 0);
    }

    /** `getNextToken` */
    method GetNextToken()
      requires Valid()
      modifies this, scanner
      ensures Valid() && scanner == old(scanner)
      ensures Toks() == Adv(old(Toks()))
    {
      ghost var rest := toks;
      if curTok == TokEOF {
        assert scanner.lastChar == EOF;
        ScanAtEnd(scanner.src, scanner.pos);
      } else {
        rest := TokensFrom(scanner.src, scanner.pos);
        assert toks[1..] == rest;
      }
      curTok, lit := scanner.GetTok();
      toks := rest;
    }

    /** `ParseNumberExpr` */
    method ParseNumberExpr() returns (e: Expr)
      requires Valid()
      modifies this, scanner
      ensures Valid() && scanner == old(scanner)
      ensures e == Number(old(lit)) && Toks() == Adv(old(Toks()))
    {
      e := Number(lit);
      GetNextToken();
    }

    /** `ParseParenExpr` */
    method ParseParenExpr() returns (r: Result<Expr, ParseError>)
      requires Valid() && curTok != TokEOF
      modifies this, scanner
      ensures Valid() && scanner == old(scanner)
      ensures Agrees(Grammar.ParseParenExpr(old(Toks())), r, Toks())
      decreases |Toks()|, 1
    {
      GetNextToken();
      var e := ParseExpression();
      if e.Failure? {
        return Failure(e.error);
      }
      if lit != ")" {
        return Failure(ExpectedCloseParen);
      }
      GetNextToken();
      return Success(e.value);
    }

    /** `ParseIdentifierExpr` */
    method ParseIdentifierExpr() returns (r: Result<Expr, ParseError>)
      requires Valid() && curTok == TokIdentifier
      modifies this, scanner
      ensures Valid() && scanner == old(scanner)
      ensures Agrees(Grammar.ParseIdentifierExpr(old(Toks())), r, Toks())
      decreases |Toks()|, 1
    {
      ghost var ts0 := Toks();
      var idName := lit;
      GetNextToken();
      if lit != "(" {
        return Success(Variable(idName));
      }
      GetNextToken();
      assert Toks() == Adv(Adv(ts0)) && |Toks()| < |ts0|;
      var args := ParseArgList();
      if args.Failure? {
        return Failure(args.error);
      }
      GetNextToken();
      return Success(Call(idName, args.value));
    }

    /**
     * The argument loop of `ParseIdentifierExpr`, run after the '(' has
     * been consumed: it stops at the ')' and leaves it current.
     */
    method ParseArgList() returns (r: Result<seq<Expr>, ParseError>)
      requires Valid()
      modifies this, scanner
      ensures Valid() && scanner == old(scanner)
      ensures Agrees(ParseArgs(old(Toks()), []), r, Toks())
      decreases |Toks()|, 4
    {
      ghost var start := Toks();
      var args: seq<Expr> := [];
      while lit != ")"
        invariant Valid() && scanner == old(scanner)
        invariant |Toks()| <= |start|
        invariant ParseArgs(Toks(), args) == ParseArgs(start, [])
        decreases |Toks()|
      {
        ghost var before := Toks();
        ghost var done := args;
        var arg := ParseExpression();
        if arg.Failure? {
          return Failure(arg.error);
        }
        args := args + [arg.value];
        if lit == ")" {
          assert ParseArgs(before, done) == Success((args, Toks()));
          return Success(args);
        }
        if lit != "," {
          return Failure(ExpectedCommaOrCloseParen);
        }
        GetNextToken();
      }
      return Success(args);
    }

    /** `ParsePrimary` */
    method ParsePrimary() returns (r: Result<Expr, ParseError>)
      requires Valid()
      modifies this, scanner
      ensures Valid() && scanner == old(scanner)
      ensures Agrees(Grammar.ParsePrimary(old(Toks())), r, Toks())
      decreases |Toks()|, 2
    {
      if curTok == TokIdentifier {
        r := ParseIdentifierExpr();
      } else if curTok == TokNumber {
        var e := ParseNumberExpr();
        r := Success(e);
      } else if curTok == TokOperator {
        if lit == "(" {
          r := ParseParenExpr();
        } else {
          r := Failure(UnexpectedOperator);
        }
      } else {
        r := Failure(UnknownToken);
      }
    }

    /** `ParseExpression` */
    method ParseExpression() returns (r: Result<Expr, ParseError>)
      requires Valid()
      modifies this, scanner
      ensures Valid() && scanner == old(scanner)
      ensures Agrees(Grammar.ParseExpr(old(Toks())), r, Toks())
      decreases |Toks()|, 3
    {
      var lhs := ParsePrimary();
      if lhs.Failure? {
        return lhs;
      }
      r := ParseBinOpRhs(0, lhs.value);
    }

    /** `ParseBinOpRhs` */
    method ParseBinOpRhs(prec: int, lhs0: Expr) returns (r: Result<Expr, ParseError>)
      requires Valid() && 0 <= prec
      modifies this, scanner
      ensures Valid() && scanner == old(scanner)
      ensures Agrees(Grammar.ParseBinOpRhs(prec, lhs0, old(Toks())), r, Toks())
      decreases |Toks()|, 4
    {
      ghost var ts0 := Toks();
      var lhs := lhs0;
      while true
        invariant Valid() && scanner == old(scanner)
        invariant |Toks()| <= |ts0|
        invariant Grammar.ParseBinOpRhs(prec, lhs, Toks()) == Grammar.ParseBinOpRhs(prec, lhs0, ts0)
        decreases |Toks()|
      {
        ghost var ts := Toks();
        var tokPrec := TokPrecedence(Lexeme(curTok, lit));
        if tokPrec < prec {
          GrammarFacts.BinOpRhsStops(prec, lhs, ts);
          return Success(lhs);
        }
        var binOp := lit;
        GetNextToken();
        assert |Toks()| < |ts|;
        var rhs := ParsePrimary();
        if rhs.Failure? {
          GrammarFacts.BinOpRhsOperandFails(prec, lhs, ts);
          return rhs;
        }
        ghost var afterRhs := Toks();
        var nextPrec := TokPrecedence(Lexeme(curTok, lit));
        var right := rhs.value;
        if nextPrec > tokPrec {
          var rr := ParseBinOpRhs(tokPrec + 1, right);
          if rr.Failure? {
            GrammarFacts.BinOpRhsNestedFails(prec, lhs, ts, rhs.value, afterRhs);
            return rr;
          }
          right := rr.value;
        }
        GrammarFacts.BinOpRhsStep(prec, lhs, ts, rhs.value, afterRhs, right, Toks());
        lhs := Binary(binOp[0], lhs, right);
      }
    }

    /** `ParsePrototype` */
    method ParsePrototype() returns (r: Result<Prototype, ParseError>)
      requires Valid()
      modifies this, scanner
      ensures Valid() && scanner == old(scanner)
      ensures Agrees(Grammar.ParsePrototype(old(Toks())), r, Toks())
    {
      ghost var ts0 := Toks();
      if curTok != TokIdentifier {
        return Failure(ExpectedIdentifier);
      }
      var fnName := lit;
      GetNextToken();
      ghost var ts1 := Toks();
      if lit != "(" {
        return Failure(ExpectedOpenParen);
      }
      GetNextToken();
      ghost var start := Toks();
      assert start == Adv(Adv(ts0));
      var args: seq<string> := [];
      while curTok == TokIdentifier
        invariant Valid() && scanner == old(scanner)
        invariant ParseParams(Toks(), args) == ParseParams(start, [])
        decreases |Toks()|
      {
        args := args + [lit];
        GetNextToken();
      }
      assert ParseParams(start, []) == (args, Toks());
      if lit != ")" {
        return Failure(ExpectedProtoCloseParen);
      }
      GetNextToken();
      return Success(Prototype(fnName, args));
    }

    /** `ParseDefinition` */
    method ParseDefinition() returns (r: Result<Function, ParseError>)
      requires Valid()
      modifies this, scanner
      ensures Valid() && scanner == old(scanner)
      ensures Agrees(Grammar.ParseDefinition(old(Toks())), r, Toks())
    {
      GetNextToken();
      var proto := ParsePrototype();
      if proto.Failure? {
        return Failure(proto.error);
      }
      var expr := ParseExpression();
      if expr.Failure? {
        return Failure(expr.error);
      }
      return Success(Function(proto.value, expr.value));
    }

    /** `ParseExtern` */
    method ParseExtern() returns (r: Result<Prototype, ParseError>)
      requires Valid()
      modifies this, scanner
      ensures Valid() && scanner == old(scanner)
      ensures Agrees(Grammar.ParseExtern(old(Toks())), r, Toks())
    {
      GetNextToken();
      r := ParsePrototype();
    }

    /** `ParseTopLevelExpr` */
    method ParseTopLevelExpr() returns (r: Result<Function, ParseError>)
      requires Valid()
      modifies this, scanner
      ensures Valid() && scanner == old(scanner)
      ensures Agrees(Grammar.ParseTopLevelExpr(old(Toks())), r, Toks())
    {
      var e := ParseExpression();
      if e.Failure? {
        return Failure(e.error);
      }
      var proto := Prototype(AnonName, []);
      return Success(Function(proto, e.value));
    }

    /** `ParseTopLevel` */
    method ParseTopLevel() returns (r: Result<Option<Decl>, ParseError>)
      requires Valid()
      modifies this, scanner
      ensures Valid() && scanner == old(scanner)
      ensures Agrees(Grammar.ParseTopLevel(old(Toks())), r, Toks())
    {
      while true
        invariant Valid() && scanner == old(scanner)
        invariant Grammar.ParseTopLevel(Toks()) == Grammar.ParseTopLevel(old(Toks()))
        decreases |Toks()|
      {
        if curTok == TokEOF {
          return Success(None);
        } else if curTok == ';' as int {
          GetNextToken();
        } else if curTok == TokDef {
          var f := ParseDefinition();
          if f.Failure? {
            return Failure(f.error);
          }
          return Success(Some(FunctionDecl(f.value)));
        } else if curTok == TokExtern {
          var p := ParseExtern();
          if p.Failure? {
            return Failure(p.error);
          }
          return Success(Some(PrototypeDecl(p.value)));
        } else {
          var f := ParseTopLevelExpr();
          if f.Failure? {
            return Failure(f.error);
          }
          return Success(Some(FunctionDecl(f.value)));
        }
      }
    }
  }

}
