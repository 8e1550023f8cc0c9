/** The token streams lex_test.go expects, derived from the scanner model. */
module LexerExamples {
  import opened Lexer
  import opened LexerFacts

  /** Go's `[]byte(s)` for a string whose characters are all bytes. */
  function Bytes(s: string): (bs: seq<byte>)
    requires forall i | 0 <= i < |s| :: s[i] as int < 256
    ensures |bs| == |s| && forall i | 0 <= i < |s| :: bs[i] as int == s[i] as int
  {
    seq(|s|, i requires 0 <= i < |s| && forall j | 0 <= j < |s| :: s[j] as int < 256 => s[i] as int as byte)
  }

  /**
   * The characters of `w` sit in `src` from position `p` on.  Long inputs
   * are described by a few short overlapping windows, which keeps each
   * scanning step cheap to check.
   */
  predicate At(src: seq<byte>, p: nat, w: string) {
    p + |w| <= |src| && forall i | p <= i < p + |w| :: src[i] as int == w[i - p] as int
  }

  /** One more token in front of a known stream. */
  lemma Cons(src: seq<byte>, p: nat, lx: Lexeme, q: nat, rest: seq<Lexeme>)
    requires p <= |src| && Scan(src, p) == (lx, q) && lx.tok != TokEOF && TokensFrom(src, q) == rest
    ensures TokensFrom(src, p) == [lx] + rest
  {
  }

  /** Links of a stream, one token each, make one longer link. */
  lemma Glue2(t0: seq<Lexeme>, t1: seq<Lexeme>, t2: seq<Lexeme>, a0: Lexeme, a1: Lexeme)
    requires t0 == [a0] + t1 && t1 == [a1] + t2
    ensures t0 == [a0, a1] + t2
  {
  }

  lemma Glue3(t0: seq<Lexeme>, t1: seq<Lexeme>, t2: seq<Lexeme>, t3: seq<Lexeme>, a0: Lexeme, a1: Lexeme, a2: Lexeme)
    requires t0 == [a0] + t1 && t1 == [a1] + t2 && t2 == [a2] + t3
    ensures t0 == [a0, a1, a2] + t3
  {
  }

  lemma Number123(src: seq<byte>)
    requires src == Bytes("123")
    ensures TokensFrom(src, 0) == [Lexeme(TokNumber, "123"), EofLexeme]
  {
    ScanNumber(src, 0, 0, 3);
    assert Text(src[0..3]) == "123";
    ScanAtEnd(src, 3);
    Cons(src, 0, Lexeme(TokNumber, "123"), 3, [EofLexeme]);
  }

  lemma NumberWithDot(src: seq<byte>)
    requires src == Bytes("1.4")
    ensures TokensFrom(src, 0) == [Lexeme(TokNumber, "1.4"), EofLexeme]
  {
    ScanNumber(src, 0, 0, 3);
    assert Text(src[0..3]) == "1.4";
    ScanAtEnd(src, 3);
    Cons(src, 0, Lexeme(TokNumber, "1.4"), 3, [EofLexeme]);
  }

  /** Numbers are not validated: two dots in a row still make one number token. */
  lemma NumberTwoDots(src: seq<byte>)
    requires src == Bytes("1..2")
    ensures TokensFrom(src, 0) == [Lexeme(TokNumber, "1..2"), EofLexeme]
  {
    ScanNumber(src, 0, 0, 4);
    assert Text(src[0..4]) == "1..2";
    ScanAtEnd(src, 4);
    Cons(src, 0, Lexeme(TokNumber, "1..2"), 4, [EofLexeme]);
  }

  lemma Assignment(src: seq<byte>)
    requires src == Bytes("x = 3")
    ensures TokensFrom(src, 0) ==
      [Lexeme(TokIdentifier, "x"), Lexeme(TokOperator, "="), Lexeme(TokNumber, "3"), EofLexeme]
  {
    ScanIdentifier(src, 0, 0, 1);
    assert Text(src[0..1]) == "x";
    ScanOperator(src, 1, 2);
    ScanNumber(src, 3, 4, 5);
    assert Text(src[4..5]) == "3";
    ScanAtEnd(src, 5);
    var t := [EofLexeme];
    Cons(src, 3, Lexeme(TokNumber, "3"), 5, t);
    t := [Lexeme(TokNumber, "3")] + t;
    Cons(src, 1, Lexeme(TokOperator, "="), 3, t);
    t := [Lexeme(TokOperator, "=")] + t;
    Cons(src, 0, Lexeme(TokIdentifier, "x"), 1, t);
  }

  lemma ExternSin(src: seq<byte>)
    requires src == Bytes("extern sin()")
    ensures TokensFrom(src, 0) ==
      [Lexeme(TokExtern, ""), Lexeme(TokIdentifier, "sin"), Lexeme(TokOperator, "("),
       Lexeme(TokOperator, ")"), EofLexeme]
  {
    ExternWord(src);
    SinCallStream(src);
    var t := [Lexeme(TokIdentifier, "sin"), Lexeme(TokOperator, "("), Lexeme(TokOperator, ")"), EofLexeme];
    Cons(src, 0, Lexeme(TokExtern, ""), 6, t);
  }

  lemma ExternWord(src: seq<byte>)
    requires src == Bytes("extern sin()")
    ensures Scan(src, 0) == (Lexeme(TokExtern, ""), 6)
  {
    ScanIdentifier(src, 0, 0, 6);
    assert Text(src[0..6]) == "extern";
  }

  lemma SinWord(src: seq<byte>)
    requires src == Bytes("extern sin()")
    ensures Scan(src, 6) == (Lexeme(TokIdentifier, "sin"), 10)
  {
    ScanIdentifier(src, 6, 7, 10);
    assert Text(src[7..10]) == "sin";
  }

  lemma SinCallStream(src: seq<byte>)
    requires src == Bytes("extern sin()")
    ensures TokensFrom(src, 6) ==
      [Lexeme(TokIdentifier, "sin"), Lexeme(TokOperator, "("), Lexeme(TokOperator, ")"), EofLexeme]
  {
    SinWord(src);
    EmptyParens(src);
    var t := [Lexeme(TokOperator, "("), Lexeme(TokOperator, ")"), EofLexeme];
    Cons(src, 6, Lexeme(TokIdentifier, "sin"), 10, t);
  }

  lemma EmptyParens(src: seq<byte>)
    requires src == Bytes("extern sin()")
    ensures TokensFrom(src, 10) == [Lexeme(TokOperator, "("), Lexeme(TokOperator, ")"), EofLexeme]
  {
    ScanOperator(src, 10, 10);
    ScanOperator(src, 11, 11);
    ScanAtEnd(src, 12);
    var t := [EofLexeme];
    Cons(src, 11, Lexeme(TokOperator, ")"), 12, t);
    t := [Lexeme(TokOperator, ")")] + t;
    Cons(src, 10, Lexeme(TokOperator, "("), 11, t);
  }

  /** The comment and everything after it contribute nothing. */
  lemma DefWithComment(src: seq<byte>)
    requires src == Bytes("def foo(x) # comment")
    ensures TokensFrom(src, 0) ==
      [Lexeme(TokDef, ""), Lexeme(TokIdentifier, "foo"), Lexeme(TokOperator, "("),
       Lexeme(TokIdentifier, "x"), Lexeme(TokOperator, ")"), EofLexeme]
  {
    FooStream(src);
    DefWord(src);
    var t := [Lexeme(TokIdentifier, "foo"), Lexeme(TokOperator, "("), Lexeme(TokIdentifier, "x"), Lexeme(TokOperator, ")"), EofLexeme];
    Cons(src, 0, Lexeme(TokDef, ""), 3, t);
  }

  lemma FooStream(src: seq<byte>)
    requires src == Bytes("def foo(x) # comment")
    ensures TokensFrom(src, 3) ==
      [Lexeme(TokIdentifier, "foo"), Lexeme(TokOperator, "("), Lexeme(TokIdentifier, "x"), Lexeme(TokOperator, ")"), EofLexeme]
  {
    CommentStream(src);
    FooWord(src);
    var t := [Lexeme(TokOperator, "("), Lexeme(TokIdentifier, "x"), Lexeme(TokOperator, ")"), EofLexeme];
    Cons(src, 3, Lexeme(TokIdentifier, "foo"), 7, t);
  }

  lemma DefWord(src: seq<byte>)
    requires src == Bytes("def foo(x) # comment")
    ensures Scan(src, 0) == (Lexeme(TokDef, ""), 3)
  {
    ScanIdentifier(src, 0, 0, 3);
    assert Text(src[0..3]) == "def";
  }

  lemma FooWord(src: seq<byte>)
    requires src == Bytes("def foo(x) # comment")
    ensures Scan(src, 3) == (Lexeme(TokIdentifier, "foo"), 7)
  {
    ScanIdentifier(src, 3, 4, 7);
    assert Text(src[4..7]) == "foo";
  }

  lemma CommentStream(src: seq<byte>)
    requires src == Bytes("def foo(x) # comment")
    ensures TokensFrom(src, 7) ==
      [Lexeme(TokOperator, "("), Lexeme(TokIdentifier, "x"), Lexeme(TokOperator, ")"), EofLexeme]
  {
    ParamSteps(src);
    CommentStep(src);
    var t := [EofLexeme];
    Cons(src, 9, Lexeme(TokOperator, ")"), 10, t);
    t := [Lexeme(TokOperator, ")")] + t;
    Cons(src, 8, Lexeme(TokIdentifier, "x"), 9, t);
    t := [Lexeme(TokIdentifier, "x")] + t;
    Cons(src, 7, Lexeme(TokOperator, "("), 8, t);
  }

  lemma ParamSteps(src: seq<byte>)
    requires src == Bytes("def foo(x) # comment")
    ensures Scan(src, 7) == (Lexeme(TokOperator, "("), 8)
    ensures Scan(src, 8) == (Lexeme(TokIdentifier, "x"), 9)
    ensures Scan(src, 9) == (Lexeme(TokOperator, ")"), 10)
  {
    ScanOperator(src, 7, 7);
    ScanIdentifier(src, 8, 8, 9);
    assert Text(src[8..9]) == "x";
    ScanOperator(src, 9, 9);
  }

  lemma CommentStep(src: seq<byte>)
    requires src == Bytes("def foo(x) # comment")
    ensures Scan(src, 10) == (EofLexeme, 20)
  {
    ScanComment(src, 10, 11, 20);
  }

  /** An assignment-style definition: `=` is an operator token like any other. */
  lemma DefWithEquals(src: seq<byte>)
    requires src == Bytes("def foo(x) = x + 3")
    ensures TokensFrom(src, 0) ==
      [Lexeme(TokDef, ""), Lexeme(TokIdentifier, "foo"), Lexeme(TokOperator, "("), Lexeme(TokIdentifier, "x"),
       Lexeme(TokOperator, ")"), Lexeme(TokOperator, "="), Lexeme(TokIdentifier, "x"), Lexeme(TokOperator, "+"),
       Lexeme(TokNumber, "3"), EofLexeme]
  {
    DefEqStream(src);
  }

  /** `def` from byte 0. */
  lemma DefEqAt0(src: seq<byte>)
    requires |src| == 18 && At(src, 0, "def ")
    ensures TokensFrom(src, 0) == [Lexeme(TokDef, "")] + TokensFrom(src, 3)
  {
    ScanIdentifier(src, 0, 0, 3);
    assert Text(src[0..3]) == "def";
    Cons(src, 0, Lexeme(TokDef, ""), 3, TokensFrom(src, 3));
  }

  /** `foo` from byte 3. */
  lemma DefEqAt3(src: seq<byte>)
    requires |src| == 18 && At(src, 3, " foo(")
    ensures TokensFrom(src, 3) == [Lexeme(TokIdentifier, "foo")] + TokensFrom(src, 7)
  {
    ScanIdentifier(src, 3, 4, 7);
    assert Text(src[4..7]) == "foo";
    Cons(src, 3, Lexeme(TokIdentifier, "foo"), 7, TokensFrom(src, 7));
  }

  /** `(` from byte 7. */
  lemma DefEqAt7(src: seq<byte>)
    requires |src| == 18 && At(src, 7, "(x")
    ensures TokensFrom(src, 7) == [Lexeme(TokOperator, "(")] + TokensFrom(src, 8)
  {
    ScanOperator(src, 7, 7);
    Cons(src, 7, Lexeme(TokOperator, "("), 8, TokensFrom(src, 8));
  }

  /** `x` from byte 8. */
  lemma DefEqAt8(src: seq<byte>)
    requires |src| == 18 && At(src, 8, "x)")
    ensures TokensFrom(src, 8) == [Lexeme(TokIdentifier, "x")] + TokensFrom(src, 9)
  {
    ScanIdentifier(src, 8, 8, 9);
    assert Text(src[8..9]) == "x";
    Cons(src, 8, Lexeme(TokIdentifier, "x"), 9, TokensFrom(src, 9));
  }

  /** `)` from byte 9. */
  lemma DefEqAt9(src: seq<byte>)
    requires |src| == 18 && At(src, 9, ") ")
    ensures TokensFrom(src, 9) == [Lexeme(TokOperator, ")")] + TokensFrom(src, 10)
  {
    ScanOperator(src, 9, 9);
    Cons(src, 9, Lexeme(TokOperator, ")"), 10, TokensFrom(src, 10));
  }

  /** `=` from byte 10. */
  lemma DefEqAt10(src: seq<byte>)
    requires |src| == 18 && At(src, 10, " = ")
    ensures TokensFrom(src, 10) == [Lexeme(TokOperator, "=")] + TokensFrom(src, 12)
  {
    ScanOperator(src, 10, 11);
    Cons(src, 10, Lexeme(TokOperator, "="), 12, TokensFrom(src, 12));
  }

  /** `x` from byte 12. */
  lemma DefEqAt12(src: seq<byte>)
    requires |src| == 18 && At(src, 12, " x ")
    ensures TokensFrom(src, 12) == [Lexeme(TokIdentifier, "x")] + TokensFrom(src, 14)
  {
    ScanIdentifier(src, 12, 13, 14);
    assert Text(src[13..14]) == "x";
    Cons(src, 12, Lexeme(TokIdentifier, "x"), 14, TokensFrom(src, 14));
  }

  /** `+` from byte 14. */
  lemma DefEqAt14(src: seq<byte>)
    requires |src| == 18 && At(src, 14, " + ")
    ensures TokensFrom(src, 14) == [Lexeme(TokOperator, "+")] + TokensFrom(src, 16)
  {
    ScanOperator(src, 14, 15);
    Cons(src, 14, Lexeme(TokOperator, "+"), 16, TokensFrom(src, 16));
  }

  /** `3` from byte 16. */
  lemma DefEqAt16(src: seq<byte>)
    requires |src| == 18 && At(src, 16, " 3")
    ensures TokensFrom(src, 16) == [Lexeme(TokNumber, "3")] + TokensFrom(src, 18)
  {
    ScanNumber(src, 16, 17, 18);
    assert Text(src[17..18]) == "3";
    Cons(src, 16, Lexeme(TokNumber, "3"), 18, TokensFrom(src, 18));
  }

  /** Byte 18 is the end of the input. */
  lemma DefEqAt18(src: seq<byte>)
    requires |src| == 18
    ensures TokensFrom(src, 18) == [EofLexeme]
  {
    ScanAtEnd(src, 18);
  }

  /** Bytes 0 to 8 in front of the rest of the stream. */
  lemma DefEqGroup0(src: seq<byte>)
    requires |src| == 18 && At(src, 0, "def ") && At(src, 3, " foo(") && At(src, 7, "(x")
    ensures TokensFrom(src, 0) == [Lexeme(TokDef, ""), Lexeme(TokIdentifier, "foo"), Lexeme(TokOperator, "(")] + TokensFrom(src, 8)
  {
    DefEqAt0(src);
    DefEqAt3(src);
    DefEqAt7(src);
    Glue3(TokensFrom(src, 0), TokensFrom(src, 3), TokensFrom(src, 7), TokensFrom(src, 8), Lexeme(TokDef, ""), Lexeme(TokIdentifier, "foo"), Lexeme(TokOperator, "("));
  }

  /** Bytes 8 to 12 in front of the rest of the stream. */
  lemma DefEqGroup8(src: seq<byte>)
    requires |src| == 18 && At(src, 8, "x)") && At(src, 9, ") ") && At(src, 10, " = ")
    ensures TokensFrom(src, 8) == [Lexeme(TokIdentifier, "x"), Lexeme(TokOperator, ")"), Lexeme(TokOperator, "=")] + TokensFrom(src, 12)
  {
    DefEqAt8(src);
    DefEqAt9(src);
    DefEqAt10(src);
    Glue3(TokensFrom(src, 8), TokensFrom(src, 9), TokensFrom(src, 10), TokensFrom(src, 12), Lexeme(TokIdentifier, "x"), Lexeme(TokOperator, ")"), Lexeme(TokOperator, "="));
  }

  /** Bytes 12 to 18 in front of the rest of the stream. */
  lemma DefEqGroup12(src: seq<byte>)
    requires |src| == 18 && At(src, 12, " x ") && At(src, 14, " + ") && At(src, 16, " 3")
    ensures TokensFrom(src, 12) == [Lexeme(TokIdentifier, "x"), Lexeme(TokOperator, "+"), Lexeme(TokNumber, "3")] + TokensFrom(src, 18)
  {
    DefEqAt12(src);
    DefEqAt14(src);
    DefEqAt16(src);
    Glue3(TokensFrom(src, 12), TokensFrom(src, 14), TokensFrom(src, 16), TokensFrom(src, 18), Lexeme(TokIdentifier, "x"), Lexeme(TokOperator, "+"), Lexeme(TokNumber, "3"));
  }

  /** Bytes 18 to 18 in front of the rest of the stream. */
  lemma DefEqGroup18(src: seq<byte>)
    requires |src| == 18
    ensures TokensFrom(src, 18) == [EofLexeme]
  {
    DefEqAt18(src);
  }

  /** The windows of the tokens from byte 0 on, cut out of the whole input. */
  lemma DefEqWindows0(src: seq<byte>)
    requires |src| == 18 && At(src, 0, "def foo(x) = x + 3")
    ensures At(src, 0, "def ")
    ensures At(src, 3, " foo(")
    ensures At(src, 7, "(x")
  {
  }

  /** The windows of the tokens from byte 8 on, cut out of the whole input. */
  lemma DefEqWindows8(src: seq<byte>)
    requires |src| == 18 && At(src, 0, "def foo(x) = x + 3")
    ensures At(src, 8, "x)")
    ensures At(src, 9, ") ")
    ensures At(src, 10, " = ")
  {
  }

  /** The windows of the tokens from byte 12 on, cut out of the whole input. */
  lemma DefEqWindows12(src: seq<byte>)
    requires |src| == 18 && At(src, 0, "def foo(x) = x + 3")
    ensures At(src, 12, " x ")
    ensures At(src, 14, " + ")
    ensures At(src, 16, " 3")
  {
  }

  /** The groups of `def foo(x) = x + 3` in a row. */
  lemma DefEqJoin(t0: seq<Lexeme>, t1: seq<Lexeme>, t2: seq<Lexeme>, t3: seq<Lexeme>, t4: seq<Lexeme>)
    requires t0 == [Lexeme(TokDef, ""), Lexeme(TokIdentifier, "foo"), Lexeme(TokOperator, "(")] + t1
    requires t1 == [Lexeme(TokIdentifier, "x"), Lexeme(TokOperator, ")"), Lexeme(TokOperator, "=")] + t2
    requires t2 == [Lexeme(TokIdentifier, "x"), Lexeme(TokOperator, "+"), Lexeme(TokNumber, "3")] + t3
    requires t3 == [EofLexeme] + t4
    ensures t0 == [Lexeme(TokDef, ""), Lexeme(TokIdentifier, "foo"), Lexeme(TokOperator, "("), Lexeme(TokIdentifier, "x"), Lexeme(TokOperator, ")"), Lexeme(TokOperator, "="), Lexeme(TokIdentifier, "x"), Lexeme(TokOperator, "+"), Lexeme(TokNumber, "3"), EofLexeme] + t4
  {
  }

  /** The stream of `def foo(x) = x + 3`. */
  lemma DefEqStream(src: seq<byte>)
    requires |src| == 18 && At(src, 0, "def foo(x) = x + 3")
    ensures TokensFrom(src, 0) == [Lexeme(TokDef, ""), Lexeme(TokIdentifier, "foo"), Lexeme(TokOperator, "("), Lexeme(TokIdentifier, "x"), Lexeme(TokOperator, ")"), Lexeme(TokOperator, "="), Lexeme(TokIdentifier, "x"), Lexeme(TokOperator, "+"), Lexeme(TokNumber, "3"), EofLexeme]
  {
    DefEqWindows0(src);
    DefEqGroup0(src);
    DefEqWindows8(src);
    DefEqGroup8(src);
    DefEqWindows12(src);
    DefEqGroup12(src);
    DefEqGroup18(src);
    DefEqJoin(TokensFrom(src, 0), TokensFrom(src, 8), TokensFrom(src, 12), TokensFrom(src, 18), []);
  }
}
