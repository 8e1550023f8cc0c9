/**
 * The parse vectors of parse_test.go from the input bytes on, as the test
 * runs them: `Init([]byte(input))` starts the parser at the stream the
 * scanner yields from position 0 (`Parser.Parser.Init`), and
 * `ParseTopLevel` then returns what `Grammar.ParseTopLevel` gives for that
 * stream.  Each vector derives the stream from the bytes, one token at a
 * time from the end backwards, and then applies the token-level vector of
 * `GrammarExamples`.
 */
module ParseTests {
  import opened Wrappers
  import opened Lexer
  import opened LexerFacts
  import opened Ast
  import opened Grammar
  import opened GrammarFacts
  import LexerExamples
  import GrammarExamples

  /** parse_test.go:66-67: `sin(1)` is `__anon` calling `sin` with the number 1. */
  lemma SinCall(src: seq<byte>)
    requires src == LexerExamples.Bytes("sin(1)")
    ensures Wf(TokensFrom(src, 0))
    ensures ParseTopLevel(TokensFrom(src, 0)) ==
              Success((Some(FunctionDecl(Function(Prototype(AnonName, []), Call("sin", [Number("1")])))), [EofLexeme]))
  {
    SinStream(src);
    GrammarExamples.SinCallTokens(TokensFrom(src, 0));
  }

  /** parse_test.go:69-70: `def foo(a b) a + foo(b, 4.0)` defines `foo` adding `a` to a recursive call. */
  lemma DefFoo(src: seq<byte>)
    requires src == LexerExamples.Bytes("def foo(a b) a + foo(b, 4.0)")
    ensures Wf(TokensFrom(src, 0))
    ensures ParseTopLevel(TokensFrom(src, 0)) ==
              Success((Some(FunctionDecl(Function(Prototype("foo", ["a", "b"]),
                Binary('+', Variable("a"), Call("foo", [Variable("b"), Number("4.0")]))))), [EofLexeme]))
  {
    var head := [Lexeme(TokDef, ""), Id("foo"), Op("("), Id("a"), Id("b"), Op(")")];
    var body := [Id("a"), Op("+"), Id("foo"), Op("("), Id("b"), Op(","), Num("4.0"), Op(")"), EofLexeme];
    DefFooStream(src);
    DefFooSplit(TokensFrom(src, 0), head, body);
    GrammarExamples.DefFooTokens(head, body);
  }

  /** The lexemes of `def foo(a b) a + foo(b, 4.0)` are its prototype's followed by its body's. */
  lemma DefFooSplit(ts: seq<Lexeme>, head: seq<Lexeme>, body: seq<Lexeme>)
    requires ts == [Lexeme(TokDef, ""), Id("foo"), Op("("), Id("a"), Id("b"), Op(")"), Id("a"), Op("+"), Id("foo"), Op("("), Id("b"), Op(","), Num("4.0"), Op(")"), EofLexeme]
    requires head == [Lexeme(TokDef, ""), Id("foo"), Op("("), Id("a"), Id("b"), Op(")")]
    requires body == [Id("a"), Op("+"), Id("foo"), Op("("), Id("b"), Op(","), Num("4.0"), Op(")"), EofLexeme]
    ensures ts == head + body
  {
  }

  /** parse_test.go:72-73: `extern sin(a)` is the prototype of `sin` with parameter `a`. */
  lemma ExternSin(src: seq<byte>)
    requires src == LexerExamples.Bytes("extern sin(a)")
    ensures Wf(TokensFrom(src, 0))
    ensures ParseTopLevel(TokensFrom(src, 0)) == Success((Some(PrototypeDecl(Prototype("sin", ["a"]))), [EofLexeme]))
  {
    ExternStream(src);
    GrammarExamples.ExternSinTokens(TokensFrom(src, 0));
  }

  /** parse_test.go:75-76: `x + y` is `__anon` adding two variables. */
  lemma SumOfVariables(src: seq<byte>)
    requires src == LexerExamples.Bytes("x + y")
    ensures Wf(TokensFrom(src, 0))
    ensures ParseTopLevel(TokensFrom(src, 0)) ==
              Success((Some(FunctionDecl(Function(Prototype(AnonName, []), Binary('+', Variable("x"), Variable("y"))))), [EofLexeme]))
  {
    SumStream(src);
    GrammarExamples.SumOfVariablesTokens(TokensFrom(src, 0));
  }

  /** parse_test.go:78-79: `4+(3*4-5)-4` parses to `-(+(4, -(*(3,4),5)), 4)`. */
  lemma Parenthesised(src: seq<byte>)
    requires src == LexerExamples.Bytes("4+(3*4-5)-4")
    ensures Wf(TokensFrom(src, 0))
    ensures ParseTopLevel(TokensFrom(src, 0)) ==
              Success((Some(FunctionDecl(Function(Prototype(AnonName, []),
                Binary('-', Binary('+', Number("4"), Binary('-', Binary('*', Number("3"), Number("4")), Number("5"))),
                       Number("4"))))), [EofLexeme]))
  {
    ParenStream(src);
    GrammarExamples.ParenthesisedTokens(TokensFrom(src, 0));
  }

  /** `sin` from byte 0. */
  lemma SinAt0(src: seq<byte>)
    requires |src| == 6 && LexerExamples.At(src, 0, "sin(")
    ensures TokensFrom(src, 0) == [Id("sin")] + TokensFrom(src, 3)
  {
    ScanIdentifier(src, 0, 0, 3);
    assert Text(src[0..3]) == "sin";
    LexerExamples.Cons(src, 0, Id("sin"), 3, TokensFrom(src, 3));
  }

  /** `(` from byte 3. */
  lemma SinAt3(src: seq<byte>)
    requires |src| == 6 && LexerExamples.At(src, 3, "(1")
    ensures TokensFrom(src, 3) == [Op("(")] + TokensFrom(src, 4)
  {
    ScanOperator(src, 3, 3);
    LexerExamples.Cons(src, 3, Op("("), 4, TokensFrom(src, 4));
  }

  /** `1` from byte 4. */
  lemma SinAt4(src: seq<byte>)
    requires |src| == 6 && LexerExamples.At(src, 4, "1)")
    ensures TokensFrom(src, 4) == [Num("1")] + TokensFrom(src, 5)
  {
    ScanNumber(src, 4, 4, 5);
    assert Text(src[4..5]) == "1";
    LexerExamples.Cons(src, 4, Num("1"), 5, TokensFrom(src, 5));
  }

  /** `)` from byte 5. */
  lemma SinAt5(src: seq<byte>)
    requires |src| == 6 && LexerExamples.At(src, 5, ")")
    ensures TokensFrom(src, 5) == [Op(")")] + TokensFrom(src, 6)
  {
    ScanOperator(src, 5, 5);
    LexerExamples.Cons(src, 5, Op(")"), 6, TokensFrom(src, 6));
  }

  /** Byte 6 is the end of the input. */
  lemma SinAt6(src: seq<byte>)
    requires |src| == 6
    ensures TokensFrom(src, 6) == [EofLexeme]
  {
    ScanAtEnd(src, 6);
  }

  /** Bytes 0 to 5 in front of the rest of the stream. */
  lemma SinGroup0(src: seq<byte>)
    requires |src| == 6 && LexerExamples.At(src, 0, "sin(") && LexerExamples.At(src, 3, "(1") && LexerExamples.At(src, 4, "1)")
    ensures TokensFrom(src, 0) == [Id("sin"), Op("("), Num("1")] + TokensFrom(src, 5)
  {
    SinAt0(src);
    SinAt3(src);
    SinAt4(src);
    LexerExamples.Glue3(TokensFrom(src, 0), TokensFrom(src, 3), TokensFrom(src, 4), TokensFrom(src, 5), Id("sin"), Op("("), Num("1"));
  }

  /** Bytes 5 to 6 in front of the rest of the stream. */
  lemma SinGroup5(src: seq<byte>)
    requires |src| == 6 && LexerExamples.At(src, 5, ")")
    ensures TokensFrom(src, 5) == [Op(")"), EofLexeme]
  {
    SinAt5(src);
    SinAt6(src);
    LexerExamples.Glue2(TokensFrom(src, 5), TokensFrom(src, 6), [], Op(")"), EofLexeme);
  }

  /** The windows of the tokens from byte 0 on, cut out of the whole input. */
  lemma SinWindows0(src: seq<byte>)
    requires |src| == 6 && LexerExamples.At(src, 0, "sin(1)")
    ensures LexerExamples.At(src, 0, "sin(")
    ensures LexerExamples.At(src, 3, "(1")
    ensures LexerExamples.At(src, 4, "1)")
  {
  }

  /** The windows of the tokens from byte 5 on, cut out of the whole input. */
  lemma SinWindows5(src: seq<byte>)
    requires |src| == 6 && LexerExamples.At(src, 0, "sin(1)")
    ensures LexerExamples.At(src, 5, ")")
  {
  }

  /** The groups of `sin(1)` in a row. */
  lemma SinJoin(t0: seq<Lexeme>, t1: seq<Lexeme>, t2: seq<Lexeme>)
    requires t0 == [Id("sin"), Op("("), Num("1")] + t1
    requires t1 == [Op(")"), EofLexeme] + t2
    ensures t0 == [Id("sin"), Op("("), Num("1"), Op(")"), EofLexeme] + t2
  {
  }

  /** The stream of `sin(1)`. */
  lemma SinStream(src: seq<byte>)
    requires |src| == 6 && LexerExamples.At(src, 0, "sin(1)")
    ensures TokensFrom(src, 0) == [Id("sin"), Op("("), Num("1"), Op(")"), EofLexeme]
  {
    SinWindows0(src);
    SinGroup0(src);
    SinWindows5(src);
    SinGroup5(src);
    SinJoin(TokensFrom(src, 0), TokensFrom(src, 5), []);
  }

  /** `def` from byte 0. */
  lemma DefFooAt0(src: seq<byte>)
    requires |src| == 28 && LexerExamples.At(src, 0, "def ")
    ensures TokensFrom(src, 0) == [Lexeme(TokDef, "")] + TokensFrom(src, 3)
  {
    ScanIdentifier(src, 0, 0, 3);
    assert Text(src[0..3]) == "def";
    LexerExamples.Cons(src, 0, Lexeme(TokDef, ""), 3, TokensFrom(src, 3));
  }

  /** `foo` from byte 3. */
  lemma DefFooAt3(src: seq<byte>)
    requires |src| == 28 && LexerExamples.At(src, 3, " foo(")
    ensures TokensFrom(src, 3) == [Id("foo")] + TokensFrom(src, 7)
  {
    ScanIdentifier(src, 3, 4, 7);
    assert Text(src[4..7]) == "foo";
    LexerExamples.Cons(src, 3, Id("foo"), 7, TokensFrom(src, 7));
  }

  /** `(` from byte 7. */
  lemma DefFooAt7(src: seq<byte>)
    requires |src| == 28 && LexerExamples.At(src, 7, "(a")
    ensures TokensFrom(src, 7) == [Op("(")] + TokensFrom(src, 8)
  {
    ScanOperator(src, 7, 7);
    LexerExamples.Cons(src, 7, Op("("), 8, TokensFrom(src, 8));
  }

  /** `a` from byte 8. */
  lemma DefFooAt8(src: seq<byte>)
    requires |src| == 28 && LexerExamples.At(src, 8, "a ")
    ensures TokensFrom(src, 8) == [Id("a")] + TokensFrom(src, 9)
  {
    ScanIdentifier(src, 8, 8, 9);
    assert Text(src[8..9]) == "a";
    LexerExamples.Cons(src, 8, Id("a"), 9, TokensFrom(src, 9));
  }

  /** `b` from byte 9. */
  lemma DefFooAt9(src: seq<byte>)
    requires |src| == 28 && LexerExamples.At(src, 9, " b)")
    ensures TokensFrom(src, 9) == [Id("b")] + TokensFrom(src, 11)
  {
    ScanIdentifier(src, 9, 10, 11);
    assert Text(src[10..11]) == "b";
    LexerExamples.Cons(src, 9, Id("b"), 11, TokensFrom(src, 11));
  }

  /** `)` from byte 11. */
  lemma DefFooAt11(src: seq<byte>)
    requires |src| == 28 && LexerExamples.At(src, 11, ") ")
    ensures TokensFrom(src, 11) == [Op(")")] + TokensFrom(src, 12)
  {
    ScanOperator(src, 11, 11);
    LexerExamples.Cons(src, 11, Op(")"), 12, TokensFrom(src, 12));
  }

  /** `a` from byte 12. */
  lemma DefFooAt12(src: seq<byte>)
    requires |src| == 28 && LexerExamples.At(src, 12, " a ")
    ensures TokensFrom(src, 12) == [Id("a")] + TokensFrom(src, 14)
  {
    ScanIdentifier(src, 12, 13, 14);
    assert Text(src[13..14]) == "a";
    LexerExamples.Cons(src, 12, Id("a"), 14, TokensFrom(src, 14));
  }

  /** `+` from byte 14. */
  lemma DefFooAt14(src: seq<byte>)
    requires |src| == 28 && LexerExamples.At(src, 14, " + ")
    ensures TokensFrom(src, 14) == [Op("+")] + TokensFrom(src, 16)
  {
    ScanOperator(src, 14, 15);
    LexerExamples.Cons(src, 14, Op("+"), 16, TokensFrom(src, 16));
  }

  /** `foo` from byte 16. */
  lemma DefFooAt16(src: seq<byte>)
    requires |src| == 28 && LexerExamples.At(src, 16, " foo(")
    ensures TokensFrom(src, 16) == [Id("foo")] + TokensFrom(src, 20)
  {
    ScanIdentifier(src, 16, 17, 20);
    assert Text(src[17..20]) == "foo";
    LexerExamples.Cons(src, 16, Id("foo"), 20, TokensFrom(src, 20));
  }

  /** `(` from byte 20. */
  lemma DefFooAt20(src: seq<byte>)
    requires |src| == 28 && LexerExamples.At(src, 20, "(b")
    ensures TokensFrom(src, 20) == [Op("(")] + TokensFrom(src, 21)
  {
    ScanOperator(src, 20, 20);
    LexerExamples.Cons(src, 20, Op("("), 21, TokensFrom(src, 21));
  }

  /** `b` from byte 21. */
  lemma DefFooAt21(src: seq<byte>)
    requires |src| == 28 && LexerExamples.At(src, 21, "b,")
    ensures TokensFrom(src, 21) == [Id("b")] + TokensFrom(src, 22)
  {
    ScanIdentifier(src, 21, 21, 22);
    assert Text(src[21..22]) == "b";
    LexerExamples.Cons(src, 21, Id("b"), 22, TokensFrom(src, 22));
  }

  /** `,` from byte 22. */
  lemma DefFooAt22(src: seq<byte>)
    requires |src| == 28 && LexerExamples.At(src, 22, ", ")
    ensures TokensFrom(src, 22) == [Op(",")] + TokensFrom(src, 23)
  {
    ScanOperator(src, 22, 22);
    LexerExamples.Cons(src, 22, Op(","), 23, TokensFrom(src, 23));
  }

  /** `4.0` from byte 23. */
  lemma DefFooAt23(src: seq<byte>)
    requires |src| == 28 && LexerExamples.At(src, 23, " 4.0)")
    ensures TokensFrom(src, 23) == [Num("4.0")] + TokensFrom(src, 27)
  {
    ScanNumber(src, 23, 24, 27);
    assert Text(src[24..27]) == "4.0";
    LexerExamples.Cons(src, 23, Num("4.0"), 27, TokensFrom(src, 27));
  }

  /** `)` from byte 27. */
  lemma DefFooAt27(src: seq<byte>)
    requires |src| == 28 && LexerExamples.At(src, 27, ")")
    ensures TokensFrom(src, 27) == [Op(")")] + TokensFrom(src, 28)
  {
    ScanOperator(src, 27, 27);
    LexerExamples.Cons(src, 27, Op(")"), 28, TokensFrom(src, 28));
  }

  /** Byte 28 is the end of the input. */
  lemma DefFooAt28(src: seq<byte>)
    requires |src| == 28
    ensures TokensFrom(src, 28) == [EofLexeme]
  {
    ScanAtEnd(src, 28);
  }

  /** Bytes 0 to 8 in front of the rest of the stream. */
  lemma DefFooGroup0(src: seq<byte>)
    requires |src| == 28 && LexerExamples.At(src, 0, "def ") && LexerExamples.At(src, 3, " foo(") && LexerExamples.At(src, 7, "(a")
    ensures TokensFrom(src, 0) == [Lexeme(TokDef, ""), Id("foo"), Op("(")] + TokensFrom(src, 8)
  {
    DefFooAt0(src);
    DefFooAt3(src);
    DefFooAt7(src);
    LexerExamples.Glue3(TokensFrom(src, 0), TokensFrom(src, 3), TokensFrom(src, 7), TokensFrom(src, 8), Lexeme(TokDef, ""), Id("foo"), Op("("));
  }

  /** Bytes 8 to 12 in front of the rest of the stream. */
  lemma DefFooGroup8(src: seq<byte>)
    requires |src| == 28 && LexerExamples.At(src, 8, "a ") && LexerExamples.At(src, 9, " b)") && LexerExamples.At(src, 11, ") ")
    ensures TokensFrom(src, 8) == [Id("a"), Id("b"), Op(")")] + TokensFrom(src, 12)
  {
    DefFooAt8(src);
    DefFooAt9(src);
    DefFooAt11(src);
    LexerExamples.Glue3(TokensFrom(src, 8), TokensFrom(src, 9), TokensFrom(src, 11), TokensFrom(src, 12), Id("a"), Id("b"), Op(")"));
  }

  /** Bytes 12 to 20 in front of the rest of the stream. */
  lemma DefFooGroup12(src: seq<byte>)
    requires |src| == 28 && LexerExamples.At(src, 12, " a ") && LexerExamples.At(src, 14, " + ") && LexerExamples.At(src, 16, " foo(")
    ensures TokensFrom(src, 12) == [Id("a"), Op("+"), Id("foo")] + TokensFrom(src, 20)
  {
    DefFooAt12(src);
    DefFooAt14(src);
    DefFooAt16(src);
    LexerExamples.Glue3(TokensFrom(src, 12), TokensFrom(src, 14), TokensFrom(src, 16), TokensFrom(src, 20), Id("a"), Op("+"), Id("foo"));
  }

  /** Bytes 20 to 23 in front of the rest of the stream. */
  lemma DefFooGroup20(src: seq<byte>)
    requires |src| == 28 && LexerExamples.At(src, 20, "(b") && LexerExamples.At(src, 21, "b,") && LexerExamples.At(src, 22, ", ")
    ensures TokensFrom(src, 20) == [Op("("), Id("b"), Op(",")] + TokensFrom(src, 23)
  {
    DefFooAt20(src);
    DefFooAt21(src);
    DefFooAt22(src);
    LexerExamples.Glue3(TokensFrom(src, 20), TokensFrom(src, 21), TokensFrom(src, 22), TokensFrom(src, 23), Op("("), Id("b"), Op(","));
  }

  /** Bytes 23 to 28 in front of the rest of the stream. */
  lemma DefFooGroup23(src: seq<byte>)
    requires |src| == 28 && LexerExamples.At(src, 23, " 4.0)") && LexerExamples.At(src, 27, ")")
    ensures TokensFrom(src, 23) == [Num("4.0"), Op(")"), EofLexeme]
  {
    DefFooAt23(src);
    DefFooAt27(src);
    DefFooAt28(src);
    LexerExamples.Glue3(TokensFrom(src, 23), TokensFrom(src, 27), TokensFrom(src, 28), [], Num("4.0"), Op(")"), EofLexeme);
  }

  /** The windows of the tokens from byte 0 on, cut out of the whole input. */
  lemma DefFooWindows0(src: seq<byte>)
    requires |src| == 28 && LexerExamples.At(src, 0, "def foo(a b) a + foo(b, 4.0)")
    ensures LexerExamples.At(src, 0, "def ")
    ensures LexerExamples.At(src, 3, " foo(")
    ensures LexerExamples.At(src, 7, "(a")
  {
  }

  /** The windows of the tokens from byte 8 on, cut out of the whole input. */
  lemma DefFooWindows8(src: seq<byte>)
    requires |src| == 28 && LexerExamples.At(src, 0, "def foo(a b) a + foo(b, 4.0)")
    ensures LexerExamples.At(src, 8, "a ")
    ensures LexerExamples.At(src, 9, " b)")
    ensures LexerExamples.At(src, 11, ") ")
  {
  }

  /** The windows of the tokens from byte 12 on, cut out of the whole input. */
  lemma DefFooWindows12(src: seq<byte>)
    requires |src| == 28 && LexerExamples.At(src, 0, "def foo(a b) a + foo(b, 4.0)")
    ensures LexerExamples.At(src, 12, " a ")
    ensures LexerExamples.At(src, 14, " + ")
    ensures LexerExamples.At(src, 16, " foo(")
  {
  }

  /** The windows of the tokens from byte 20 on, cut out of the whole input. */
  lemma DefFooWindows20(src: seq<byte>)
    requires |src| == 28 && LexerExamples.At(src, 0, "def foo(a b) a + foo(b, 4.0)")
    ensures LexerExamples.At(src, 20, "(b")
    ensures LexerExamples.At(src, 21, "b,")
    ensures LexerExamples.At(src, 22, ", ")
  {
  }

  /** The windows of the tokens from byte 23 on, cut out of the whole input. */
  lemma DefFooWindows23(src: seq<byte>)
    requires |src| == 28 && LexerExamples.At(src, 0, "def foo(a b) a + foo(b, 4.0)")
    ensures LexerExamples.At(src, 23, " 4.0)")
    ensures LexerExamples.At(src, 27, ")")
  {
  }

  /** The groups of `def foo(a b) a + foo(b, 4.0)` in a row. */
  lemma DefFooJoin(t0: seq<Lexeme>, t1: seq<Lexeme>, t2: seq<Lexeme>, t3: seq<Lexeme>, t4: seq<Lexeme>, t5: seq<Lexeme>)
    requires t0 == [Lexeme(TokDef, ""), Id("foo"), Op("(")] + t1
    requires t1 == [Id("a"), Id("b"), Op(")")] + t2
    requires t2 == [Id("a"), Op("+"), Id("foo")] + t3
    requires t3 == [Op("("), Id("b"), Op(",")] + t4
    requires t4 == [Num("4.0"), Op(")"), EofLexeme] + t5
    ensures t0 == [Lexeme(TokDef, ""), Id("foo"), Op("("), Id("a"), Id("b"), Op(")"), Id("a"), Op("+"), Id("foo"), Op("("), Id("b"), Op(","), Num("4.0"), Op(")"), EofLexeme] + t5
  {
  }

  /** The stream of `def foo(a b) a + foo(b, 4.0)`. */
  lemma DefFooStream(src: seq<byte>)
    requires |src| == 28 && LexerExamples.At(src, 0, "def foo(a b) a + foo(b, 4.0)")
    ensures TokensFrom(src, 0) == [Lexeme(TokDef, ""), Id("foo"), Op("("), Id("a"), Id("b"), Op(")"), Id("a"), Op("+"), Id("foo"), Op("("), Id("b"), Op(","), Num("4.0"), Op(")"), EofLexeme]
  {
    DefFooWindows0(src);
    DefFooGroup0(src);
    DefFooWindows8(src);
    DefFooGroup8(src);
    DefFooWindows12(src);
    DefFooGroup12(src);
    DefFooWindows20(src);
    DefFooGroup20(src);
    DefFooWindows23(src);
    DefFooGroup23(src);
    DefFooJoin(TokensFrom(src, 0), TokensFrom(src, 8), TokensFrom(src, 12), TokensFrom(src, 20), TokensFrom(src, 23), []);
  }

  /** `extern` from byte 0. */
  lemma ExternAt0(src: seq<byte>)
    requires |src| == 13 && LexerExamples.At(src, 0, "extern ")
    ensures TokensFrom(src, 0) == [Lexeme(TokExtern, "")] + TokensFrom(src, 6)
  {
    ScanIdentifier(src, 0, 0, 6);
    assert Text(src[0..6]) == "extern";
    LexerExamples.Cons(src, 0, Lexeme(TokExtern, ""), 6, TokensFrom(src, 6));
  }

  /** `sin` from byte 6. */
  lemma ExternAt6(src: seq<byte>)
    requires |src| == 13 && LexerExamples.At(src, 6, " sin(")
    ensures TokensFrom(src, 6) == [Id("sin")] + TokensFrom(src, 10)
  {
    ScanIdentifier(src, 6, 7, 10);
    assert Text(src[7..10]) == "sin";
    LexerExamples.Cons(src, 6, Id("sin"), 10, TokensFrom(src, 10));
  }

  /** `(` from byte 10. */
  lemma ExternAt10(src: seq<byte>)
    requires |src| == 13 && LexerExamples.At(src, 10, "(a")
    ensures TokensFrom(src, 10) == [Op("(")] + TokensFrom(src, 11)
  {
    ScanOperator(src, 10, 10);
    LexerExamples.Cons(src, 10, Op("("), 11, TokensFrom(src, 11));
  }

  /** `a` from byte 11. */
  lemma ExternAt11(src: seq<byte>)
    requires |src| == 13 && LexerExamples.At(src, 11, "a)")
    ensures TokensFrom(src, 11) == [Id("a")] + TokensFrom(src, 12)
  {
    ScanIdentifier(src, 11, 11, 12);
    assert Text(src[11..12]) == "a";
    LexerExamples.Cons(src, 11, Id("a"), 12, TokensFrom(src, 12));
  }

  /** `)` from byte 12. */
  lemma ExternAt12(src: seq<byte>)
    requires |src| == 13 && LexerExamples.At(src, 12, ")")
    ensures TokensFrom(src, 12) == [Op(")")] + TokensFrom(src, 13)
  {
    ScanOperator(src, 12, 12);
    LexerExamples.Cons(src, 12, Op(")"), 13, TokensFrom(src, 13));
  }

  /** Byte 13 is the end of the input. */
  lemma ExternAt13(src: seq<byte>)
    requires |src| == 13
    ensures TokensFrom(src, 13) == [EofLexeme]
  {
    ScanAtEnd(src, 13);
  }

  /** Bytes 0 to 11 in front of the rest of the stream. */
  lemma ExternGroup0(src: seq<byte>)
    requires |src| == 13 && LexerExamples.At(src, 0, "extern ") && LexerExamples.At(src, 6, " sin(") && LexerExamples.At(src, 10, "(a")
    ensures TokensFrom(src, 0) == [Lexeme(TokExtern, ""), Id("sin"), Op("(")] + TokensFrom(src, 11)
  {
    ExternAt0(src);
    ExternAt6(src);
    ExternAt10(src);
    LexerExamples.Glue3(TokensFrom(src, 0), TokensFrom(src, 6), TokensFrom(src, 10), TokensFrom(src, 11), Lexeme(TokExtern, ""), Id("sin"), Op("("));
  }

  /** Bytes 11 to 13 in front of the rest of the stream. */
  lemma ExternGroup11(src: seq<byte>)
    requires |src| == 13 && LexerExamples.At(src, 11, "a)") && LexerExamples.At(src, 12, ")")
    ensures TokensFrom(src, 11) == [Id("a"), Op(")"), EofLexeme]
  {
    ExternAt11(src);
    ExternAt12(src);
    ExternAt13(src);
    LexerExamples.Glue3(TokensFrom(src, 11), TokensFrom(src, 12), TokensFrom(src, 13), [], Id("a"), Op(")"), EofLexeme);
  }

  /** The windows of the tokens from byte 0 on, cut out of the whole input. */
  lemma ExternWindows0(src: seq<byte>)
    requires |src| == 13 && LexerExamples.At(src, 0, "extern sin(a)")
    ensures LexerExamples.At(src, 0, "extern ")
    ensures LexerExamples.At(src, 6, " sin(")
    ensures LexerExamples.At(src, 10, "(a")
  {
  }

  /** The windows of the tokens from byte 11 on, cut out of the whole input. */
  lemma ExternWindows11(src: seq<byte>)
    requires |src| == 13 && LexerExamples.At(src, 0, "extern sin(a)")
    ensures LexerExamples.At(src, 11, "a)")
    ensures LexerExamples.At(src, 12, ")")
  {
  }

  /** The groups of `extern sin(a)` in a row. */
  lemma ExternJoin(t0: seq<Lexeme>, t1: seq<Lexeme>, t2: seq<Lexeme>)
    requires t0 == [Lexeme(TokExtern, ""), Id("sin"), Op("(")] + t1
    requires t1 == [Id("a"), Op(")"), EofLexeme] + t2
    ensures t0 == [Lexeme(TokExtern, ""), Id("sin"), Op("("), Id("a"), Op(")"), EofLexeme] + t2
  {
  }

  /** The stream of `extern sin(a)`. */
  lemma ExternStream(src: seq<byte>)
    requires |src| == 13 && LexerExamples.At(src, 0, "extern sin(a)")
    ensures TokensFrom(src, 0) == [Lexeme(TokExtern, ""), Id("sin"), Op("("), Id("a"), Op(")"), EofLexeme]
  {
    ExternWindows0(src);
    ExternGroup0(src);
    ExternWindows11(src);
    ExternGroup11(src);
    ExternJoin(TokensFrom(src, 0), TokensFrom(src, 11), []);
  }

  /** `x` from byte 0. */
  lemma SumAt0(src: seq<byte>)
    requires |src| == 5 && LexerExamples.At(src, 0, "x ")
    ensures TokensFrom(src, 0) == [Id("x")] + TokensFrom(src, 1)
  {
    ScanIdentifier(src, 0, 0, 1);
    assert Text(src[0..1]) == "x";
    LexerExamples.Cons(src, 0, Id("x"), 1, TokensFrom(src, 1));
  }

  /** `+` from byte 1. */
  lemma SumAt1(src: seq<byte>)
    requires |src| == 5 && LexerExamples.At(src, 1, " + ")
    ensures TokensFrom(src, 1) == [Op("+")] + TokensFrom(src, 3)
  {
    ScanOperator(src, 1, 2);
    LexerExamples.Cons(src, 1, Op("+"), 3, TokensFrom(src, 3));
  }

  /** `y` from byte 3. */
  lemma SumAt3(src: seq<byte>)
    requires |src| == 5 && LexerExamples.At(src, 3, " y")
    ensures TokensFrom(src, 3) == [Id("y")] + TokensFrom(src, 5)
  {
    ScanIdentifier(src, 3, 4, 5);
    assert Text(src[4..5]) == "y";
    LexerExamples.Cons(src, 3, Id("y"), 5, TokensFrom(src, 5));
  }

  /** Byte 5 is the end of the input. */
  lemma SumAt5(src: seq<byte>)
    requires |src| == 5
    ensures TokensFrom(src, 5) == [EofLexeme]
  {
    ScanAtEnd(src, 5);
  }

  /** Bytes 0 to 5 in front of the rest of the stream. */
  lemma SumGroup0(src: seq<byte>)
    requires |src| == 5 && LexerExamples.At(src, 0, "x ") && LexerExamples.At(src, 1, " + ") && LexerExamples.At(src, 3, " y")
    ensures TokensFrom(src, 0) == [Id("x"), Op("+"), Id("y")] + TokensFrom(src, 5)
  {
    SumAt0(src);
    SumAt1(src);
    SumAt3(src);
    LexerExamples.Glue3(TokensFrom(src, 0), TokensFrom(src, 1), TokensFrom(src, 3), TokensFrom(src, 5), Id("x"), Op("+"), Id("y"));
  }

  /** Bytes 5 to 5 in front of the rest of the stream. */
  lemma SumGroup5(src: seq<byte>)
    requires |src| == 5
    ensures TokensFrom(src, 5) == [EofLexeme]
  {
    SumAt5(src);
  }

  /** The windows of the tokens from byte 0 on, cut out of the whole input. */
  lemma SumWindows0(src: seq<byte>)
    requires |src| == 5 && LexerExamples.At(src, 0, "x + y")
    ensures LexerExamples.At(src, 0, "x ")
    ensures LexerExamples.At(src, 1, " + ")
    ensures LexerExamples.At(src, 3, " y")
  {
  }

  /** The groups of `x + y` in a row. */
  lemma SumJoin(t0: seq<Lexeme>, t1: seq<Lexeme>, t2: seq<Lexeme>)
    requires t0 == [Id("x"), Op("+"), Id("y")] + t1
    requires t1 == [EofLexeme] + t2
    ensures t0 == [Id("x"), Op("+"), Id("y"), EofLexeme] + t2
  {
  }

  /** The stream of `x + y`. */
  lemma SumStream(src: seq<byte>)
    requires |src| == 5 && LexerExamples.At(src, 0, "x + y")
    ensures TokensFrom(src, 0) == [Id("x"), Op("+"), Id("y"), EofLexeme]
  {
    SumWindows0(src);
    SumGroup0(src);
    SumGroup5(src);
    SumJoin(TokensFrom(src, 0), TokensFrom(src, 5), []);
  }

  /** `4` from byte 0. */
  lemma ParenAt0(src: seq<byte>)
    requires |src| == 11 && LexerExamples.At(src, 0, "4+")
    ensures TokensFrom(src, 0) == [Num("4")] + TokensFrom(src, 1)
  {
    ScanNumber(src, 0, 0, 1);
    assert Text(src[0..1]) == "4";
    LexerExamples.Cons(src, 0, Num("4"), 1, TokensFrom(src, 1));
  }

  /** `+` from byte 1. */
  lemma ParenAt1(src: seq<byte>)
    requires |src| == 11 && LexerExamples.At(src, 1, "+(")
    ensures TokensFrom(src, 1) == [Op("+")] + TokensFrom(src, 2)
  {
    ScanOperator(src, 1, 1);
    LexerExamples.Cons(src, 1, Op("+"), 2, TokensFrom(src, 2));
  }

  /** `(` from byte 2. */
  lemma ParenAt2(src: seq<byte>)
    requires |src| == 11 && LexerExamples.At(src, 2, "(3")
    ensures TokensFrom(src, 2) == [Op("(")] + TokensFrom(src, 3)
  {
    ScanOperator(src, 2, 2);
    LexerExamples.Cons(src, 2, Op("("), 3, TokensFrom(src, 3));
  }

  /** `3` from byte 3. */
  lemma ParenAt3(src: seq<byte>)
    requires |src| == 11 && LexerExamples.At(src, 3, "3*")
    ensures TokensFrom(src, 3) == [Num("3")] + TokensFrom(src, 4)
  {
    ScanNumber(src, 3, 3, 4);
    assert Text(src[3..4]) == "3";
    LexerExamples.Cons(src, 3, Num("3"), 4, TokensFrom(src, 4));
  }

  /** `*` from byte 4. */
  lemma ParenAt4(src: seq<byte>)
    requires |src| == 11 && LexerExamples.At(src, 4, "*4")
    ensures TokensFrom(src, 4) == [Op("*")] + TokensFrom(src, 5)
  {
    ScanOperator(src, 4, 4);
    LexerExamples.Cons(src, 4, Op("*"), 5, TokensFrom(src, 5));
  }

  /** `4` from byte 5. */
  lemma ParenAt5(src: seq<byte>)
    requires |src| == 11 && LexerExamples.At(src, 5, "4-")
    ensures TokensFrom(src, 5) == [Num("4")] + TokensFrom(src, 6)
  {
    ScanNumber(src, 5, 5, 6);
    assert Text(src[5..6]) == "4";
    LexerExamples.Cons(src, 5, Num("4"), 6, TokensFrom(src, 6));
  }

  /** `-` from byte 6. */
  lemma ParenAt6(src: seq<byte>)
    requires |src| == 11 && LexerExamples.At(src, 6, "-5")
    ensures TokensFrom(src, 6) == [Op("-")] + TokensFrom(src, 7)
  {
    ScanOperator(src, 6, 6);
    LexerExamples.Cons(src, 6, Op("-"), 7, TokensFrom(src, 7));
  }

  /** `5` from byte 7. */
  lemma ParenAt7(src: seq<byte>)
    requires |src| == 11 && LexerExamples.At(src, 7, "5)")
    ensures TokensFrom(src, 7) == [Num("5")] + TokensFrom(src, 8)
  {
    ScanNumber(src, 7, 7, 8);
    assert Text(src[7..8]) == "5";
    LexerExamples.Cons(src, 7, Num("5"), 8, TokensFrom(src, 8));
  }

  /** `)` from byte 8. */
  lemma ParenAt8(src: seq<byte>)
    requires |src| == 11 && LexerExamples.At(src, 8, ")-")
    ensures TokensFrom(src, 8) == [Op(")")] + TokensFrom(src, 9)
  {
    ScanOperator(src, 8, 8);
    LexerExamples.Cons(src, 8, Op(")"), 9, TokensFrom(src, 9));
  }

  /** `-` from byte 9. */
  lemma ParenAt9(src: seq<byte>)
    requires |src| == 11 && LexerExamples.At(src, 9, "-4")
    ensures TokensFrom(src, 9) == [Op("-")] + TokensFrom(src, 10)
  {
    ScanOperator(src, 9, 9);
    LexerExamples.Cons(src, 9, Op("-"), 10, TokensFrom(src, 10));
  }

  /** `4` from byte 10. */
  lemma ParenAt10(src: seq<byte>)
    requires |src| == 11 && LexerExamples.At(src, 10, "4")
    ensures TokensFrom(src, 10) == [Num("4")] + TokensFrom(src, 11)
  {
    ScanNumber(src, 10, 10, 11);
    assert Text(src[10..11]) == "4";
    LexerExamples.Cons(src, 10, Num("4"), 11, TokensFrom(src, 11));
  }

  /** Byte 11 is the end of the input. */
  lemma ParenAt11(src: seq<byte>)
    requires |src| == 11
    ensures TokensFrom(src, 11) == [EofLexeme]
  {
    ScanAtEnd(src, 11);
  }

  /** Bytes 0 to 3 in front of the rest of the stream. */
  lemma ParenGroup0(src: seq<byte>)
    requires |src| == 11 && LexerExamples.At(src, 0, "4+") && LexerExamples.At(src, 1, "+(") && LexerExamples.At(src, 2, "(3")
    ensures TokensFrom(src, 0) == [Num("4"), Op("+"), Op("(")] + TokensFrom(src, 3)
  {
    ParenAt0(src);
    ParenAt1(src);
    ParenAt2(src);
    LexerExamples.Glue3(TokensFrom(src, 0), TokensFrom(src, 1), TokensFrom(src, 2), TokensFrom(src, 3), Num("4"), Op("+"), Op("("));
  }

  /** Bytes 3 to 6 in front of the rest of the stream. */
  lemma ParenGroup3(src: seq<byte>)
    requires |src| == 11 && LexerExamples.At(src, 3, "3*") && LexerExamples.At(src, 4, "*4") && LexerExamples.At(src, 5, "4-")
    ensures TokensFrom(src, 3) == [Num("3"), Op("*"), Num("4")] + TokensFrom(src, 6)
  {
    ParenAt3(src);
    ParenAt4(src);
    ParenAt5(src);
    LexerExamples.Glue3(TokensFrom(src, 3), TokensFrom(src, 4), TokensFrom(src, 5), TokensFrom(src, 6), Num("3"), Op("*"), Num("4"));
  }

  /** Bytes 6 to 9 in front of the rest of the stream. */
  lemma ParenGroup6(src: seq<byte>)
    requires |src| == 11 && LexerExamples.At(src, 6, "-5") && LexerExamples.At(src, 7, "5)") && LexerExamples.At(src, 8, ")-")
    ensures TokensFrom(src, 6) == [Op("-"), Num("5"), Op(")")] + TokensFrom(src, 9)
  {
    ParenAt6(src);
    ParenAt7(src);
    ParenAt8(src);
    LexerExamples.Glue3(TokensFrom(src, 6), TokensFrom(src, 7), TokensFrom(src, 8), TokensFrom(src, 9), Op("-"), Num("5"), Op(")"));
  }

  /** Bytes 9 to 11 in front of the rest of the stream. */
  lemma ParenGroup9(src: seq<byte>)
    requires |src| == 11 && LexerExamples.At(src, 9, "-4") && LexerExamples.At(src, 10, "4")
    ensures TokensFrom(src, 9) == [Op("-"), Num("4"), EofLexeme]
  {
    ParenAt9(src);
    ParenAt10(src);
    ParenAt11(src);
    LexerExamples.Glue3(TokensFrom(src, 9), TokensFrom(src, 10), TokensFrom(src, 11), [], Op("-"), Num("4"), EofLexeme);
  }

  /** The windows of the tokens from byte 0 on, cut out of the whole input. */
  lemma ParenWindows0(src: seq<byte>)
    requires |src| == 11 && LexerExamples.At(src, 0, "4+(3*4-5)-4")
    ensures LexerExamples.At(src, 0, "4+")
    ensures LexerExamples.At(src, 1, "+(")
    ensures LexerExamples.At(src, 2, "(3")
  {
  }

  /** The windows of the tokens from byte 3 on, cut out of the whole input. */
  lemma ParenWindows3(src: seq<byte>)
    requires |src| == 11 && LexerExamples.At(src, 0, "4+(3*4-5)-4")
    ensures LexerExamples.At(src, 3, "3*")
    ensures LexerExamples.At(src, 4, "*4")
    ensures LexerExamples.At(src, 5, "4-")
  {
  }

  /** The windows of the tokens from byte 6 on, cut out of the whole input. */
  lemma ParenWindows6(src: seq<byte>)
    requires |src| == 11 && LexerExamples.At(src, 0, "4+(3*4-5)-4")
    ensures LexerExamples.At(src, 6, "-5")
    ensures LexerExamples.At(src, 7, "5)")
    ensures LexerExamples.At(src, 8, ")-")
  {
  }

  /** The windows of the tokens from byte 9 on, cut out of the whole input. */
  lemma ParenWindows9(src: seq<byte>)
    requires |src| == 11 && LexerExamples.At(src, 0, "4+(3*4-5)-4")
    ensures LexerExamples.At(src, 9, "-4")
    ensures LexerExamples.At(src, 10, "4")
  {
  }

  /** The groups of `4+(3*4-5)-4` in a row. */
  lemma ParenJoin(t0: seq<Lexeme>, t1: seq<Lexeme>, t2: seq<Lexeme>, t3: seq<Lexeme>, t4: seq<Lexeme>)
    requires t0 == [Num("4"), Op("+"), Op("(")] + t1
    requires t1 == [Num("3"), Op("*"), Num("4")] + t2
    requires t2 == [Op("-"), Num("5"), Op(")")] + t3
    requires t3 == [Op("-"), Num("4"), EofLexeme] + t4
    ensures t0 == [Num("4"), Op("+"), Op("("), Num("3"), Op("*"), Num("4"), Op("-"), Num("5"), Op(")"), Op("-"), Num("4"), EofLexeme] + t4
  {
  }

  /** The stream of `4+(3*4-5)-4`. */
  lemma ParenStream(src: seq<byte>)
    requires |src| == 11 && LexerExamples.At(src, 0, "4+(3*4-5)-4")
    ensures TokensFrom(src, 0) == [Num("4"), Op("+"), Op("("), Num("3"), Op("*"), Num("4"), Op("-"), Num("5"), Op(")"), Op("-"), Num("4"), EofLexeme]
  {
    ParenWindows0(src);
    ParenGroup0(src);
    ParenWindows3(src);
    ParenGroup3(src);
    ParenWindows6(src);
    ParenGroup6(src);
    ParenWindows9(src);
    ParenGroup9(src);
    ParenJoin(TokensFrom(src, 0), TokensFrom(src, 3), TokensFrom(src, 6), TokensFrom(src, 9), []);
  }
}
