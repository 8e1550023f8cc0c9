/**
 * What the scanner promises: maximal runs, keywords, comments, the
 * single-character operator fallback, progress and a sticky end.
 */
module LexerFacts {
  import opened Lexer

  /** A run described from outside ends where `RunEnd` says it does. */
  lemma {:induction false} RunEndUnique(src: seq<byte>, p: nat, e: nat, k: Run)
    requires p <= e <= |src|
    requires forall i | p <= i < e :: InRun(k, src[i] as int)
    requires !InRun(k, CharAt(src, e))
    ensures RunEnd(src, p, k) == e
    decreases e - p
  {
    if p < e {
      RunEndUnique(src, p + 1, e, k);
    }
  }

  /** At the end sentinel the scanner answers the end token and stays put. */
  lemma ScanAtEnd(src: seq<byte>, p: nat)
    requires p <= |src| && CharAt(src, p) == EOF
    ensures Scan(src, p) == (EofLexeme, p)
  {
  }

  /** Once the end token has been returned, every later call returns it again from the same place. */
  lemma EndIsSticky(src: seq<byte>, p: nat)
    requires p <= |src|
    requires Scan(src, p).0.tok == TokEOF
    ensures Scan(src, Scan(src, p).1) == (EofLexeme, Scan(src, p).1)
  {
    ScanAtEnd(src, Scan(src, p).1);
  }

  /** Empty input yields the end token at once. */
  lemma EmptyInput()
    ensures Scan([], 0) == (EofLexeme, 0)
    ensures TokensFrom([], 0) == [EofLexeme]
  {
  }

  /**
   * A letter after the blanks starts a maximal run of letters and digits;
   * `def` and `extern` become keywords without text, anything else an
   * identifier carrying exactly that run.
   */
  lemma ScanIdentifier(src: seq<byte>, p: nat, q: nat, e: nat)
    requires p <= q < e <= |src|
    requires forall i | p <= i < q :: IsSpace(src[i] as int)
    requires IsLetter(src[q] as int)
    requires forall i | q <= i < e :: IsAlphaNum(src[i] as int)
    requires !IsAlphaNum(CharAt(src, e))
    ensures Text(src[q..e]) == "def" ==> Scan(src, p) == (Lexeme(TokDef, ""), e)
    ensures Text(src[q..e]) == "extern" ==> Scan(src, p) == (Lexeme(TokExtern, ""), e)
    ensures Text(src[q..e]) != "def" && Text(src[q..e]) != "extern" ==>
              Scan(src, p) == (Lexeme(TokIdentifier, Text(src[q..e])), e)
  {
    RunEndUnique(src, p, q, Spaces);
    RunEndUnique(src, q, e, AlphaNums);
  }

  /**
   * A digit or `.` after the blanks starts a number: the maximal run of
   * digits and dots, passed through unchecked (`1..2` included).
   */
  lemma ScanNumber(src: seq<byte>, p: nat, q: nat, e: nat)
    requires p <= q < e <= |src|
    requires forall i | p <= i < q :: IsSpace(src[i] as int)
    requires forall i | q <= i < e :: IsDigit(src[i] as int) || src[i] == '.' as int as byte
    requires !IsDigit(CharAt(src, e)) && CharAt(src, e) != '.' as int
    ensures Scan(src, p) == (Lexeme(TokNumber, Text(src[q..e])), e)
  {
    RunEndUnique(src, p, q, Spaces);
    RunEndUnique(src, q, e, NumberChars);
  }

  /**
   * A `#` after the blanks discards everything up to a line break or the
   * end; at a line break scanning starts over there, at the end the end
   * token comes back.
   */
  lemma ScanComment(src: seq<byte>, p: nat, q: nat, e: nat)
    requires p <= q < e <= |src|
    requires forall i | p <= i < q :: IsSpace(src[i] as int)
    requires src[q] == '#' as int as byte
    requires forall i | q < i < e :: src[i] != 0 && src[i] != '\n' as int as byte && src[i] != '\r' as int as byte
    requires CharAt(src, e) in {EOF, '\n' as int, '\r' as int}
    ensures CharAt(src, e) == EOF ==> Scan(src, p) == (EofLexeme, e)
    ensures CharAt(src, e) != EOF ==> Scan(src, p) == Scan(src, e)
  {
    RunEndUnique(src, p, q, Spaces);
    RunEndUnique(src, q + 1, e, CommentChars);
  }

  /** A comment contributes no token to the stream. */
  lemma CommentYieldsNoToken(src: seq<byte>, p: nat, q: nat, e: nat)
    requires p <= q < e <= |src|
    requires forall i | p <= i < q :: IsSpace(src[i] as int)
    requires src[q] == '#' as int as byte
    requires forall i | q < i < e :: src[i] != 0 && src[i] != '\n' as int as byte && src[i] != '\r' as int as byte
    requires CharAt(src, e) in {EOF, '\n' as int, '\r' as int}
    ensures TokensFrom(src, p) == if CharAt(src, e) == EOF then [EofLexeme] else TokensFrom(src, e)
  {
    ScanComment(src, p, q, e);
  }

  /**
   * Any other byte is an operator token: its text is the byte itself
   * (two UTF-8 bytes from 0x80 on), and the cursor moves by exactly one.
   */
  lemma ScanOperator(src: seq<byte>, p: nat, q: nat)
    requires p <= q < |src|
    requires forall i | p <= i < q :: IsSpace(src[i] as int)
    requires var c := src[q] as int;
      c != EOF && !IsSpace(c) && !IsAlphaNum(c) && c != '.' as int && c != '#' as int
    ensures Scan(src, p) == (Lexeme(TokOperator, OperatorText(src[q])), q + 1)
    ensures src[q] < 0x80 ==> Scan(src, p).0.lit == [src[q] as int as char]
  {
    RunEndUnique(src, p, q, Spaces);
  }

  /** A NUL byte after the blanks ends the input, however much follows it. */
  lemma NulEndsInput(src: seq<byte>, p: nat, q: nat)
    requires p <= q < |src|
    requires forall i | p <= i < q :: IsSpace(src[i] as int)
    requires src[q] == 0
    ensures Scan(src, p) == (EofLexeme, q)
    ensures TokensFrom(src, p) == [EofLexeme]
  {
    RunEndUnique(src, p, q, Spaces);
  }

  /**
   * Progress: every token but the end consumes at least one byte, so the
   * stream from `p` has at most `|src| - p` tokens before the end token.
   */
  lemma {:induction false} StreamIsBounded(src: seq<byte>, p: nat)
    requires p <= |src|
    ensures |TokensFrom(src, p)| <= |src| - p + 1
    decreases |src| - p
  {
    var r := Scan(src, p);
    if r.0.tok != TokEOF {
      StreamIsBounded(src, r.1);
    }
  }

  /**
   * The scanner yields only the six token kinds, so no stream it produces
   * contains a token whose kind equals the rune `;`.
   */
  lemma {:induction false} StreamKinds(src: seq<byte>, p: nat)
    requires p <= |src|
    ensures forall i | 0 <= i < |TokensFrom(src, p)| ::
      TokensFrom(src, p)[i].tok in {TokEOF, TokDef, TokExtern, TokIdentifier, TokNumber, TokOperator}
    ensures forall i | 0 <= i < |TokensFrom(src, p)| :: TokensFrom(src, p)[i].tok != ';' as int
    decreases |src| - p
  {
    var r := Scan(src, p);
    if r.0.tok != TokEOF {
      StreamKinds(src, r.1);
    }
  }
}
