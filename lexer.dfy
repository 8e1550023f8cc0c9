/**
 * The scanner of lex.go: a cursor over a byte buffer with one cached
 * lookahead character.  The pure functions below say what one call of
 * `GetTok` returns from a given position; the `Scanner` class is the
 * step-by-step procedure, proved to agree with them.
 */
module Lexer {

  newtype byte = b: int | 0 <= b < 256

  /** Token kinds are plain integers, as `type Token int` is in Go. */
  type Token = int

  const TokEOF: Token := -1
  const TokDef: Token := -2
  const TokExtern: Token := -3
  const TokIdentifier: Token := -4
  const TokNumber: Token := -5
  const TokOperator: Token := -6

  /** The end sentinel: a NUL byte in the buffer reads as end of input too. */
  const EOF: int := 0

  /** One result of `GetTok`; `lit` is a Go string, one char per byte. */
  datatype Lexeme = Lexeme(tok: Token, lit: string)

  const EofLexeme := Lexeme(TokEOF, "")

  /** `unicode.IsLetter` on the runes 0..255 that `rune(byte)` produces. */
  predicate IsLetter(c: int) {
    ('A' as int <= c <= 'Z' as int) || ('a' as int <= c <= 'z' as int) ||
    c == 0xAA || c == 0xB5 || c == 0xBA ||
    (0xC0 <= c <= 0xD6) || (0xD8 <= c <= 0xF6) || (0xF8 <= c <= 0xFF)
  }

  /** `unicode.IsDigit` on the runes 0..255: only the ASCII digits. */
  predicate IsDigit(c: int) {
    '0' as int <= c <= '9' as int
  }

  /**
   * `isAlphaNum` of lex.go: a letter or a digit.  On ASCII that is exactly
   * the Latin letters and the decimal digits, and the end sentinel is
   * never one, so a run of them always stops at the end of the input.
   */
  predicate IsAlphaNum(c: int): (b: bool)
    ensures 0 <= c < 0x80 ==> (b <==> 'A' as int <= c <= 'Z' as int || 'a' as int <= c <= 'z' as int || '0' as int <= c <= '9' as int)
    ensures b ==> c != EOF && 0 < c <= 0xFF && !IsSpace(c)
  {
    IsLetter(c) || IsDigit(c)
  }

  predicate IsSpace(c: int) {
    c == ' ' as int || c == '\t' as int || c == '\n' as int || c == '\r' as int
  }

  /** The four character runs `GetTok` loops over. */
  datatype Run = Spaces | AlphaNums | NumberChars | CommentChars

  predicate InRun(k: Run, c: int) {
    match k
    case Spaces => IsSpace(c)
    case AlphaNums => IsAlphaNum(c)
    case NumberChars => IsDigit(c) || c == '.' as int
    case CommentChars => c != EOF && c != '\n' as int && c != '\r' as int
  }

  /** The lookahead character the scanner holds at position `p`. */
  function CharAt(src: seq<byte>, p: nat): int {
    if p < |src| then src[p] as int else EOF
  }

  /** Go's `string(bytes)`: the bytes, unchanged, as a string. */
  function Text(bs: seq<byte>): (s: string)
    ensures |s| == |bs|
    ensures forall i | 0 <= i < |bs| :: s[i] as int == bs[i] as int
  {
    seq(|bs|, i requires 0 <= i < |bs| => (bs[i] as int) as char)
  }

  /**
   * Go's `string(b)` for one byte `b`: the byte is taken as a rune and
   * encoded in UTF-8, so bytes from 0x80 on become two bytes.
   */
  function OperatorText(b: byte): (s: string)
    ensures 1 <= |s| <= 2
    ensures |s| == 1 <==> b < 0x80
    ensures b < 0x80 ==> s[0] as int == b as int
  {
    if b < 0x80 then [(b as int) as char]
    else [(0xC0 + b as int / 64) as char, (0x80 + b as int % 64) as char]
  }

  /** Where a maximal run of class `k` starting at `p` ends. */
  function RunEnd(src: seq<byte>, p: nat, k: Run): (e: nat)
    requires p <= |src|
    ensures p <= e <= |src|
    ensures forall i | p <= i < e :: InRun(k, src[i] as int)
    ensures !InRun(k, CharAt(src, e))
    decreases |src| - p
  {
    if InRun(k, CharAt(src, p)) then RunEnd(src, p + 1, k) else p
  }

  /**
   * What `GetTok` returns when the scanner stands at `p`, and where it
   * leaves the scanner.
   */
  function Scan(src: seq<byte>, p: nat): (r: (Lexeme, nat))
    requires p <= |src|
    ensures p <= r.1 <= |src|
    ensures r.0.tok != TokEOF ==> p < r.1
    ensures r.0.tok == TokEOF ==> r.0 == EofLexeme && CharAt(src, r.1) == EOF
    ensures r.0.tok == TokOperator ==> 1 <= |r.0.lit| <= 2
    ensures r.0.tok in {TokEOF, TokDef, TokExtern, TokIdentifier, TokNumber, TokOperator}
    decreases |src| - p
  {
    var q := RunEnd(src, p, Spaces);
    var c := CharAt(src, q);
    if IsLetter(c) then
      var e := RunEnd(src, q, AlphaNums);
      var ident := Text(src[q..e]);
      if ident == "def" then (Lexeme(TokDef, ""), e)
      else if ident == "extern" then (Lexeme(TokExtern, ""), e)
      else (Lexeme(TokIdentifier, ident), e)
    else if IsDigit(c) || c == '.' as int then
      var e := RunEnd(src, q, NumberChars);
      (Lexeme(TokNumber, Text(src[q..e])), e)
    else if c == '#' as int then
      var e := RunEnd(src, q + 1, CommentChars);
      if CharAt(src, e) != EOF then Scan(src, e) else (EofLexeme, e)
    else if c == EOF then (EofLexeme, q)
    else (Lexeme(TokOperator, OperatorText(src[q])), q + 1)
  }

  /** Every lexeme repeated `GetTok` calls yield from `p`, through the first end token. */
  function TokensFrom(src: seq<byte>, p: nat): (ts: seq<Lexeme>)
    requires p <= |src|
    ensures |ts| > 0 && ts[|ts| - 1] == EofLexeme
    ensures forall i | 0 <= i < |ts| - 1 :: ts[i].tok != TokEOF
    ensures forall i | 0 <= i < |ts| :: ts[i].tok == TokOperator ==> 1 <= |ts[i].lit| <= 2
    decreases |src| - p
  {
    var r := Scan(src, p);
    if r.0.tok == TokEOF then [r.0] else [r.0] + TokensFrom(src, r.1)
  }

  /** The scanner of lex.go:20-24. */
  class Scanner {
    const src: seq<byte>
    var pos: nat
    var lastChar: int

    /** The lookahead is the byte at `pos`, or the end sentinel past the buffer. */
    ghost predicate Valid()
      reads this
    {
      pos <= |src| && lastChar == CharAt(src, pos)
    }

    /** `newScanner` */
    constructor (src: seq<byte>)
      ensures this.src == src && pos == 0 && Valid()
    {
      this.src := src;
      pos := 0;
      if |src| > 0 {
        lastChar := src[0] as int;
      } else {
        lastChar := EOF;
      }
    }

    /** `next`: a no-op at the end sentinel, otherwise one byte forward. */
    method Next()
      requires Valid()
      modifies this
      ensures Valid()
      ensures old(lastChar) == EOF ==> pos == old(pos)
      ensures old(lastChar) != EOF ==> pos == old(pos) + 1
    {
      if lastChar == EOF {
        return;
      }
      pos := pos + 1;
      if pos < |src| {
        lastChar := src[pos] as int;
      } else {
        lastChar := EOF;
      }
    }

    /**
     * The `for` loops of `GetTok`: step past a maximal run of class `k`.
     */
    method SkipRun(k: Run)
      requires Valid()
      modifies this
      ensures Valid()
      ensures pos == RunEnd(src, old(pos), k)
    {
      ghost var p0 := pos;
      while InRun(k, lastChar)
        invariant Valid() && p0 <= pos
        invariant RunEnd(src, pos, k) == RunEnd(src, p0, k)
        decreases |src| - pos
      {
        Next();
      }
    }

    /** `GetTok` */
    method GetTok() returns (tok: Token, lit: string)
      requires Valid()
      modifies this
      ensures Valid()
      ensures (Lexeme(tok, lit), pos) == Scan(src, old(pos))
      decreases |src| - pos
    {
      SkipRun(Spaces);

      if IsLetter(lastChar) {
        var st := pos;
        SkipRun(AlphaNums);
        var ident := Text(src[st..pos]);
        if ident == "def" {
          return TokDef, "";
        }
        if ident == "extern" {
          return TokExtern, "";
        }
        return TokIdentifier, ident;
      }

      if IsDigit(lastChar) || lastChar == '.' as int {
        var st := pos;
        SkipRun(NumberChars);
        return TokNumber, Text(src[st..pos]);
      }

      if lastChar == '#' as int {
        Next();
        SkipRun(CommentChars);
        if lastChar != EOF {
          tok, lit := GetTok();
          return;
        }
      }

      if lastChar == EOF {
        return TokEOF, "";
      }

      var op := OperatorText(src[pos]);
      Next();
      return TokOperator, op;
    }
  }
}
