/** Concrete scans taken from the tests and the edge cases of
    rlox/src/scanner.rs. */
module ScanExamples {
  import opened Wrappers
  import opened Tokens
  import opened ErrorReporting
  import opened Lexical
  import opened ScanProperties

  /** `==` scans as EqualEqual with lexeme "=" and then Equal, because the
      second `=` is only peeked at. */
  lemma ScanEqualEqual(pn: string -> Float)
    ensures Scan("==", pn).tokens == [Token(EqualEqual, "=", 1), Token(Equal, "=", 1), Token(EOF, "", 1)]
  {
    var src := "==";
    assert src[0] == '=' && src[1] == '=' && src[0..1] == "=" && src[1..2] == "=";
    assert PeekAt(src, 2) == '\0';
    assert Step(src, 0, 1, Rlox(pn)) == StepOut(1, 1, Some(Token(EqualEqual, "=", 1)), None);
    assert Step(src, 1, 1, Rlox(pn)) == StepOut(2, 1, Some(Token(Equal, "=", 1)), None);
    TwoTokens(src, Rlox(pn), Token(EqualEqual, "=", 1), Token(Equal, "=", 1));
  }

  /** `1.` is a Number followed by a Dot: a fraction needs a digit after the dot. */
  lemma ScanTrailingDot(pn: string -> Float)
    ensures Scan("1.", pn).tokens == [Token(Number(pn("1")), "1", 1), Token(Dot, ".", 1), Token(EOF, "", 1)]
  {
    var src := "1.";
    assert src[0] == '1' && src[1] == '.' && src[0..1] == "1" && src[1..2] == ".";
    NumberToken(src, 0, 1, 1, 1, Rlox(pn));
    assert Step(src, 1, 1, Rlox(pn)) == StepOut(2, 1, Some(Token(Dot, ".", 1)), None);
    TwoTokens(src, Rlox(pn), Token(Number(pn("1")), "1", 1), Token(Dot, ".", 1));
  }

  /** A two-char source whose chars each make one token on line 1. */
  lemma TwoTokens(src: string, lx: GoodLexicon, first: Token, second: Token)
    requires |src| == 2
    requires Step(src, 0, 1, lx) == StepOut(1, 1, Some(first), None)
    requires Step(src, 1, 1, lx) == StepOut(2, 1, Some(second), None)
    ensures ScanFrom(src, 0, 1, lx).tokens == [first, second, Token(EOF, "", 1)]
  {
    assert ScanFrom(src, 2, 1, lx).tokens == [Token(EOF, "", 1)];
    assert ScanFrom(src, 1, 1, lx).tokens == [second] + ScanFrom(src, 2, 1, lx).tokens;
    assert ScanFrom(src, 0, 1, lx).tokens == [first] + ScanFrom(src, 1, 1, lx).tokens;
  }

  /** An unterminated string gives exactly one error and no token but EOF. */
  lemma ScanUnterminatedString(pn: string -> Float)
    ensures Scan("\"ab", pn) == Scanned([Token(EOF, "", 1)], [ErrorReport(1, "", "Unterminated string.", DATAERR)], 1)
  {
    var src := "\"ab";
    assert RunEnd(src, 1, StringText) == 3 by {
      RunEndUnique(src, 1, StringText, 3);
    }
    assert LineBreaks(src, 1, 3) == 0 by {
      NoNewlines(src, 1, 3);
    }
    assert Step(src, 0, 1, Rlox(pn)) == Fail(3, 1, "Unterminated string.");
  }

  /** The `scan_hello` test: `print "Hello, world!";`. */
  lemma ScanHello(pn: string -> Float)
    ensures Scan("print \"Hello, world!\";", pn).tokens ==
      [ Token(Print, "print", 1),
        Token(String("Hello, world!"), "\"Hello, world!\"", 1),
        Token(SemiColon, ";", 1),
        Token(EOF, "", 1) ]
  {
    var src := "print \"Hello, world!\";";
    HelloSteps(src, pn);
    HelloChain(src, Rlox(pn));
  }

  /** Any 22-char source whose four steps are those of the hello program
      yields the hello tokens. */
  lemma HelloChain(src: string, lx: GoodLexicon)
    requires |src| == 22
    requires Step(src, 0, 1, lx) == StepOut(5, 1, Some(Token(Print, "print", 1)), None)
    requires Step(src, 5, 1, lx) == StepOut(6, 1, None, None)
    requires Step(src, 6, 1, lx) == StepOut(21, 1, Some(Token(String("Hello, world!"), "\"Hello, world!\"", 1)), None)
    requires Step(src, 21, 1, lx) == StepOut(22, 1, Some(Token(SemiColon, ";", 1)), None)
    ensures ScanFrom(src, 0, 1, lx).tokens ==
      [ Token(Print, "print", 1),
        Token(String("Hello, world!"), "\"Hello, world!\"", 1),
        Token(SemiColon, ";", 1),
        Token(EOF, "", 1) ]
  {
    calc {
      ScanFrom(src, 0, 1, lx).tokens;
      [Token(Print, "print", 1)] + ScanFrom(src, 5, 1, lx).tokens;
      [Token(Print, "print", 1)] + ScanFrom(src, 6, 1, lx).tokens;
      [Token(Print, "print", 1), Token(String("Hello, world!"), "\"Hello, world!\"", 1)] + ScanFrom(src, 21, 1, lx).tokens;
      [Token(Print, "print", 1), Token(String("Hello, world!"), "\"Hello, world!\"", 1), Token(SemiColon, ";", 1)] + ScanFrom(src, 22, 1, lx).tokens;
    }
  }

  lemma HelloSteps(src: string, pn: string -> Float)
    requires src == "print \"Hello, world!\";"
    ensures Step(src, 0, 1, Rlox(pn)) == StepOut(5, 1, Some(Token(Print, "print", 1)), None)
    ensures Step(src, 5, 1, Rlox(pn)) == StepOut(6, 1, None, None)
    ensures Step(src, 6, 1, Rlox(pn)) == StepOut(21, 1, Some(Token(String("Hello, world!"), "\"Hello, world!\"", 1)), None)
    ensures Step(src, 21, 1, Rlox(pn)) == StepOut(22, 1, Some(Token(SemiColon, ";", 1)), None)
  {
    HelloKeyword(src, pn);
    HelloString(src, pn);
    assert src[5] == ' ' && src[21] == ';' && src[21..22] == ";";
  }

  lemma HelloKeyword(src: string, pn: string -> Float)
    requires src == "print \"Hello, world!\";"
    ensures Step(src, 0, 1, Rlox(pn)) == StepOut(5, 1, Some(Token(Print, "print", 1)), None)
  {
    assert src[0] == 'p' && src[5] == ' ';
    IdentifierToken(src, 0, 5, 1, Rlox(pn));
    assert src[0..5] == "print";
    assert IdentifierType(Keywords, "print") == Print;
  }

  lemma HelloString(src: string, pn: string -> Float)
    requires src == "print \"Hello, world!\";"
    ensures Step(src, 6, 1, Rlox(pn)) == StepOut(21, 1, Some(Token(String("Hello, world!"), "\"Hello, world!\"", 1)), None)
  {
    HelloBody(src);
    StringLiteral(src, 6, 20, 1, Rlox(pn));
    NoNewlines(src, 7, 20);
  }

  /** The chars of the hello string's payload, and its slices. */
  lemma HelloBody(src: string)
    requires src == "print \"Hello, world!\";"
    ensures src[6] == '"' && src[20] == '"'
    ensures forall m :: 7 <= m < 20 ==> src[m] != '"' && src[m] != '\n'
    ensures src[7..20] == "Hello, world!" && src[6..21] == "\"Hello, world!\""
  {
    assert src[7..20] == "Hello, world!";
    assert src[6..21] == [src[6]] + src[7..20] + [src[20]];
  }

  lemma {:induction false} NoNewlines(src: seq<char>, a: nat, b: nat)
    requires a <= b <= |src|
    requires forall i :: a <= i < b ==> src[i] != '\n'
    ensures LineBreaks(src, a, b) == 0
    decreases b - a
  {
    if a < b {
      NoNewlines(src, a, b - 1);
    }
  }
}
