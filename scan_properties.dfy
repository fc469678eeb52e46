/** Properties of the scan (module Lexical) that rlox/src/scanner.rs and its
    tests promise. */
module ScanProperties {
  import opened Wrappers
  import opened Tokens
  import opened ErrorReporting
  import opened Lexical

  /** The token list ends with exactly one EOF token, whose lexeme is empty
      and whose line is the final line counter. */
  lemma {:induction false} ScanEndsWithEof(src: seq<char>, s: nat, line: int, lx: GoodLexicon)
    requires s <= |src|
    ensures var r := ScanFrom(src, s, line, lx);
      |r.tokens| >= 1 && r.tokens[|r.tokens| - 1] == Token(EOF, "", r.line)
      && forall i :: 0 <= i < |r.tokens| - 1 ==> r.tokens[i].typ != EOF
    decreases |src| - s
  {
    if s < |src| {
      var st := Step(src, s, line, lx);
      var rest := ScanFrom(src, st.next, st.line, lx);
      ScanEndsWithEof(src, st.next, st.line, lx);
      var r := ScanFrom(src, s, line, lx);
      var head := OptionToSeq(st.token);
      assert r.tokens == head + rest.tokens && r.line == rest.line;
      assert forall i :: 0 <= i < |head| ==> head[i].typ != EOF;
    }
  }

  /** Token lines never decrease, lie between the starting and the final line
      counter, and the final line counter is at least the starting one. */
  lemma {:induction false} ScanLinesMonotone(src: seq<char>, s: nat, line: int, lx: GoodLexicon)
    requires s <= |src|
    ensures var r := ScanFrom(src, s, line, lx);
      line <= r.line
      && (forall i :: 0 <= i < |r.tokens| ==> line <= r.tokens[i].line <= r.line)
      && (forall i, j :: 0 <= i <= j < |r.tokens| ==> r.tokens[i].line <= r.tokens[j].line)
    decreases |src| - s
  {
    if s < |src| {
      var st := Step(src, s, line, lx);
      ScanLinesMonotone(src, st.next, st.line, lx);
    }
  }

  /** Every reported scan error carries a line between the starting and the
      final line counter, no location and the data-error exit code. */
  lemma {:induction false} ScanErrorsShape(src: seq<char>, s: nat, line: int, lx: GoodLexicon)
    requires s <= |src|
    ensures var r := ScanFrom(src, s, line, lx);
      forall i :: 0 <= i < |r.errors| ==>
        line <= r.errors[i].line <= r.line && r.errors[i].where == "" && r.errors[i].code == DATAERR
    decreases |src| - s
  {
    if s < |src| {
      var st := Step(src, s, line, lx);
      ScanErrorsShape(src, st.next, st.line, lx);
      ScanLinesMonotone(src, st.next, st.line, lx);
    }
  }

  /** `!`, `=`, `<`, `>` followed by `=` give the two-char token type, but
      only the first char is consumed and the lexeme is that one char. */
  lemma TwoCharOperatorPeeksOnly(src: seq<char>, s: nat, line: int, lx: GoodLexicon)
    requires s + 1 < |src| && src[s] in "!=<>" && src[s + 1] == '='
    ensures Step(src, s, line, lx) == StepOut(s + 1, line, Some(Token(OperatorType(src[s], true), [src[s]], line)), None)
    ensures OperatorType(src[s], true) in {BangEqual, EqualEqual, LessEqual, GreaterEqual}
  {
    assert src[s..s + 1] == [src[s]];
  }

  /** The chars that hand a step over to a sub-scanner. */
  lemma StepAtQuote(src: seq<char>, s: nat, line: int, lx: GoodLexicon)
    requires s < |src| && src[s] == '"'
    ensures Step(src, s, line, lx) == StringStep(src, s, line)
  {
  }

  lemma StepAtSlash(src: seq<char>, s: nat, line: int, lx: GoodLexicon)
    requires s < |src| && src[s] == '/'
    ensures Step(src, s, line, lx) == SlashStep(src, s, line)
  {
  }

  lemma StepAtLetter(src: seq<char>, s: nat, line: int, lx: GoodLexicon)
    requires s < |src| && IsAlpha(src[s])
    ensures Step(src, s, line, lx) == IdentifierStep(src, s, line, lx.keywords)
  {
  }

  lemma StepAtDigit(src: seq<char>, s: nat, line: int, lx: GoodLexicon)
    requires s < |src| && IsNumeric(src[s])
    ensures Step(src, s, line, lx) == NumberStep(src, s, line, lx.parseNumber)
  {
    assert !IsAlpha(src[s]);
  }

  /** A terminated string literal: the payload is exactly the chars strictly
      between the quotes, the lexeme includes them, and the newlines inside
      advance the line counter. */
  lemma StringLiteral(src: seq<char>, s: nat, k: nat, line: int, lx: GoodLexicon)
    requires s < k < |src| && src[s] == '"' && src[k] == '"'
    requires forall m :: s < m < k ==> src[m] != '"'
    ensures var l := line + LineBreaks(src, s + 1, k);
      Step(src, s, line, lx) == StepOut(k + 1, l, Some(Token(String(src[s + 1..k]), src[s..k + 1], l)), None)
  {
    StepAtQuote(src, s, line, lx);
    StringStepTerminated(src, s, k, line);
  }

  lemma StringStepTerminated(src: seq<char>, s: nat, k: nat, line: int)
    requires s < k < |src| && src[k] == '"'
    requires forall m :: s < m < k ==> src[m] != '"'
    ensures var l := line + LineBreaks(src, s + 1, k);
      StringStep(src, s, line) == StepOut(k + 1, l, Some(Token(String(src[s + 1..k]), src[s..k + 1], l)), None)
  {
    RunEndUnique(src, s + 1, StringText, k);
  }

  /** An unterminated string consumes the rest of the input, reports
      "Unterminated string." and pushes no token. */
  lemma UnterminatedString(src: seq<char>, s: nat, line: int, lx: GoodLexicon)
    requires s < |src| && src[s] == '"'
    requires forall m :: s < m < |src| ==> src[m] != '"'
    ensures var l := line + LineBreaks(src, s + 1, |src|);
      Step(src, s, line, lx) == StepOut(|src|, l, None, Some(ErrorReport(l, "", "Unterminated string.", DATAERR)))
  {
    StepAtQuote(src, s, line, lx);
    StringStepUnterminated(src, s, line);
  }

  lemma StringStepUnterminated(src: seq<char>, s: nat, line: int)
    requires s < |src|
    requires forall m :: s < m < |src| ==> src[m] != '"'
    ensures var l := line + LineBreaks(src, s + 1, |src|);
      StringStep(src, s, line) == StepOut(|src|, l, None, Some(ErrorReport(l, "", "Unterminated string.", DATAERR)))
  {
    RunEndUnique(src, s + 1, StringText, |src|);
  }

  /** An identifier is a maximal run of letters, digits and `_` starting with
      a letter or `_`; an exact keyword gets the keyword's type, any other
      text the Identifier type carrying it. */
  lemma IdentifierToken(src: seq<char>, s: nat, k: nat, line: int, lx: GoodLexicon)
    requires s < k <= |src| && IsAlpha(src[s])
    requires forall m :: s < m < k ==> IsAlphanumeric(src[m])
    requires k < |src| ==> !IsAlphanumeric(src[k])
    ensures var text := src[s..k];
      Step(src, s, line, lx) == StepOut(k, line, Some(Token(IdentifierType(lx.keywords, text), text, line)), None)
    ensures src[s..k] in lx.keywords ==> IdentifierType(lx.keywords, src[s..k]) == lx.keywords[src[s..k]]
    ensures src[s..k] !in lx.keywords ==> IdentifierType(lx.keywords, src[s..k]) == Identifier(src[s..k])
  {
    StepAtLetter(src, s, line, lx);
    IdentifierStepRun(src, s, k, line, lx.keywords);
  }

  lemma IdentifierStepRun(src: seq<char>, s: nat, k: nat, line: int, keywords: map<string, TokenType>)
    requires s < k <= |src|
    requires forall m :: s < m < k ==> IsAlphanumeric(src[m])
    requires k < |src| ==> !IsAlphanumeric(src[k])
    ensures IdentifierStep(src, s, line, keywords) == StepOut(k, line, Some(Token(IdentifierType(keywords, src[s..k]), src[s..k], line)), None)
  {
    RunEndUnique(src, s + 1, Word, k);
  }

  /** A number is a maximal digit run, extended by `.` and a second maximal
      digit run only when a digit follows the `.`. */
  lemma NumberToken(src: seq<char>, s: nat, j: nat, k: nat, line: int, lx: GoodLexicon)
    requires s < j <= |src| && IsNumeric(src[s])
    requires forall m :: s < m < j ==> IsNumeric(src[m])
    requires j < |src| ==> !IsNumeric(src[j])
    requires if j + 1 < |src| && src[j] == '.' && IsNumeric(src[j + 1])
             then j + 1 < k <= |src| && (forall m :: j < m < k ==> IsNumeric(src[m])) && (k < |src| ==> !IsNumeric(src[k]))
             else k == j
    ensures Step(src, s, line, lx) == StepOut(k, line, Some(Token(Number(lx.parseNumber(src[s..k])), src[s..k], line)), None)
  {
    StepAtDigit(src, s, line, lx);
    NumberStepRuns(src, s, j, k, line, lx.parseNumber);
  }

  lemma NumberStepRuns(src: seq<char>, s: nat, j: nat, k: nat, line: int, parseNumber: string -> Float)
    requires s < j <= |src|
    requires forall m :: s < m < j ==> IsNumeric(src[m])
    requires j < |src| ==> !IsNumeric(src[j])
    requires if j + 1 < |src| && src[j] == '.' && IsNumeric(src[j + 1])
             then j + 1 < k <= |src| && (forall m :: j < m < k ==> IsNumeric(src[m])) && (k < |src| ==> !IsNumeric(src[k]))
             else k == j
    ensures NumberStep(src, s, line, parseNumber) == StepOut(k, line, Some(Token(Number(parseNumber(src[s..k])), src[s..k], line)), None)
  {
    RunEndUnique(src, s + 1, Digits, j);
    if j + 1 < |src| && src[j] == '.' && IsNumeric(src[j + 1]) {
      RunEndUnique(src, j + 1, Digits, k);
    }
  }

  /** `//` skips to the end of the line (the newline itself is left for the
      next step) and pushes nothing. */
  lemma LineComment(src: seq<char>, s: nat, k: nat, line: int, lx: GoodLexicon)
    requires s + 1 < k <= |src| && src[s] == '/' && src[s + 1] == '/'
    requires forall m :: s + 1 < m < k ==> src[m] != '\n'
    requires k < |src| ==> src[k] == '\n'
    ensures Step(src, s, line, lx) == StepOut(k, line, None, None)
  {
    StepAtSlash(src, s, line, lx);
    RunEndUnique(src, s + 1, LineText, k);
  }

  /** A block comment ends at the FIRST `*` `/` after its opener (comments do
      not nest); the newlines inside advance the line counter. */
  lemma BlockComment(src: seq<char>, s: nat, k: nat, line: int, lx: GoodLexicon)
    requires s + 2 <= k && ClosesAt(src, k) && src[s] == '/' && src[s + 1] == '*'
    requires forall m :: s + 2 <= m < k ==> !ClosesAt(src, m)
    ensures Step(src, s, line, lx) == StepOut(k + 2, line + LineBreaks(src, s + 2, k), None, None)
  {
    StepAtSlash(src, s, line, lx);
    CommentEndUnique(src, s + 2, k);
  }

  /** A block comment that is never closed consumes the rest of the input and
      reports "Unterminated block comment.". */
  lemma UnterminatedBlockComment(src: seq<char>, s: nat, line: int, lx: GoodLexicon)
    requires s + 1 < |src| && src[s] == '/' && src[s + 1] == '*'
    requires forall m :: s + 2 <= m < |src| ==> !ClosesAt(src, m)
    ensures var l := line + LineBreaks(src, s + 2, |src|);
      Step(src, s, line, lx) == StepOut(|src|, l, None, Some(ErrorReport(l, "", "Unterminated block comment.", DATAERR)))
  {
    StepAtSlash(src, s, line, lx);
    CommentEndUnique(src, s + 2, |src|);
  }

  /** Any other char is reported and skipped; scanning goes on after it. */
  lemma UnrecognizedCharacter(src: seq<char>, s: nat, line: int, lx: GoodLexicon)
    requires s < |src|
    requires src[s] !in "(){},.-+;*!=<>/\" \t\r\n" && !IsAlphanumeric(src[s])
    ensures Step(src, s, line, lx) == Fail(s + 1, line, "Unrecognized character: " + [src[s]])
    ensures ScanFrom(src, s, line, lx).errors[0] == ErrorReport(line, "", "Unrecognized character: " + [src[s]], DATAERR)
    ensures ScanFrom(src, s, line, lx).tokens == ScanFrom(src, s + 1, line, lx).tokens
  {
  }
}
