/** The rlox scanner (rlox/src/scanner.rs) as a cursor machine over the
    source chars. Every method is proved to do what the functions of module
    Lexical say. */
module Scanning {
  import opened Wrappers
  import opened Tokens
  import opened ErrorReporting
  import opened Lexical
  import ScanProperties

  lemma AppendAssoc<T>(a: seq<T>, b: seq<T>, c: seq<T>)
    ensures (a + b) + c == a + (b + c)
  {
  }

  class Scanner {
    const source: seq<char>
    var tokens: seq<Token>
    var start: nat
    var current: nat
    var line: int
    const errorReporter: ErrorReporter
    /** Rust's `str::parse::<f32>`, which the model does not compute. */
    const parseNumber: string -> Float

    ghost predicate Valid()
      reads this
    {
      start <= current <= |source|
    }

    /** `Scanner::new`: cursor at 0, line 1, no tokens. */
    constructor (source: string, errorReporter: ErrorReporter, parseNumber: string -> Float)
      ensures Valid()
      ensures this.source == source && this.errorReporter == errorReporter && this.parseNumber == parseNumber
      ensures tokens == [] && start == 0 && current == 0 && line == 1
    {
      this.source := source;
      this.errorReporter := errorReporter;
      this.parseNumber := parseNumber;
      tokens := [];
      start := 0;
      current := 0;
      line := 1;
    }

    /** `scan_tokens`: scan token after token until the end, then push EOF. */
    method ScanTokens() returns (result: seq<Token>)
      requires Valid()
      modifies this, errorReporter
      ensures Valid() && current == |source|
      ensures var r := ScanFrom(source, old(current), old(line), Rlox(parseNumber));
        result == tokens == old(tokens) + r.tokens && line == r.line
        && errorReporter.State() == ReportedAll(old(errorReporter.State()), r.errors)
      ensures |result| > 0 && result[|result| - 1] == Token(EOF, "", line)
      ensures forall i :: |old(tokens)| <= i < |result| - 1 ==> result[i].typ != EOF
    {
      ghost var r0 := ScanFrom(source, current, line, Rlox(parseNumber));
      ghost var errs: seq<ErrorReport> := [];
      while !IsAtEnd()
        invariant Valid()
        invariant ScanFrom(source, current, line, Rlox(parseNumber)).line == r0.line
        invariant old(tokens) + r0.tokens == tokens + ScanFrom(source, current, line, Rlox(parseNumber)).tokens
        invariant errs + ScanFrom(source, current, line, Rlox(parseNumber)).errors == r0.errors
        invariant errorReporter.State() == ReportedAll(old(errorReporter.State()), errs)
        decreases |source| - current
      {
        ghost var st := Step(source, current, line, Rlox(parseNumber));
        ghost var here := ScanFrom(source, current, line, Rlox(parseNumber));
        ghost var rest := ScanFrom(source, st.next, st.line, Rlox(parseNumber));
        assert here.tokens == OptionToSeq(st.token) + rest.tokens;
        assert here.errors == OptionToSeq(st.error) + rest.errors;
        assert here.line == rest.line;
        ghost var toks := tokens;
        start := current;
        ScanToken();
        AppendAssoc(toks, OptionToSeq(st.token), rest.tokens);
        ReportedAllAppend(old(errorReporter.State()), errs, OptionToSeq(st.error));
        AppendAssoc(errs, OptionToSeq(st.error), rest.errors);
        errs := errs + OptionToSeq(st.error);
      }
      assert errs + [] == errs;
      tokens := tokens + [Token(EOF, "", line)];
      result := tokens;
      ScanProperties.ScanEndsWithEof(source, old(current), old(line), Rlox(parseNumber));
    }

    /** `scan_token`: consume the next char and act on it. */
    method ScanToken()
      requires Valid() && start == current < |source|
      modifies this, errorReporter
      ensures Valid() && start == old(start)
      ensures var st := Step(source, old(current), old(line), Rlox(parseNumber));
        current == st.next && line == st.line && tokens == old(tokens) + OptionToSeq(st.token)
        && errorReporter.State() == ReportedAll(old(errorReporter.State()), OptionToSeq(st.error))
    {
      assert tokens + [] == tokens;
      assert ReportedAll(errorReporter.State(), []) == errorReporter.State();
      var c := Advance();
      match c
      case '(' => AddToken(LeftParen);
      case ')' => AddToken(RightParen);
      case '{' => AddToken(LeftBrace);
      case '}' => AddToken(RightBrace);
      case ',' => AddToken(Comma);
      case '.' => AddToken(Dot);
      case '-' => AddToken(Minus);
      case '+' => AddToken(Plus);
      case ';' => AddToken(SemiColon);
      case '*' => AddToken(Star);
      case '!' =>
        if IsSame('=') { AddToken(BangEqual); } else { AddToken(Bang); }
      case '=' =>
        if IsSame('=') { AddToken(EqualEqual); } else { AddToken(Equal); }
      case '>' =>
        if IsSame('=') { AddToken(GreaterEqual); } else { AddToken(Greater); }
      case '<' =>
        if IsSame('=') { AddToken(LessEqual); } else { AddToken(Less); }
      case '/' => ScanSlash();
      case '"' => ScanString();
      case ' ' =>
      case '\t' =>
      case '\r' =>
      case '\n' => line := line + 1;
      case _ => ScanOther(c);
    }

    /** The `/` arm of `scan_token`. */
    method ScanSlash()
      requires Valid() && start + 1 == current && source[start] == '/'
      modifies this`current, this`line, this`tokens, errorReporter
      ensures Valid()
      ensures var st := SlashStep(source, start, old(line));
        current == st.next && line == st.line && tokens == old(tokens) + OptionToSeq(st.token)
        && errorReporter.State() == ReportedAll(old(errorReporter.State()), OptionToSeq(st.error))
    {
      assert tokens + [] == tokens;
      assert ReportedAll(errorReporter.State(), []) == errorReporter.State();
      if IsSame('/') {
        ScanInlineComment();
      } else if IsSame('*') {
        ScanBlockComment();
      } else {
        AddToken(Slash);
      }
    }

    /** The catch-all arm of `scan_token`, with c the char just consumed. */
    method ScanOther(c: char)
      requires Valid() && start + 1 == current && source[start] == c
      modifies this`current, this`tokens, errorReporter
      ensures Valid() && line == old(line)
      ensures var st := OtherStep(source, start, line, Rlox(parseNumber));
        current == st.next && tokens == old(tokens) + OptionToSeq(st.token)
        && errorReporter.State() == ReportedAll(old(errorReporter.State()), OptionToSeq(st.error))
    {
      assert tokens + [] == tokens;
      assert ReportedAll(errorReporter.State(), []) == errorReporter.State();
      if IsAlpha(c) {
        ScanIdentifier();
      } else if IsNumeric(c) {
        ScanNumber();
      } else {
        errorReporter.Error(line, "Unrecognized character: " + [c], DATAERR);
        ReportedAllSingle(old(errorReporter.State()), ErrorReport(line, "", "Unrecognized character: " + [c], DATAERR));
      }
    }

    /** `add_token`: push a token whose lexeme runs from start to the cursor. */
    method AddToken(typ: TokenType)
      requires Valid()
      modifies this`tokens
      ensures tokens == old(tokens) + [Token(typ, source[start..current], line)]
    {
      var lexeme := GetLexeme();
      tokens := tokens + [Token(typ, lexeme, line)];
    }

    /** `scan_inline_comment`: skip up to, not including, the next newline. */
    method ScanInlineComment()
      requires Valid()
      modifies this`current
      ensures Valid() && current == RunEnd(source, old(current), LineText)
    {
      while Peek() != '\n' && !IsAtEnd()
        modifies this`current
        invariant Valid() && old(current) <= current
        invariant forall k :: old(current) <= k < current ==> InRun(source[k], LineText)
        decreases |source| - current
      {
        var skipped := Advance();
      }
      RunEndUnique(source, old(current), LineText, current);
    }

    /** `scan_block_comment`, entered with the cursor on the `*` of the opener. */
    method ScanBlockComment()
      requires Valid() && start + 1 == current < |source| && source[current] == '*'
      modifies this`current, this`line, errorReporter
      ensures Valid()
      ensures var st := BlockCommentStep(source, start, old(line));
        current == st.next && line == st.line
        && errorReporter.State() == ReportedAll(old(errorReporter.State()), OptionToSeq(st.error))
    {
      // Consume the star of the opener.
      var star := Advance();
      while !((IsSame('*') && PeekNext() == '/') || IsAtEnd())
        modifies this`current, this`line
        invariant Valid() && start + 2 <= current
        invariant forall m :: start + 2 <= m < current ==> !ClosesAt(source, m)
        invariant line == old(line) + LineBreaks(source, start + 2, current)
        decreases |source| - current
      {
        if IsSame('\n') {
          line := line + 1;
        }
        var skipped := Advance();
      }
      CommentEndUnique(source, start + 2, current);
      if IsAtEnd() {
        errorReporter.Error(line, "Unterminated block comment.", DATAERR);
        ReportedAllSingle(old(errorReporter.State()), ErrorReport(line, "", "Unterminated block comment.", DATAERR));
        return;
      }
      // Consume the closer.
      var closeStar := Advance();
      var closeSlash := Advance();
    }

    /** `scan_string`, entered just after the opening quote. */
    method ScanString()
      requires Valid() && start + 1 == current && source[start] == '"'
      modifies this`current, this`line, this`tokens, errorReporter
      ensures Valid()
      ensures var st := StringStep(source, start, old(line));
        current == st.next && line == st.line && tokens == old(tokens) + OptionToSeq(st.token)
        && errorReporter.State() == ReportedAll(old(errorReporter.State()), OptionToSeq(st.error))
    {
      while Peek() != '"' && !IsAtEnd()
        modifies this`current, this`line
        invariant Valid() && start + 1 <= current
        invariant forall k :: start + 1 <= k < current ==> InRun(source[k], StringText)
        invariant line == old(line) + LineBreaks(source, start + 1, current)
        decreases |source| - current
      {
        if Peek() == '\n' {
          line := line + 1;
        }
        var skipped := Advance();
      }
      RunEndUnique(source, start + 1, StringText, current);
      if IsAtEnd() {
        errorReporter.Error(line, "Unterminated string.", DATAERR);
        ReportedAllSingle(old(errorReporter.State()), ErrorReport(line, "", "Unterminated string.", DATAERR));
        assert tokens + [] == tokens;
        return;
      }
      // The closing quote.
      var closing := Advance();
      var value := source[start + 1..current - 1];
      AddToken(String(value));
    }

    /** `scan_identifier`, entered just after the first letter. */
    method ScanIdentifier()
      requires Valid() && start + 1 == current
      modifies this`current, this`tokens
      ensures Valid()
      ensures var st := IdentifierStep(source, start, line, Keywords);
        current == st.next && tokens == old(tokens) + OptionToSeq(st.token)
    {
      while IsAlphanumeric(Peek())
        modifies this`current
        invariant Valid() && start + 1 <= current
        invariant forall k :: start + 1 <= k < current ==> InRun(source[k], Word)
        decreases |source| - current
      {
        var skipped := Advance();
      }
      RunEndUnique(source, start + 1, Word, current);
      var value := source[start..current];
      if value in Keywords {
        AddToken(Keywords[value]);
      } else {
        AddToken(Identifier(value));
      }
    }

    /** `scan_number`, entered just after the first digit. */
    method ScanNumber()
      requires Valid() && start + 1 == current
      modifies this`current, this`tokens
      ensures Valid()
      ensures var st := NumberStep(source, start, line, parseNumber);
        current == st.next && tokens == old(tokens) + OptionToSeq(st.token)
    {
      SkipDigits();
      ghost var j := current;
      // Consume "." and the fractional digits.
      if IsSame('.') && IsNumeric(PeekNext()) {
        var dot := Advance();
        SkipDigits();
      }
      assert current == NumberEnd(source, j);
      var value := parseNumber(source[start..current]);
      AddToken(Number(value));
    }

    /** The digit loop of `scan_number`, which appears there twice: advance
        over the longest run of digits under the cursor. */
    method SkipDigits()
      requires Valid()
      modifies this`current
      ensures Valid() && current == RunEnd(source, old(current), Digits)
    {
      while IsNumeric(Peek())
        invariant Valid() && old(current) <= current
        invariant forall k :: old(current) <= k < current ==> InRun(source[k], Digits)
        decreases |source| - current
      {
        var skipped := Advance();
      }
      RunEndUnique(source, old(current), Digits, current);
    }

    predicate IsAtEnd()
      reads this
    {
      current >= |source|
    }

    /** `advance`: return the char under the cursor and move past it. */
    method Advance() returns (c: char)
      requires current < |source|
      modifies this`current
      ensures c == source[old(current)] && current == old(current) + 1
    {
      c := source[current];
      current := current + 1;
    }

    function Peek(): char
      reads this
    {
      PeekAt(source, current)
    }

    function PeekNext(): char
      reads this
    {
      PeekAt(source, current + 1)
    }

    /** `is_same`: a look at the next char that consumes nothing. */
    predicate IsSame(c: char)
      reads this
    {
      Peek() == c
    }

    function GetLexeme(): string
      reads this
      requires Valid()
    {
      source[start..current]
    }
  }
}
