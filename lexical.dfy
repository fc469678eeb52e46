/** What the rlox scanner (rlox/src/scanner.rs) computes, as functions: one
    step per call of `scan_token`, and the whole scan as their repetition.
    The class in module Scanning is proved to compute exactly this. */
module Lexical {
  import opened Wrappers
  import opened Tokens
  import opened ErrorReporting

  /** `peek`/`peek_next`: the char at i, or NUL past the end. */
  function PeekAt(src: seq<char>, i: nat): char
  {
    if i < |src| then src[i] else '\0'
  }

  /** ASCII letters and underscore. */
  predicate IsAlpha(c: char)
  {
    'a' <= c <= 'z' || 'A' <= c <= 'Z' || c == '_'
  }

  /** ASCII digits. */
  predicate IsNumeric(c: char)
  {
    '0' <= c <= '9'
  }

  predicate IsAlphanumeric(c: char)
  {
    IsAlpha(c) || IsNumeric(c)
  }

  /** The kinds of char run the scanner consumes in a loop: the rest of a
      line comment, the body of a string, an identifier, a digit sequence. */
  datatype RunKind = LineText | StringText | Word | Digits

  predicate InRun(c: char, kind: RunKind)
  {
    match kind
    case LineText => c != '\n'
    case StringText => c != '"'
    case Word => IsAlphanumeric(c)
    case Digits => IsNumeric(c)
  }

  /** The end of the longest run of chars of the given kind that starts at i. */
  function RunEnd(src: seq<char>, i: nat, kind: RunKind): (j: nat)
    requires i <= |src|
    ensures i <= j <= |src|
    ensures j < |src| ==> !InRun(src[j], kind)
    decreases |src| - i
  {
    if i < |src| && InRun(src[i], kind) then RunEnd(src, i + 1, kind) else i
  }

  /** Every char before the end is of the kind. */
  lemma {:induction false} RunEndMaximal(src: seq<char>, i: nat, kind: RunKind)
    requires i <= |src|
    ensures var j := RunEnd(src, i, kind);
      forall k :: i <= k < j ==> InRun(src[k], kind)
    decreases |src| - i
  {
    if i < |src| && InRun(src[i], kind) {
      RunEndMaximal(src, i + 1, kind);
    }
  }

  /** A maximal run has only one end. */
  lemma {:induction false} RunEndUnique(src: seq<char>, i: nat, kind: RunKind, j: nat)
    requires i <= j <= |src|
    requires forall k :: i <= k < j ==> InRun(src[k], kind)
    requires j < |src| ==> !InRun(src[j], kind)
    ensures RunEnd(src, i, kind) == j
    decreases j - i
  {
    if i < j {
      RunEndUnique(src, i + 1, kind, j);
    }
  }

  /** A block comment closes at k when `*` `/` stand at k and k + 1. */
  predicate ClosesAt(src: seq<char>, k: nat)
  {
    k + 1 < |src| && src[k] == '*' && src[k + 1] == '/'
  }

  /** The first position at or after i where a block comment closes, or the end. */
  function CommentEnd(src: seq<char>, i: nat): (k: nat)
    requires i <= |src|
    ensures i <= k <= |src|
    ensures k < |src| ==> ClosesAt(src, k)
    decreases |src| - i
  {
    if i == |src| || ClosesAt(src, i) then i else CommentEnd(src, i + 1)
  }

  /** No comment closes before the end found. */
  lemma {:induction false} CommentEndFirst(src: seq<char>, i: nat)
    requires i <= |src|
    ensures var k := CommentEnd(src, i);
      forall m :: i <= m < k ==> !ClosesAt(src, m)
    decreases |src| - i
  {
    if i < |src| && !ClosesAt(src, i) {
      CommentEndFirst(src, i + 1);
    }
  }

  lemma {:induction false} CommentEndUnique(src: seq<char>, i: nat, k: nat)
    requires i <= k <= |src|
    requires forall m :: i <= m < k ==> !ClosesAt(src, m)
    requires k < |src| ==> ClosesAt(src, k)
    ensures CommentEnd(src, i) == k
    decreases k - i
  {
    if i < k {
      CommentEndUnique(src, i + 1, k);
    }
  }

  /** The number of newline chars in src[a..b]. */
  function LineBreaks(src: seq<char>, a: nat, b: nat): nat
    requires a <= b <= |src|
    decreases b - a
  {
    if a == b then 0 else LineBreaks(src, a, b - 1) + (if src[b - 1] == '\n' then 1 else 0)
  }

  /** What one call of `scan_token` does: where the cursor ends, the new line
      counter, the token it pushes and the error it reports, if any. */
  datatype StepOut = StepOut(next: nat, line: int, token: Option<Token>, error: Option<ErrorReport>)

  /** `add_token`: a token whose lexeme is the text from the token's start to the cursor. */
  function Emit(src: seq<char>, start: nat, next: nat, line: int, typ: TokenType): StepOut
    requires start <= next <= |src|
  {
    StepOut(next, line, Some(Token(typ, src[start..next], line)), None)
  }

  function Skip(next: nat, line: int): StepOut
  {
    StepOut(next, line, None, None)
  }

  /** `error_reporter.error`: an error at the current line, with no location. */
  function Fail(next: nat, line: int, message: string): StepOut
  {
    StepOut(next, line, None, Some(ErrorReport(line, "", message, DATAERR)))
  }

  /** The two-char operator for c = `!`, `=`, `<`, `>` when `=` follows, else the one-char one. */
  function OperatorType(c: char, followedByEqual: bool): TokenType
  {
    match c
    case '!' => if followedByEqual then BangEqual else Bang
    case '=' => if followedByEqual then EqualEqual else Equal
    case '>' => if followedByEqual then GreaterEqual else Greater
    case _ => if followedByEqual then LessEqual else Less
  }

  /** A `/`: a line comment, a block comment or the Slash token. */
  function SlashStep(src: seq<char>, s: nat, line: int): StepOut
    requires s < |src|
  {
    if PeekAt(src, s + 1) == '/' then Skip(RunEnd(src, s + 1, LineText), line)
    else if PeekAt(src, s + 1) == '*' then BlockCommentStep(src, s, line)
    else Emit(src, s, s + 1, line, Slash)
  }

  /** `scan_block_comment`, entered with a slash and a star at s. */
  function BlockCommentStep(src: seq<char>, s: nat, line: int): StepOut
    requires s + 1 < |src|
  {
    var k := CommentEnd(src, s + 2);
    var newLine := line + LineBreaks(src, s + 2, k);
    if k == |src| then Fail(k, newLine, "Unterminated block comment.")
    else Skip(k + 2, newLine)
  }

  /** `scan_string`, entered with the opening quote at s. */
  function StringStep(src: seq<char>, s: nat, line: int): StepOut
    requires s < |src|
  {
    var k := RunEnd(src, s + 1, StringText);
    var newLine := line + LineBreaks(src, s + 1, k);
    if k == |src| then Fail(k, newLine, "Unterminated string.")
    else StepOut(k + 1, newLine, Some(Token(String(src[s + 1..k]), src[s..k + 1], newLine)), None)
  }

  /** What the scanner consults besides the source: the reserved-word table
      and the f32 parser. The rlox scanner uses `Rlox(pn)`, whose table is
      `KEYWORDS`; `pn` stands for `str::parse::<f32>`. */
  datatype Lexicon = Lexicon(keywords: map<string, TokenType>, parseNumber: string -> Float)

  /** A reserved word never stands for the end marker. */
  type GoodLexicon = lx: Lexicon | EOF !in lx.keywords.Values witness Lexicon(map[], _ => F32(0))

  function Rlox(parseNumber: string -> Float): GoodLexicon
  {
    assert EOF !in Keywords.Values;
    Lexicon(Keywords, parseNumber)
  }

  /** The token type of an identifier-shaped text: the reserved word's own
      type, or Identifier carrying the text. */
  function IdentifierType(keywords: map<string, TokenType>, text: string): TokenType
  {
    if text in keywords then keywords[text] else Identifier(text)
  }

  /** `scan_identifier`, entered with a letter or `_` at s. */
  function IdentifierStep(src: seq<char>, s: nat, line: int, keywords: map<string, TokenType>): StepOut
    requires s < |src|
  {
    var k := RunEnd(src, s + 1, Word);
    Emit(src, s, k, line, IdentifierType(keywords, src[s..k]))
  }

  /** The end of a number literal whose integer digits end at j. */
  function NumberEnd(src: seq<char>, j: nat): nat
    requires j <= |src|
  {
    if PeekAt(src, j) == '.' && IsNumeric(PeekAt(src, j + 1)) then RunEnd(src, j + 1, Digits) else j
  }

  /** `scan_number`, entered with a digit at s. */
  function NumberStep(src: seq<char>, s: nat, line: int, parseNumber: string -> Float): StepOut
    requires s < |src|
  {
    var k := NumberEnd(src, RunEnd(src, s + 1, Digits));
    Emit(src, s, k, line, Number(parseNumber(src[s..k])))
  }

  /** One call of `scan_token` with the token's first char at s. */
  function Step(src: seq<char>, s: nat, line: int, lx: GoodLexicon): (st: StepOut)
    requires s < |src|
    ensures s < st.next <= |src|
    ensures st.line >= line
    ensures st.token.Some? ==> st.token.value.typ != EOF && st.token.value.line == st.line
    ensures st.error.Some? ==> st.token.None? && st.error.value == ErrorReport(st.line, "", st.error.value.message, DATAERR)
  {
    var c := src[s];
    match c
    case '(' => Emit(src, s, s + 1, line, LeftParen)
    case ')' => Emit(src, s, s + 1, line, RightParen)
    case '{' => Emit(src, s, s + 1, line, LeftBrace)
    case '}' => Emit(src, s, s + 1, line, RightBrace)
    case ',' => Emit(src, s, s + 1, line, Comma)
    case '.' => Emit(src, s, s + 1, line, Dot)
    case '-' => Emit(src, s, s + 1, line, Minus)
    case '+' => Emit(src, s, s + 1, line, Plus)
    case ';' => Emit(src, s, s + 1, line, SemiColon)
    case '*' => Emit(src, s, s + 1, line, Star)
    case '!' => Emit(src, s, s + 1, line, OperatorType(c, PeekAt(src, s + 1) == '='))
    case '=' => Emit(src, s, s + 1, line, OperatorType(c, PeekAt(src, s + 1) == '='))
    case '>' => Emit(src, s, s + 1, line, OperatorType(c, PeekAt(src, s + 1) == '='))
    case '<' => Emit(src, s, s + 1, line, OperatorType(c, PeekAt(src, s + 1) == '='))
    case '/' => SlashStep(src, s, line)
    case '"' => StringStep(src, s, line)
    case ' ' => Skip(s + 1, line)
    case '\t' => Skip(s + 1, line)
    case '\r' => Skip(s + 1, line)
    case '\n' => Skip(s + 1, line + 1)
    case _ => OtherStep(src, s, line, lx)
  }

  /** The catch-all arm of `scan_token`: an identifier, a number or an error. */
  function OtherStep(src: seq<char>, s: nat, line: int, lx: GoodLexicon): StepOut
    requires s < |src|
  {
    var c := src[s];
    if IsAlpha(c) then IdentifierStep(src, s, line, lx.keywords)
    else if IsNumeric(c) then NumberStep(src, s, line, lx.parseNumber)
    else Fail(s + 1, line, "Unrecognized character: " + [c])
  }

  /** The tokens pushed, the errors reported and the final line counter. */
  datatype Scanned = Scanned(tokens: seq<Token>, errors: seq<ErrorReport>, line: int)

  /** `scan_tokens` from cursor s with line counter `line`. */
  function ScanFrom(src: seq<char>, s: nat, line: int, lx: GoodLexicon): Scanned
    requires s <= |src|
    decreases |src| - s
  {
    if s == |src| then Scanned([Token(EOF, "", line)], [], line)
    else
      var st := Step(src, s, line, lx);
      var rest := ScanFrom(src, st.next, st.line, lx);
      Scanned(OptionToSeq(st.token) + rest.tokens, OptionToSeq(st.error) + rest.errors, rest.line)
  }

  /** A fresh scanner over src: cursor 0, line 1. */
  function Scan(src: seq<char>, parseNumber: string -> Float): Scanned
  {
    ScanFrom(src, 0, 1, Rlox(parseNumber))
  }
}
