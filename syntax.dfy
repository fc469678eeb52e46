/** What the rlox parser (rlox/src/parser.rs) computes, as functions over
    the token sequence and a cursor position. The class in module Parsing
    is proved to compute exactly this. */
module Syntax {
  import opened Wrappers
  import opened Tokens
  import opened ErrorReporting
  import opened Grammar

  /** What the parser demands of its input (the scanner's output has this
      shape): at least one token, and the last one is the end marker. */
  predicate WellFormed(toks: seq<Token>)
  {
    |toks| > 0 && toks[|toks| - 1].typ == EOF
  }

  /** `advance`: the cursor moves one token on, except at the end marker. */
  function Advanced(toks: seq<Token>, pos: nat): (p: nat)
    requires WellFormed(toks) && pos < |toks|
    ensures pos <= p < |toks|
    ensures p == pos <==> toks[pos].typ == EOF
  {
    if toks[pos].typ == EOF then pos else pos + 1
  }

  /** An `error` call of the parser: the token it blames and the message. */
  datatype ParseError = ParseError(token: Token, message: string)

  const ExpectedLiteral := "Expected a literal or '('."
  const ExpectedExpression := "Expected an expression."
  const ExpectedRightParen := "Expected ')'."

  /** What `error` hands the reporter: a data error at the token's line,
      located at the token. */
  function ReportOf(e: ParseError): ErrorReport
  {
    ErrorReport(e.token.line, Where(e.token), e.message, DATAERR)
  }

  lemma ReportsOfAppend(a: seq<ParseError>, b: seq<ParseError>)
    ensures ReportsOf(a + b) == ReportsOf(a) + ReportsOf(b)
  {
    assert forall i :: 0 <= i < |a + b| ==> ReportsOf(a + b)[i] == (ReportsOf(a) + ReportsOf(b))[i];
  }

  function ReportsOf(es: seq<ParseError>): (rs: seq<ErrorReport>)
    ensures |rs| == |es|
    ensures forall i :: 0 <= i < |es| ==> rs[i] == ReportOf(es[i])
  {
    if es == [] then [] else [ReportOf(es[0])] + ReportsOf(es[1..])
  }

  /** The outcome of a sub-parse: a tree and the cursor after it, or the
      cursor where it gave up and the errors it raised on the way. Every
      `error` call of the parser is followed by returning `None`, so a
      successful parse never raises one. */
  datatype ParseOutcome =
    | Parsed(expr: Expr, next: nat)
    | Failed(next: nat, errors: seq<ParseError>)

  function ResultOf(o: ParseOutcome): (r: Option<Expr>)
    ensures r.Some? <==> o.Parsed?
  {
    match o
    case Parsed(e, _) => Some(e)
    case Failed(_, _) => None
  }

  function ErrorsOf(o: ParseOutcome): (errs: seq<ParseError>)
    ensures o.Parsed? ==> errs == []
  {
    match o
    case Parsed(_, _) => []
    case Failed(_, errs) => errs
  }

  /** The operator token types of the four binary levels, in the order the
      parser tries them: 0 equality, 1 comparison, 2 term, 3 factor. */
  function LevelOps(level: nat): (ops: seq<TokenType>)
    requires level < 4
    ensures EOF !in ops
  {
    match level
    case 0 => [EqualEqual, BangEqual]
    case 1 => [Less, LessEqual, Greater, GreaterEqual]
    case 2 => [TokenType.Plus, TokenType.Minus]
    case _ => [Slash, Star]
  }

  /** `match_type`/`check`: the token under the cursor has one of the types,
      and it is not the end marker. */
  predicate Matches(t: Token, types: seq<TokenType>)
  {
    t.typ != EOF && t.typ in types
  }

  /** A token of one level's list is a token of some level's list. */
  lemma LevelOpsCovered(level: nat, t: TokenType)
    requires level < 4 && t in LevelOps(level)
    ensures t in LevelOps(0) || t in LevelOps(1) || t in LevelOps(2) || t in LevelOps(3)
  {
  }

  /** The tree operator of an operator token. */
  function BinaryOpFor(t: TokenType): BinaryOp
    requires t in LevelOps(0) || t in LevelOps(1) || t in LevelOps(2) || t in LevelOps(3)
  {
    match t
    case EqualEqual => BinaryOp.Equal
    case BangEqual => NotEqual
    case Less => LessThan
    case LessEqual => LessThanOrEqual
    case Greater => GreaterThan
    case GreaterEqual => GreaterThanOrEqual
    case Minus => BinaryOp.Minus
    case Plus => BinaryOp.Plus
    case Slash => Divide
    case Star => Multiply
  }

  /** The literal a token of this type stands for, if any. */
  function LiteralOf(typ: TokenType): (v: Option<Literal>)
    ensures v.Some? ==> typ != EOF && typ != LeftParen
  {
    match typ
    case Number(n) => Some(Literal.Number(n))
    case String(s) => Some(Literal.String(s))
    case True => Some(Boolean(true))
    case False => Some(Boolean(false))
    case Nil => Some(Literal.Nil)
    case _ => None
  }

  /** `parse_primary`. */
  function ParsePrimary(toks: seq<Token>, pos: nat): (o: ParseOutcome)
    requires WellFormed(toks) && pos < |toks|
    ensures pos <= o.next < |toks|
    decreases |toks| - pos, 0
  {
    // The end-marker test comes first in `parse_primary`; every other arm
    // runs after `advance`, whose new position is pos + 1.
    var t := toks[pos];
    if t.typ == EOF then Failed(pos, [ParseError(t, ExpectedLiteral)])
    else if LiteralOf(t.typ).Some? then Parsed(LiteralExpr(LiteralOf(t.typ).value), pos + 1)
    else if t.typ == LeftParen then ParseGroup(toks, pos + 1)
    else Failed(pos + 1, [ParseError(toks[pos + 1], ExpectedLiteral)])
  }

  /** The `LeftParen` arm of `parse_primary`, with the cursor after the `(`:
      an expression, then the `)`. */
  function ParseGroup(toks: seq<Token>, pos: nat): (o: ParseOutcome)
    requires WellFormed(toks) && pos < |toks|
    ensures pos <= o.next < |toks|
    decreases |toks| - pos, 10
  {
    var inner := ParseAt(toks, pos, 0);
    if inner.Failed? then
      Failed(inner.next, inner.errors + [ParseError(toks[inner.next], ExpectedExpression)])
    else if toks[inner.next].typ != RightParen then
      Failed(inner.next, [ParseError(toks[inner.next], ExpectedRightParen)])
    else Parsed(inner.expr, inner.next + 1)
  }

  /** `parse_unary`: prefix operators nest to the right. */
  function ParseUnary(toks: seq<Token>, pos: nat): (o: ParseOutcome)
    requires WellFormed(toks) && pos < |toks|
    ensures pos <= o.next < |toks|
    decreases |toks| - pos, 1
  {
    var t := toks[pos];
    if Matches(t, [Bang, TokenType.Minus]) then
      match ParseUnary(toks, pos + 1)
      case Failed(next, errs) => Failed(next, errs)
      case Parsed(x, next) => Parsed(UnaryExpr(if t.typ == Bang then Not else Negate, t.line, x), next)
    else ParsePrimary(toks, pos)
  }

  /** The `parse_next` of a binary level: the next tighter level, and
      `parse_unary` below factor. */
  function ParseOperand(toks: seq<Token>, pos: nat, level: nat): (o: ParseOutcome)
    requires WellFormed(toks) && pos < |toks| && level < 4
    ensures pos <= o.next < |toks|
    decreases |toks| - pos, 2 * (4 - level)
  {
    if level == 3 then ParseUnary(toks, pos) else ParseAt(toks, pos, level + 1)
  }

  /** `parse_binary_expr` for one level (`parse_equality` is level 0,
      `parse_comparison` 1, `parse_term` 2, `parse_factor` 3). */
  function ParseAt(toks: seq<Token>, pos: nat, level: nat): (o: ParseOutcome)
    requires WellFormed(toks) && pos < |toks| && level < 4
    ensures pos <= o.next < |toks|
    decreases |toks| - pos, 2 * (4 - level) + 1
  {
    match ParseOperand(toks, pos, level)
    case Failed(next, errs) => Failed(next, errs)
    case Parsed(left, next) => BinaryLoop(toks, next, level, left)
  }

  /** The `while self.match_type(..)` loop of `parse_binary_expr`, with the
      tree folded so far in `left`. */
  function BinaryLoop(toks: seq<Token>, pos: nat, level: nat, left: Expr): (o: ParseOutcome)
    requires WellFormed(toks) && pos < |toks| && level < 4
    ensures pos <= o.next < |toks|
    decreases |toks| - pos, 2 * (4 - level)
  {
    var t := toks[pos];
    if Matches(t, LevelOps(level)) then
      match ParseOperand(toks, pos + 1, level)
      case Failed(next, errs) => Failed(next, errs)
      case Parsed(right, next) => BinaryLoop(toks, next, level, BinaryExpr(left, BinaryOpFor(t.typ), t.line, right))
    else Parsed(left, pos)
  }

  /** `parse`: one expression from the first token. */
  function Parse(toks: seq<Token>): ParseOutcome
    requires WellFormed(toks)
  {
    ParseAt(toks, 0, 0)
  }

  /** The token types before which `synchronize` stops. */
  const StatementStarts: set<TokenType> := {Class, Fun, Var, For, If, While, Print, Return}

  /** The loop of `synchronize`, with the cursor at pos after the first advance. */
  function SyncFrom(toks: seq<Token>, pos: nat): (p: nat)
    requires WellFormed(toks) && 0 < pos < |toks|
    ensures pos <= p < |toks|
    decreases |toks| - pos
  {
    if toks[pos].typ == EOF then pos
    else if toks[pos - 1].typ == SemiColon then pos
    else if toks[pos].typ in StatementStarts then pos
    else SyncFrom(toks, pos + 1)
  }

  /** `synchronize`: where the cursor ends, or None where it panics. At the
      very first token, when that token is the end marker, `advance` stays
      put and `previous` indexes before the first token. */
  function Synchronized(toks: seq<Token>, pos: nat): Option<nat>
    requires WellFormed(toks) && pos < |toks|
  {
    if pos == 0 && toks[pos].typ == EOF then None
    else Some(SyncFrom(toks, Advanced(toks, pos)))
  }
}
