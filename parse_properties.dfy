/** Properties of the parse (module Syntax) that rlox/src/parser.rs and its
    grammar comment promise: precedence layering, left-associative binary
    levels, right-nested prefixes, transparent parentheses. They are stated
    as one round trip: printing a tree with the parentheses its shape needs
    and parsing the tokens back gives the tree without its grouping nodes. */
module ParseProperties {
  import opened Wrappers
  import opened Tokens
  import opened ErrorReporting
  import opened Grammar
  import opened Syntax

  /** The binding level of a binary operator: 0 loosest, 3 tightest. */
  function OpLevel(op: BinaryOp): (k: nat)
    ensures k < 4
  {
    match op
    case Equal => 0
    case NotEqual => 0
    case LessThan => 1
    case LessThanOrEqual => 1
    case GreaterThan => 1
    case GreaterThanOrEqual => 1
    case Plus => 2
    case Minus => 2
    case Multiply => 3
    case Divide => 3
  }

  /** The token type an operator is written with. */
  function OpToken(op: BinaryOp): TokenType
  {
    match op
    case Equal => EqualEqual
    case NotEqual => BangEqual
    case LessThan => Less
    case LessThanOrEqual => LessEqual
    case GreaterThan => Greater
    case GreaterThanOrEqual => GreaterEqual
    case Plus => TokenType.Plus
    case Minus => TokenType.Minus
    case Multiply => Star
    case Divide => Slash
  }

  /** Each operator's token belongs to its operator's level and is read back
      as that operator. */
  lemma {:induction false} OpTokenRoundTrip(op: BinaryOp)
    ensures OpToken(op) in LevelOps(OpLevel(op)) && TypeLevel(OpToken(op)) == OpLevel(op)
    ensures BinaryOpFor(OpToken(op)) == op
  {
  }

  /** The binary level whose list holds a token type, or -1 for none. */
  function TypeLevel(t: TokenType): (k: int)
    ensures -1 <= k < 4
  {
    match t
    case EqualEqual => 0
    case BangEqual => 0
    case Less => 1
    case LessEqual => 1
    case Greater => 1
    case GreaterEqual => 1
    case Plus => 2
    case Minus => 2
    case Slash => 3
    case Star => 3
    case _ => -1
  }

  /** A token continues a binary level exactly when it is one of that
      level's operators. */
  lemma {:induction false} MatchesLevel(t: Token, level: nat)
    requires level < 4
    ensures Matches(t, LevelOps(level)) <==> TypeLevel(t.typ) == level
  {
  }

  function UnaryToken(op: UnaryOp): TokenType
  {
    match op
    case Not => Bang
    case Negate => TokenType.Minus
  }

  /** How tightly a tree's top binds: its operator's level for a binary
      node, 4 for a prefix, 5 for a literal or a parenthesised group. */
  function Prec(e: Expr): nat
  {
    match e
    case BinaryExpr(_, op, _, _) => OpLevel(op)
    case UnaryExpr(_, _, _) => 4
    case _ => 5
  }

  function LiteralToken(v: Literal, line: int): Token
  {
    match v
    case Number(n) => Token(TokenType.Number(n), "", line)
    case String(s) => Token(TokenType.String(s), "\"" + s + "\"", line)
    case Boolean(b) => if b then Token(True, "true", line) else Token(False, "false", line)
    case Nil => Token(TokenType.Nil, "nil", line)
  }

  /** The tokens of e in a place that needs binding level `level`:
      wrapped in parentheses when e binds more loosely. Operator tokens
      carry the operator's line; the other tokens carry `line`. Number
      lexemes are left empty: the parser reads lexemes only in messages. */
  function PrintAt(e: Expr, level: nat, line: int): seq<Token>
    decreases e, 1
  {
    if Prec(e) < level then [Token(LeftParen, "(", line)] + Bare(e, line) + [Token(RightParen, ")", line)]
    else Bare(e, line)
  }

  /** The tokens of e with no parentheses added around its top. */
  function Bare(e: Expr, line: int): seq<Token>
    decreases e, 0
  {
    match e
    case LiteralExpr(v) => [LiteralToken(v, line)]
    case UnaryExpr(op, opLine, x) => [Token(UnaryToken(op), "", opLine)] + PrintAt(x, 4, line)
    case BinaryExpr(l, op, opLine, r) =>
      PrintAt(l, OpLevel(op), line) + [Token(OpToken(op), "", opLine)] + PrintAt(r, OpLevel(op) + 1, line)
    case GroupingExpr(x) => [Token(LeftParen, "(", line)] + PrintAt(x, 0, line) + [Token(RightParen, ")", line)]
  }

  /** The printed tokens never include the end marker. */
  lemma {:induction false} PrintedNoEof(e: Expr, level: nat, line: int)
    ensures forall i :: 0 <= i < |PrintAt(e, level, line)| ==> PrintAt(e, level, line)[i].typ != EOF
    ensures |PrintAt(e, level, line)| > 0
    decreases e, 1
  {
    BareNoEof(e, line);
  }

  lemma {:induction false} BareNoEof(e: Expr, line: int)
    ensures forall i :: 0 <= i < |Bare(e, line)| ==> Bare(e, line)[i].typ != EOF
    ensures |Bare(e, line)| > 0
    decreases e, 0
  {
    match e
    case LiteralExpr(v) =>
    case UnaryExpr(op, opLine, x) => PrintedNoEof(x, 4, line);
    case BinaryExpr(l, op, opLine, r) =>
      PrintedNoEof(l, OpLevel(op), line);
      PrintedNoEof(r, OpLevel(op) + 1, line);
    case GroupingExpr(x) => PrintedNoEof(x, 0, line);
  }

  /** The parse of a level, 0 to 3 for the binary levels and 4 for
      `parse_unary`. */
  function ParseLevel(toks: seq<Token>, pos: nat, level: nat): ParseOutcome
    requires WellFormed(toks) && pos < |toks| && level <= 4
  {
    if level == 4 then ParseUnary(toks, pos) else ParseAt(toks, pos, level)
  }

  /** Where a level's parse stands once it has read x up to pos: inside the
      loop of a binary level, or done for the unary level. */
  function Continue(toks: seq<Token>, pos: nat, level: nat, x: Expr): ParseOutcome
    requires WellFormed(toks) && pos < |toks| && level <= 4
  {
    if level == 4 then Parsed(x, pos) else BinaryLoop(toks, pos, level, x)
  }

  /** The parse of a level from pos has read x up to end, and goes on from there. */
  predicate ReadsTo(toks: seq<Token>, pos: nat, level: nat, end: nat, x: Expr)
    requires WellFormed(toks) && pos < |toks| && end < |toks| && level <= 4
  {
    ParseLevel(toks, pos, level) == Continue(toks, end, level, x)
  }

  /** The tokens from pos on start with p, and a token follows them. */
  predicate HoldsAt(toks: seq<Token>, pos: nat, p: seq<Token>)
  {
    pos + |p| < |toks| && Lays(toks, pos, p)
  }

  /** The tokens from pos on start with p, one token at a time. */
  predicate Lays(toks: seq<Token>, pos: nat, p: seq<Token>)
    decreases |p|
  {
    p == [] || (pos < |toks| && toks[pos] == p[0] && Lays(toks, pos + 1, p[1..]))
  }

  lemma {:induction false} LaysSplit(toks: seq<Token>, pos: nat, a: seq<Token>, b: seq<Token>)
    requires Lays(toks, pos, a + b)
    ensures Lays(toks, pos, a) && Lays(toks, pos + |a|, b)
    decreases |a|
  {
    if a == [] {
      assert a + b == b;
    } else {
      assert (a + b)[1..] == a[1..] + b;
      LaysSplit(toks, pos + 1, a[1..], b);
    }
  }

  /** The slice of the tokens at pos is laid out there. */
  lemma {:induction false} LaysSlice(toks: seq<Token>, pos: nat, n: nat)
    requires pos + n <= |toks|
    ensures Lays(toks, pos, toks[pos..pos + n])
    decreases n
  {
    if n > 0 {
      assert toks[pos..pos + n][1..] == toks[pos + 1..pos + 1 + (n - 1)];
      LaysSlice(toks, pos + 1, n - 1);
    }
  }

  lemma {:induction false} HoldsAtSplit(toks: seq<Token>, pos: nat, a: seq<Token>, b: seq<Token>)
    requires HoldsAt(toks, pos, a + b)
    ensures HoldsAt(toks, pos, a) && HoldsAt(toks, pos + |a|, b)
  {
    LaysSplit(toks, pos, a, b);
  }

  lemma {:induction false} HoldsAtHead(toks: seq<Token>, pos: nat, p: seq<Token>)
    requires HoldsAt(toks, pos, p) && |p| > 0
    ensures toks[pos] == p[0]
  {
  }

  /** One turn of a binary level's loop: an operator of the level, then
      its right operand read by the next tighter level. */
  lemma {:induction false} LoopStep(toks: seq<Token>, pos: nat, level: nat, left: Expr, right: Expr, end: nat)
    requires WellFormed(toks) && pos < |toks| && level < 4
    requires Matches(toks[pos], LevelOps(level))
    requires ParseOperand(toks, pos + 1, level) == Parsed(right, end)
    ensures pos + 1 <= end < |toks|
    ensures BinaryLoop(toks, pos, level, left) ==
      BinaryLoop(toks, end, level, BinaryExpr(left, BinaryOpFor(toks[pos].typ), toks[pos].line, right))
  {
  }

  /** A prefix operator wraps its operand. */
  lemma {:induction false} UnaryStep(toks: seq<Token>, pos: nat, x: Expr, end: nat)
    requires WellFormed(toks) && pos < |toks| && toks[pos].typ in [Bang, TokenType.Minus]
    requires ParseUnary(toks, pos + 1) == Parsed(x, end)
    ensures ParseUnary(toks, pos) ==
      Parsed(UnaryExpr(if toks[pos].typ == Bang then Not else Negate, toks[pos].line, x), end)
  {
  }

  /** A parenthesised expression is its inner tree, with both parentheses consumed. */
  lemma {:induction false} ParenStep(toks: seq<Token>, pos: nat, x: Expr, close: nat)
    requires WellFormed(toks) && pos < |toks| && toks[pos].typ == LeftParen
    requires ParseAt(toks, pos + 1, 0) == Parsed(x, close)
    requires toks[close].typ == RightParen
    ensures ParseUnary(toks, pos) == Parsed(x, close + 1)
  {
    assert ParseGroup(toks, pos + 1) == Parsed(x, close + 1);
    assert ParsePrimary(toks, pos) == ParseGroup(toks, pos + 1);
    assert ParseUnary(toks, pos) == ParsePrimary(toks, pos);
  }

  /** A `(` whose expression is not followed by `)` fails at the token
      after the expression, blaming that token. */
  lemma {:induction false} ParenUnclosed(toks: seq<Token>, pos: nat, x: Expr, end: nat)
    requires WellFormed(toks) && pos < |toks| && toks[pos].typ == LeftParen
    requires ParseAt(toks, pos + 1, 0) == Parsed(x, end)
    requires toks[end].typ != RightParen
    ensures ParseUnary(toks, pos) == Failed(end, [ParseError(toks[end], ExpectedRightParen)])
  {
    assert ParseGroup(toks, pos + 1) == Failed(end, [ParseError(toks[end], ExpectedRightParen)]);
    assert ParsePrimary(toks, pos) == ParseGroup(toks, pos + 1);
  }

  /** A `(` with no expression after it passes the inner errors on and
      adds "Expected an expression." at the token where the inner parse
      gave up. */
  lemma {:induction false} ParenEmpty(toks: seq<Token>, pos: nat, next: nat, errs: seq<ParseError>)
    requires WellFormed(toks) && pos < |toks| && toks[pos].typ == LeftParen
    requires ParseAt(toks, pos + 1, 0) == Failed(next, errs)
    ensures ParseUnary(toks, pos) == Failed(next, errs + [ParseError(toks[next], ExpectedExpression)])
  {
    assert ParseGroup(toks, pos + 1) == Failed(next, errs + [ParseError(toks[next], ExpectedExpression)]);
    assert ParsePrimary(toks, pos) == ParseGroup(toks, pos + 1);
  }

  /** Where an operand is expected, the end marker fails in place. */
  lemma {:induction false} OperandAtEof(toks: seq<Token>, pos: nat)
    requires WellFormed(toks) && pos < |toks| && toks[pos].typ == EOF
    ensures ParseUnary(toks, pos) == Failed(pos, [ParseError(toks[pos], ExpectedLiteral)])
  {
  }

  /** Any other token that starts no operand is consumed and the error
      blames the token after it. */
  lemma {:induction false} OperandRejected(toks: seq<Token>, pos: nat)
    requires WellFormed(toks) && pos < |toks|
    requires var t := toks[pos].typ;
      t != EOF && t != Bang && t != TokenType.Minus && t != LeftParen && LiteralOf(t).None?
    ensures pos + 1 < |toks|
    ensures ParseUnary(toks, pos) == Failed(pos + 1, [ParseError(toks[pos + 1], ExpectedLiteral)])
  {
  }

  /** A literal token is a literal tree. */
  lemma {:induction false} LiteralStep(toks: seq<Token>, pos: nat, v: Literal, line: int)
    requires WellFormed(toks) && pos < |toks| && toks[pos].typ == LiteralToken(v, line).typ
    ensures ParseUnary(toks, pos) == Parsed(LiteralExpr(v), pos + 1)
  {
    match v
    case Number(n) => assert toks[pos].typ == TokenType.Number(n);
    case String(s) => assert toks[pos].typ == TokenType.String(s);
    case Boolean(b) => assert toks[pos].typ == if b then True else False;
    case Nil => assert toks[pos].typ == TokenType.Nil;
  }

  /** A loop that has read x stops at once before a token of a looser level. */
  lemma {:induction false} ContinueStops(toks: seq<Token>, pos: nat, level: nat, x: Expr)
    requires WellFormed(toks) && pos < |toks| && level <= 4
    requires TypeLevel(toks[pos].typ) < level
    ensures Continue(toks, pos, level, x) == Parsed(x, pos)
  {
    if level < 4 {
      MatchesLevel(toks[pos], level);
    }
  }

  /** The unary level has nothing to continue with. */
  lemma {:induction false} UnaryReads(toks: seq<Token>, pos: nat, end: nat, x: Expr)
    requires WellFormed(toks) && pos < |toks| && end < |toks|
    requires ParseUnary(toks, pos) == Parsed(x, end)
    ensures ReadsTo(toks, pos, 4, end, x)
  {
  }

  /** One level looser: a binary level reads its first operand with the
      next tighter level. */
  lemma {:induction false} Lift(toks: seq<Token>, pos: nat, end: nat, level: nat, x: Expr)
    requires WellFormed(toks) && pos < |toks| && end < |toks| && level < 4
    requires ReadsTo(toks, pos, level + 1, end, x)
    requires TypeLevel(toks[end].typ) <= level
    ensures ReadsTo(toks, pos, level, end, x)
  {
    ContinueStops(toks, end, level + 1, x);
    assert ParseOperand(toks, pos, level) == ParseLevel(toks, pos, level + 1);
  }

  lemma {:induction false} LiftTo(toks: seq<Token>, pos: nat, end: nat, level: nat, from: nat, x: Expr)
    requires WellFormed(toks) && pos < |toks| && end < |toks| && level <= from <= 4
    requires ReadsTo(toks, pos, from, end, x)
    requires TypeLevel(toks[end].typ) <= level
    ensures ReadsTo(toks, pos, level, end, x)
    decreases from - level
  {
    if level < from {
      Lift(toks, pos, end, from - 1, x);
      LiftTo(toks, pos, end, level, from - 1, x);
    }
  }

  /** The round trip, in its general form: reading e as printed for a
      place of binding level `level`, followed by a token that does not
      belong to a tighter level, leaves the level's parse with the stripped
      tree, right after the printed tokens. */
  lemma {:induction false} ReadPrinted(toks: seq<Token>, pos: nat, end: nat, e: Expr, level: nat, line: int)
    requires WellFormed(toks) && level <= 4
    requires HoldsAt(toks, pos, PrintAt(e, level, line))
    requires end == pos + |PrintAt(e, level, line)| && TypeLevel(toks[end].typ) <= level
    ensures ReadsTo(toks, pos, level, end, Strip(e))
    decreases e, if Prec(e) < level then 7 else 3
  {
    if Prec(e) < level || Prec(e) == 5 {
      ReadAtomAt(toks, pos, end, e, level, line);
    } else if e.UnaryExpr? {
      ReadUnaryAt(toks, pos, end, e, level, line);
    } else {
      ReadBinaryAt(toks, pos, end, e, level, line);
    }
  }

  /** ReadPrinted for a tree printed as an atom: a literal, a group, or a
      tree wrapped for its place. */
  lemma {:induction false} ReadAtomAt(toks: seq<Token>, pos: nat, end: nat, e: Expr, level: nat, line: int)
    requires WellFormed(toks) && level <= 4 && (Prec(e) < level || Prec(e) == 5)
    requires HoldsAt(toks, pos, PrintAt(e, level, line))
    requires end == pos + |PrintAt(e, level, line)| && TypeLevel(toks[end].typ) <= level
    ensures ReadsTo(toks, pos, level, end, Strip(e))
    decreases e, if Prec(e) < level then 6 else 2
  {
    assert PrintAt(e, level, line) == PrintAt(e, 5, line);
    ReadAtom(toks, pos, e, line);
    UnaryReads(toks, pos, end, Strip(e));
    LiftTo(toks, pos, end, level, 4, Strip(e));
  }

  /** ReadPrinted for a prefix node that needs no parentheses. */
  lemma {:induction false} ReadUnaryAt(toks: seq<Token>, pos: nat, end: nat, e: Expr, level: nat, line: int)
    requires WellFormed(toks) && level <= 4 && e.UnaryExpr?
    requires HoldsAt(toks, pos, PrintAt(e, level, line))
    requires end == pos + |PrintAt(e, level, line)| && TypeLevel(toks[end].typ) <= level
    ensures ReadsTo(toks, pos, level, end, Strip(e))
    decreases e, 2
  {
    assert PrintAt(e, level, line) == PrintAt(e, 4, line);
    ReadUnary(toks, pos, end, e, line);
    UnaryReads(toks, pos, end, Strip(e));
    LiftTo(toks, pos, end, level, 4, Strip(e));
  }

  /** ReadPrinted for a binary node that needs no parentheses. */
  lemma {:induction false} ReadBinaryAt(toks: seq<Token>, pos: nat, end: nat, e: Expr, level: nat, line: int)
    requires WellFormed(toks) && e.BinaryExpr? && level <= OpLevel(e.bop)
    requires HoldsAt(toks, pos, PrintAt(e, level, line))
    requires end == pos + |PrintAt(e, level, line)| && TypeLevel(toks[end].typ) <= level
    ensures ReadsTo(toks, pos, level, end, Strip(e))
    decreases e, 2
  {
    assert PrintAt(e, level, line) == PrintAt(e, OpLevel(e.bop), line);
    BinaryLayout(toks, pos, e, line);
    var k := OpLevel(e.bop);
    var opPos := pos + |PrintAt(e.left, k, line)|;
    ReadBinary(toks, pos, opPos, end, e.left, e.bop, e.bline, e.right, line);
    LiftTo(toks, pos, end, level, k, Strip(e));
  }

  /** A prefix operator and its printed operand. */
  lemma {:induction false} ReadUnary(toks: seq<Token>, pos: nat, end: nat, e: Expr, line: int)
    requires WellFormed(toks) && e.UnaryExpr?
    requires HoldsAt(toks, pos, PrintAt(e, 4, line)) && end == pos + |PrintAt(e, 4, line)|
    ensures ParseUnary(toks, pos) == Parsed(Strip(e), end)
    decreases e, 1
  {
    UnaryLayout(toks, pos, e, line);
    ReadPrinted(toks, pos + 1, end, e.operand, 4, line);
    UnaryStep(toks, pos, Strip(e.operand), end);
  }

  /** Where the operator and the operand of a printed prefix node stand. */
  lemma {:induction false} UnaryLayout(toks: seq<Token>, pos: nat, e: Expr, line: int)
    requires e.UnaryExpr? && HoldsAt(toks, pos, PrintAt(e, 4, line))
    ensures |PrintAt(e, 4, line)| == 1 + |PrintAt(e.operand, 4, line)|
    ensures toks[pos] == Token(UnaryToken(e.uop), "", e.uline)
    ensures HoldsAt(toks, pos + 1, PrintAt(e.operand, 4, line))
  {
    var opTok := Token(UnaryToken(e.uop), "", e.uline);
    var rest := PrintAt(e.operand, 4, line);
    assert PrintAt(e, 4, line) == [opTok] + rest;
    HoldsAtSplit(toks, pos, [opTok], rest);
    HoldsAtHead(toks, pos, [opTok]);
  }

  /** A binary node of level k, given by its parts: the left operand
      printed for level k, the operator, the right operand printed for
      level k + 1. */
  lemma {:induction false} ReadBinary(toks: seq<Token>, pos: nat, opPos: nat, end: nat,
                                      l: Expr, op: BinaryOp, opLine: int, r: Expr, line: int)
    requires WellFormed(toks)
    requires opPos == pos + |PrintAt(l, OpLevel(op), line)|
    requires end == opPos + 1 + |PrintAt(r, OpLevel(op) + 1, line)|
    requires HoldsAt(toks, pos, PrintAt(l, OpLevel(op), line))
    requires toks[opPos] == Token(OpToken(op), "", opLine)
    requires HoldsAt(toks, opPos + 1, PrintAt(r, OpLevel(op) + 1, line))
    requires TypeLevel(toks[end].typ) <= OpLevel(op)
    ensures ReadsTo(toks, pos, OpLevel(op), end, BinaryExpr(Strip(l), op, opLine, Strip(r)))
    decreases BinaryExpr(l, op, opLine, r), 1
  {
    OpTokenRoundTrip(op);
    // The left operand leaves level k's loop in front of the operator.
    ReadPrinted(toks, pos, opPos, l, OpLevel(op), line);
    // The right operand is read by the next tighter level.
    ReadPrinted(toks, opPos + 1, end, r, OpLevel(op) + 1, line);
    BinaryGlue(toks, pos, opPos, end, OpLevel(op), Strip(l), Strip(r), op, opLine);
  }

  /** A level's loop that has read l up to an operator of the level, whose
      right operand the next tighter level reads as r, goes on with the
      node l op r. */
  lemma {:induction false} BinaryGlue(toks: seq<Token>, pos: nat, opPos: nat, end: nat, k: nat,
                                      l: Expr, r: Expr, op: BinaryOp, line: int)
    requires WellFormed(toks) && pos < |toks| && opPos < end < |toks| && k < 4
    requires ReadsTo(toks, pos, k, opPos, l)
    requires toks[opPos].typ == OpToken(op) && toks[opPos].line == line && OpLevel(op) == k
    requires ReadsTo(toks, opPos + 1, k + 1, end, r)
    requires TypeLevel(toks[end].typ) <= k
    ensures ReadsTo(toks, pos, k, end, BinaryExpr(l, op, line, r))
  {
    ContinueStops(toks, end, k + 1, r);
    assert ParseOperand(toks, opPos + 1, k) == ParseLevel(toks, opPos + 1, k + 1);
    OpTokenRoundTrip(op);
    MatchesLevel(toks[opPos], k);
    LoopStep(toks, opPos, k, l, r, end);
  }

  /** Where the operands and the operator of a printed binary node stand. */
  lemma {:induction false} BinaryLayout(toks: seq<Token>, pos: nat, e: Expr, line: int)
    requires e.BinaryExpr? && HoldsAt(toks, pos, PrintAt(e, OpLevel(e.bop), line))
    ensures var k := OpLevel(e.bop);
      |PrintAt(e, k, line)| == |PrintAt(e.left, k, line)| + 1 + |PrintAt(e.right, k + 1, line)| &&
      HoldsAt(toks, pos, PrintAt(e.left, k, line)) &&
      toks[pos + |PrintAt(e.left, k, line)|] == Token(OpToken(e.bop), "", e.bline) &&
      TypeLevel(OpToken(e.bop)) == k &&
      HoldsAt(toks, pos + |PrintAt(e.left, k, line)| + 1, PrintAt(e.right, k + 1, line))
  {
    var k := OpLevel(e.bop);
    var opTok := Token(OpToken(e.bop), "", e.bline);
    var left := PrintAt(e.left, k, line);
    var right := PrintAt(e.right, k + 1, line);
    assert PrintAt(e, k, line) == left + [opTok] + right;
    HoldsAtSplit(toks, pos, left + [opTok], right);
    HoldsAtSplit(toks, pos, left, [opTok]);
    HoldsAtHead(toks, pos + |left|, [opTok]);
    OpTokenRoundTrip(e.bop);
  }

  /** A literal, a grouping node, or any tree in parentheses, read by
      `parse_unary`. */
  lemma {:induction false} ReadAtom(toks: seq<Token>, pos: nat, e: Expr, line: int)
    requires WellFormed(toks)
    requires HoldsAt(toks, pos, PrintAt(e, 5, line))
    ensures ParseUnary(toks, pos) == Parsed(Strip(e), pos + |PrintAt(e, 5, line)|)
    decreases e, if Prec(e) == 5 then 1 else 5
  {
    if e.LiteralExpr? {
      HoldsAtHead(toks, pos, PrintAt(e, 5, line));
      LiteralStep(toks, pos, e.value, line);
    } else {
      // An explicit grouping node and a tree wrapped for its place print alike.
      var inner := if e.GroupingExpr? then e.inner else e;
      assert PrintAt(e, 5, line) == Parenthesised(inner, line);
      ReadParenthesised(toks, pos, inner, line);
    }
  }

  function Parenthesised(e: Expr, line: int): seq<Token>
  {
    [Token(LeftParen, "(", line)] + PrintAt(e, 0, line) + [Token(RightParen, ")", line)]
  }

  /** A tree printed for the loosest level, between parentheses. */
  lemma {:induction false} ReadParenthesised(toks: seq<Token>, pos: nat, e: Expr, line: int)
    requires WellFormed(toks)
    requires HoldsAt(toks, pos, Parenthesised(e, line))
    ensures ParseUnary(toks, pos) == Parsed(Strip(e), pos + |Parenthesised(e, line)|)
    decreases e, 4
  {
    var close := pos + 1 + |PrintAt(e, 0, line)|;
    ParenLayout(toks, pos, e, line);
    ReadPrinted(toks, pos + 1, close, e, 0, line);
    ContinueStops(toks, close, 0, Strip(e));
    ParenStep(toks, pos, Strip(e), close);
  }

  /** Where the parts of a parenthesised tree stand. */
  lemma {:induction false} ParenLayout(toks: seq<Token>, pos: nat, e: Expr, line: int)
    requires HoldsAt(toks, pos, Parenthesised(e, line))
    ensures |Parenthesised(e, line)| == |PrintAt(e, 0, line)| + 2
    ensures toks[pos].typ == LeftParen
    ensures HoldsAt(toks, pos + 1, PrintAt(e, 0, line))
    ensures toks[pos + 1 + |PrintAt(e, 0, line)|].typ == RightParen
  {
    var body := PrintAt(e, 0, line);
    var open := Token(LeftParen, "(", line);
    var close := Token(RightParen, ")", line);
    HoldsAtSplit(toks, pos, [open] + body, [close]);
    HoldsAtSplit(toks, pos, [open], body);
    HoldsAtHead(toks, pos, [open]);
    HoldsAtHead(toks, pos + 1 + |body|, [close]);
  }

  /** The round trip: any tree, printed with the parentheses its shape needs
      and followed by the end marker, parses back to itself without its
      grouping nodes, and the parse stops at the end marker. */
  lemma {:induction false} PrintParse(e: Expr, line: int)
    ensures var toks := PrintAt(e, 0, line) + [Token(EOF, "", line)];
      WellFormed(toks) && Parse(toks) == Parsed(Strip(e), |toks| - 1)
  {
    var p := PrintAt(e, 0, line);
    var toks := p + [Token(EOF, "", line)];
    assert toks[0..|p|] == p;
    LaysSlice(toks, 0, |p|);
    assert toks[|p|].typ == EOF;
    ReadPrinted(toks, 0, |p|, e, 0, line);
    ContinueStops(toks, |p|, 0, Strip(e));
  }

  /** No end marker among the tokens from a up to b. */
  predicate NoEofIn(toks: seq<Token>, a: nat, b: nat)
  {
    forall i :: a <= i < b && i < |toks| ==> toks[i].typ != EOF
  }

  /** What every sub-parse from pos promises: a failure carries at least
      one error (each `None` is preceded by an `error` call somewhere
      below), a tree is built without grouping nodes, and the cursor never
      steps over an end marker. */
  predicate OutcomeOk(toks: seq<Token>, pos: nat, o: ParseOutcome)
  {
    (o.Failed? ==> |o.errors| > 0) && (o.Parsed? ==> NoGrouping(o.expr)) && NoEofIn(toks, pos, o.next)
  }

  lemma {:induction false} PrimaryOk(toks: seq<Token>, pos: nat)
    requires WellFormed(toks) && pos < |toks|
    ensures OutcomeOk(toks, pos, ParsePrimary(toks, pos))
    decreases |toks| - pos, 0
  {
    if toks[pos].typ == LeftParen {
      AtOk(toks, pos + 1, 0);
    }
  }

  lemma {:induction false} UnaryOk(toks: seq<Token>, pos: nat)
    requires WellFormed(toks) && pos < |toks|
    ensures OutcomeOk(toks, pos, ParseUnary(toks, pos))
    decreases |toks| - pos, 1
  {
    if Matches(toks[pos], [Bang, TokenType.Minus]) {
      UnaryOk(toks, pos + 1);
    } else {
      PrimaryOk(toks, pos);
    }
  }

  lemma {:induction false} OperandOk(toks: seq<Token>, pos: nat, level: nat)
    requires WellFormed(toks) && pos < |toks| && level < 4
    ensures OutcomeOk(toks, pos, ParseOperand(toks, pos, level))
    decreases |toks| - pos, 2 * (4 - level)
  {
    if level == 3 {
      UnaryOk(toks, pos);
    } else {
      AtOk(toks, pos, level + 1);
    }
  }

  lemma {:induction false} AtOk(toks: seq<Token>, pos: nat, level: nat)
    requires WellFormed(toks) && pos < |toks| && level < 4
    ensures OutcomeOk(toks, pos, ParseAt(toks, pos, level))
    decreases |toks| - pos, 2 * (4 - level) + 1
  {
    OperandOk(toks, pos, level);
    var o := ParseOperand(toks, pos, level);
    if o.Parsed? {
      LoopOk(toks, o.next, level, o.expr);
    }
  }

  lemma {:induction false} LoopOk(toks: seq<Token>, pos: nat, level: nat, left: Expr)
    requires WellFormed(toks) && pos < |toks| && level < 4 && NoGrouping(left)
    ensures OutcomeOk(toks, pos, BinaryLoop(toks, pos, level, left))
    decreases |toks| - pos, 2 * (4 - level)
  {
    if Matches(toks[pos], LevelOps(level)) {
      OperandOk(toks, pos + 1, level);
      var o := ParseOperand(toks, pos + 1, level);
      if o.Parsed? {
        LoopOk(toks, o.next, level, BinaryExpr(left, BinaryOpFor(toks[pos].typ), toks[pos].line, o.expr));
      }
    }
  }

  /** A failure propagates upward unchanged: every looser level returns
      the failed outcome of the tighter level it started with. */
  lemma {:induction false} FailLifts(toks: seq<Token>, pos: nat, level: nat, from: nat)
    requires WellFormed(toks) && pos < |toks| && level <= from <= 4
    requires ParseLevel(toks, pos, from).Failed?
    ensures ParseLevel(toks, pos, level) == ParseLevel(toks, pos, from)
    decreases from - level
  {
    if level < from {
      FailLifts(toks, pos, level + 1, from);
      assert ParseOperand(toks, pos, level) == ParseLevel(toks, pos, level + 1);
    }
  }

  /** A prefix expression followed by no binary operator is the whole
      expression. */
  lemma {:induction false} ParsedAlone(toks: seq<Token>, pos: nat, end: nat, x: Expr)
    requires WellFormed(toks) && pos < |toks| && end < |toks|
    requires ParseUnary(toks, pos) == Parsed(x, end) && TypeLevel(toks[end].typ) < 0
    ensures ParseAt(toks, pos, 0) == Parsed(x, end)
  {
    UnaryReads(toks, pos, end, x);
    LiftTo(toks, pos, end, 0, 4, x);
    ContinueStops(toks, end, 0, x);
  }

  /** Where `synchronize` may stop: at the end marker, right after a `;`,
      or before a statement keyword. */
  predicate AtBoundary(toks: seq<Token>, p: nat)
    requires 0 < p < |toks|
  {
    toks[p].typ == EOF || toks[p - 1].typ == SemiColon || toks[p].typ in StatementStarts
  }

  lemma {:induction false} SyncFromFirst(toks: seq<Token>, pos: nat)
    requires WellFormed(toks) && 0 < pos < |toks|
    ensures AtBoundary(toks, SyncFrom(toks, pos))
    ensures forall q :: pos <= q < SyncFrom(toks, pos) ==> !AtBoundary(toks, q)
    decreases |toks| - pos
  {
    if !AtBoundary(toks, pos) {
      SyncFromFirst(toks, pos + 1);
    }
  }

  /** `synchronize` panics exactly when it starts on an end marker that is
      the first token. Otherwise it moves on at least one token unless it
      starts at the end marker, and stops at the first boundary after its
      first step. */
  lemma {:induction false} SynchronizedFirstBoundary(toks: seq<Token>, pos: nat)
    requires WellFormed(toks) && pos < |toks|
    ensures Synchronized(toks, pos).None? <==> pos == 0 && toks[pos].typ == EOF
    ensures Synchronized(toks, pos).Some? ==>
      var p := Synchronized(toks, pos).value;
      (toks[pos].typ != EOF ==> pos < p) &&
      AtBoundary(toks, p) &&
      forall q :: Advanced(toks, pos) <= q < p ==> !AtBoundary(toks, q)
  {
    if Synchronized(toks, pos).Some? {
      SyncFromFirst(toks, Advanced(toks, pos));
    }
  }
}
