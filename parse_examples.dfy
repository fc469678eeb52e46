/** Concrete parses taken from the tests and the edge cases of
    rlox/src/parser.rs. */
module ParseExamples {
  import opened Tokens
  import opened Grammar
  import opened Syntax
  import opened ParseProperties

  const One := F32(0x3F80_0000)
  const Two := F32(0x4000_0000)

  function Eof(): Token
  {
    Token(EOF, "", 1)
  }

  function Num(f: Float, lexeme: string): Token
  {
    Token(TokenType.Number(f), lexeme, 1)
  }

  /** The `parse_empty` test: the end marker alone is no expression; the
      error blames the end marker and the cursor stays on it. */
  lemma ParseEmpty()
    ensures Parse([Eof()]) == Failed(0, [ParseError(Eof(), ExpectedLiteral)])
  {
    var toks := [Eof()];
    OperandAtEof(toks, 0);
    FailLifts(toks, 0, 0, 4);
  }

  /** A literal token followed by a token of no tighter level is read by
      that level as the literal alone. */
  lemma LiteralAt(toks: seq<Token>, pos: nat, a: Literal, level: nat)
    requires WellFormed(toks) && pos + 1 < |toks| && level <= 4
    requires toks[pos].typ == LiteralToken(a, 1).typ && TypeLevel(toks[pos + 1].typ) <= level
    ensures ReadsTo(toks, pos, level, pos + 1, LiteralExpr(a))
  {
    LiteralStep(toks, pos, a, 1);
    UnaryReads(toks, pos, pos + 1, LiteralExpr(a));
    LiftTo(toks, pos, pos + 1, level, 4, LiteralExpr(a));
  }

  /** A literal, an operator of level k and another literal, followed by
      a token of a looser level, read at level k as one binary node. */
  lemma LiteralPair(toks: seq<Token>, pos: nat, a: Literal, op: BinaryOp, b: Literal)
    requires WellFormed(toks) && pos + 3 < |toks|
    requires toks[pos].typ == LiteralToken(a, 1).typ && toks[pos + 2].typ == LiteralToken(b, 1).typ
    requires toks[pos + 1].typ == OpToken(op) && toks[pos + 1].line == 1
    requires TypeLevel(toks[pos + 3].typ) < OpLevel(op)
    ensures ReadsTo(toks, pos, OpLevel(op), pos + 3, BinaryExpr(LiteralExpr(a), op, 1, LiteralExpr(b)))
  {
    OpTokenRoundTrip(op);
    LiteralAt(toks, pos, a, OpLevel(op));
    LiteralAt(toks, pos + 2, b, OpLevel(op) + 1);
    BinaryGlue(toks, pos, pos + 1, pos + 3, OpLevel(op), LiteralExpr(a), LiteralExpr(b), op, 1);
  }

  /** `( a op b` and then the end marker: the group reads the binary node
      and fails on the missing `)`. */
  lemma PairUnclosed(toks: seq<Token>, a: Literal, op: BinaryOp, b: Literal)
    requires WellFormed(toks) && 4 < |toks| && toks[0].typ == LeftParen
    requires toks[1].typ == LiteralToken(a, 1).typ && toks[3].typ == LiteralToken(b, 1).typ
    requires toks[2].typ == OpToken(op) && toks[2].line == 1 && toks[4].typ == EOF
    ensures Parse(toks) == Failed(4, [ParseError(toks[4], ExpectedRightParen)])
  {
    var pair := BinaryExpr(LiteralExpr(a), op, 1, LiteralExpr(b));
    LiteralPair(toks, 1, a, op, b);
    LiftTo(toks, 1, 4, 0, OpLevel(op), pair);
    ContinueStops(toks, 4, 0, pair);
    ParenUnclosed(toks, 0, pair, 4);
    FailLifts(toks, 0, 0, 4);
  }

  /** The `parse_missing_rparen` test: `( 1 + 2` with no `)` fails with
      "Expected ')'." at the end marker, after the inner sum was read. */
  lemma ParseMissingRightParen()
    ensures var toks := [Token(LeftParen, "(", 1), Num(One, "1"), Token(TokenType.Plus, "+", 1), Num(Two, "2"), Eof()];
      Parse(toks) == Failed(4, [ParseError(Eof(), ExpectedRightParen)])
  {
    var toks := [Token(LeftParen, "(", 1), Num(One, "1"), Token(TokenType.Plus, "+", 1), Num(Two, "2"), Eof()];
    PairUnclosed(toks, Literal.Number(One), BinaryOp.Plus, Literal.Number(Two));
  }

  /** `(` alone: the missing operand is reported, then the group reports
      that it found no expression, both at the end marker. */
  lemma ParseLoneParen()
    ensures Parse([Token(LeftParen, "(", 1), Eof()]) ==
      Failed(1, [ParseError(Eof(), ExpectedLiteral), ParseError(Eof(), ExpectedExpression)])
  {
    var toks := [Token(LeftParen, "(", 1), Eof()];
    OperandAtEof(toks, 1);
    FailLifts(toks, 1, 0, 4);
    ParenEmpty(toks, 0, 1, [ParseError(Eof(), ExpectedLiteral)]);
    FailLifts(toks, 0, 0, 4);
  }

  /** A token that starts no expression is blamed on the token after it:
      for `+ 1` the error names `1`. */
  lemma ParseLeadingPlus()
    ensures var toks := [Token(TokenType.Plus, "+", 1), Num(One, "1"), Eof()];
      Parse(toks) == Failed(1, [ParseError(Num(One, "1"), ExpectedLiteral)])
  {
    var toks := [Token(TokenType.Plus, "+", 1), Num(One, "1"), Eof()];
    OperandRejected(toks, 0);
    FailLifts(toks, 0, 0, 4);
  }

  /** `parse` reads one expression and leaves what follows it alone: for
      `1 2` it returns `1` with the cursor on `2`, and no error. */
  lemma ParseTrailingToken()
    ensures Parse([Num(One, "1"), Num(Two, "2"), Eof()]) == Parsed(LiteralExpr(Literal.Number(One)), 1)
  {
    var toks := [Num(One, "1"), Num(Two, "2"), Eof()];
    LiteralStep(toks, 0, Literal.Number(One), 1);
    ParsedAlone(toks, 0, 1, LiteralExpr(Literal.Number(One)));
  }

  /** The tokens of `a - b - c`, printed from the left-nested tree. */
  lemma DifferenceTokens(a: Literal, b: Literal, c: Literal)
    ensures PrintAt(BinaryExpr(BinaryExpr(LiteralExpr(a), BinaryOp.Minus, 1, LiteralExpr(b)), BinaryOp.Minus, 1, LiteralExpr(c)), 0, 1) ==
      [LiteralToken(a, 1), Token(TokenType.Minus, "", 1), LiteralToken(b, 1), Token(TokenType.Minus, "", 1), LiteralToken(c, 1)]
  {
    var x, y, z := LiteralExpr(a), LiteralExpr(b), LiteralExpr(c);
    assert PrintAt(x, 2, 1) == [LiteralToken(a, 1)] && PrintAt(y, 3, 1) == [LiteralToken(b, 1)];
    assert PrintAt(z, 3, 1) == [LiteralToken(c, 1)];
    assert PrintAt(BinaryExpr(x, BinaryOp.Minus, 1, y), 2, 1) ==
      [LiteralToken(a, 1), Token(TokenType.Minus, "", 1), LiteralToken(b, 1)];
  }

  /** The tokens of `a + b * c`, printed from the tree whose right operand
      is the product. */
  lemma SumOfProductTokens(a: Literal, b: Literal, c: Literal)
    ensures PrintAt(BinaryExpr(LiteralExpr(a), BinaryOp.Plus, 1, BinaryExpr(LiteralExpr(b), Multiply, 1, LiteralExpr(c))), 0, 1) ==
      [LiteralToken(a, 1), Token(TokenType.Plus, "", 1), LiteralToken(b, 1), Token(Star, "", 1), LiteralToken(c, 1)]
  {
    var x, y, z := LiteralExpr(a), LiteralExpr(b), LiteralExpr(c);
    assert PrintAt(x, 2, 1) == [LiteralToken(a, 1)] && PrintAt(y, 3, 1) == [LiteralToken(b, 1)];
    assert PrintAt(z, 4, 1) == [LiteralToken(c, 1)];
    assert PrintAt(BinaryExpr(y, Multiply, 1, z), 3, 1) == [LiteralToken(b, 1), Token(Star, "", 1), LiteralToken(c, 1)];
  }

  /** `a - b - c` folds to the left. */
  lemma ParseLeftAssociative(a: Literal, b: Literal, c: Literal)
    ensures var toks := [LiteralToken(a, 1), Token(TokenType.Minus, "", 1), LiteralToken(b, 1),
                         Token(TokenType.Minus, "", 1), LiteralToken(c, 1), Eof()];
      Parse(toks) == Parsed(BinaryExpr(BinaryExpr(LiteralExpr(a), BinaryOp.Minus, 1, LiteralExpr(b)),
                                       BinaryOp.Minus, 1, LiteralExpr(c)), 5)
  {
    var e := BinaryExpr(BinaryExpr(LiteralExpr(a), BinaryOp.Minus, 1, LiteralExpr(b)), BinaryOp.Minus, 1, LiteralExpr(c));
    DifferenceTokens(a, b, c);
    PrintParse(e, 1);
    assert Strip(e.left) == e.left;
    assert PrintAt(e, 0, 1) + [Eof()] == [LiteralToken(a, 1), Token(TokenType.Minus, "", 1), LiteralToken(b, 1),
                                          Token(TokenType.Minus, "", 1), LiteralToken(c, 1), Eof()];
  }

  /** `a + b * c` takes the product as the right operand. */
  lemma ParseProductFirst(a: Literal, b: Literal, c: Literal)
    ensures var toks := [LiteralToken(a, 1), Token(TokenType.Plus, "", 1), LiteralToken(b, 1),
                         Token(Star, "", 1), LiteralToken(c, 1), Eof()];
      Parse(toks) == Parsed(BinaryExpr(LiteralExpr(a), BinaryOp.Plus, 1,
                                       BinaryExpr(LiteralExpr(b), Multiply, 1, LiteralExpr(c))), 5)
  {
    var e := BinaryExpr(LiteralExpr(a), BinaryOp.Plus, 1, BinaryExpr(LiteralExpr(b), Multiply, 1, LiteralExpr(c)));
    SumOfProductTokens(a, b, c);
    PrintParse(e, 1);
    assert Strip(e.right) == e.right;
    assert PrintAt(e, 0, 1) + [Eof()] == [LiteralToken(a, 1), Token(TokenType.Plus, "", 1), LiteralToken(b, 1),
                                          Token(Star, "", 1), LiteralToken(c, 1), Eof()];
  }
}
