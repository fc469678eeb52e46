/** The rlox parser (rlox/src/parser.rs) as a cursor machine over the token
    sequence. Every method is proved to do what the functions of module
    Syntax say: the same result, the same final cursor and the same errors
    handed to the reporter, in the same order. */
module Parsing {
  import opened Wrappers
  import opened Tokens
  import opened ErrorReporting
  import opened Grammar
  import opened Syntax

  /** A single error handed to the reporter. */
  lemma ReportedOne(s: ReporterState, e: ParseError)
    ensures ReportedAll(s, ReportsOf([e])) == Reported(s, ReportOf(e))
  {
    ReportedAllSingle(s, ReportOf(e));
  }

  class Parser {
    const tokens: seq<Token>
    /** The token to be consumed next. */
    var curr: nat
    const errorReporter: ErrorReporter

    ghost predicate Valid()
      reads this
    {
      WellFormed(tokens) && curr < |tokens|
    }

    /** The outcome o of a sub-parse started with the reporter in state
        `before` is what the method returned, where it left the cursor and
        what it reported. */
    ghost predicate Did(o: ParseOutcome, r: Option<Expr>, before: ReporterState)
      reads this, errorReporter
    {
      r == ResultOf(o) && curr == o.next && errorReporter.State() == ReportedAll(before, ReportsOf(ErrorsOf(o)))
    }

    /** `Parser::new`: the cursor at the first token. */
    constructor (tokens: seq<Token>, errorReporter: ErrorReporter)
      requires WellFormed(tokens)
      ensures Valid() && this.tokens == tokens && this.errorReporter == errorReporter && curr == 0
    {
      this.tokens := tokens;
      this.errorReporter := errorReporter;
      curr := 0;
    }

    /** `parse`: one expression from the cursor on. */
    method Parse() returns (r: Option<Expr>)
      requires Valid()
      modifies this`curr, errorReporter
      ensures Valid() && Did(ParseAt(tokens, old(curr), 0), r, old(errorReporter.State()))
      decreases |tokens| - curr, 29
    {
      r := ParseEquality();
    }

    method ParseEquality() returns (r: Option<Expr>)
      requires Valid()
      modifies this`curr, errorReporter
      ensures Valid() && Did(ParseAt(tokens, old(curr), 0), r, old(errorReporter.State()))
      decreases |tokens| - curr, 28
    {
      r := ParseBinaryExpr(0);
    }

    method ParseComparison() returns (r: Option<Expr>)
      requires Valid()
      modifies this`curr, errorReporter
      ensures Valid() && Did(ParseAt(tokens, old(curr), 1), r, old(errorReporter.State()))
      decreases |tokens| - curr, 22
    {
      r := ParseBinaryExpr(1);
    }

    method ParseTerm() returns (r: Option<Expr>)
      requires Valid()
      modifies this`curr, errorReporter
      ensures Valid() && Did(ParseAt(tokens, old(curr), 2), r, old(errorReporter.State()))
      decreases |tokens| - curr, 16
    {
      r := ParseBinaryExpr(2);
    }

    method ParseFactor() returns (r: Option<Expr>)
      requires Valid()
      modifies this`curr, errorReporter
      ensures Valid() && Did(ParseAt(tokens, old(curr), 3), r, old(errorReporter.State()))
      decreases |tokens| - curr, 10
    {
      r := ParseBinaryExpr(3);
    }

    /** The `parse_next` argument of `parse_binary_expr` for a level. */
    method ParseNext(level: nat) returns (r: Option<Expr>)
      requires Valid() && level < 4
      modifies this`curr, errorReporter
      ensures Valid() && Did(ParseOperand(tokens, old(curr), level), r, old(errorReporter.State()))
      decreases |tokens| - curr, 6 * (4 - level)
    {
      match level
      case 0 => r := ParseComparison();
      case 1 => r := ParseTerm();
      case 2 => r := ParseFactor();
      case 3 => r := ParseUnary();
    }

    /** `parse_binary_expr`: an operand, then as long as an operator of the
        level follows, another operand folded in on the right. */
    method ParseBinaryExpr(level: nat) returns (r: Option<Expr>)
      requires Valid() && level < 4
      modifies this`curr, errorReporter
      ensures Valid() && Did(ParseAt(tokens, old(curr), level), r, old(errorReporter.State()))
      decreases |tokens| - curr, 6 * (4 - level) + 3
    {
      ghost var o := ParseAt(tokens, curr, level);
      ghost var s0 := errorReporter.State();
      var first := ParseNext(level);
      if first.None? {
        return None;
      }
      var left := first.value;
      // The loop's position in the specification: the token matched last.
      ghost var p := curr;
      var matched := MatchType(LevelOps(level));
      while matched
        invariant Valid() && old(curr) <= p < |tokens| && curr == (if matched then p + 1 else p)
        invariant matched == Matches(tokens[p], LevelOps(level))
        invariant BinaryLoop(tokens, p, level, left) == o
        invariant errorReporter.State() == s0
        decreases |tokens| - p
      {
        var t := Previous();
        LevelOpsCovered(level, t.typ);
        var op := BinaryOpFor(t.typ);
        var right := ParseNext(level);
        if right.None? {
          return None;
        }
        left := BinaryExpr(left, op, t.line, right.value);
        p := curr;
        matched := MatchType(LevelOps(level));
      }
      r := Some(left);
    }

    /** `parse_unary`: a prefix `!` or `-` wraps the prefix expression after it. */
    method ParseUnary() returns (r: Option<Expr>)
      requires Valid()
      modifies this`curr, errorReporter
      ensures Valid() && Did(Syntax.ParseUnary(tokens, old(curr)), r, old(errorReporter.State()))
      decreases |tokens| - curr, 1
    {
      var matched := MatchType([Bang, TokenType.Minus]);
      if matched {
        var t := Previous();
        var op := if t.typ == Bang then Not else Negate;
        var operand := ParseUnary();
        if operand.None? {
          return None;
        }
        return Some(UnaryExpr(op, t.line, operand.value));
      }
      r := ParsePrimary();
    }

    /** `parse_primary`: a literal, or an expression between parentheses. */
    method ParsePrimary() returns (r: Option<Expr>)
      requires Valid()
      modifies this`curr, errorReporter
      ensures Valid() && Did(Syntax.ParsePrimary(tokens, old(curr)), r, old(errorReporter.State()))
      decreases |tokens| - curr, 0
    {
      var here := Peek();
      if here.typ == EOF {
        Error(here, ExpectedLiteral);
        ReportedOne(old(errorReporter.State()), ParseError(here, ExpectedLiteral));
        return None;
      }
      var token := Advance();
      var typ := token.typ;
      if typ.Number? {
        r := Some(LiteralExpr(Literal.Number(typ.value)));
      } else if typ.String? {
        r := Some(LiteralExpr(Literal.String(typ.text)));
      } else if typ == True {
        r := Some(LiteralExpr(Boolean(true)));
      } else if typ == False {
        r := Some(LiteralExpr(Boolean(false)));
      } else if typ == TokenType.Nil {
        r := Some(LiteralExpr(Literal.Nil));
      } else if typ == LeftParen {
        r := ParseGroup();
      } else {
        var next := Peek();
        Error(next, ExpectedLiteral);
        ReportedOne(old(errorReporter.State()), ParseError(next, ExpectedLiteral));
        r := None;
      }
    }

    /** The `LeftParen` arm of `parse_primary`, after the `(`. */
    method ParseGroup() returns (r: Option<Expr>)
      requires Valid()
      modifies this`curr, errorReporter
      ensures Valid() && Did(Syntax.ParseGroup(tokens, old(curr)), r, old(errorReporter.State()))
      decreases |tokens| - curr, 30
    {
      ghost var s0 := errorReporter.State();
      var inner := Parse();
      if inner.None? {
        ghost var o := ParseAt(tokens, old(curr), 0);
        var next := Peek();
        Error(next, ExpectedExpression);
        ReportsOfAppend(o.errors, [ParseError(next, ExpectedExpression)]);
        ReportedAllAppend(s0, ReportsOf(o.errors), ReportsOf([ParseError(next, ExpectedExpression)]));
        return None;
      }
      var next := Peek();
      if next.typ != RightParen {
        Error(next, ExpectedRightParen);
        return None;
      }
      // Consume the `)`.
      var close := Advance();
      r := inner;
    }

    function Peek(): Token
      reads this
      requires Valid()
    {
      tokens[curr]
    }

    /** `match_type`: the first of the types that `check` accepts is
        consumed; none, and nothing moves. */
    method MatchType(types: seq<TokenType>) returns (b: bool)
      requires Valid()
      modifies this`curr
      ensures Valid()
      ensures b == Matches(old(Peek()), types)
      ensures curr == if b then old(curr) + 1 else old(curr)
    {
      for i := 0 to |types|
        invariant curr == old(curr)
        invariant forall j :: 0 <= j < i ==> !Check(types[j])
      {
        if Check(types[i]) {
          var consumed := Advance();
          return true;
        }
      }
      return false;
    }

    /** `advance`: one token on, except at the end marker; the token just
        passed (the end marker itself at the end). */
    method Advance() returns (t: Token)
      requires Valid() && (curr > 0 || !IsAtEnd())
      modifies this`curr
      ensures Valid() && curr == Advanced(tokens, old(curr)) && curr > 0 && t == tokens[curr - 1]
    {
      if !IsAtEnd() {
        curr := curr + 1;
      }
      t := Previous();
    }

    /** `check`: never true at the end marker. */
    predicate Check(typ: TokenType)
      reads this
      requires Valid()
    {
      if IsAtEnd() then false else Peek().typ == typ
    }

    function Previous(): Token
      reads this
      requires Valid() && curr > 0
    {
      tokens[curr - 1]
    }

    predicate IsAtEnd()
      reads this
      requires Valid()
    {
      Peek().typ == EOF
    }

    /** `error`: a data error located at the token. */
    method Error(token: Token, message: string)
      modifies errorReporter
      ensures errorReporter.State() == Reported(old(errorReporter.State()), ReportOf(ParseError(token, message)))
    {
      errorReporter.ParseError(token, message, DATAERR);
    }

    /** `synchronize`: skip at least one token, then up to a statement
        boundary, that is, just after a `;`, before a statement keyword, or
        at the end marker. */
    method Synchronize() returns (panicked: bool)
      requires Valid()
      modifies this`curr
      ensures Valid()
      ensures panicked <==> Synchronized(tokens, old(curr)).None?
      ensures panicked ==> curr == old(curr)
      ensures !panicked ==> curr == Synchronized(tokens, old(curr)).value
    {
      panicked := false;
      if curr == 0 && IsAtEnd() {
        // `advance` would stay put and `previous` read before the first token.
        return true;
      }
      ghost var target := Synchronized(tokens, curr).value;
      var skipped := Advance();
      while !IsAtEnd()
        invariant Valid() && curr > 0 && SyncFrom(tokens, curr) == target
        decreases |tokens| - curr
      {
        if Previous().typ == SemiColon {
          return;
        }
        if Peek().typ in StatementStarts {
          return;
        }
        skipped := Advance();
      }
    }
  }
}
