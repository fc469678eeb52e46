/** The expression tree of rlox (rlox/src/grammar.rs), with each operator
    carrying the line of the token it was parsed from. */
module Grammar {
  import opened Tokens

  /** Literal payloads and, at the same time, the runtime values. */
  datatype Literal =
    | Number(n: Float)
    | String(s: string)
    | Boolean(b: bool)
    | Nil

  datatype UnaryOp = Negate | Not

  datatype BinaryOp =
    | Equal | NotEqual
    | LessThan | LessThanOrEqual | GreaterThan | GreaterThanOrEqual
    | Plus | Minus | Multiply | Divide

  datatype Expr =
    | LiteralExpr(value: Literal)
    | UnaryExpr(uop: UnaryOp, uline: int, operand: Expr)
    | BinaryExpr(left: Expr, bop: BinaryOp, bline: int, right: Expr)
    | GroupingExpr(inner: Expr)

  /** The tree with every grouping node replaced by its inner expression. */
  function Strip(e: Expr): Expr
  {
    match e
    case LiteralExpr(v) => e
    case UnaryExpr(op, line, x) => UnaryExpr(op, line, Strip(x))
    case BinaryExpr(l, op, line, r) => BinaryExpr(Strip(l), op, line, Strip(r))
    case GroupingExpr(x) => Strip(x)
  }

  predicate NoGrouping(e: Expr)
  {
    match e
    case LiteralExpr(_) => true
    case UnaryExpr(_, _, x) => NoGrouping(x)
    case BinaryExpr(l, _, _, r) => NoGrouping(l) && NoGrouping(r)
    case GroupingExpr(_) => false
  }

  /** Stripping leaves no grouping node. */
  lemma {:induction false} StripRemovesGrouping(e: Expr)
    ensures NoGrouping(Strip(e))
  {
    match e
    case LiteralExpr(_) =>
    case UnaryExpr(_, _, x) => StripRemovesGrouping(x);
    case BinaryExpr(l, _, _, r) => StripRemovesGrouping(l); StripRemovesGrouping(r);
    case GroupingExpr(x) => StripRemovesGrouping(x);
  }

  /** Stripping a tree that has no grouping node changes nothing. */
  lemma {:induction false} StripNoGrouping(e: Expr)
    requires NoGrouping(e)
    ensures Strip(e) == e
  {
    match e
    case LiteralExpr(_) =>
    case UnaryExpr(_, _, x) => StripNoGrouping(x);
    case BinaryExpr(l, _, _, r) => StripNoGrouping(l); StripNoGrouping(r);
  }
}
