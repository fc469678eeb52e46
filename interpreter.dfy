/** The rlox evaluator (rlox/src/interpreter.rs): `visit_expr` and the four
    `visit_*_expr` methods as one structural recursion over the tree. The
    evaluator keeps no state; its result is a value or a runtime error. */
module Evaluation {
  import opened Wrappers
  import Tokens
  import opened ErrorReporting
  import opened Grammar

  /** The f32 operations the evaluator applies to numbers: negation, the
      four arithmetic operators and the comparisons. They are parameters,
      so that no float arithmetic enters the model. Rust's `!=` on f32 is
      the negation of its `==`, so it is not a separate operation. */
  datatype FloatOps = FloatOps(
    neg: Tokens.Float -> Tokens.Float,
    add: (Tokens.Float, Tokens.Float) -> Tokens.Float,
    sub: (Tokens.Float, Tokens.Float) -> Tokens.Float,
    mul: (Tokens.Float, Tokens.Float) -> Tokens.Float,
    div: (Tokens.Float, Tokens.Float) -> Tokens.Float,
    eq: (Tokens.Float, Tokens.Float) -> bool,
    lt: (Tokens.Float, Tokens.Float) -> bool,
    le: (Tokens.Float, Tokens.Float) -> bool,
    gt: (Tokens.Float, Tokens.Float) -> bool,
    ge: (Tokens.Float, Tokens.Float) -> bool)

  /** What a runtime error complains about: the operator and the operand
      values it cannot combine ("Cannot perform '<op>' on operand(s) ...";
      the Debug text of the values is not modelled). */
  datatype Complaint =
    | OnOperand(uop: UnaryOp, operand: Literal)
    | OnOperands(bop: BinaryOp, left: Literal, right: Literal)

  /** `RuntimeError`: the line of the operator token, the complaint and
      the exit code. */
  datatype RuntimeError = RuntimeError(line: int, complaint: Complaint, exitCode: ExitCode)

  function UnaryMismatch(op: UnaryOp, line: int, v: Literal): Result<Literal, RuntimeError>
  {
    Err(RuntimeError(line, OnOperand(op, v), DATAERR))
  }

  function BinaryMismatch(op: BinaryOp, line: int, a: Literal, b: Literal): Result<Literal, RuntimeError>
  {
    Err(RuntimeError(line, OnOperands(op, a, b), DATAERR))
  }

  /** The operator part of `visit_unary_expr`, once the operand is a value. */
  function EvalUnary(ops: FloatOps, op: UnaryOp, line: int, v: Literal): Result<Literal, RuntimeError>
  {
    match op
    case Not => if v.Boolean? then Ok(Boolean(!v.b)) else UnaryMismatch(op, line, v)
    case Negate => if v.Number? then Ok(Number(ops.neg(v.n))) else UnaryMismatch(op, line, v)
  }

  /** The dispatch table of `visit_binary_expr`, once both operands are values. */
  function EvalBinary(ops: FloatOps, op: BinaryOp, line: int, a: Literal, b: Literal): Result<Literal, RuntimeError>
  {
    var numbers := a.Number? && b.Number?;
    match op
    case Plus =>
      if numbers then Ok(Number(ops.add(a.n, b.n)))
      else if a.String? && b.String? then Ok(String(a.s + b.s))
      else BinaryMismatch(op, line, a, b)
    case Minus => if numbers then Ok(Number(ops.sub(a.n, b.n))) else BinaryMismatch(op, line, a, b)
    case Multiply => if numbers then Ok(Number(ops.mul(a.n, b.n))) else BinaryMismatch(op, line, a, b)
    case Divide => if numbers then Ok(Number(ops.div(a.n, b.n))) else BinaryMismatch(op, line, a, b)
    case Equal =>
      if a.Boolean? && b.Boolean? then Ok(Boolean(a.b == b.b))
      else if numbers then Ok(Boolean(ops.eq(a.n, b.n)))
      else if a.String? && b.String? then Ok(Boolean(a.s == b.s))
      else BinaryMismatch(op, line, a, b)
    case NotEqual =>
      if a.Boolean? && b.Boolean? then Ok(Boolean(a.b != b.b))
      else if numbers then Ok(Boolean(!ops.eq(a.n, b.n)))
      else if a.String? && b.String? then Ok(Boolean(a.s != b.s))
      else BinaryMismatch(op, line, a, b)
    case LessThan => if numbers then Ok(Boolean(ops.lt(a.n, b.n))) else BinaryMismatch(op, line, a, b)
    case LessThanOrEqual => if numbers then Ok(Boolean(ops.le(a.n, b.n))) else BinaryMismatch(op, line, a, b)
    case GreaterThan => if numbers then Ok(Boolean(ops.gt(a.n, b.n))) else BinaryMismatch(op, line, a, b)
    case GreaterThanOrEqual => if numbers then Ok(Boolean(ops.ge(a.n, b.n))) else BinaryMismatch(op, line, a, b)
  }

  /** `visit_expr`: operands are evaluated left before right, and the first
      error is returned as it is. */
  function Eval(ops: FloatOps, e: Expr): Result<Literal, RuntimeError>
  {
    match e
    case LiteralExpr(v) => Ok(v)
    case UnaryExpr(op, line, x) =>
      (match Eval(ops, x)
       case Err(err) => Err(err)
       case Ok(v) => EvalUnary(ops, op, line, v))
    case BinaryExpr(l, op, line, r) =>
      (match Eval(ops, l)
       case Err(err) => Err(err)
       case Ok(a) =>
         match Eval(ops, r)
         case Err(err) => Err(err)
         case Ok(b) => EvalBinary(ops, op, line, a, b))
    case GroupingExpr(x) => Eval(ops, x)
  }

  // ---------------------------------------------------------------------
  // The type table: which operand types each operator accepts.

  datatype Type = NumberType | StringType | BooleanType | NilType

  function TypeOf(v: Literal): Type
  {
    match v
    case Number(_) => NumberType
    case String(_) => StringType
    case Boolean(_) => BooleanType
    case Nil => NilType
  }

  /** `!` takes a boolean, `-` a number. */
  function UnaryType(op: UnaryOp, t: Type): Option<Type>
  {
    match (op, t)
    case (Not, BooleanType) => Some(BooleanType)
    case (Negate, NumberType) => Some(NumberType)
    case _ => None
  }

  /** Arithmetic takes two numbers (and `+` also two strings), ordering
      takes two numbers and yields a boolean, and equality takes two
      operands of one type other than nil. */
  function BinaryType(op: BinaryOp, s: Type, t: Type): Option<Type>
  {
    if op == Equal || op == NotEqual then
      (if s == t && s != NilType then Some(BooleanType) else None)
    else if s != NumberType || t != NumberType then
      (if op == Plus && s == StringType && t == StringType then Some(StringType) else None)
    else if op in {Plus, Minus, Multiply, Divide} then Some(NumberType)
    else Some(BooleanType)
  }

  /** The type of a tree as the table gives it, or None when some node's
      operands do not fit its operator. */
  function TypeCheck(e: Expr): Option<Type>
  {
    match e
    case LiteralExpr(v) => Some(TypeOf(v))
    case UnaryExpr(op, _, x) =>
      (match TypeCheck(x)
       case None => None
       case Some(t) => UnaryType(op, t))
    case BinaryExpr(l, op, _, r) =>
      (match (TypeCheck(l), TypeCheck(r))
       case (Some(s), Some(t)) => BinaryType(op, s, t)
       case _ => None)
    case GroupingExpr(x) => TypeCheck(x)
  }

  /** A prefix operator succeeds exactly when the table accepts its
      operand, with a value of the listed type; otherwise the error names
      the operator, its line and the operand. */
  lemma UnaryTyping(ops: FloatOps, op: UnaryOp, line: int, v: Literal)
    ensures var r := EvalUnary(ops, op, line, v);
      (r.Ok? <==> UnaryType(op, TypeOf(v)).Some?) &&
      (r.Ok? ==> TypeOf(r.value) == UnaryType(op, TypeOf(v)).value) &&
      (r.Err? ==> r.error == RuntimeError(line, OnOperand(op, v), DATAERR))
  {
  }

  /** A binary operator succeeds exactly when the table accepts its
      operands, with a value of the listed type; otherwise the error names
      the operator, its line and both operands. */
  lemma BinaryTyping(ops: FloatOps, op: BinaryOp, line: int, a: Literal, b: Literal)
    ensures var r := EvalBinary(ops, op, line, a, b);
      (r.Ok? <==> BinaryType(op, TypeOf(a), TypeOf(b)).Some?) &&
      (r.Ok? ==> TypeOf(r.value) == BinaryType(op, TypeOf(a), TypeOf(b)).value) &&
      (r.Err? ==> r.error == RuntimeError(line, OnOperands(op, a, b), DATAERR))
  {
  }

  /** Evaluation fails exactly on the trees the type table rejects, and a
      value has the type the table gives the tree. Since a tree holds only
      literals, its operand types are known before it runs. */
  lemma {:induction false} EvalTyped(ops: FloatOps, e: Expr)
    ensures Eval(ops, e).Ok? <==> TypeCheck(e).Some?
    ensures Eval(ops, e).Ok? ==> TypeOf(Eval(ops, e).value) == TypeCheck(e).value
  {
    match e
    case LiteralExpr(v) =>
    case UnaryExpr(op, line, x) =>
      EvalTyped(ops, x);
      if Eval(ops, x).Ok? {
        UnaryTyping(ops, op, line, Eval(ops, x).value);
      }
    case BinaryExpr(l, op, line, r) =>
      EvalTyped(ops, l);
      EvalTyped(ops, r);
      if Eval(ops, l).Ok? && Eval(ops, r).Ok? {
        BinaryTyping(ops, op, line, Eval(ops, l).value, Eval(ops, r).value);
      }
    case GroupingExpr(x) =>
      EvalTyped(ops, x);
  }

  /** The lines of the operator tokens in a tree. */
  function OperatorLines(e: Expr): set<int>
  {
    match e
    case LiteralExpr(_) => {}
    case UnaryExpr(_, line, x) => {line} + OperatorLines(x)
    case BinaryExpr(l, _, line, r) => OperatorLines(l) + {line} + OperatorLines(r)
    case GroupingExpr(x) => OperatorLines(x)
  }

  /** A runtime error is raised at the line of some operator of the tree,
      with the data-error exit code. */
  lemma {:induction false} EvalErrorLocated(ops: FloatOps, e: Expr)
    requires Eval(ops, e).Err?
    ensures Eval(ops, e).error.line in OperatorLines(e)
    ensures Eval(ops, e).error.exitCode == DATAERR
  {
    match e
    case UnaryExpr(op, line, x) =>
      if Eval(ops, x).Err? {
        EvalErrorLocated(ops, x);
      }
    case BinaryExpr(l, op, line, r) =>
      if Eval(ops, l).Err? {
        EvalErrorLocated(ops, l);
      } else if Eval(ops, r).Err? {
        EvalErrorLocated(ops, r);
      } else {
        BinaryTyping(ops, op, line, Eval(ops, l).value, Eval(ops, r).value);
      }
    case GroupingExpr(x) =>
      EvalErrorLocated(ops, x);
  }

  /** Grouping is transparent: removing every grouping node changes no
      result and no error. */
  lemma {:induction false} EvalStrip(ops: FloatOps, e: Expr)
    ensures Eval(ops, Strip(e)) == Eval(ops, e)
  {
    match e
    case LiteralExpr(_) =>
    case UnaryExpr(_, _, x) => EvalStrip(ops, x);
    case BinaryExpr(l, _, _, r) => EvalStrip(ops, l); EvalStrip(ops, r);
    case GroupingExpr(x) => EvalStrip(ops, x);
  }

  /** The left operand is evaluated first: when it fails, its error is the
      result whatever the right operand is, and when it succeeds, an error
      of the right operand is the result unchanged. */
  lemma EvalLeftFirst(ops: FloatOps, l: Expr, op: BinaryOp, line: int, r: Expr, r': Expr)
    ensures Eval(ops, l).Err? ==>
      Eval(ops, BinaryExpr(l, op, line, r)) == Eval(ops, BinaryExpr(l, op, line, r')) == Eval(ops, l)
    ensures Eval(ops, l).Ok? && Eval(ops, r).Err? ==> Eval(ops, BinaryExpr(l, op, line, r)) == Eval(ops, r)
  {
  }

  /** `!=` is defined on exactly the operand pairs `==` is, and is its negation there. */
  lemma NotEqualNegatesEqual(ops: FloatOps, line: int, a: Literal, b: Literal)
    ensures EvalBinary(ops, NotEqual, line, a, b).Ok? <==> EvalBinary(ops, Equal, line, a, b).Ok?
    ensures EvalBinary(ops, Equal, line, a, b).Ok? ==>
      exists x: bool :: EvalBinary(ops, Equal, line, a, b) == Ok(Boolean(x)) &&
                        EvalBinary(ops, NotEqual, line, a, b) == Ok(Boolean(!x))
  {
    if EvalBinary(ops, Equal, line, a, b).Ok? {
      var x := EvalBinary(ops, Equal, line, a, b).value.b;
      assert EvalBinary(ops, NotEqual, line, a, b) == Ok(Boolean(!x));
    }
  }

  /** `nil == nil` is an error, not `true`. */
  lemma NilEqualsNil(ops: FloatOps, line: int)
    ensures EvalBinary(ops, Equal, line, Nil, Nil) == BinaryMismatch(Equal, line, Nil, Nil)
    ensures TypeCheck(BinaryExpr(LiteralExpr(Nil), Equal, line, LiteralExpr(Nil))).None?
  {
  }

  /** `true + 1` fails at the `+`, naming both operands. */
  lemma TruePlusOne(ops: FloatOps, line: int)
    ensures var one := Number(Tokens.F32(0x3F80_0000));
      Eval(ops, BinaryExpr(LiteralExpr(Boolean(true)), Plus, line, LiteralExpr(one))) ==
      Err(RuntimeError(line, OnOperands(Plus, Boolean(true), one), DATAERR))
  {
  }

  /** Two `!` in a row give back a boolean operand, and fail on anything else
      at the inner `!`. */
  lemma DoubleNot(ops: FloatOps, outer: int, inner: int, x: Expr)
    requires Eval(ops, x).Ok?
    ensures var v := Eval(ops, x).value;
      Eval(ops, UnaryExpr(Not, outer, UnaryExpr(Not, inner, x))) ==
      if v.Boolean? then Ok(v) else UnaryMismatch(Not, inner, v)
  {
  }
}
