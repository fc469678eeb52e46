/** The token model of rlox (rlox/src/token.rs). */
module Tokens {

  /** An IEEE-754 single-precision number, kept as its 32-bit pattern.
      The model never computes with it: every f32 operation is a parameter. */
  datatype Float = F32(bits: bv32)

  datatype TokenType =
    // Single-character tokens.
    | LeftParen | RightParen | LeftBrace | RightBrace
    | Comma | Dot | Minus | Plus | SemiColon | Slash | Star
    // One or two character tokens.
    | Bang | BangEqual | Equal | EqualEqual
    | Greater | GreaterEqual | Less | LessEqual
    // Literals.
    | Identifier(name: string)
    | String(text: string)
    | Number(value: Float)
    // Keywords.
    | And | Class | Else | False | Fun | For | If | Nil | Or
    | Print | Return | Super | This | True | Var | While
    | EOF

  datatype Token = Token(typ: TokenType, lexeme: string, line: int)

  /** The reserved words: each keyword variant under its lower-case spelling. */
  const Keywords: map<string, TokenType> := map[
    "and" := And, "class" := Class, "else" := Else, "false" := False,
    "fun" := Fun, "for" := For, "if" := If, "nil" := Nil,
    "or" := Or, "print" := Print, "return" := Return, "super" := Super,
    "this" := This, "true" := True, "var" := Var, "while" := While
  ]
}
