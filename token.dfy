/** The token type of src/tokens/token.rs. */
module Tokens {
  import opened Operators

  /**
   * An `f64` payload. Floating-point values are not modelled: a number is
   * carried as the decimal text it was read from (or was written as).
   */
  datatype NumericLiteral = NumericLiteral(text: string)

  /** The `-1.0` the lexer emits for a unary minus. */
  const MinusOne: NumericLiteral := NumericLiteral("-1.0")

  datatype Token =
    | Operator(op: Operators.Operator)
    | Number(value: NumericLiteral)
    | Variable(name: string)
    | LeftParenthesis
    | RightParenthesis
    | Comma
    | Function(name: string)
}
