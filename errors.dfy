/** The crate's error enum (src/error.rs) and its `Result` alias. */
module Errors {
  import Operators

  /** Errors a function from the builtin registry can raise (src/constants/functions.rs). */
  datatype FunctionError = InvalidArgument(message: string) | NotEnoughParams

  datatype Error =
    | MissingOperands(op: Operators.Operator)
    | NotEnoughFunctionParams(fnName: string)
    | FunctionSyntaxError(fnName: string)
    | UnknownFunction(fnName: string)
    | UnknownVariable(varName: string)
    | CannotEvaluateToken(token: string)
    | InvalidToken(text: string)
    | EmptyExpression
    | InvalidOperands(operator: Operators.Operator)
    | Function(cause: FunctionError)

  /** `Result<T, E = Error>` */
  datatype Result<T> = Ok(value: T) | Err(error: Error)
}
