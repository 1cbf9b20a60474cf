/**
 * The builtin registries of src/constants, reduced to the names they
 * define: lookups only ask whether a name is present.
 */
module Constants {
  /** Keys of `CONSTANTS`. */
  const ConstantNames: set<string> := {"PI", "E", "INFINITY", "NEG_INFINITY"}

  /** Keys of `FUNCTIONS`. */
  const FunctionNames: set<string> := {
    "min", "max", "abs", "sqrt", "cbrt",
    "sin", "cos", "tan",
    "log", "log_10", "ln",
    "floor", "ceil"
  }
}
