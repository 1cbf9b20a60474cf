/** The composition `compile` of the lexer and the parser (src/parser.rs). */
module Compiler {
  import opened Errors
  import Scopes
  import Lexer
  import Parser
  import ParserFacts

  /**
   * `compile(expr, scope)`: tokenize `expr`, then parse the tokens. A lexing
   * error is returned as it is, the tokens of a successful lexing are handed
   * to the parser, and every tree built is well formed.
   */
  function Compile(expr: string, scope: Scopes.Scope): (r: Lexer.Outcome<Parser.Node>)
    reads scope
    ensures r.Diverges? <==> Lexer.Lex(expr, scope).Diverges?
    ensures Lexer.Lex(expr, scope).Returns? && Lexer.Lex(expr, scope).result.Err? ==>
      r == Lexer.Returns(Err(Lexer.Lex(expr, scope).result.error))
    ensures Lexer.Lex(expr, scope).Returns? && Lexer.Lex(expr, scope).result.Ok? ==>
      r == Lexer.Returns(Parser.Parse(Lexer.Lex(expr, scope).result.value))
    ensures r.Returns? && r.result.Ok? ==> ParserFacts.WellFormed(r.result.value)
  {
    match Lexer.Lex(expr, scope)
    case Diverges => Lexer.Diverges
    case Returns(Err(e)) => Lexer.Returns(Err(e))
    case Returns(Ok(tokens)) =>
      ParserFacts.ParseWellFormed(tokens);
      Lexer.Returns(Parser.Parse(tokens))
  }

  /** A character that no lexer rule turns into a token: skipped by `get_token`. */
  predicate Skipped(c: char) {
    !Lexer.IsRunChar(c) && c !in "+-*/^<>=(),!"
  }

  /** From `pos` on, characters that make no token leave the tokens as they are. */
  lemma {:induction false} SkippedLexFrom(expr: string, scope: Scopes.Scope, pos: nat)
    requires pos <= |expr|
    requires forall i :: pos <= i < |expr| ==> Skipped(expr[i])
    ensures Lexer.LexFrom(expr, scope, pos, []) == Lexer.Returns(Ok([]))
    decreases |expr| - pos
  {
    if pos < |expr| {
      assert !Lexer.IsRunChar(expr[pos]);
      assert Lexer.LexStep(expr, scope, pos, []) == Lexer.Next(pos + 1, []);
      SkippedLexFrom(expr, scope, pos + 1);
    }
  }

  /** An expression of blanks (or nothing at all) compiles to `EmptyExpression`. */
  lemma CompileBlank(expr: string, scope: Scopes.Scope)
    requires forall i :: 0 <= i < |expr| ==> Skipped(expr[i])
    ensures Compile(expr, scope) == Lexer.Returns(Err(EmptyExpression))
  {
    SkippedLexFrom(expr, scope, 0);
    ParserFacts.ParseEmpty();
  }
}
