/**
 * What `tokenize` returns for the expressions of the crate's lexer tests
 * (src/lexer/tests.rs). Each example walks the loop of `tokenize` run by
 * run: `OperandStep` for a run handed to `parse_implicit` together with
 * the character after it, `FunctionStep` for a run that names a function
 * before `(`, `OneCharLex` for a single character that starts no run, and
 * `LexEnd` once the input is used up. The tokens each run contributes are
 * worked out first, by the `...Implicit` and `VarTokens` lemmas.
 */
module LexerExamples {
  import opened Options
  import opened Errors
  import opened Operators
  import opened Tokens
  import opened Resolve
  import opened Util
  import opened Lexer
  import opened LexerFacts
  import Scopes
  import Constants

  function V(name: string): Token {
    Variable(name)
  }

  function N(text: string): Token {
    Number(NumericLiteral(text))
  }

  function Bound(text: string): Scopes.Variable {
    Scopes.Number(NumericLiteral(text))
  }

  // ------------------------------------------------------------- resolve_vars

  /** A letter that does not resolve becomes a one-letter variable. */
  lemma UnboundLetter(c: char, scope: Scopes.Scope)
    requires !Resolves([c], scope)
    ensures VarTokens([c], scope) == [V([c]), Mul]
  {
    assert [c][..1] == [c];
    VarTokensNoMatch([c], scope);
  }

  /**
   * `run` starts with a lower-case letter, which no constant does, and every
   * name the scope binds that starts like `run` is at least `k` long: no
   * prefix of `run` shorter than `k` resolves.
   */
  lemma NoShorterName(run: string, scope: Scopes.Scope, k: nat)
    requires |run| > 0 && 'a' <= run[0] <= 'z'
    requires forall name :: name in scope.variables ==> |name| == 0 || |name| >= k || name[0] != run[0]
    ensures forall m :: 0 < m < k && m <= |run| ==> !Resolves(run[..m], scope)
  {
    forall m | 0 < m < k && m <= |run| ensures !Resolves(run[..m], scope) {
      var name := run[..m];
      assert name[0] == run[0];
      assert name !in Constants.ConstantNames;
    }
  }

  /** A word that resolves, and none of whose shorter prefixes does, becomes one variable. */
  lemma WholeWord(run: string, scope: Scopes.Scope)
    requires run != [] && Resolves(run, scope)
    requires forall m :: 0 < m < |run| ==> !Resolves(run[..m], scope)
    ensures VarTokens(run, scope) == [V(run), Mul]
  {
    assert run[..|run|] == run && run[|run|..] == [];
    VarTokensFirstMatch(run, scope, |run|);
  }

  // ----------------------------------------------------------- parse_implicit

  /** A run of letters: the pairs of `resolve_vars`. */
  lemma LettersImplicit(run: string, scope: Scopes.Scope, tokens: seq<Token>, ts: seq<Token>)
    requires run != [] && forall k :: 0 <= k < |run| ==> IsAlphabetic(run[k])
    requires ts == AfterParen(tokens) + VarTokens(run, scope)
    ensures Implicit(run, scope, tokens) == Returns(Ok(ts))
  {
    SpanEndIs(run, 0, |run|, IsAlphabetic);
    assert run[0..|run|] == run;
    ImplicitLetterStep(run, scope, 0, AfterParen(tokens), |run|);
  }

  /** A number literal: the number and a `Multiply`. */
  lemma NumeralImplicit(run: string, scope: Scopes.Scope, tokens: seq<Token>, ts: seq<Token>)
    requires run != [] && IsDigit(run[0]) && ParsesAsFloat(run)
    requires forall k :: 0 <= k < |run| ==> IsNumeralChar(run[k])
    requires ts == AfterParen(tokens) + [N(run), Mul]
    ensures Implicit(run, scope, tokens) == Returns(Ok(ts))
  {
    SpanEndIs(run, 0, |run|, IsNumeralChar);
    assert run[0..|run|] == run;
    ImplicitNumberStep(run, scope, 0, AfterParen(tokens), |run|);
  }

  /** Digits followed by letters: the number, a `Multiply`, then the pairs of `resolve_vars`. */
  lemma NumeralLettersImplicit(run: string, scope: Scopes.Scope, tokens: seq<Token>, k: nat, ts: seq<Token>)
    requires 0 < k < |run|
    requires forall j :: 0 <= j < k ==> IsDigit(run[j])
    requires forall j :: k <= j < |run| ==> IsAlphabetic(run[j])
    requires ts == AfterParen(tokens) + [N(run[..k]), Mul] + VarTokens(run[k..], scope)
    ensures Implicit(run, scope, tokens) == Returns(Ok(ts))
  {
    var start := AfterParen(tokens);
    SpanEndIs(run, 0, k, IsNumeralChar);
    assert run[0..k] == run[..k];
    assert forall j :: 0 <= j < k ==> run[..k][j] == run[j];
    ImplicitNumberStep(run, scope, 0, start, k);
    var t1 := start + [N(run[..k]), Mul];
    SpanEndIs(run, k, |run|, IsAlphabetic);
    assert run[k..|run|] == run[k..];
    ImplicitLetterStep(run, scope, k, t1, |run|);
  }

  // ----------------------------------------------------------------- tokenize

  /**
   * A run handed to `parse_implicit`, then the character after it: the
   * trailing `Multiply` is dropped unless that character is `(`.
   */
  lemma OperandStep(expr: string, scope: Scopes.Scope, pos: nat, e: nat, run: string,
                    tokens: seq<Token>, ts: seq<Token>, next: nat, after: seq<Token>)
    requires pos < e <= |expr| && run == expr[pos..e]
    requires forall k :: pos <= k < e ==> IsRunChar(expr[k])
    requires e < |expr| ==> !IsRunChar(expr[e])
    requires !(Peek(expr, e) == Some('(') && ResolveFn(run, scope).Ok?)
    requires Implicit(run, scope, tokens) == Returns(Ok(ts))
    requires next == if e < |expr| then e + 1 else e
    requires after == PushToken(Peek(expr, e), if Peek(expr, e) == Some('(') then ts else Pop(ts))
    ensures LexFrom(expr, scope, pos, tokens) == LexFrom(expr, scope, next, after)
  {
    SpanEndIs(expr, pos, e, IsRunChar);
    LexStepOperand(expr, scope, pos, tokens, e, ts);
    LexFromNext(expr, scope, pos, tokens, next, after);
  }

  /** A run that names a function before `(`: `Function(run)`, then `LeftParenthesis`. */
  lemma FunctionStep(expr: string, scope: Scopes.Scope, pos: nat, e: nat, run: string,
                     tokens: seq<Token>, next: nat, after: seq<Token>)
    requires pos < e < |expr| && run == expr[pos..e]
    requires forall k :: pos <= k < e ==> IsRunChar(expr[k])
    requires expr[e] == '(' && ResolveFn(run, scope).Ok?
    requires next == e + 1 && after == tokens + [Token.Function(run), LeftParenthesis]
    ensures LexFrom(expr, scope, pos, tokens) == LexFrom(expr, scope, next, after)
  {
    SpanEndIs(expr, pos, e, IsRunChar);
    FunctionRun(expr, scope, pos, tokens, e);
  }

  /** An input that is one run: the tokens of `parse_implicit` without their last `Multiply`. */
  lemma WholeInput(expr: string, scope: Scopes.Scope, r: seq<Token>)
    requires |expr| > 0 && forall k :: 0 <= k < |expr| ==> IsRunChar(expr[k])
    requires Implicit(expr, scope, []) == Returns(Ok(r + [Mul]))
    ensures Lex(expr, scope) == Returns(Ok(r))
  {
    assert Pop(r + [Mul]) == r;
    OperandStep(expr, scope, 0, |expr|, expr, [], r + [Mul], |expr|, r);
    assert Lex(expr, scope) == LexFrom(expr, scope, 0, []);
  }

  /** The input is used up: `tokenize` returns the tokens. */
  lemma LexEnd(expr: string, scope: Scopes.Scope, pos: nat, tokens: seq<Token>)
    requires pos == |expr|
    ensures LexFrom(expr, scope, pos, tokens) == Returns(Ok(tokens))
  {
  }

  // ----------------------------------------------------------------- examples

  /** `x+-1`, up to the `1`: `-` after an operator is `-1 *`. */
  lemma NegativeNumberSign(scope: Scopes.Scope)
    requires scope.variables == map[]
    ensures LexFrom("x+-1", scope, 0, []) == LexFrom("x+-1", scope, 3, [V("x"), Operator(Add), Number(MinusOne), Mul])
  {
    var expr := "x+-1";
    var t1 := [V("x"), Operator(Add)];
    UnboundLetter('x', scope);
    LettersImplicit("x", scope, [], [V("x"), Mul]);
    OperandStep(expr, scope, 0, 1, "x", [], [V("x"), Mul], 2, t1);
    OneCharLex(expr, scope, 2, t1, '-', 3, [V("x"), Operator(Add), Number(MinusOne), Mul]);
  }

  /** `x+-1` lexes as `x + -1 * 1`. */
  lemma NegativeNumber(scope: Scopes.Scope)
    requires scope.variables == map[]
    ensures Lex("x+-1", scope) == Returns(Ok([V("x"), Operator(Add), Number(MinusOne), Mul, N("1")]))
  {
    var expr := "x+-1";
    var t2 := [V("x"), Operator(Add), Number(MinusOne), Mul];
    var r := [V("x"), Operator(Add), Number(MinusOne), Mul, N("1")];
    NegativeNumberSign(scope);
    NumeralImplicit("1", scope, t2, t2 + [N("1"), Mul]);
    OperandStep(expr, scope, 3, 4, "1", t2, t2 + [N("1"), Mul], 4, r);
    LexEnd(expr, scope, 4, r);
    assert Lex(expr, scope) == LexFrom(expr, scope, 0, []);
  }

  /** `abcd` with `abcd` bound: one variable. */
  lemma WholeRunBound(scope: Scopes.Scope)
    requires scope.variables == map["abcd" := Bound("1")]
    ensures Lex("abcd", scope) == Returns(Ok([V("abcd")]))
  {
    NoShorterName("abcd", scope, 4);
    WholeWord("abcd", scope);
    LettersImplicit("abcd", scope, [], [V("abcd")] + [Mul]);
    WholeInput("abcd", scope, [V("abcd")]);
  }

  /** `abcd` with `ab` and `cd` bound: `ab`, then `cd`. */
  lemma TwoWordsBound(scope: Scopes.Scope)
    requires scope.variables == map["ab" := Bound("2"), "cd" := Bound("3")]
    ensures Lex("abcd", scope) == Returns(Ok([V("ab"), Mul, V("cd")]))
  {
    var expr := "abcd";
    assert expr[..2] == "ab" && expr[2..] == "cd";
    NoShorterName(expr, scope, 2);
    VarTokensFirstMatch(expr, scope, 2);
    NoShorterName("cd", scope, 2);
    WholeWord("cd", scope);
    LettersImplicit(expr, scope, [], [V("ab"), Mul, V("cd")] + [Mul]);
    WholeInput(expr, scope, [V("ab"), Mul, V("cd")]);
  }

  /** `abcd` with `abc` and `d` bound: `abc`, then `d`. */
  lemma LongPrefixBound(scope: Scopes.Scope)
    requires scope.variables == map["abc" := Bound("2"), "d" := Bound("3")]
    ensures Lex("abcd", scope) == Returns(Ok([V("abc"), Mul, V("d")]))
  {
    var expr := "abcd";
    assert expr[..3] == "abc" && expr[3..] == "d";
    NoShorterName(expr, scope, 3);
    VarTokensFirstMatch(expr, scope, 3);
    WholeWord("d", scope);
    LettersImplicit(expr, scope, [], [V("abc"), Mul, V("d")] + [Mul]);
    WholeInput(expr, scope, [V("abc"), Mul, V("d")]);
  }

  /** `abcd` with `a` and `bcd` bound: the shortest prefix that resolves, `a`, wins. */
  lemma ShortPrefixBound(scope: Scopes.Scope)
    requires scope.variables == map["a" := Bound("2"), "bcd" := Bound("3")]
    ensures Lex("abcd", scope) == Returns(Ok([V("a"), Mul, V("bcd")]))
  {
    var expr := "abcd";
    assert expr[..1] == "a" && expr[1..] == "bcd";
    VarTokensFirstMatch(expr, scope, 1);
    NoShorterName("bcd", scope, 3);
    WholeWord("bcd", scope);
    LettersImplicit(expr, scope, [], [V("a"), Mul, V("bcd")] + [Mul]);
    WholeInput(expr, scope, [V("a"), Mul, V("bcd")]);
  }

  /** `Singles` of one more letter: one more pair. */
  lemma SinglesAppend(s: string, c: char)
    ensures Singles(s + [c]) == Singles(s) + [V([c]), Mul]
  {
    assert (s + [c])[..|s|] == s;
  }

  /** With nothing bound, every letter of `abcd` is a variable of its own. */
  lemma FourLetters()
    ensures Singles("abcd") == [V("a"), Mul, V("b"), Mul, V("c"), Mul, V("d")] + [Mul]
  {
    SinglesAppend("", 'a');
    SinglesAppend("a", 'b');
    SinglesAppend("ab", 'c');
    SinglesAppend("abc", 'd');
    assert "" + ['a'] == "a" && "a" + ['b'] == "ab" && "ab" + ['c'] == "abc" && "abc" + ['d'] == "abcd";
  }

  /** `abcd` with nothing bound: one variable per letter. */
  lemma NothingBound(scope: Scopes.Scope)
    requires scope.variables == map[]
    ensures Lex("abcd", scope) == Returns(Ok([V("a"), Mul, V("b"), Mul, V("c"), Mul, V("d")]))
  {
    var r := [V("a"), Mul, V("b"), Mul, V("c"), Mul, V("d")];
    FourLetters();
    NoShorterName("abcd", scope, 5);
    VarTokensNoMatch("abcd", scope);
    LettersImplicit("abcd", scope, [], r + [Mul]);
    WholeInput("abcd", scope, r);
  }

  /** `quantity` with `quantity` bound is one variable. */
  lemma QuantityTokens(scope: Scopes.Scope)
    requires scope.variables == map["quantity" := Bound("1")]
    ensures Implicit("quantity", scope, []) == Returns(Ok([V("quantity"), Mul]))
  {
    NoShorterName("quantity", scope, 8);
    WholeWord("quantity", scope);
    LettersImplicit("quantity", scope, [], [V("quantity"), Mul]);
  }

  /** `quantity*2` with `quantity` bound, up to the `2`. */
  lemma QuantityWord(scope: Scopes.Scope)
    requires scope.variables == map["quantity" := Bound("1")]
    ensures LexFrom("quantity*2", scope, 0, []) == LexFrom("quantity*2", scope, 9, [V("quantity"), Mul])
  {
    var t1 := [V("quantity"), Mul];
    QuantityTokens(scope);
    OperandStep("quantity*2", scope, 0, 8, "quantity", [], t1, 9, t1);
  }

  /** `quantity*2` with `quantity` bound: the word is one variable. */
  lemma WordTimesNumber(scope: Scopes.Scope)
    requires scope.variables == map["quantity" := Bound("1")]
    ensures Lex("quantity*2", scope) == Returns(Ok([V("quantity"), Mul, N("2")]))
  {
    var expr := "quantity*2";
    var t1 := [V("quantity"), Mul];
    var r := [V("quantity"), Mul, N("2")];
    QuantityWord(scope);
    NumeralImplicit("2", scope, t1, t1 + [N("2"), Mul]);
    OperandStep(expr, scope, 9, 10, "2", t1, t1 + [N("2"), Mul], 10, r);
    LexEnd(expr, scope, 10, r);
    assert Lex(expr, scope) == LexFrom(expr, scope, 0, []);
  }

  /** `2quantity` with `quantity` bound: the number, `Multiply`, then the word. */
  lemma NumberTimesWord(scope: Scopes.Scope)
    requires scope.variables == map["quantity" := Bound("1")]
    ensures Lex("2quantity", scope) == Returns(Ok([N("2"), Mul, V("quantity")]))
  {
    var expr := "2quantity";
    assert expr[..1] == "2" && expr[1..] == "quantity";
    NoShorterName("quantity", scope, 8);
    WholeWord("quantity", scope);
    NumeralLettersImplicit(expr, scope, [], 1, [N("2"), Mul, V("quantity")] + [Mul]);
    WholeInput(expr, scope, [N("2"), Mul, V("quantity")]);
  }

  /** `1`: a lone number. */
  lemma LoneNumber(scope: Scopes.Scope)
    requires scope.variables == map[]
    ensures Lex("1", scope) == Returns(Ok([N("1")]))
  {
    NumeralImplicit("1", scope, [], [N("1")] + [Mul]);
    WholeInput("1", scope, [N("1")]);
  }

  /** `3x^2`: `3x` is `3 * x`. */
  lemma CoefficientPower(scope: Scopes.Scope)
    requires scope.variables == map[]
    ensures Lex("3x^2", scope) == Returns(Ok([N("3"), Mul, V("x"), Operator(Exponentiate), N("2")]))
  {
    var expr := "3x^2";
    var ts := [N("3"), Mul, V("x"), Mul];
    var t1 := [N("3"), Mul, V("x"), Operator(Exponentiate)];
    var r := [N("3"), Mul, V("x"), Operator(Exponentiate), N("2")];
    assert expr[0..2] == "3x" && "3x"[..1] == "3" && "3x"[1..] == "x";
    UnboundLetter('x', scope);
    NumeralLettersImplicit("3x", scope, [], 1, ts);
    OperandStep(expr, scope, 0, 2, "3x", [], ts, 3, t1);
    NumeralImplicit("2", scope, t1, t1 + [N("2"), Mul]);
    OperandStep(expr, scope, 3, 4, "2", t1, t1 + [N("2"), Mul], 4, r);
    LexEnd(expr, scope, 4, r);
    assert Lex(expr, scope) == LexFrom(expr, scope, 0, []);
  }

  // `4(x+3)2`, run by run.

  /** `4(`: the `Multiply` after `4` stays before `(`. */
  lemma AroundOpen(scope: Scopes.Scope)
    requires scope.variables == map[]
    ensures LexFrom("4(x+3)2", scope, 0, []) == LexFrom("4(x+3)2", scope, 2, [N("4"), Mul, LeftParenthesis])
  {
    NumeralImplicit("4", scope, [], [N("4"), Mul]);
    OperandStep("4(x+3)2", scope, 0, 1, "4", [], [N("4"), Mul], 2, [N("4"), Mul, LeftParenthesis]);
  }

  /** `x+` */
  lemma AroundInner(scope: Scopes.Scope, t: seq<Token>)
    requires scope.variables == map[]
    requires |t| > 0 && Last(t) == LeftParenthesis
    ensures LexFrom("4(x+3)2", scope, 2, t) == LexFrom("4(x+3)2", scope, 4, t + [V("x"), Operator(Add)])
  {
    UnboundLetter('x', scope);
    LettersImplicit("x", scope, t, t + [V("x"), Mul]);
    OperandStep("4(x+3)2", scope, 2, 3, "x", t, t + [V("x"), Mul], 4, t + [V("x"), Operator(Add)]);
  }

  /** `3)` */
  lemma AroundClose(scope: Scopes.Scope, t: seq<Token>)
    requires scope.variables == map[]
    requires |t| > 0 && Last(t) == Operator(Add)
    ensures LexFrom("4(x+3)2", scope, 4, t) == LexFrom("4(x+3)2", scope, 6, t + [N("3"), RightParenthesis])
  {
    NumeralImplicit("3", scope, t, t + [N("3"), Mul]);
    OperandStep("4(x+3)2", scope, 4, 5, "3", t, t + [N("3"), Mul], 6, t + [N("3"), RightParenthesis]);
  }

  /** `2` after `)`: a `Multiply` is inserted first. */
  lemma AroundLast(scope: Scopes.Scope, t: seq<Token>)
    requires scope.variables == map[]
    requires |t| > 0 && Last(t) == RightParenthesis
    ensures LexFrom("4(x+3)2", scope, 6, t) == LexFrom("4(x+3)2", scope, 7, t + [Mul, N("2")])
  {
    NumeralImplicit("2", scope, t, t + [Mul, N("2"), Mul]);
    OperandStep("4(x+3)2", scope, 6, 7, "2", t, t + [Mul, N("2"), Mul], 7, t + [Mul, N("2")]);
  }

  /** `4(x+3)2`: implicit products before `(` and after `)`. */
  lemma ImplicitAroundParentheses(scope: Scopes.Scope)
    requires scope.variables == map[]
    ensures Lex("4(x+3)2", scope) == Returns(Ok([N("4"), Mul, LeftParenthesis, V("x"), Operator(Add), N("3"),
                                                 RightParenthesis, Mul, N("2")]))
  {
    var expr := "4(x+3)2";
    var t1 := [N("4"), Mul, LeftParenthesis];
    var t2 := t1 + [V("x"), Operator(Add)];
    var t3 := t2 + [N("3"), RightParenthesis];
    assert t3 + [Mul, N("2")] == [N("4"), Mul, LeftParenthesis, V("x"), Operator(Add), N("3"), RightParenthesis, Mul, N("2")];
    AroundOpen(scope);
    AroundInner(scope, t1);
    AroundClose(scope, t2);
    AroundLast(scope, t3);
    LexEnd(expr, scope, 7, t3 + [Mul, N("2")]);
    assert Lex(expr, scope) == LexFrom(expr, scope, 0, []);
  }

  // `2x(x+3)` with `x` bound, run by run.

  /** `2x(`: `2x` before `(` keeps its `Multiply`. */
  lemma BeforeOpen(scope: Scopes.Scope)
    requires scope.variables == map["x" := Bound("0")]
    ensures LexFrom("2x(x+3)", scope, 0, []) == LexFrom("2x(x+3)", scope, 3, [N("2"), Mul, V("x"), Mul, LeftParenthesis])
  {
    var ts := [N("2"), Mul, V("x"), Mul];
    assert "2x(x+3)"[0..2] == "2x" && "2x"[..1] == "2" && "2x"[1..] == "x";
    WholeWord("x", scope);
    NumeralLettersImplicit("2x", scope, [], 1, ts);
    OperandStep("2x(x+3)", scope, 0, 2, "2x", [], ts, 3, [N("2"), Mul, V("x"), Mul, LeftParenthesis]);
  }

  /** `x+` */
  lemma BeforeInner(scope: Scopes.Scope, t: seq<Token>)
    requires scope.variables == map["x" := Bound("0")]
    requires |t| > 0 && Last(t) == LeftParenthesis
    ensures LexFrom("2x(x+3)", scope, 3, t) == LexFrom("2x(x+3)", scope, 5, t + [V("x"), Operator(Add)])
  {
    WholeWord("x", scope);
    LettersImplicit("x", scope, t, t + [V("x"), Mul]);
    OperandStep("2x(x+3)", scope, 3, 4, "x", t, t + [V("x"), Mul], 5, t + [V("x"), Operator(Add)]);
  }

  /** `3)` */
  lemma BeforeClose(scope: Scopes.Scope, t: seq<Token>)
    requires scope.variables == map["x" := Bound("0")]
    requires |t| > 0 && Last(t) == Operator(Add)
    ensures LexFrom("2x(x+3)", scope, 5, t) == LexFrom("2x(x+3)", scope, 7, t + [N("3"), RightParenthesis])
  {
    NumeralImplicit("3", scope, t, t + [N("3"), Mul]);
    OperandStep("2x(x+3)", scope, 5, 6, "3", t, t + [N("3"), Mul], 7, t + [N("3"), RightParenthesis]);
  }

  /** `2x(x+3)` with `x` bound. */
  lemma ImplicitBeforeParenthesis(scope: Scopes.Scope)
    requires scope.variables == map["x" := Bound("0")]
    ensures Lex("2x(x+3)", scope) == Returns(Ok([N("2"), Mul, V("x"), Mul, LeftParenthesis, V("x"), Operator(Add),
                                                 N("3"), RightParenthesis]))
  {
    var expr := "2x(x+3)";
    var t1 := [N("2"), Mul, V("x"), Mul, LeftParenthesis];
    var t2 := t1 + [V("x"), Operator(Add)];
    assert t2 + [N("3"), RightParenthesis] ==
      [N("2"), Mul, V("x"), Mul, LeftParenthesis, V("x"), Operator(Add), N("3"), RightParenthesis];
    BeforeOpen(scope);
    BeforeInner(scope, t1);
    BeforeClose(scope, t2);
    LexEnd(expr, scope, 7, t2 + [N("3"), RightParenthesis]);
    assert Lex(expr, scope) == LexFrom(expr, scope, 0, []);
  }

  // `x^(2y+3z)`, run by run.

  /** `x^` */
  lemma PowerBase(scope: Scopes.Scope)
    requires scope.variables == map[]
    ensures LexFrom("x^(2y+3z)", scope, 0, []) == LexFrom("x^(2y+3z)", scope, 2, [V("x"), Operator(Exponentiate)])
  {
    UnboundLetter('x', scope);
    LettersImplicit("x", scope, [], [V("x"), Mul]);
    OperandStep("x^(2y+3z)", scope, 0, 1, "x", [], [V("x"), Mul], 2, [V("x"), Operator(Exponentiate)]);
  }

  /** `(` after an operator starts no run and is lexed on its own. */
  lemma PowerOpen(scope: Scopes.Scope, t: seq<Token>)
    requires |t| > 0 && Last(t) == Operator(Exponentiate)
    ensures LexFrom("x^(2y+3z)", scope, 2, t) == LexFrom("x^(2y+3z)", scope, 3, t + [LeftParenthesis])
  {
    OneCharLex("x^(2y+3z)", scope, 2, t, '(', 3, t + [LeftParenthesis]);
  }

  /** `2y+` */
  lemma PowerFirstTerm(scope: Scopes.Scope, t: seq<Token>)
    requires scope.variables == map[]
    requires |t| > 0 && Last(t) == LeftParenthesis
    ensures LexFrom("x^(2y+3z)", scope, 3, t) == LexFrom("x^(2y+3z)", scope, 6, t + [N("2"), Mul, V("y"), Operator(Add)])
  {
    assert "x^(2y+3z)"[3..5] == "2y" && "2y"[..1] == "2" && "2y"[1..] == "y";
    UnboundLetter('y', scope);
    NumeralLettersImplicit("2y", scope, t, 1, t + [N("2"), Mul, V("y"), Mul]);
    OperandStep("x^(2y+3z)", scope, 3, 5, "2y", t, t + [N("2"), Mul, V("y"), Mul], 6,
                t + [N("2"), Mul, V("y"), Operator(Add)]);
  }

  /** `3z)` */
  lemma PowerSecondTerm(scope: Scopes.Scope, t: seq<Token>)
    requires scope.variables == map[]
    requires |t| > 0 && Last(t) == Operator(Add)
    ensures LexFrom("x^(2y+3z)", scope, 6, t) == LexFrom("x^(2y+3z)", scope, 9, t + [N("3"), Mul, V("z"), RightParenthesis])
  {
    assert "x^(2y+3z)"[6..8] == "3z" && "3z"[..1] == "3" && "3z"[1..] == "z";
    UnboundLetter('z', scope);
    NumeralLettersImplicit("3z", scope, t, 1, t + [N("3"), Mul, V("z"), Mul]);
    OperandStep("x^(2y+3z)", scope, 6, 8, "3z", t, t + [N("3"), Mul, V("z"), Mul], 9,
                t + [N("3"), Mul, V("z"), RightParenthesis]);
  }

  /** `x^(2y+3z)`: implicit products inside parentheses. */
  lemma ImplicitInsideParentheses(scope: Scopes.Scope)
    requires scope.variables == map[]
    ensures Lex("x^(2y+3z)", scope) == Returns(Ok([V("x"), Operator(Exponentiate), LeftParenthesis, N("2"), Mul, V("y"),
                                                   Operator(Add), N("3"), Mul, V("z"), RightParenthesis]))
  {
    var expr := "x^(2y+3z)";
    var t1 := [V("x"), Operator(Exponentiate)];
    var t2 := t1 + [LeftParenthesis];
    var t3 := t2 + [N("2"), Mul, V("y"), Operator(Add)];
    var t4 := t3 + [N("3"), Mul, V("z"), RightParenthesis];
    assert t4 == [V("x"), Operator(Exponentiate), LeftParenthesis, N("2"), Mul, V("y"), Operator(Add), N("3"), Mul,
                  V("z"), RightParenthesis];
    PowerBase(scope);
    PowerOpen(scope, t1);
    PowerFirstTerm(scope, t2);
    PowerSecondTerm(scope, t3);
    LexEnd(expr, scope, 9, t4);
    assert Lex(expr, scope) == LexFrom(expr, scope, 0, []);
  }

  // `max(1,3,25.75,10.5)`, run by run.

  /** `max(`: `max` before `(` is a function, and the `(` is then lexed on its own. */
  lemma CallName(scope: Scopes.Scope)
    requires scope.variables == map[]
    ensures LexFrom("max(1,3,25.75,10.5)", scope, 0, []) ==
      LexFrom("max(1,3,25.75,10.5)", scope, 4, [Token.Function("max"), LeftParenthesis])
  {
    FunctionStep("max(1,3,25.75,10.5)", scope, 0, 3, "max", [], 4, [Token.Function("max"), LeftParenthesis]);
  }

  /** `1,` */
  lemma CallFirstArgument(scope: Scopes.Scope, t: seq<Token>)
    requires scope.variables == map[]
    requires |t| > 0 && Last(t) == LeftParenthesis
    ensures LexFrom("max(1,3,25.75,10.5)", scope, 4, t) == LexFrom("max(1,3,25.75,10.5)", scope, 6, t + [N("1"), Comma])
  {
    NumeralImplicit("1", scope, t, t + [N("1"), Mul]);
    OperandStep("max(1,3,25.75,10.5)", scope, 4, 5, "1", t, t + [N("1"), Mul], 6, t + [N("1"), Comma]);
  }

  /** `3,` */
  lemma CallSecondArgument(scope: Scopes.Scope, t: seq<Token>)
    requires scope.variables == map[]
    requires |t| > 0 && Last(t) == Comma
    ensures LexFrom("max(1,3,25.75,10.5)", scope, 6, t) == LexFrom("max(1,3,25.75,10.5)", scope, 8, t + [N("3"), Comma])
  {
    NumeralImplicit("3", scope, t, t + [N("3"), Mul]);
    OperandStep("max(1,3,25.75,10.5)", scope, 6, 7, "3", t, t + [N("3"), Mul], 8, t + [N("3"), Comma]);
  }

  /** `25.75,`: the point belongs to the number. */
  lemma CallThirdArgument(scope: Scopes.Scope, t: seq<Token>)
    requires scope.variables == map[]
    requires |t| > 0 && Last(t) == Comma
    ensures LexFrom("max(1,3,25.75,10.5)", scope, 8, t) == LexFrom("max(1,3,25.75,10.5)", scope, 14, t + [N("25.75"), Comma])
  {
    NumeralImplicit("25.75", scope, t, t + [N("25.75"), Mul]);
    OperandStep("max(1,3,25.75,10.5)", scope, 8, 13, "25.75", t, t + [N("25.75"), Mul], 14, t + [N("25.75"), Comma]);
  }

  /** `10.5)` */
  lemma CallLastArgument(scope: Scopes.Scope, t: seq<Token>)
    requires scope.variables == map[]
    requires |t| > 0 && Last(t) == Comma
    ensures LexFrom("max(1,3,25.75,10.5)", scope, 14, t) ==
      LexFrom("max(1,3,25.75,10.5)", scope, 19, t + [N("10.5"), RightParenthesis])
  {
    NumeralImplicit("10.5", scope, t, t + [N("10.5"), Mul]);
    OperandStep("max(1,3,25.75,10.5)", scope, 14, 18, "10.5", t, t + [N("10.5"), Mul], 19,
                t + [N("10.5"), RightParenthesis]);
  }

  /**
   * `max(1,3,25.75,10.5)`: a function, a `LeftParenthesis` of its own, and
   * one number per argument.
   */
  lemma FunctionCall(scope: Scopes.Scope)
    requires scope.variables == map[]
    ensures Lex("max(1,3,25.75,10.5)", scope) ==
      Returns(Ok([Token.Function("max"), LeftParenthesis, N("1"), Comma, N("3"), Comma, N("25.75"), Comma,
                  N("10.5"), RightParenthesis]))
  {
    var expr := "max(1,3,25.75,10.5)";
    var t1 := [Token.Function("max"), LeftParenthesis];
    var t2 := t1 + [N("1"), Comma];
    var t3 := t2 + [N("3"), Comma];
    var t4 := t3 + [N("25.75"), Comma];
    var t5 := t4 + [N("10.5"), RightParenthesis];
    assert t5 == [Token.Function("max"), LeftParenthesis, N("1"), Comma, N("3"), Comma, N("25.75"), Comma, N("10.5"),
                  RightParenthesis];
    CallName(scope);
    CallFirstArgument(scope, t1);
    CallSecondArgument(scope, t2);
    CallThirdArgument(scope, t3);
    CallLastArgument(scope, t4);
    LexEnd(expr, scope, 19, t5);
    assert Lex(expr, scope) == LexFrom(expr, scope, 0, []);
  }
}
