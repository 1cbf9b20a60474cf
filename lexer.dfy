/**
 * The lexer of src/lexer/mod.rs. Each loop of the source is a method whose
 * result is tied to a tail-recursive specification function that takes one
 * iteration per call (`...From`, carrying the loop's variables). The token
 * list the source pushes to and pops from is a `seq<Token>` those methods
 * take and return.
 */
module Lexer {
  import opened Options
  import opened Errors
  import opened Operators
  import opened Tokens
  import opened Resolve
  import opened Util
  import Scopes

  /** ASCII character classes (the source's `is_alphabetic`/`is_alphanumeric` are Unicode). */
  predicate IsDigit(c: char) { '0' <= c <= '9' }
  predicate IsAlphabetic(c: char) { 'a' <= c <= 'z' || 'A' <= c <= 'Z' }
  predicate IsAlphanumeric(c: char) { IsAlphabetic(c) || IsDigit(c) }
  /** Characters `tokenize` gathers into one run. */
  predicate IsRunChar(c: char) { IsAlphanumeric(c) || c == '_' || c == '.' }
  /** Characters a number literal is made of. */
  predicate IsNumeralChar(c: char) { IsDigit(c) || c == '.' }

  /**
   * Whether `str::parse::<f64>` accepts a digit-led run of digits and dots:
   * Rust's float grammar accepts `1`, `1.` and `1.5`, so exactly the runs
   * with at most one point.
   */
  predicate ParsesAsFloat(num: string) {
    forall i, j :: 0 <= i < j < |num| ==> !(num[i] == '.' && num[j] == '.')
  }

  /**
   * What running a lexer loop leads to. `Diverges` stands for the one case
   * where the source's loop never ends (see `ImplicitFrom`).
   */
  datatype Outcome<T> = Returns(result: Result<T>) | Diverges

  function Last<T>(s: seq<T>): T
    requires |s| > 0
  {
    s[|s| - 1]
  }

  /** `Vec::last` */
  function LastToken(tokens: seq<Token>): Option<Token> {
    if |tokens| > 0 then Some(Last(tokens)) else None
  }

  /** `Vec::pop` with the popped element discarded; a no-op on an empty list. */
  function Pop(tokens: seq<Token>): (r: seq<Token>)
    ensures |tokens| > 0 ==> r == tokens[..|tokens| - 1]
    ensures |tokens| == 0 ==> r == []
  {
    if |tokens| > 0 then tokens[..|tokens| - 1] else tokens
  }

  // ---------------------------------------------------------------- resolve_vars

  /** The `Variable`, `Multiply` pair `new_var` pushes. */
  function VarPair(name: string): seq<Token> {
    [Variable(name), Operator(Multiply)]
  }

  /** One `Variable`, `Multiply` pair per character of `s`, in order. */
  function Singles(s: string): (r: seq<Token>)
    ensures |r| == 2 * |s|
    ensures forall k :: 0 <= k < |s| ==> r[2 * k] == Variable([s[k]]) && r[2 * k + 1] == Operator(Multiply)
    decreases |s|
  {
    if s == [] then []
    else
      var init := s[..|s| - 1];
      assert forall k :: 0 <= k < |init| ==> init[k] == s[k];
      Singles(init) + VarPair([s[|s| - 1]])
  }

  /**
   * One iteration of `resolve_vars`: `pending` is `var`, `j` the position of
   * `chars`. The growing candidate is emitted the moment it resolves; what is
   * still pending when the characters run out is emitted letter by letter.
   */
  function VarTokensFrom(run: string, scope: Scopes.Scope, j: nat, pending: string): seq<Token>
    reads scope
    requires j <= |run|
    decreases |run| - j
  {
    if j < |run| then
      var candidate := pending + [run[j]];
      if ResolveVar(candidate, scope).Ok? then VarPair(candidate) + VarTokensFrom(run, scope, j + 1, [])
      else VarTokensFrom(run, scope, j + 1, candidate)
    else Singles(pending)
  }

  /** The tokens `resolve_vars` appends for an alphabetic run. */
  function VarTokens(run: string, scope: Scopes.Scope): seq<Token>
    reads scope
  {
    VarTokensFrom(run, scope, 0, [])
  }

  method ResolveVars(expr: string, scope: Scopes.Scope, tokens: seq<Token>) returns (out: seq<Token>)
    ensures out == tokens + VarTokens(expr, scope)
  {
    out := tokens;
    var j := 0;
    var name: string := [];
    var isValidVar := false;
    while true
      invariant j <= |expr|
      invariant out + VarTokensFrom(expr, scope, j, name) == tokens + VarTokens(expr, scope)
      invariant name != [] ==> !isValidVar
      decreases |expr| - j, |name|
    {
      if j < |expr| {
        var c := expr[j];
        j := j + 1;
        name := name + [c];
        isValidVar := ResolveVar(name, scope).Ok?;
        if !isValidVar {
          continue;
        }
      }
      if name != [] {
        if isValidVar {
          out := out + VarPair(name);
        } else {
          ghost var before := out;
          for k := 0 to |name|
            invariant out == before + Singles(name[..k])
          {
            assert name[..k + 1][..k] == name[..k];
            out := out + VarPair([name[k]]);
          }
          assert name[..|name|] == name;
        }
        name := [];
        continue;
      }
      break;
    }
  }

  // -------------------------------------------------------------- parse_implicit

  /**
   * One iteration of the `while let` loop of `parse_implicit` at position
   * `i` of the run. A digit starts a number literal; a letter starts a run
   * of letters handed to `resolve_vars`, after which one more character is
   * consumed without producing a token. Any other character (`_` or `.`) is
   * matched by the `_ => {}` arm, which does not advance the iterator: the
   * source loops forever there, and the model says `Diverges`.
   */
  function ImplicitFrom(run: string, scope: Scopes.Scope, i: nat, tokens: seq<Token>): Outcome<seq<Token>>
    reads scope
    requires i <= |run|
    decreases |run| - i
  {
    if i == |run| then Returns(Ok(tokens))
    else if IsDigit(run[i]) then
      var e := SpanEnd(run, i, IsNumeralChar);
      var num := run[i..e];
      if ParsesAsFloat(num) then
        ImplicitFrom(run, scope, e, tokens + [Number(NumericLiteral(num)), Operator(Multiply)])
      else Returns(Err(InvalidToken(num)))
    else if IsAlphabetic(run[i]) then
      var e := SpanEnd(run, i, IsAlphabetic);
      ImplicitFrom(run, scope, if e < |run| then e + 1 else e, tokens + VarTokens(run[i..e], scope))
    else Diverges
  }

  /** A `Multiply` goes first when the run follows a `RightParenthesis`. */
  function AfterParen(tokens: seq<Token>): seq<Token> {
    if LastToken(tokens) == Some(RightParenthesis) then tokens + [Operator(Multiply)] else tokens
  }

  /** The tokens after `parse_implicit` has lexed `run`. */
  function Implicit(run: string, scope: Scopes.Scope, tokens: seq<Token>): Outcome<seq<Token>>
    reads scope
  {
    ImplicitFrom(run, scope, 0, AfterParen(tokens))
  }

  method ParseImplicit(expr: string, scope: Scopes.Scope, tokens: seq<Token>) returns (r: Outcome<seq<Token>>)
    ensures r == Implicit(expr, scope, tokens)
  {
    ghost var goal := Implicit(expr, scope, tokens);
    var out := tokens;
    if LastToken(out) == Some(RightParenthesis) {
      out := out + [Operator(Multiply)];
    }
    var i := 0;
    while i < |expr|
      invariant i <= |expr|
      invariant ImplicitFrom(expr, scope, i, out) == goal
      decreases |expr| - i
    {
      var ch := expr[i];
      if IsDigit(ch) {
        var num, next := ConsumeWhile(expr, i, IsNumeralChar);
        ImplicitNumberStep(expr, scope, i, out, next);
        if !ParsesAsFloat(num) {
          return Returns(Err(InvalidToken(num)));
        }
        ghost var out' := out + [Number(NumericLiteral(num)), Operator(Multiply)];
        assert ImplicitFrom(expr, scope, next, out') == goal;
        out := out + [Number(NumericLiteral(num)), Operator(Multiply)];
        i := next;
      } else if IsAlphabetic(ch) {
        var vars, next := ConsumeWhile(expr, i, IsAlphabetic);
        ImplicitLetterStep(expr, scope, i, out, next);
        ghost var i' := if next < |expr| then next + 1 else next;
        assert ImplicitFrom(expr, scope, i', out + VarTokens(vars, scope)) == goal;
        out := ResolveVars(vars, scope, out);
        i := next;
        if i < |expr| {
          i := i + 1;
        }
        assert i == i';
      } else {
        assert ImplicitFrom(expr, scope, i, out) == Diverges;
        return Diverges;
      }
    }
    assert ImplicitFrom(expr, scope, i, out) == Returns(Ok(out));
    r := Returns(Ok(out));
  }

  /** A digit starts a number literal: the longest run of digits and dots from it. */
  lemma ImplicitNumberStep(run: string, scope: Scopes.Scope, i: nat, tokens: seq<Token>, e: nat)
    requires i < |run| && IsDigit(run[i]) && e == SpanEnd(run, i, IsNumeralChar)
    ensures ParsesAsFloat(run[i..e]) ==>
      ImplicitFrom(run, scope, i, tokens) ==
        ImplicitFrom(run, scope, e, tokens + [Number(NumericLiteral(run[i..e])), Operator(Multiply)])
    ensures !ParsesAsFloat(run[i..e]) ==> ImplicitFrom(run, scope, i, tokens) == Returns(Err(InvalidToken(run[i..e])))
  {
  }

  /** A letter starts a run of letters; the one character after the run is consumed without a token. */
  lemma ImplicitLetterStep(run: string, scope: Scopes.Scope, i: nat, tokens: seq<Token>, e: nat)
    requires i < |run| && IsAlphabetic(run[i]) && e == SpanEnd(run, i, IsAlphabetic)
    ensures ImplicitFrom(run, scope, i, tokens) ==
      ImplicitFrom(run, scope, if e < |run| then e + 1 else e, tokens + VarTokens(run[i..e], scope))
  {
  }

  // ------------------------------------------------------------------- get_token

  /** The previous tokens after which `-` is a negative sign. */
  predicate SignContext(last: Option<Token>) {
    match last
    case None => true
    case Some(t) => t.Comma? || t.LeftParenthesis? || t.Function? || t.Operator?
  }

  /**
   * `get_token`: the token for the peeked character, if any, together with
   * the token list, which a `-` or `=` may already have changed.
   */
  function GetToken(ch: Option<char>, t: seq<Token>): (seq<Token>, Option<Token>) {
    match ch
    case None => (t, None)
    case Some(c) =>
      if c == '+' then (t, Some(Operator(Add)))
      else if c == '-' then
        if SignContext(LastToken(t)) then (t + [Number(MinusOne), Operator(Multiply)], None)
        else (t, Some(Operator(Substract)))
      else if c == '*' then (t, Some(Operator(Multiply)))
      else if c == '/' then (t, Some(Operator(Divide)))
      else if c == '^' then (t, Some(Operator(Exponentiate)))
      else if c == '>' then (t, Some(Operator(IsGreaterThan)))
      else if c == '<' then (t, Some(Operator(IsLessThan)))
      else if c == '=' then
        match LastToken(t)
        case Some(Operator(Not)) => (Pop(t), Some(Operator(IsNotEqualTo)))
        case Some(Operator(IsGreaterThan)) => (Pop(t), Some(Operator(IsGreaterThanOrEqualTo)))
        case Some(Operator(IsLessThan)) => (Pop(t), Some(Operator(IsLessThanOrEqualTo)))
        case Some(Operator(IsEqualTo)) => (t, None)
        case _ => (t, Some(Operator(IsEqualTo)))
      else if c == '(' then (t, Some(LeftParenthesis))
      else if c == ')' then (t, Some(RightParenthesis))
      else if c == ',' then (t, Some(Comma))
      else if c == '!' then (t, Some(Operator(Not)))
      else (t, None)
  }

  /** `if let Some(token) = get_token(..) { tokens.push(token) }` */
  function PushToken(ch: Option<char>, t: seq<Token>): seq<Token> {
    var (t', tok) := GetToken(ch, t);
    if tok.Some? then t' + [tok.value] else t'
  }

  // -------------------------------------------------------------------- tokenize

  /** `chars.peek()` at position `pos`. */
  function Peek(expr: string, pos: nat): Option<char> {
    if pos < |expr| then Some(expr[pos]) else None
  }

  /** Where one iteration of a loop leaves it: at a further position, or finished with an outcome. */
  datatype Step = Next(pos: nat, tokens: seq<Token>) | Stop(outcome: Outcome<seq<Token>>)

  /**
   * One iteration of the loop of `tokenize` at position `pos`. A run of
   * alphanumerics, `_` and `.` right before a `(` that names a function
   * becomes one `Function` token, and the `(` is left for the next
   * iteration. Any other run goes through `parse_implicit`, whose trailing
   * `Multiply` is dropped unless a `(` follows. Then the peeked character
   * goes through `get_token` and is consumed.
   */
  function LexStep(expr: string, scope: Scopes.Scope, pos: nat, tokens: seq<Token>): (s: Step)
    reads scope
    requires pos < |expr|
    ensures s.Next? ==> pos < s.pos <= |expr|
  {
    var e := SpanEnd(expr, pos, IsRunChar);
    var temp := expr[pos..e];
    var paren := Peek(expr, e) == Some('(');
    var next := if e < |expr| then e + 1 else e;
    if temp == [] then Next(next, PushToken(Peek(expr, e), tokens))
    else if paren && ResolveFn(temp, scope).Ok? then Next(e, tokens + [Token.Function(temp)])
    else match Implicit(temp, scope, tokens)
      case Returns(Ok(ts)) => Next(next, PushToken(Peek(expr, e), if paren then ts else Pop(ts)))
      case failed => Stop(failed)
  }

  /** The loop of `tokenize` from position `pos` with the tokens so far. */
  function LexFrom(expr: string, scope: Scopes.Scope, pos: nat, tokens: seq<Token>): Outcome<seq<Token>>
    reads scope
    requires pos <= |expr|
    decreases |expr| - pos
  {
    if pos == |expr| then Returns(Ok(tokens))
    else match LexStep(expr, scope, pos, tokens)
      case Stop(outcome) => outcome
      case Next(pos', tokens') => LexFrom(expr, scope, pos', tokens')
  }

  /** The outcome of `tokenize(expr, scope)`. */
  function Lex(expr: string, scope: Scopes.Scope): Outcome<seq<Token>>
    reads scope
  {
    LexFrom(expr, scope, 0, [])
  }

  /** One iteration of the loop of `tokenize` that goes on, as a rewriting step on `LexFrom`. */
  lemma LexFromNext(expr: string, scope: Scopes.Scope, pos: nat, tokens: seq<Token>, pos': nat, tokens': seq<Token>)
    requires pos < |expr| && LexStep(expr, scope, pos, tokens) == Next(pos', tokens')
    ensures pos' <= |expr| && LexFrom(expr, scope, pos, tokens) == LexFrom(expr, scope, pos', tokens')
  {
  }

  /** One iteration of the loop of `tokenize` that stops it. */
  lemma LexFromStop(expr: string, scope: Scopes.Scope, pos: nat, tokens: seq<Token>, outcome: Outcome<seq<Token>>)
    requires pos < |expr| && LexStep(expr, scope, pos, tokens) == Stop(outcome)
    ensures LexFrom(expr, scope, pos, tokens) == outcome
  {
  }

  /** An iteration at a character that starts no run: only `get_token` acts. */
  lemma LexStepNoRun(expr: string, scope: Scopes.Scope, pos: nat, tokens: seq<Token>)
    requires pos < |expr| && !IsRunChar(expr[pos])
    ensures LexStep(expr, scope, pos, tokens) == Next(pos + 1, PushToken(Some(expr[pos]), tokens))
  {
    assert SpanEnd(expr, pos, IsRunChar) == pos;
  }

  /** An iteration at a run before `(` that names a function. */
  lemma LexStepFunction(expr: string, scope: Scopes.Scope, pos: nat, tokens: seq<Token>, e: nat)
    requires pos < |expr| && e == SpanEnd(expr, pos, IsRunChar)
    requires e > pos && Peek(expr, e) == Some('(') && ResolveFn(expr[pos..e], scope).Ok?
    ensures LexStep(expr, scope, pos, tokens) == Next(e, tokens + [Token.Function(expr[pos..e])])
  {
  }

  /** An iteration at any other run whose `parse_implicit` gives `ts`. */
  lemma LexStepOperand(expr: string, scope: Scopes.Scope, pos: nat, tokens: seq<Token>, e: nat, ts: seq<Token>)
    requires pos < |expr| && e == SpanEnd(expr, pos, IsRunChar)
    requires e > pos && !(Peek(expr, e) == Some('(') && ResolveFn(expr[pos..e], scope).Ok?)
    requires Implicit(expr[pos..e], scope, tokens) == Returns(Ok(ts))
    ensures LexStep(expr, scope, pos, tokens) ==
      Next(if e < |expr| then e + 1 else e, PushToken(Peek(expr, e), if Peek(expr, e) == Some('(') then ts else Pop(ts)))
  {
  }

  /** An iteration at a run whose `parse_implicit` fails or diverges. */
  lemma LexStepFails(expr: string, scope: Scopes.Scope, pos: nat, tokens: seq<Token>, e: nat)
    requires pos < |expr| && e == SpanEnd(expr, pos, IsRunChar)
    requires e > pos && !(Peek(expr, e) == Some('(') && ResolveFn(expr[pos..e], scope).Ok?)
    requires !Implicit(expr[pos..e], scope, tokens).Returns? || Implicit(expr[pos..e], scope, tokens).result.Err?
    ensures LexStep(expr, scope, pos, tokens) == Stop(Implicit(expr[pos..e], scope, tokens))
  {
  }

  method Tokenize(expr: string, scope: Scopes.Scope) returns (r: Outcome<seq<Token>>)
    ensures r == Lex(expr, scope)
  {
    ghost var goal := Lex(expr, scope);
    var pos := 0;
    var tokens: seq<Token> := [];
    while pos < |expr|
      invariant pos <= |expr|
      invariant LexFrom(expr, scope, pos, tokens) == goal
      decreases |expr| - pos
    {
      ghost var pos0, tokens0 := pos, tokens;
      var temp, e := ConsumeWhile(expr, pos, IsRunChar);
      pos := e;
      if temp != [] {
        if Peek(expr, pos) == Some('(') && ResolveFn(temp, scope).Ok? {
          tokens := tokens + [Token.Function(temp)];
          LexStepFunction(expr, scope, pos0, tokens0, e);
          LexFromNext(expr, scope, pos0, tokens0, pos, tokens);
          continue;
        } else {
          var lexed := ParseImplicit(temp, scope, tokens);
          if lexed.Diverges? || lexed.result.Err? {
            LexStepFails(expr, scope, pos0, tokens0, e);
            LexFromStop(expr, scope, pos0, tokens0, lexed);
            return lexed;
          }
          LexStepOperand(expr, scope, pos0, tokens0, e, lexed.result.value);
          tokens := lexed.result.value;
          if Peek(expr, pos) != Some('(') {
            tokens := Pop(tokens);
          }
        }
      } else {
        LexStepNoRun(expr, scope, pos0, tokens0);
      }
      tokens := PushToken(Peek(expr, pos), tokens);
      if pos < |expr| {
        pos := pos + 1;
      }
      LexFromNext(expr, scope, pos0, tokens0, pos, tokens);
    }
    r := Returns(Ok(tokens));
  }
}
