/** Properties of the lexer model. */
module LexerFacts {
  import opened Options
  import opened Errors
  import opened Operators
  import opened Tokens
  import opened Resolve
  import opened Util
  import opened Lexer
  import Scopes

  const Mul: Token := Operator(Multiply)

  // ------------------------------------------------------------------ get_token

  /** `-` is a sign after a separator, a function name, an operator or nothing, and otherwise a subtraction. */
  lemma MinusRule(t: seq<Token>)
    ensures (|t| == 0 || Last(t).Comma? || Last(t).LeftParenthesis? || Last(t).Function? || Last(t).Operator?) ==>
      PushToken(Some('-'), t) == t + [Number(MinusOne), Mul]
    ensures |t| > 0 && (Last(t).Number? || Last(t).Variable? || Last(t).RightParenthesis?) ==>
      PushToken(Some('-'), t) == t + [Operator(Substract)]
  {
  }

  /** `=` completes `!`, `>` and `<` into two-character operators, is absorbed by `==`, and is `==` otherwise. */
  lemma EqualsRule(t: seq<Token>)
    ensures LastToken(t) == Some(Operator(Not)) ==> PushToken(Some('='), t) == Pop(t) + [Operator(IsNotEqualTo)]
    ensures LastToken(t) == Some(Operator(IsGreaterThan)) ==>
      PushToken(Some('='), t) == Pop(t) + [Operator(IsGreaterThanOrEqualTo)]
    ensures LastToken(t) == Some(Operator(IsLessThan)) ==>
      PushToken(Some('='), t) == Pop(t) + [Operator(IsLessThanOrEqualTo)]
    ensures LastToken(t) == Some(Operator(IsEqualTo)) ==> PushToken(Some('='), t) == t
    ensures LastToken(t) !in {Some(Operator(Not)), Some(Operator(IsGreaterThan)), Some(Operator(IsLessThan)),
                              Some(Operator(IsEqualTo))} ==>
      PushToken(Some('='), t) == t + [Operator(IsEqualTo)]
  {
  }

  /** The fixed single-character tokens. */
  function CharToken(c: char): Option<Token> {
    match c
    case '+' => Some(Operator(Add))
    case '*' => Some(Operator(Multiply))
    case '/' => Some(Operator(Divide))
    case '^' => Some(Operator(Exponentiate))
    case '>' => Some(Operator(IsGreaterThan))
    case '<' => Some(Operator(IsLessThan))
    case '(' => Some(LeftParenthesis)
    case ')' => Some(RightParenthesis)
    case ',' => Some(Comma)
    case '!' => Some(Operator(Not))
    case _ => None
  }

  /** A character other than `-` and `=` appends its fixed token, or nothing when it has none (a space, say). */
  lemma SingleCharRule(c: char, t: seq<Token>)
    requires c != '-' && c != '='
    ensures CharToken(c).Some? ==> PushToken(Some(c), t) == t + [CharToken(c).value]
    ensures CharToken(c).None? ==> PushToken(Some(c), t) == t
  {
  }

  // --------------------------------------------------------------- resolve_vars

  predicate Resolves(name: string, scope: Scopes.Scope)
    reads scope
  {
    ResolveVar(name, scope).Ok?
  }

  /** Every operand is followed by a `Multiply`: `[operand, *, operand, *, ...]`. */
  predicate OperandPairs(s: seq<Token>)
    decreases |s|
  {
    s == [] || (|s| >= 2 && (s[0].Number? || s[0].Variable?) && s[1] == Mul && OperandPairs(s[2..]))
  }

  /** The letters spelled by the `Variable` tokens of a list, in order. */
  function Spelled(s: seq<Token>): string
    decreases |s|
  {
    if s == [] then [] else (if s[0].Variable? then s[0].name else []) + Spelled(s[1..])
  }

  lemma {:induction false} SpelledAppend(a: seq<Token>, b: seq<Token>)
    ensures Spelled(a + b) == Spelled(a) + Spelled(b)
    decreases |a|
  {
    if a == [] {
      assert a + b == b;
    } else {
      assert (a + b)[0] == a[0];
      assert (a + b)[1..] == a[1..] + b;
      SpelledAppend(a[1..], b);
    }
  }

  lemma {:induction false} OperandPairsAppend(a: seq<Token>, b: seq<Token>)
    requires OperandPairs(a) && OperandPairs(b)
    ensures OperandPairs(a + b)
    decreases |a|
  {
    if a == [] {
      assert a + b == b;
    } else {
      assert (a + b)[0] == a[0] && (a + b)[1] == a[1];
      assert (a + b)[2..] == a[2..] + b;
      OperandPairsAppend(a[2..], b);
    }
  }

  lemma PairSpelled(name: string)
    ensures OperandPairs(VarPair(name)) && Spelled(VarPair(name)) == name
  {
    var p := VarPair(name);
    assert p[1..] == [Mul] && p[1..][1..] == [] && p[2..] == [];
    assert Spelled([Mul]) == [] + Spelled([]);
  }

  /**
   * What the lexer may emit: a `Variable` that resolves or is a single
   * letter, a `Function` that resolves as a function, a `Number` that is
   * the sign `-1.0` or a digit-led literal that parses.
   */
  predicate Sound(t: Token, scope: Scopes.Scope)
    reads scope
  {
    match t
    case Variable(name) => Resolves(name, scope) || |name| == 1
    case Function(name) => ResolveFn(name, scope).Ok?
    case Number(v) => v == MinusOne || (v.text != [] && IsDigit(v.text[0]) && ParsesAsFloat(v.text))
    case _ => true
  }

  predicate SingleLetters(s: seq<Token>) {
    forall k :: 0 <= k < |s| ==> (s[k].Variable? && |s[k].name| == 1) || s[k] == Mul
  }

  lemma {:induction false} SinglesShape(s: string, scope: Scopes.Scope)
    ensures OperandPairs(Singles(s)) && Spelled(Singles(s)) == s && SingleLetters(Singles(s))
    decreases |s|
  {
    if s != [] {
      var init := s[..|s| - 1];
      var pair := VarPair([s[|s| - 1]]);
      SinglesShape(init, scope);
      PairSpelled([s[|s| - 1]]);
      OperandPairsAppend(Singles(init), pair);
      SpelledAppend(Singles(init), pair);
      assert init + [s[|s| - 1]] == s;
      assert Singles(s) == Singles(init) + pair;
      assert SingleLetters(pair);
    }
  }

  predicate AllSound(s: seq<Token>, scope: Scopes.Scope)
    reads scope
  {
    forall k :: 0 <= k < |s| ==> Sound(s[k], scope)
  }

  /**
   * `resolve_vars` emits operand/`Multiply` pairs whose names spell the
   * letters it was given, each name resolving or being a single letter.
   */
  /** A resolving name put in front of sound pairs spelling `rest`. */
  lemma ResolvedPairShape(candidate: string, out: seq<Token>, scope: Scopes.Scope)
    requires Resolves(candidate, scope) && OperandPairs(out) && AllSound(out, scope)
    ensures OperandPairs(VarPair(candidate) + out) && AllSound(VarPair(candidate) + out, scope)
    ensures Spelled(VarPair(candidate) + out) == candidate + Spelled(out)
  {
    PairSpelled(candidate);
    OperandPairsAppend(VarPair(candidate), out);
    SpelledAppend(VarPair(candidate), out);
    assert AllSound(VarPair(candidate), scope);
    AllSoundAppend(VarPair(candidate), out, scope);
  }

  /**
   * `resolve_vars` emits operand/`Multiply` pairs whose names spell the
   * letters it was given, each name resolving or being a single letter.
   */
  lemma {:induction false} VarTokensFromShape(run: string, scope: Scopes.Scope, j: nat, pending: string)
    requires j <= |run|
    ensures var out := VarTokensFrom(run, scope, j, pending);
      OperandPairs(out) && Spelled(out) == pending + run[j..] && AllSound(out, scope) &&
      (pending != [] || j < |run| ==> |out| >= 2)
    decreases |run| - j
  {
    if j < |run| {
      var candidate := pending + [run[j]];
      assert candidate + run[j + 1..] == pending + run[j..];
      if Resolves(candidate, scope) {
        VarTokensFromShape(run, scope, j + 1, []);
        var rest := VarTokensFrom(run, scope, j + 1, []);
        assert VarTokensFrom(run, scope, j, pending) == VarPair(candidate) + rest;
        ResolvedPairShape(candidate, rest, scope);
        assert [] + run[j + 1..] == run[j + 1..];
      } else {
        VarTokensFromShape(run, scope, j + 1, candidate);
      }
    } else {
      SinglesShape(pending, scope);
      assert run[j..] == [];
      assert AllSound(Singles(pending), scope);
    }
  }

  /** The whole contract of `resolve_vars` on a nonempty run, stated on its result. */
  lemma VarTokensShape(run: string, scope: Scopes.Scope)
    ensures var out := VarTokens(run, scope);
      OperandPairs(out) && Spelled(out) == run &&
      AllSound(out, scope) && (run != [] ==> |out| >= 2)
  {
    VarTokensFromShape(run, scope, 0, []);
    assert run[0..] == run;
  }

  /** `run[..j]` is pending and no longer prefix resolved: scanning on finds the first one that does. */
  lemma {:induction false} FirstMatchFrom(run: string, scope: Scopes.Scope, j: nat, k: nat)
    requires j < k <= |run|
    requires Resolves(run[..k], scope)
    requires forall m :: j < m < k ==> !Resolves(run[..m], scope)
    ensures VarTokensFrom(run, scope, j, run[..j]) == VarPair(run[..k]) + VarTokensFrom(run, scope, k, [])
    decreases k - j
  {
    assert run[..j] + [run[j]] == run[..j + 1];
    if j + 1 < k {
      FirstMatchFrom(run, scope, j + 1, k);
    }
  }

  lemma {:induction false} NoMatchFrom(run: string, scope: Scopes.Scope, j: nat)
    requires j <= |run|
    requires forall m :: j < m <= |run| ==> !Resolves(run[..m], scope)
    ensures VarTokensFrom(run, scope, j, run[..j]) == Singles(run)
    decreases |run| - j
  {
    if j < |run| {
      assert run[..j] + [run[j]] == run[..j + 1];
      NoMatchFrom(run, scope, j + 1);
    } else {
      assert run[..j] == run;
    }
  }

  /** Scanning a run from a later start is scanning its suffix. */
  lemma {:induction false} VarTokensShift(run: string, scope: Scopes.Scope, i: nat, j: nat, pending: string)
    requires i <= j <= |run|
    ensures VarTokensFrom(run, scope, j, pending) == VarTokensFrom(run[i..], scope, j - i, pending)
    decreases |run| - j
  {
    if j < |run| {
      assert run[i..][j - i] == run[j];
      var candidate := pending + [run[j]];
      if Resolves(candidate, scope) {
        VarTokensShift(run, scope, i, j + 1, []);
      } else {
        VarTokensShift(run, scope, i, j + 1, candidate);
      }
    }
  }

  /**
   * Greedy splitting commits to the SHORTEST prefix that resolves: it is
   * emitted as one variable and scanning restarts after it.
   */
  lemma VarTokensFirstMatch(run: string, scope: Scopes.Scope, k: nat)
    requires 0 < k <= |run|
    requires Resolves(run[..k], scope)
    requires forall m :: 0 < m < k ==> !Resolves(run[..m], scope)
    ensures VarTokens(run, scope) == VarPair(run[..k]) + VarTokens(run[k..], scope)
  {
    assert run[..0] == [];
    FirstMatchFrom(run, scope, 0, k);
    VarTokensShift(run, scope, k, k, []);
  }

  /** When no prefix resolves, every letter becomes its own variable. */
  lemma VarTokensNoMatch(run: string, scope: Scopes.Scope)
    requires forall m :: 0 < m <= |run| ==> !Resolves(run[..m], scope)
    ensures VarTokens(run, scope) == Singles(run)
  {
    assert run[..0] == [];
    NoMatchFrom(run, scope, 0);
  }

  // ------------------------------------------------------------- parse_implicit

  lemma {:induction false} OperandPairsEndInMultiply(s: seq<Token>)
    requires OperandPairs(s) && s != []
    ensures Last(s) == Mul
    decreases |s|
  {
    if |s| > 2 {
      OperandPairsEndInMultiply(s[2..]);
      assert Last(s) == Last(s[2..]);
    }
  }

  lemma AllSoundAppend(a: seq<Token>, b: seq<Token>, scope: Scopes.Scope)
    requires AllSound(a, scope) && AllSound(b, scope)
    ensures AllSound(a + b, scope)
  {
    forall k | 0 <= k < |a + b|
      ensures Sound((a + b)[k], scope)
    {
      if k < |a| { assert (a + b)[k] == a[k]; } else { assert (a + b)[k] == b[k - |a|]; }
    }
  }

  /** `acc` is `base` followed by sound operand/`Multiply` pairs. */
  predicate Shaped(acc: seq<Token>, base: seq<Token>, scope: Scopes.Scope)
    reads scope
  {
    |acc| >= |base| && acc[..|base|] == base && OperandPairs(acc[|base|..]) && AllSound(acc[|base|..], scope)
  }

  /** `base` followed by sound pairs is `Shaped` over `base`. */
  lemma ShapedConcat(base: seq<Token>, tail: seq<Token>, scope: Scopes.Scope)
    requires OperandPairs(tail) && AllSound(tail, scope)
    ensures Shaped(base + tail, base, scope)
  {
    assert (base + tail)[..|base|] == base;
    assert (base + tail)[|base|..] == tail;
  }

  /** The pair `parse_implicit` pushes for a number literal that parses. */
  lemma NumberPairShape(num: string, scope: Scopes.Scope)
    requires num != [] && IsDigit(num[0]) && ParsesAsFloat(num)
    ensures OperandPairs([Number(NumericLiteral(num)), Operator(Multiply)])
    ensures AllSound([Number(NumericLiteral(num)), Operator(Multiply)], scope)
  {
    var pair := [Number(NumericLiteral(num)), Operator(Multiply)];
    assert pair[2..] == [];
    assert Sound(pair[0], scope);
  }

  /** A number literal that parses extends the pairs after `base` by one. */
  lemma ImplicitNumberShape(run: string, scope: Scopes.Scope, i: nat, base: seq<Token>, tail: seq<Token>, e: nat, pair: seq<Token>)
    requires i < |run| && IsDigit(run[i]) && e == SpanEnd(run, i, IsNumeralChar) && ParsesAsFloat(run[i..e])
    requires pair == [Number(NumericLiteral(run[i..e])), Operator(Multiply)]
    requires OperandPairs(tail) && AllSound(tail, scope)
    ensures OperandPairs(tail + pair) && AllSound(tail + pair, scope)
    ensures ImplicitFrom(run, scope, i, base + tail) == ImplicitFrom(run, scope, e, base + (tail + pair))
  {
    ImplicitNumberStep(run, scope, i, base + tail, e);
    NumberPairShape(run[i..e], scope);
    OperandPairsAppend(tail, pair);
    AllSoundAppend(tail, pair, scope);
    assert base + tail + pair == base + (tail + pair);
  }

  /** A run of letters extends the pairs after `base` by the pairs of `resolve_vars`. */
  lemma ImplicitLetterShape(run: string, scope: Scopes.Scope, i: nat, base: seq<Token>, tail: seq<Token>, e: nat, vars: seq<Token>)
    requires i < |run| && IsAlphabetic(run[i]) && e == SpanEnd(run, i, IsAlphabetic)
    requires vars == VarTokens(run[i..e], scope)
    requires OperandPairs(tail) && AllSound(tail, scope)
    ensures OperandPairs(tail + vars) && AllSound(tail + vars, scope) && |vars| >= 2
    ensures ImplicitFrom(run, scope, i, base + tail) == ImplicitFrom(run, scope, if e < |run| then e + 1 else e, base + (tail + vars))
  {
    ImplicitLetterStep(run, scope, i, base + tail, e);
    VarTokensShape(run[i..e], scope);
    OperandPairsAppend(tail, vars);
    AllSoundAppend(tail, vars, scope);
    assert base + tail + vars == base + (tail + vars);
  }

  lemma {:induction false} ImplicitFromShape(run: string, scope: Scopes.Scope, i: nat, base: seq<Token>, tail: seq<Token>)
    requires i <= |run| && OperandPairs(tail) && AllSound(tail, scope)
    ensures var o := ImplicitFrom(run, scope, i, base + tail);
      o.Returns? && o.result.Ok? ==>
        Shaped(o.result.value, base, scope) && (i < |run| ==> |o.result.value| >= |base| + |tail| + 2)
    decreases |run| - i
  {
    if i < |run| && IsDigit(run[i]) {
      var e := SpanEnd(run, i, IsNumeralChar);
      ImplicitNumberStep(run, scope, i, base + tail, e);
      if ParsesAsFloat(run[i..e]) {
        var pair := [Number(NumericLiteral(run[i..e])), Operator(Multiply)];
        ImplicitNumberShape(run, scope, i, base, tail, e, pair);
        ImplicitFromShape(run, scope, e, base, tail + pair);
      }
    } else if i < |run| && IsAlphabetic(run[i]) {
      var e := SpanEnd(run, i, IsAlphabetic);
      var vars := VarTokens(run[i..e], scope);
      ImplicitLetterShape(run, scope, i, base, tail, e, vars);
      ImplicitFromShape(run, scope, if e < |run| then e + 1 else e, base, tail + vars);
    } else if i == |run| {
      ShapedConcat(base, tail, scope);
    }
  }

  /**
   * `parse_implicit` on a nonempty run: a leading `Multiply` after a
   * `RightParenthesis`, then every number and variable followed by a
   * `Multiply`.
   */
  lemma ImplicitShape(run: string, scope: Scopes.Scope, tokens: seq<Token>)
    requires run != []
    ensures var o := Implicit(run, scope, tokens);
      o.Returns? && o.result.Ok? ==>
        var ts, start := o.result.value, AfterParen(tokens);
        |ts| >= |start| + 2 && ts[..|start|] == start &&
        OperandPairs(ts[|start|..]) && AllSound(ts[|start|..], scope) && Last(ts) == Mul
  {
    var start := AfterParen(tokens);
    assert start + [] == start;
    ImplicitFromShape(run, scope, 0, start, []);
    var o := Implicit(run, scope, tokens);
    if o.Returns? && o.result.Ok? {
      var ts := o.result.value;
      OperandPairsEndInMultiply(ts[|start|..]);
      assert Last(ts) == Last(ts[|start|..]);
    }
  }

  // ------------------------------------------------------------------- tokenize

  /** A `(` that starts no run becomes `LeftParenthesis`. */
  lemma ParenStep(expr: string, scope: Scopes.Scope, pos: nat, tokens: seq<Token>)
    requires pos < |expr| && expr[pos] == '('
    ensures LexFrom(expr, scope, pos, tokens) == LexFrom(expr, scope, pos + 1, tokens + [LeftParenthesis])
  {
    assert !IsRunChar(expr[pos]);
    LexStepNoRun(expr, scope, pos, tokens);
    SingleCharRule('(', tokens);
    LexFromNext(expr, scope, pos, tokens, pos + 1, tokens + [LeftParenthesis]);
  }

  /** A run before `(` that names a function: `Function(run)`, then the `(` as `LeftParenthesis`. */
  lemma FunctionRun(expr: string, scope: Scopes.Scope, pos: nat, tokens: seq<Token>, e: nat)
    requires pos < |expr| && e == SpanEnd(expr, pos, IsRunChar)
    requires e > pos && Peek(expr, e) == Some('(') && ResolveFn(expr[pos..e], scope).Ok?
    ensures LexFrom(expr, scope, pos, tokens) ==
      LexFrom(expr, scope, e + 1, tokens + [Token.Function(expr[pos..e]), LeftParenthesis])
  {
    var t1 := tokens + [Token.Function(expr[pos..e])];
    LexStepFunction(expr, scope, pos, tokens, e);
    LexFromNext(expr, scope, pos, tokens, e, t1);
    assert e < |expr| && expr[e] == '(';
    ParenStep(expr, scope, e, t1);
    assert t1 + [LeftParenthesis] == tokens + [Token.Function(expr[pos..e]), LeftParenthesis];
  }

  /**
   * Any other run: what `parse_implicit` produced, with its trailing
   * `Multiply` dropped unless `(` follows, then the next character's token.
   */
  lemma OperandRun(expr: string, scope: Scopes.Scope, pos: nat, tokens: seq<Token>, e: nat)
    requires pos < |expr| && e == SpanEnd(expr, pos, IsRunChar)
    requires e > pos && !(Peek(expr, e) == Some('(') && ResolveFn(expr[pos..e], scope).Ok?)
    ensures var o := Implicit(expr[pos..e], scope, tokens);
      o.Returns? && o.result.Ok? ==>
        var ts := o.result.value;
        |ts| > 0 && Last(ts) == Mul &&
        LexStep(expr, scope, pos, tokens) ==
          Next(if e < |expr| then e + 1 else e,
               PushToken(Peek(expr, e), if Peek(expr, e) == Some('(') then ts else ts[..|ts| - 1]))
  {
    ImplicitShape(expr[pos..e], scope, tokens);
    var o := Implicit(expr[pos..e], scope, tokens);
    if o.Returns? && o.result.Ok? {
      LexStepOperand(expr, scope, pos, tokens, e, o.result.value);
    }
  }

  /** A run whose `parse_implicit` fails or diverges ends the whole of `tokenize` with that outcome. */
  lemma FailingRun(expr: string, scope: Scopes.Scope, pos: nat, tokens: seq<Token>, e: nat)
    requires pos < |expr| && e == SpanEnd(expr, pos, IsRunChar)
    requires e > pos && !(Peek(expr, e) == Some('(') && ResolveFn(expr[pos..e], scope).Ok?)
    ensures var o := Implicit(expr[pos..e], scope, tokens);
      !(o.Returns? && o.result.Ok?) ==> LexFrom(expr, scope, pos, tokens) == o
  {
    var o := Implicit(expr[pos..e], scope, tokens);
    if !(o.Returns? && o.result.Ok?) {
      LexStepFails(expr, scope, pos, tokens, e);
    }
  }

  /** A character that starts no run is handed to `get_token` and consumed. */
  lemma CharStep(expr: string, scope: Scopes.Scope, pos: nat, tokens: seq<Token>)
    requires pos < |expr| && !IsRunChar(expr[pos])
    ensures LexFrom(expr, scope, pos, tokens) == LexFrom(expr, scope, pos + 1, PushToken(Some(expr[pos]), tokens))
  {
    LexStepNoRun(expr, scope, pos, tokens);
    LexFromNext(expr, scope, pos, tokens, pos + 1, PushToken(Some(expr[pos]), tokens));
  }

  /**
   * `get_token` on the characters of an operator's `Display` symbol, after
   * an operand: the one character, or the two in turn, leave that operator.
   */
  lemma SymbolTokens(op: Operator, tokens: seq<Token>)
    requires tokens != [] && (Last(tokens).Number? || Last(tokens).Variable? || Last(tokens) == RightParenthesis)
    ensures forall k :: 0 <= k < |Symbol(op)| ==> !IsRunChar(Symbol(op)[k])
    ensures |Symbol(op)| == 1 ==> PushToken(Some(Symbol(op)[0]), tokens) == tokens + [Operator(op)]
    ensures |Symbol(op)| == 2 ==>
      PushToken(Some(Symbol(op)[1]), PushToken(Some(Symbol(op)[0]), tokens)) == tokens + [Operator(op)]
  {
    var t := tokens;
    assert SignContext(LastToken(t)) == false;
    match op
    case Add => assert PushToken(Some('+'), t) == t + [Operator(Add)];
    case Substract => assert PushToken(Some('-'), t) == t + [Operator(Substract)];
    case Multiply => assert PushToken(Some('*'), t) == t + [Operator(Multiply)];
    case Divide => assert PushToken(Some('/'), t) == t + [Operator(Divide)];
    case Exponentiate => assert PushToken(Some('^'), t) == t + [Operator(Exponentiate)];
    case IsGreaterThan => assert PushToken(Some('>'), t) == t + [Operator(IsGreaterThan)];
    case IsLessThan => assert PushToken(Some('<'), t) == t + [Operator(IsLessThan)];
    case Not => assert PushToken(Some('!'), t) == t + [Operator(Not)];
    case IsGreaterThanOrEqualTo =>
      assert PushToken(Some('>'), t) == t + [Operator(IsGreaterThan)];
      assert PushToken(Some('='), t + [Operator(IsGreaterThan)]) == t + [Operator(IsGreaterThanOrEqualTo)];
    case IsLessThanOrEqualTo =>
      assert PushToken(Some('<'), t) == t + [Operator(IsLessThan)];
      assert PushToken(Some('='), t + [Operator(IsLessThan)]) == t + [Operator(IsLessThanOrEqualTo)];
    case IsEqualTo =>
      assert PushToken(Some('='), t) == t + [Operator(IsEqualTo)];
      assert PushToken(Some('='), t + [Operator(IsEqualTo)]) == t + [Operator(IsEqualTo)];
    case IsNotEqualTo =>
      assert PushToken(Some('!'), t) == t + [Operator(Not)];
      assert PushToken(Some('='), t + [Operator(Not)]) == t + [Operator(IsNotEqualTo)];
  }

  /** One character that starts no run, handed to `get_token`. */
  lemma OneCharLex(expr: string, scope: Scopes.Scope, pos: nat, tokens: seq<Token>, c: char, next: nat, after: seq<Token>)
    requires pos < |expr| && expr[pos] == c && !IsRunChar(c) && PushToken(Some(c), tokens) == after && next == pos + 1
    ensures LexFrom(expr, scope, pos, tokens) == LexFrom(expr, scope, next, after)
  {
    CharStep(expr, scope, pos, tokens);
  }

  /** Two characters that start no run, handed to `get_token` in turn. */
  lemma TwoCharsLex(expr: string, scope: Scopes.Scope, pos: nat, tokens: seq<Token>, c: char, d: char, next: nat, after: seq<Token>)
    requires pos + 1 < |expr| && expr[pos] == c && expr[pos + 1] == d && !IsRunChar(c) && !IsRunChar(d)
    requires PushToken(Some(d), PushToken(Some(c), tokens)) == after && next == pos + 2
    ensures LexFrom(expr, scope, pos, tokens) == LexFrom(expr, scope, next, after)
  {
    CharStep(expr, scope, pos, tokens);
    CharStep(expr, scope, pos + 1, PushToken(Some(c), tokens));
  }

  /**
   * `Display` and `get_token` agree: the symbol of any operator, written
   * after an operand, is read back as that operator, the two-character
   * symbols included.
   */
  lemma SymbolLexes(expr: string, scope: Scopes.Scope, pos: nat, tokens: seq<Token>, op: Operator)
    requires pos + |Symbol(op)| <= |expr| && expr[pos..pos + |Symbol(op)|] == Symbol(op)
    requires tokens != [] && (Last(tokens).Number? || Last(tokens).Variable? || Last(tokens) == RightParenthesis)
    ensures LexFrom(expr, scope, pos, tokens) == LexFrom(expr, scope, pos + |Symbol(op)|, tokens + [Operator(op)])
  {
    var sym := Symbol(op);
    SymbolTokens(op, tokens);
    assert expr[pos] == sym[0];
    if |sym| == 1 {
      OneCharLex(expr, scope, pos, tokens, sym[0], pos + |Symbol(op)|, tokens + [Operator(op)]);
    } else {
      assert expr[pos + 1] == sym[1];
      TwoCharsLex(expr, scope, pos, tokens, sym[0], sym[1], pos + |Symbol(op)|, tokens + [Operator(op)]);
    }
  }

  lemma PushTokenSound(ch: Option<char>, t: seq<Token>, scope: Scopes.Scope)
    requires AllSound(t, scope)
    ensures AllSound(PushToken(ch, t), scope)
  {
  }

  lemma PopSound(ts: seq<Token>, scope: Scopes.Scope)
    requires AllSound(ts, scope)
    ensures AllSound(Pop(ts), scope)
  {
    if |ts| > 0 {
      assert forall k | 0 <= k < |Pop(ts)| :: Pop(ts)[k] == ts[k];
    }
  }

  /** `parse_implicit` keeps the tokens sound. */
  lemma ImplicitSound(run: string, scope: Scopes.Scope, tokens: seq<Token>, ts: seq<Token>)
    requires run != [] && AllSound(tokens, scope) && Implicit(run, scope, tokens) == Returns(Ok(ts))
    ensures AllSound(ts, scope)
  {
    ImplicitShape(run, scope, tokens);
    var start := AfterParen(tokens);
    assert AllSound(start, scope) by {
      if start != tokens {
        AllSoundAppend(tokens, [Operator(Multiply)], scope);
      }
    }
    assert ts == start + ts[|start|..];
    AllSoundAppend(start, ts[|start|..], scope);
  }

  /** The tokens after a run that `parse_implicit` lexed to `ts` are sound. */
  lemma OperandStepSound(expr: string, scope: Scopes.Scope, pos: nat, tokens: seq<Token>, e: nat, ts: seq<Token>)
    requires pos < |expr| && e == SpanEnd(expr, pos, IsRunChar) && AllSound(tokens, scope)
    requires e > pos && !(Peek(expr, e) == Some('(') && ResolveFn(expr[pos..e], scope).Ok?)
    requires Implicit(expr[pos..e], scope, tokens) == Returns(Ok(ts))
    ensures LexStep(expr, scope, pos, tokens).Next? && AllSound(LexStep(expr, scope, pos, tokens).tokens, scope)
  {
    ImplicitSound(expr[pos..e], scope, tokens, ts);
    LexStepOperand(expr, scope, pos, tokens, e, ts);
    PopSound(ts, scope);
    var kept := if Peek(expr, e) == Some('(') then ts else Pop(ts);
    PushTokenSound(Peek(expr, e), kept, scope);
  }

  /** One iteration of `tokenize` keeps the tokens sound. */
  lemma StepSound(expr: string, scope: Scopes.Scope, pos: nat, tokens: seq<Token>)
    requires pos < |expr| && AllSound(tokens, scope)
    ensures LexStep(expr, scope, pos, tokens).Next? ==> AllSound(LexStep(expr, scope, pos, tokens).tokens, scope)
  {
    var e := SpanEnd(expr, pos, IsRunChar);
    var temp := expr[pos..e];
    if e == pos {
      LexStepNoRun(expr, scope, pos, tokens);
      PushTokenSound(Some(expr[pos]), tokens, scope);
    } else if Peek(expr, e) == Some('(') && ResolveFn(temp, scope).Ok? {
      LexStepFunction(expr, scope, pos, tokens, e);
      assert AllSound(tokens + [Token.Function(temp)], scope);
    } else {
      var o := Implicit(temp, scope, tokens);
      if o.Returns? && o.result.Ok? {
        OperandStepSound(expr, scope, pos, tokens, e, o.result.value);
      } else {
        LexStepFails(expr, scope, pos, tokens, e);
      }
    }
  }

  lemma {:induction false} LexFromSound(expr: string, scope: Scopes.Scope, pos: nat, tokens: seq<Token>)
    requires pos <= |expr| && AllSound(tokens, scope)
    ensures var o := LexFrom(expr, scope, pos, tokens);
      o.Returns? && o.result.Ok? ==> AllSound(o.result.value, scope)
    decreases |expr| - pos
  {
    if pos < |expr| {
      StepSound(expr, scope, pos, tokens);
      match LexStep(expr, scope, pos, tokens)
      case Next(pos', tokens') =>
        LexFromNext(expr, scope, pos, tokens, pos', tokens');
        LexFromSound(expr, scope, pos', tokens');
      case Stop(outcome) =>
        LexFromStop(expr, scope, pos, tokens, outcome);
    }
  }

  /**
   * Everything `tokenize` emits is sound: function names resolve as
   * functions, variable names resolve or are single letters, and numbers
   * are `-1.0` or valid literals.
   */
  lemma LexSound(expr: string, scope: Scopes.Scope)
    ensures var o := Lex(expr, scope);
      o.Returns? && o.result.Ok? ==> AllSound(o.result.value, scope)
  {
    LexFromSound(expr, scope, 0, []);
  }
}
