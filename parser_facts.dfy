/**
 * Properties of the parser model: every node the parser builds is well
 * formed, what each stack operation leaves behind, and the parse of the
 * classic precedence example.
 */
module ParserFacts {
  import opened Errors
  import opened Operators
  import opened Tokens
  import opened Parser

  /**
   * A node as the parser builds it: an operator node has exactly its
   * operand count of arguments, a function node at least one, numbers,
   * variables and comma markers are leaves, and parentheses never become
   * nodes.
   */
  predicate WellFormed(n: Node)
    decreases n
  {
    match n.token
    case Operator(op) => |n.args| == NumOperands(op) && forall a | a in n.args :: WellFormed(a)
    case Function(_) => |n.args| >= 1 && forall a | a in n.args :: WellFormed(a)
    case LeftParenthesis => false
    case RightParenthesis => false
    case _ => n.args == []
  }

  predicate AllWellFormed(nodes: seq<Node>) {
    forall k | 0 <= k < |nodes| :: WellFormed(nodes[k])
  }

  lemma AllWellFormedSlice(nodes: seq<Node>, i: nat, j: nat)
    requires AllWellFormed(nodes) && i <= j <= |nodes|
    ensures AllWellFormed(nodes[i..j])
    ensures forall a | a in nodes[i..j] :: WellFormed(a)
  {
    forall a | a in nodes[i..j]
      ensures WellFormed(a)
    {
      var k :| 0 <= k < j - i && nodes[i..j][k] == a;
      assert nodes[i + k] == a;
    }
  }

  // ---------------------------------------------------------------- add_operator

  lemma AddOperatorWellFormed(op: Operator, operands: seq<Node>)
    requires AllWellFormed(operands)
    ensures AddOperator(op, operands).Ok? ==> AllWellFormed(AddOperator(op, operands).value)
  {
    if |operands| >= NumOperands(op) {
      var k := |operands| - NumOperands(op);
      AllWellFormedSlice(operands, k, |operands|);
      AllWellFormedSlice(operands, 0, k);
      var r := AddOperator(op, operands).value;
      assert r == operands[..k] + [Node(Operator(op), operands[k..])];
    }
  }

  // -------------------------------------------------------------- encounter_func

  /**
   * `segment` is the part of the operand stack that a function consumed:
   * its arguments at even positions, separated by comma markers.
   */
  predicate Interleaves(segment: seq<Node>, args: seq<Node>) {
    |args| >= 1 && |segment| == 2 * |args| - 1 &&
    (forall i | 0 <= i < |args| :: segment[2 * i] == args[i]) &&
    (forall i | 0 <= i < |args| - 1 :: segment[2 * i + 1].token.Comma?)
  }

  lemma InterleavesCons(x: Node, c: Node, segment: seq<Node>, args: seq<Node>)
    requires Interleaves(segment, args) && c.token.Comma?
    ensures Interleaves([x, c] + segment, [x] + args)
  {
    var s, a := [x, c] + segment, [x] + args;
    forall i | 0 <= i < |a|
      ensures s[2 * i] == a[i]
    {
      if i > 0 {
        assert s[2 * i] == segment[2 * (i - 1)];
      }
    }
    forall i | 0 <= i < |a| - 1
      ensures s[2 * i + 1].token.Comma?
    {
      if i > 0 {
        assert s[2 * i + 1] == segment[2 * (i - 1) + 1];
      }
    }
  }

  /**
   * `r` is what the collection loop leaves of `rest` and `a` what it took,
   * `segment` being the part of the stack it has already consumed: `r` is
   * a prefix of `rest` not ending in a comma marker, and the rest of the
   * stack is the arguments separated by comma markers.
   */
  predicate Gathered(rest: seq<Node>, segment: seq<Node>, r: seq<Node>, a: seq<Node>) {
    |r| <= |rest| && r == rest[..|r|] && (r == [] || !Last(r).token.Comma?) &&
    Interleaves((rest + segment)[|r|..], a)
  }

  /** Taking one argument and its comma marker off the top keeps `Gathered`. */
  lemma GatheredStep(rest: seq<Node>, segment: seq<Node>, below: seq<Node>, x: Node, c: Node, r: seq<Node>, a: seq<Node>)
    requires rest == below + [x, c] && Gathered(below, [x, c] + segment, r, a)
    ensures Gathered(rest, segment, r, a)
  {
    assert below + ([x, c] + segment) == rest + segment;
    assert rest[..|r|] == below[..|r|];
  }

  /**
   * The collection loop stops at the first operand that is not a comma
   * marker: what it leaves is a prefix of the stack, and what it took is
   * the arguments separated by comma markers.
   */
  lemma {:induction false} GatherShape(f: string, rest: seq<Node>, segment: seq<Node>, args: seq<Node>)
    requires Interleaves(segment, args)
    ensures GatherFrom(f, rest, args).Ok? ==>
      Gathered(rest, segment, GatherFrom(f, rest, args).value.0, GatherFrom(f, rest, args).value.1)
    ensures GatherFrom(f, rest, args).Err? ==>
      GatherFrom(f, rest, args).error == FunctionSyntaxError(f) && rest != [] && rest[0].token.Comma?
    decreases |rest|
  {
    if rest == [] || !Last(rest).token.Comma? {
      assert (rest + segment)[|rest|..] == segment;
      assert rest[..|rest|] == rest;
    } else if |rest| == 1 {
    } else {
      var below := rest[..|rest| - 2];
      var x, c := rest[|rest| - 2], rest[|rest| - 1];
      assert rest == below + [x, c];
      InterleavesCons(x, c, segment, args);
      GatherShape(f, below, [x, c] + segment, [x] + args);
      assert GatherFrom(f, rest, args) == GatherFrom(f, below, [x] + args);
      if GatherFrom(f, rest, args).Ok? {
        var (r, a) := GatherFrom(f, rest, args).value;
        GatheredStep(rest, segment, below, x, c, r, a);
      }
    }
  }

  /** `encounter_func` fails for lack of a first argument exactly when the operand stack is empty. */
  lemma CollectFunctionNeedsOperand(f: string, operands: seq<Node>)
    ensures CollectFunction(f, operands) == Err(NotEnoughFunctionParams(f)) <==> operands == []
  {
    if operands != [] {
      GatherShape(f, Init(operands), [Last(operands)], [Last(operands)]);
    }
  }

  /**
   * What `encounter_func` builds: a `Function(f)` node on top of an
   * untouched prefix of the stack, whose arguments are the nodes it took,
   * in order, without their comma markers; a trailing comma marker at the
   * bottom of the stack is a `FunctionSyntaxError`.
   */
  lemma CollectFunctionShape(f: string, operands: seq<Node>)
    ensures CollectFunction(f, operands).Ok? ==>
      var r := CollectFunction(f, operands).value;
      |r| >= 1 && Last(r).token == Token.Function(f) &&
      |Init(r)| < |operands| && Init(r) == operands[..|Init(r)|] &&
      (Init(r) == [] || !Last(Init(r)).token.Comma?) &&
      Interleaves(operands[|Init(r)|..], Last(r).args)
    ensures CollectFunction(f, operands).Err? ==>
      CollectFunction(f, operands).error == NotEnoughFunctionParams(f) ||
      (CollectFunction(f, operands).error == FunctionSyntaxError(f) && operands[0].token.Comma?)
  {
    if operands != [] {
      var segment := [Last(operands)];
      GatherShape(f, Init(operands), segment, segment);
      assert Init(operands) + segment == operands;
      if CollectFunction(f, operands).Ok? {
        var (rest, args) := GatherFrom(f, Init(operands), segment).value;
        var r := CollectFunction(f, operands).value;
        assert r == rest + [Node(Token.Function(f), args)];
        assert Init(r) == rest;
      }
    }
  }

  lemma {:induction false} GatherWellFormed(f: string, rest: seq<Node>, args: seq<Node>)
    requires AllWellFormed(rest) && AllWellFormed(args) && |args| >= 1
    ensures GatherFrom(f, rest, args).Ok? ==>
      AllWellFormed(GatherFrom(f, rest, args).value.0) &&
      AllWellFormed(GatherFrom(f, rest, args).value.1) && |GatherFrom(f, rest, args).value.1| >= 1
    decreases |rest|
  {
    if rest == [] || !Last(rest).token.Comma? {
    } else if |rest| == 1 {
    } else {
      var x := rest[|rest| - 2];
      assert WellFormed(x);
      AllWellFormedSlice(rest, 0, |rest| - 2);
      assert AllWellFormed([x] + args);
      GatherWellFormed(f, rest[..|rest| - 2], [x] + args);
    }
  }

  lemma CollectFunctionWellFormed(f: string, operands: seq<Node>)
    requires AllWellFormed(operands)
    ensures CollectFunction(f, operands).Ok? ==> AllWellFormed(CollectFunction(f, operands).value)
  {
    if operands != [] {
      AllWellFormedSlice(operands, 0, |operands| - 1);
      GatherWellFormed(f, Init(operands), [Last(operands)]);
      if CollectFunction(f, operands).Ok? {
        var (rest, args) := GatherFrom(f, Init(operands), [Last(operands)]).value;
        AllWellFormedSlice(args, 0, |args|);
        assert args[..] == args;
        assert WellFormed(Node(Token.Function(f), args));
      }
    }
  }

  // ---------------------------------------------------------- encounter_operator

  /** Whether `encounter_operator` pops `top` off the operator stack before pushing `cur`. */
  predicate Pops(top: Token, cur: Operator) {
    top.Function? || (top.Operator? && ShouldReduce(top.op, cur))
  }

  /**
   * `kept` is what remains of `ops` once the longest run of tokens that
   * `cur` pops has been removed from its top.
   */
  predicate ReducedTo(ops: seq<Token>, kept: seq<Token>, cur: Operator) {
    |kept| <= |ops| && kept == ops[..|kept|] &&
    (|kept| == 0 || !Pops(ops[|kept| - 1], cur)) &&
    (forall j | |kept| <= j < |ops| :: Pops(ops[j], cur))
  }

  lemma ReducedToExtend(ops: seq<Token>, kept: seq<Token>, cur: Operator)
    requires |ops| > 0 && Pops(Last(ops), cur) && ReducedTo(Init(ops), kept, cur)
    ensures ReducedTo(ops, kept, cur)
  {
  }

  /**
   * The reduction loop removes the longest run of poppable tokens from the
   * top of the operator stack and nothing below it.
   */
  /** In the branches that pop and go on, the reduction of `s` is the reduction of `next`. */
  lemma ReduceShapeStep(cur: Operator, s: Stacks, next: Stacks)
    requires s.operators != [] && Pops(Last(s.operators), cur) && next.operators == Init(s.operators)
    requires ReduceFrom(cur, s) == ReduceFrom(cur, next)
    requires ReduceFrom(cur, next).Ok? ==> ReducedTo(next.operators, ReduceFrom(cur, next).value.operators, cur)
    ensures ReduceFrom(cur, s).Ok? ==> ReducedTo(s.operators, ReduceFrom(cur, s).value.operators, cur)
  {
    if ReduceFrom(cur, s).Ok? {
      ReducedToExtend(s.operators, ReduceFrom(cur, s).value.operators, cur);
    }
  }

  lemma {:induction false} ReduceShape(cur: Operator, s: Stacks)
    ensures ReduceFrom(cur, s).Ok? ==> ReducedTo(s.operators, ReduceFrom(cur, s).value.operators, cur)
    decreases |s.operators|
  {
    if s.operators != [] && Pops(Last(s.operators), cur) {
      var below := Init(s.operators);
      match Last(s.operators)
      case Operator(op) =>
        var o := AddOperator(op, s.operands);
        if o.Ok? {
          var next := Stacks(below, o.value);
          ReduceShape(cur, next);
          assert ReduceFrom(cur, s) == ReduceFrom(cur, next);
          ReduceShapeStep(cur, s, next);
        }
      case Function(f) =>
        var o := CollectFunction(f, s.operands);
        if o.Ok? {
          var next := Stacks(below, o.value);
          ReduceShape(cur, next);
          assert ReduceFrom(cur, s) == ReduceFrom(cur, next);
          ReduceShapeStep(cur, s, next);
        }
    } else if s.operators != [] {
      assert ReduceFrom(cur, s) == Ok(s);
      assert s.operators[..|s.operators|] == s.operators;
    }
  }

  /**
   * `after` is `before` with nodes on its top replaced by no more nodes
   * than were taken: everything under the top of `after` is a prefix of
   * `before` that was left as it was.
   */
  predicate KeepsBelow(before: seq<Node>, after: seq<Node>) {
    |after| <= |before| && (|after| > 0 ==> Init(after) == before[..|after| - 1])
  }

  lemma KeepsBelowTransitive(a: seq<Node>, b: seq<Node>, c: seq<Node>)
    requires KeepsBelow(a, b) && KeepsBelow(b, c)
    ensures KeepsBelow(a, c)
  {
    if |c| > 0 {
      assert Init(c) == b[..|c| - 1] == Init(b)[..|c| - 1];
    }
  }

  /** `add_operator` replaces its operands by one node and leaves the rest of the stack alone. */
  lemma AddOperatorKeepsBelow(op: Operator, operands: seq<Node>)
    ensures AddOperator(op, operands).Ok? ==> KeepsBelow(operands, AddOperator(op, operands).value)
  {
  }

  /** `encounter_func` replaces what it takes by one node and leaves the rest of the stack alone. */
  lemma CollectFunctionKeepsBelow(f: string, operands: seq<Node>)
    ensures CollectFunction(f, operands).Ok? ==> KeepsBelow(operands, CollectFunction(f, operands).value)
  {
    CollectFunctionShape(f, operands);
  }

  /** In the branches that pop and go on, the frame of `next` carries over to `s`. */
  lemma ReduceKeepsStep(cur: Operator, s: Stacks, next: Stacks)
    requires KeepsBelow(s.operands, next.operands)
    requires ReduceFrom(cur, s) == ReduceFrom(cur, next)
    requires ReduceFrom(cur, next).Ok? ==> KeepsBelow(next.operands, ReduceFrom(cur, next).value.operands)
    ensures ReduceFrom(cur, s).Ok? ==> KeepsBelow(s.operands, ReduceFrom(cur, s).value.operands)
  {
    if ReduceFrom(cur, s).Ok? {
      KeepsBelowTransitive(s.operands, next.operands, ReduceFrom(cur, s).value.operands);
    }
  }

  /**
   * The reduction loop of `encounter_operator` only rewrites the top of the
   * operand stack: the operands under the nodes it builds are not touched.
   */
  lemma {:induction false} ReduceKeepsOperands(cur: Operator, s: Stacks)
    ensures ReduceFrom(cur, s).Ok? ==> KeepsBelow(s.operands, ReduceFrom(cur, s).value.operands)
    decreases |s.operators|
  {
    if s.operators != [] && Pops(Last(s.operators), cur) {
      var below := Init(s.operators);
      match Last(s.operators)
      case Operator(op) =>
        var o := AddOperator(op, s.operands);
        if o.Ok? {
          var next := Stacks(below, o.value);
          AddOperatorKeepsBelow(op, s.operands);
          ReduceKeepsOperands(cur, next);
          assert ReduceFrom(cur, s) == ReduceFrom(cur, next);
          ReduceKeepsStep(cur, s, next);
        }
      case Function(f) =>
        var o := CollectFunction(f, s.operands);
        if o.Ok? {
          var next := Stacks(below, o.value);
          CollectFunctionKeepsBelow(f, s.operands);
          ReduceKeepsOperands(cur, next);
          assert ReduceFrom(cur, s) == ReduceFrom(cur, next);
          ReduceKeepsStep(cur, s, next);
        }
    } else if s.operators != [] {
      assert ReduceFrom(cur, s) == Ok(s);
    }
  }

  /**
   * `encounter_operator` pushes `cur` on top of what is left once every
   * tighter-binding operator and every function on top has been popped.
   */
  lemma PushOperatorShape(cur: Operator, s: Stacks)
    ensures PushOperator(cur, s).Ok? ==>
      var ops := PushOperator(cur, s).value.operators;
      |ops| >= 1 && Last(ops) == Operator(cur) && ReducedTo(s.operators, Init(ops), cur)
  {
    ReduceShape(cur, s);
    if PushOperator(cur, s).Ok? {
      var ops := PushOperator(cur, s).value.operators;
      assert Init(ops) == ReduceFrom(cur, s).value.operators;
    }
  }

  lemma {:induction false} ReduceFromWellFormed(cur: Operator, s: Stacks)
    requires AllWellFormed(s.operands)
    ensures ReduceFrom(cur, s).Ok? ==> AllWellFormed(ReduceFrom(cur, s).value.operands)
    decreases |s.operators|
  {
    if s.operators != [] {
      var below := Init(s.operators);
      match Last(s.operators)
      case Operator(op) =>
        if ShouldReduce(op, cur) && AddOperator(op, s.operands).Ok? {
          AddOperatorWellFormed(op, s.operands);
          ReduceFromWellFormed(cur, Stacks(below, AddOperator(op, s.operands).value));
        }
      case Function(f) =>
        if CollectFunction(f, s.operands).Ok? {
          CollectFunctionWellFormed(f, s.operands);
          ReduceFromWellFormed(cur, Stacks(below, CollectFunction(f, s.operands).value));
        }
      case _ =>
    }
  }

  // ----------------------------------------------------------------- right_paren

  /** `right_paren` stops once it has popped the `LeftParenthesis` at `j`. */
  predicate Closes(ops: seq<Token>, j: nat)
    requires j < |ops|
  {
    ops[j] == LeftParenthesis && (j == 0 || !ops[j - 1].Function?)
  }

  /**
   * `m` is where `right_paren` stops on `ops`: no parenthesis above `m`
   * stops it, and it stops at `m` or, finding none, empties the stack.
   */
  predicate ClosedAt(ops: seq<Token>, m: nat) {
    m <= |ops| &&
    (forall j | m < j < |ops| :: !Closes(ops, j)) &&
    ((m < |ops| && Closes(ops, m)) || (m == 0 && forall j | 0 <= j < |ops| :: !Closes(ops, j)))
  }

  /** A top token that does not stop `right_paren` leaves its stopping point where it was. */
  lemma ClosedAtExtend(ops: seq<Token>, m: nat)
    requires |ops| > 0 && ClosedAt(Init(ops), m) && !Closes(ops, |ops| - 1)
    ensures ClosedAt(ops, m)
  {
    var below := Init(ops);
    assert forall j | 0 <= j < |below| :: Closes(below, j) == Closes(ops, j);
  }

  /** In the branches that pop and go on, `right_paren` on `s` is `right_paren` on `next`. */
  lemma CloseShapeStep(s: Stacks, next: Stacks)
    requires s.operators != [] && next.operators == Init(s.operators) && !Closes(s.operators, |s.operators| - 1)
    requires CloseFrom(s) == CloseFrom(next)
    requires CloseFrom(next).Ok? ==>
      var m := |CloseFrom(next).value.operators|;
      ClosedAt(next.operators, m) && CloseFrom(next).value.operators == next.operators[..m]
    ensures CloseFrom(s).Ok? ==>
      var m := |CloseFrom(s).value.operators|;
      ClosedAt(s.operators, m) && CloseFrom(s).value.operators == s.operators[..m]
  {
    if CloseFrom(s).Ok? {
      var m := |CloseFrom(s).value.operators|;
      ClosedAtExtend(s.operators, m);
      assert Init(s.operators)[..m] == s.operators[..m];
    }
  }

  /**
   * `right_paren` pops down to and including the topmost left parenthesis
   * that does not open a function call, or empties the stack when there is
   * none; a parenthesis that opens a call does not stop it.
   */
  lemma {:induction false} CloseShape(s: Stacks)
    ensures CloseFrom(s).Ok? ==>
      var m := |CloseFrom(s).value.operators|;
      ClosedAt(s.operators, m) && CloseFrom(s).value.operators == s.operators[..m]
    decreases |s.operators|
  {
    if s.operators != [] {
      var ops := s.operators;
      var below := Init(ops);
      match Last(ops)
      case LeftParenthesis =>
        if below != [] && Last(below).Function? {
          var next := Stacks(below, s.operands);
          CloseShape(next);
          assert CloseFrom(s) == CloseFrom(next);
          CloseShapeStep(s, next);
        } else {
          assert CloseFrom(s) == Ok(Stacks(below, s.operands));
          assert Closes(ops, |ops| - 1);
        }
      case Function(f) =>
        if CollectFunction(f, s.operands).Ok? {
          var next := Stacks(below, CollectFunction(f, s.operands).value);
          CloseShape(next);
          assert CloseFrom(s) == CloseFrom(next);
          CloseShapeStep(s, next);
        }
      case Operator(op) =>
        if AddOperator(op, s.operands).Ok? {
          var next := Stacks(below, AddOperator(op, s.operands).value);
          CloseShape(next);
          assert CloseFrom(s) == CloseFrom(next);
          CloseShapeStep(s, next);
        }
      case _ =>
        var next := Stacks(below, s.operands);
        CloseShape(next);
        assert CloseFrom(s) == CloseFrom(next);
        CloseShapeStep(s, next);
    }
  }

  /** In the branches that pop and go on, the frame of `next` carries over to `s`. */
  lemma CloseKeepsStep(s: Stacks, next: Stacks)
    requires KeepsBelow(s.operands, next.operands)
    requires CloseFrom(s) == CloseFrom(next)
    requires CloseFrom(next).Ok? ==> KeepsBelow(next.operands, CloseFrom(next).value.operands)
    ensures CloseFrom(s).Ok? ==> KeepsBelow(s.operands, CloseFrom(s).value.operands)
  {
    if CloseFrom(s).Ok? {
      KeepsBelowTransitive(s.operands, next.operands, CloseFrom(s).value.operands);
    }
  }

  /**
   * `right_paren` only rewrites the top of the operand stack: the operands
   * under the nodes it builds are not touched.
   */
  lemma {:induction false} CloseKeepsOperands(s: Stacks)
    ensures CloseFrom(s).Ok? ==> KeepsBelow(s.operands, CloseFrom(s).value.operands)
    decreases |s.operators|
  {
    if s.operators != [] {
      var below := Init(s.operators);
      match Last(s.operators)
      case LeftParenthesis =>
        if below != [] && Last(below).Function? {
          var next := Stacks(below, s.operands);
          CloseKeepsOperands(next);
          assert CloseFrom(s) == CloseFrom(next);
          CloseKeepsStep(s, next);
        } else {
          assert CloseFrom(s) == Ok(Stacks(below, s.operands));
        }
      case Function(f) =>
        if CollectFunction(f, s.operands).Ok? {
          var next := Stacks(below, CollectFunction(f, s.operands).value);
          CollectFunctionKeepsBelow(f, s.operands);
          CloseKeepsOperands(next);
          assert CloseFrom(s) == CloseFrom(next);
          CloseKeepsStep(s, next);
        }
      case Operator(op) =>
        if AddOperator(op, s.operands).Ok? {
          var next := Stacks(below, AddOperator(op, s.operands).value);
          AddOperatorKeepsBelow(op, s.operands);
          CloseKeepsOperands(next);
          assert CloseFrom(s) == CloseFrom(next);
          CloseKeepsStep(s, next);
        }
      case _ =>
        var next := Stacks(below, s.operands);
        CloseKeepsOperands(next);
        assert CloseFrom(s) == CloseFrom(next);
        CloseKeepsStep(s, next);
    }
  }

  lemma {:induction false} CloseFromWellFormed(s: Stacks)
    requires AllWellFormed(s.operands)
    ensures CloseFrom(s).Ok? ==> AllWellFormed(CloseFrom(s).value.operands)
    decreases |s.operators|
  {
    if s.operators != [] {
      var below := Init(s.operators);
      match Last(s.operators)
      case LeftParenthesis =>
        if below != [] && Last(below).Function? {
          CloseFromWellFormed(Stacks(below, s.operands));
        }
      case Function(f) =>
        if CollectFunction(f, s.operands).Ok? {
          CollectFunctionWellFormed(f, s.operands);
          CloseFromWellFormed(Stacks(below, CollectFunction(f, s.operands).value));
        }
      case Operator(op) =>
        if AddOperator(op, s.operands).Ok? {
          AddOperatorWellFormed(op, s.operands);
          CloseFromWellFormed(Stacks(below, AddOperator(op, s.operands).value));
        }
      case _ =>
        CloseFromWellFormed(Stacks(below, s.operands));
    }
  }

  // ---------------------------------------------------------------- parse_tokens

  lemma DispatchWellFormed(t: Token, s: Stacks)
    requires AllWellFormed(s.operands)
    ensures Dispatch(t, s).Ok? ==> AllWellFormed(Dispatch(t, s).value.operands)
  {
    match t
    case RightParenthesis => CloseFromWellFormed(s);
    case Operator(op) => ReduceFromWellFormed(op, s);
    case _ =>
  }

  lemma {:induction false} ParseFromWellFormed(tokens: seq<Token>, i: nat, s: Stacks)
    requires i <= |tokens| && AllWellFormed(s.operands)
    ensures ParseFrom(tokens, i, s).Ok? ==> AllWellFormed(ParseFrom(tokens, i, s).value.operands)
    decreases |tokens| - i
  {
    if i < |tokens| {
      DispatchWellFormed(tokens[i], s);
      if Dispatch(tokens[i], s).Ok? {
        ParseFromWellFormed(tokens, i + 1, Dispatch(tokens[i], s).value);
      }
    }
  }

  lemma {:induction false} DrainWellFormed(s: Stacks)
    requires AllWellFormed(s.operands)
    ensures Drain(s).Ok? ==> AllWellFormed(Drain(s).value)
    decreases |s.operators|
  {
    if s.operators != [] && Last(s.operators).Operator? {
      var op := Last(s.operators).op;
      AddOperatorWellFormed(op, s.operands);
      if AddOperator(op, s.operands).Ok? {
        DrainWellFormed(Stacks(Init(s.operators), AddOperator(op, s.operands).value));
      }
    }
  }

  /**
   * Every tree `parse_tokens` returns is well formed: each operator node
   * has exactly its operand count of arguments and each function node at
   * least one, all the way down.
   */
  lemma ParseWellFormed(tokens: seq<Token>)
    ensures Parse(tokens).Ok? ==> WellFormed(Parse(tokens).value)
  {
    ParseFromWellFormed(tokens, 0, Stacks([], []));
    var p := ParseFrom(tokens, 0, Stacks([], []));
    if p.Ok? {
      DrainWellFormed(p.value);
    }
  }

  /** Parsing no tokens at all is an `EmptyExpression`. */
  lemma ParseEmpty()
    ensures Parse([]) == Err(EmptyExpression)
  {
  }
}
