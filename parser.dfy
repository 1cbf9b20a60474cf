/**
 * The shunting-yard parser of src/parser.rs. The operator stack and the
 * operand stack are sequences whose last element is the top. Each function
 * of the source that loops over the stacks is a method proved equal to a
 * specification function that takes one iteration per call.
 */
module Parser {
  import opened Errors
  import opened Operators
  import opened Tokens

  /** An AST node: a token and its arguments in left-to-right order (the source's `args: None` is `[]`). */
  datatype Node = Node(token: Token, args: seq<Node>)

  /** The two stacks of `parse_tokens`: operators (`TokenList`) and operands (`NodeList`). */
  datatype Stacks = Stacks(operators: seq<Token>, operands: seq<Node>)

  function Leaf(t: Token): Node {
    Node(t, [])
  }

  function Last<T>(s: seq<T>): T
    requires |s| > 0
  {
    s[|s| - 1]
  }

  function Init<T>(s: seq<T>): seq<T>
    requires |s| > 0
  {
    s[..|s| - 1]
  }

  // ---------------------------------------------------------------- add_operator

  /**
   * `add_operator`: the top `num_operands(op)` operands, in their stack
   * order, become the arguments of one `Operator(op)` node that replaces
   * them; with fewer operands on the stack it fails.
   */
  function AddOperator(op: Operator, operands: seq<Node>): (r: Result<seq<Node>>)
    ensures r.Err? <==> |operands| < NumOperands(op)
    ensures r.Err? ==> r.error == MissingOperands(op)
    ensures r.Ok? ==>
      var k := |operands| - NumOperands(op);
      |r.value| == k + 1 && r.value[..k] == operands[..k] &&
      Last(r.value).token == Operator(op) && Last(r.value).args == operands[k..]
  {
    var n := NumOperands(op);
    if |operands| < n then Err(MissingOperands(op))
    else
      var k := |operands| - n;
      Ok(operands[..k] + [Node(Operator(op), operands[k..])])
  }

  // -------------------------------------------------------------- encounter_func

  /**
   * The `while let` loop of `encounter_func`: `args` holds the arguments
   * collected so far. A `Comma` marker on top is discarded and the operand
   * under it becomes the new first argument; any other top ends the loop
   * and stays where it is.
   */
  function GatherFrom(f: string, rest: seq<Node>, args: seq<Node>): Result<(seq<Node>, seq<Node>)>
    decreases |rest|
  {
    if rest == [] || !Last(rest).token.Comma? then Ok((rest, args))
    else if |rest| == 1 then Err(FunctionSyntaxError(f))
    else GatherFrom(f, rest[..|rest| - 2], [rest[|rest| - 2]] + args)
  }

  /** `encounter_func`: the operand stack once `Function(f)` has collected its arguments. */
  function CollectFunction(f: string, operands: seq<Node>): Result<seq<Node>> {
    if operands == [] then Err(NotEnoughFunctionParams(f))
    else match GatherFrom(f, Init(operands), [Last(operands)])
      case Err(e) => Err(e)
      case Ok((rest, args)) => Ok(rest + [Node(Token.Function(f), args)])
  }

  method EncounterFunc(f: string, operands: seq<Node>) returns (r: Result<seq<Node>>)
    ensures r == CollectFunction(f, operands)
  {
    if |operands| == 0 {
      return Err(NotEnoughFunctionParams(f));
    }
    var stack := Init(operands);
    var args := [Last(operands)];
    while |stack| > 0
      invariant GatherFrom(f, stack, args) == GatherFrom(f, Init(operands), [Last(operands)])
      decreases |stack|
    {
      ghost var before := stack;
      var last := Last(stack);
      stack := Init(stack);
      if !last.token.Comma? {
        stack := stack + [last];
        assert stack == before;
        break;
      } else {
        if |stack| == 0 {
          return Err(FunctionSyntaxError(f));
        }
        args := [Last(stack)] + args;
        stack := Init(stack);
        assert stack == before[..|before| - 2] && args[0] == before[|before| - 2];
      }
    }
    r := Ok(stack + [Node(Token.Function(f), args)]);
  }

  // ---------------------------------------------------------- encounter_operator

  /** Whether an operator `top` on the stack is reduced before `cur` is pushed. */
  predicate ShouldReduce(top: Operator, cur: Operator) {
    Gt(top, cur) || (Eq(top, cur) && !IsRightAssociative(cur))
  }

  /**
   * The loop of `encounter_operator`: pop and reduce operators that bind at
   * least as tightly as `cur`, and collect any function on top; stop at
   * anything else, which stays on the stack.
   */
  function ReduceFrom(cur: Operator, s: Stacks): Result<Stacks>
    decreases |s.operators|
  {
    if s.operators == [] then Ok(s)
    else
      var below := Init(s.operators);
      match Last(s.operators)
      case Operator(op) =>
        if ShouldReduce(op, cur) then
          (match AddOperator(op, s.operands)
           case Err(e) => Err(e)
           case Ok(operands) => ReduceFrom(cur, Stacks(below, operands)))
        else Ok(s)
      case Function(f) =>
        (match CollectFunction(f, s.operands)
         case Err(e) => Err(e)
         case Ok(operands) => ReduceFrom(cur, Stacks(below, operands)))
      case _ => Ok(s)
  }

  /** `encounter_operator`: reduce, then push `cur`. */
  function PushOperator(cur: Operator, s: Stacks): Result<Stacks> {
    match ReduceFrom(cur, s)
    case Err(e) => Err(e)
    case Ok(s') => Ok(Stacks(s'.operators + [Operator(cur)], s'.operands))
  }

  method EncounterOperator(cur: Operator, operators: seq<Token>, operands: seq<Node>) returns (r: Result<Stacks>)
    ensures r == PushOperator(cur, Stacks(operators, operands))
  {
    var ops, nodes := operators, operands;
    while |ops| > 0
      invariant ReduceFrom(cur, Stacks(ops, nodes)) == ReduceFrom(cur, Stacks(operators, operands))
      decreases |ops|
    {
      ghost var before := ops;
      var top := Last(ops);
      ops := Init(ops);
      match top {
        case Operator(op) =>
          if ShouldReduce(op, cur) {
            var reduced := AddOperator(op, nodes);
            if reduced.Err? {
              return Err(reduced.error);
            }
            nodes := reduced.value;
          } else {
            ops := ops + [Operator(op)];
            assert ops == before;
            break;
          }
        case Function(f) =>
          var collected := EncounterFunc(f, nodes);
          if collected.Err? {
            return Err(collected.error);
          }
          nodes := collected.value;
        case _ =>
          ops := ops + [top];
          assert ops == before;
          break;
      }
    }
    r := Ok(Stacks(ops + [Operator(cur)], nodes));
  }

  // ----------------------------------------------------------------- right_paren

  /**
   * The loop of `right_paren`: pop until a `LeftParenthesis` is popped whose
   * new top is not a `Function`, or the stack is empty; popped functions
   * collect their arguments and popped operators are reduced.
   */
  function CloseFrom(s: Stacks): Result<Stacks>
    decreases |s.operators|
  {
    if s.operators == [] then Ok(s)
    else
      var below := Init(s.operators);
      match Last(s.operators)
      case LeftParenthesis =>
        if below != [] && Last(below).Function? then CloseFrom(Stacks(below, s.operands))
        else Ok(Stacks(below, s.operands))
      case Function(f) =>
        (match CollectFunction(f, s.operands)
         case Err(e) => Err(e)
         case Ok(operands) => CloseFrom(Stacks(below, operands)))
      case Operator(op) =>
        (match AddOperator(op, s.operands)
         case Err(e) => Err(e)
         case Ok(operands) => CloseFrom(Stacks(below, operands)))
      case _ => CloseFrom(Stacks(below, s.operands))
  }

  method RightParen(operators: seq<Token>, operands: seq<Node>) returns (r: Result<Stacks>)
    ensures r == CloseFrom(Stacks(operators, operands))
  {
    var ops, nodes := operators, operands;
    while |ops| > 0
      invariant CloseFrom(Stacks(ops, nodes)) == CloseFrom(Stacks(operators, operands))
      decreases |ops|
    {
      var top := Last(ops);
      ops := Init(ops);
      match top {
        case LeftParenthesis =>
          if !(ops != [] && Last(ops).Function?) {
            break;
          }
        case Function(f) =>
          var collected := EncounterFunc(f, nodes);
          if collected.Err? {
            return Err(collected.error);
          }
          nodes := collected.value;
        case Operator(op) =>
          var reduced := AddOperator(op, nodes);
          if reduced.Err? {
            return Err(reduced.error);
          }
          nodes := reduced.value;
        case _ =>
      }
    }
    r := Ok(Stacks(ops, nodes));
  }

  // ---------------------------------------------------------------- parse_tokens

  /** One iteration of the `for` loop of `parse_tokens`. */
  function Dispatch(t: Token, s: Stacks): Result<Stacks> {
    match t
    case Number(_) => Ok(Stacks(s.operators, s.operands + [Leaf(t)]))
    case Variable(_) => Ok(Stacks(s.operators, s.operands + [Leaf(t)]))
    case RightParenthesis => CloseFrom(s)
    case LeftParenthesis => Ok(Stacks(s.operators + [t], s.operands))
    case Operator(op) => PushOperator(op, s)
    case Function(_) => Ok(Stacks(s.operators + [t], s.operands))
    case Comma => Ok(Stacks(s.operators, s.operands + [Leaf(t)]))
  }

  /** The `for` loop of `parse_tokens` from the `i`-th token on. */
  function ParseFrom(tokens: seq<Token>, i: nat, s: Stacks): Result<Stacks>
    requires i <= |tokens|
    decreases |tokens| - i
  {
    if i == |tokens| then Ok(s)
    else match Dispatch(tokens[i], s)
      case Err(e) => Err(e)
      case Ok(s') => ParseFrom(tokens, i + 1, s')
  }

  /**
   * `while let Some(Token::Operator(operator)) = operators.pop()`: reduce
   * operators from the top until something else is popped (and dropped).
   */
  function Drain(s: Stacks): Result<seq<Node>>
    decreases |s.operators|
  {
    if s.operators == [] then Ok(s.operands)
    else match Last(s.operators)
      case Operator(op) =>
        (match AddOperator(op, s.operands)
         case Err(e) => Err(e)
         case Ok(operands) => Drain(Stacks(Init(s.operators), operands)))
      case _ => Ok(s.operands)
  }

  /** `parse_tokens`: the top operand once the stacks are drained. */
  function Parse(tokens: seq<Token>): Result<Node> {
    match ParseFrom(tokens, 0, Stacks([], []))
    case Err(e) => Err(e)
    case Ok(s) =>
      match Drain(s)
      case Err(e) => Err(e)
      case Ok(operands) => if operands == [] then Err(EmptyExpression) else Ok(Last(operands))
  }

  method ParseTokens(tokens: seq<Token>) returns (r: Result<Node>)
    ensures r == Parse(tokens)
  {
    var operators: seq<Token> := [];
    var operands: seq<Node> := [];
    for i := 0 to |tokens|
      invariant ParseFrom(tokens, i, Stacks(operators, operands)) == ParseFrom(tokens, 0, Stacks([], []))
    {
      var token := tokens[i];
      match token {
        case Number(_) => operands := operands + [Leaf(token)];
        case Variable(_) => operands := operands + [Leaf(token)];
        case RightParenthesis =>
          var closed := RightParen(operators, operands);
          if closed.Err? {
            return Err(closed.error);
          }
          operators, operands := closed.value.operators, closed.value.operands;
        case LeftParenthesis => operators := operators + [token];
        case Operator(op) =>
          var pushed := EncounterOperator(op, operators, operands);
          if pushed.Err? {
            return Err(pushed.error);
          }
          operators, operands := pushed.value.operators, pushed.value.operands;
        case Function(_) => operators := operators + [token];
        case Comma => operands := operands + [Leaf(token)];
      }
    }
    ghost var parsed := Stacks(operators, operands);
    while operators != [] && Last(operators).Operator?
      invariant Drain(Stacks(operators, operands)) == Drain(parsed)
      decreases |operators|
    {
      var op := Last(operators).op;
      operators := Init(operators);
      var reduced := AddOperator(op, operands);
      if reduced.Err? {
        return Err(reduced.error);
      }
      operands := reduced.value;
    }
    if operands == [] {
      return Err(EmptyExpression);
    }
    r := Ok(Last(operands));
  }
}
