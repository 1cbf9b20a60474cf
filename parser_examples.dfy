/**
 * The parser on concrete token lists, including the test cases of
 * tests/lib.rs and the quirks of argument collection and `right_paren`.
 * Each example lemma walks the token loop one iteration at a time:
 * `<Example>StepK` is iteration K, on stacks given element by element,
 * `<Example>StepKPopJ` is the J-th pop of the `)` read there, and
 * `<Example>DrainK` is the K-th reduction of the final drain. An iteration
 * that is the same as one of an earlier example uses that example's lemma.
 */
module ParserExamples {
  import opened Errors
  import opened Operators
  import opened Tokens
  import opened Parser

  function Num(text: string): Token { Number(NumericLiteral(text)) }
  function N(text: string): Node { Leaf(Num(text)) }
  function Bin(op: Operator, l: Node, r: Node): Node { Node(Operator(op), [l, r]) }

  /** One iteration of the token loop, as a rewriting step on `ParseFrom`. */
  lemma DispatchThenParse(tokens: seq<Token>, i: nat, s: Stacks, r: Stacks)
    requires i < |tokens| && Dispatch(tokens[i], s) == Ok(r)
    ensures ParseFrom(tokens, i, s) == ParseFrom(tokens, i + 1, r)
  {
  }

  /** A `)` token closes a parenthesised group or function call. */
  lemma DispatchClose(s: Stacks)
    ensures Dispatch(RightParenthesis, s) == CloseFrom(s)
  { }

  /** An operator token reduces and then is pushed. */
  lemma DispatchOperator(op: Operator, s: Stacks)
    ensures Dispatch(Operator(op), s) == PushOperator(op, s)
  { }

  lemma PrecedenceStep1(s: Stacks) returns (r: Stacks)
    requires |s.operators| == 0 && |s.operands| == 0
    ensures |r.operators| == 0 && |r.operands| == 1 && r.operands[0] == N("3")
    ensures Dispatch(Num("3"), s) == Ok(r)
  {
    var x1 := Stacks(s.operators, s.operands + [Leaf(Num("3"))]);
    assert |x1.operators| == 0 && |x1.operands| == 1 && x1.operands[0] == N("3");
    assert Dispatch(Num("3"), s) == Ok(x1);
    r := x1;
  }

  lemma PrecedenceStep2(s: Stacks) returns (r: Stacks)
    requires |s.operators| == 0 && |s.operands| == 1 && s.operands[0] == N("3")
    ensures |r.operators| == 1 && r.operators[0] == Operator(Add) && |r.operands| == 1
    ensures r.operands[0] == N("3")
    ensures Dispatch(Operator(Add), s) == Ok(r)
  {
    assert ReduceFrom(Add, s) == Ok(s);
    var x1 := Stacks(s.operators + [Operator(Add)], s.operands);
    assert |x1.operators| == 1 && x1.operators[0] == Operator(Add) && |x1.operands| == 1 && x1.operands[0] == N("3");
    DispatchOperator(Add, s);
    assert Dispatch(Operator(Add), s) == Ok(x1);
    r := x1;
  }

  lemma PrecedenceStep3(s: Stacks) returns (r: Stacks)
    requires |s.operators| == 1 && s.operators[0] == Operator(Add) && |s.operands| == 1
    requires s.operands[0] == N("3")
    ensures |r.operators| == 1 && r.operators[0] == Operator(Add) && |r.operands| == 2
    ensures r.operands[0] == N("3") && r.operands[1] == N("4")
    ensures Dispatch(Num("4"), s) == Ok(r)
  {
    var x1 := Stacks(s.operators, s.operands + [Leaf(Num("4"))]);
    assert |x1.operators| == 1 && x1.operators[0] == Operator(Add) && |x1.operands| == 2 && x1.operands[0] == N("3") && x1.operands[1] == N("4");
    assert Dispatch(Num("4"), s) == Ok(x1);
    r := x1;
  }

  lemma PrecedenceStep4(s: Stacks) returns (r: Stacks)
    requires |s.operators| == 1 && s.operators[0] == Operator(Add) && |s.operands| == 2
    requires s.operands[0] == N("3") && s.operands[1] == N("4")
    ensures |r.operators| == 2 && r.operators[0] == Operator(Add) && r.operators[1] == Operator(Multiply)
    ensures |r.operands| == 2 && r.operands[0] == N("3") && r.operands[1] == N("4")
    ensures Dispatch(Operator(Multiply), s) == Ok(r)
  {
    assert ReduceFrom(Multiply, s) == Ok(s);
    var x1 := Stacks(s.operators + [Operator(Multiply)], s.operands);
    assert |x1.operators| == 2 && x1.operators[0] == Operator(Add) && x1.operators[1] == Operator(Multiply) && |x1.operands| == 2 && x1.operands[0] == N("3") && x1.operands[1] == N("4");
    DispatchOperator(Multiply, s);
    assert Dispatch(Operator(Multiply), s) == Ok(x1);
    r := x1;
  }

  lemma PrecedenceStep5(s: Stacks) returns (r: Stacks)
    requires |s.operators| == 2 && s.operators[0] == Operator(Add) && s.operators[1] == Operator(Multiply)
    requires |s.operands| == 2 && s.operands[0] == N("3") && s.operands[1] == N("4")
    ensures |r.operators| == 2 && r.operators[0] == Operator(Add) && r.operators[1] == Operator(Multiply)
    ensures |r.operands| == 3 && r.operands[0] == N("3") && r.operands[1] == N("4")
    ensures r.operands[2] == N("2")
    ensures Dispatch(Num("2"), s) == Ok(r)
  {
    var x1 := Stacks(s.operators, s.operands + [Leaf(Num("2"))]);
    assert |x1.operators| == 2 && x1.operators[0] == Operator(Add) && x1.operators[1] == Operator(Multiply) && |x1.operands| == 3 && x1.operands[0] == N("3") && x1.operands[1] == N("4") && x1.operands[2] == N("2");
    assert Dispatch(Num("2"), s) == Ok(x1);
    r := x1;
  }

  lemma PrecedenceStep6(s: Stacks) returns (r: Stacks)
    requires |s.operators| == 2 && s.operators[0] == Operator(Add) && s.operators[1] == Operator(Multiply)
    requires |s.operands| == 3 && s.operands[0] == N("3") && s.operands[1] == N("4")
    requires s.operands[2] == N("2")
    ensures |r.operators| == 2 && r.operators[0] == Operator(Add) && r.operators[1] == Operator(Divide)
    ensures |r.operands| == 2 && r.operands[0] == N("3") && r.operands[1] == Bin(Multiply, N("4"), N("2"))
    ensures Dispatch(Operator(Divide), s) == Ok(r)
  {
    assert s.operands[1..] == [N("4"), N("2")];
    var o1 := AddOperator(Multiply, s.operands).value;
    assert |o1| == 2 && o1[0] == N("3") && o1[1] == Bin(Multiply, N("4"), N("2"));
    var x2 := Stacks(Init(s.operators), o1);
    assert |x2.operators| == 1 && x2.operators[0] == Operator(Add) && |x2.operands| == 2 && x2.operands[0] == N("3") && x2.operands[1] == Bin(Multiply, N("4"), N("2"));
    assert ReduceFrom(Divide, x2) == Ok(x2);
    assert ReduceFrom(Divide, s) == Ok(x2);
    var x3 := Stacks(x2.operators + [Operator(Divide)], x2.operands);
    assert |x3.operators| == 2 && x3.operators[0] == Operator(Add) && x3.operators[1] == Operator(Divide) && |x3.operands| == 2 && x3.operands[0] == N("3") && x3.operands[1] == Bin(Multiply, N("4"), N("2"));
    DispatchOperator(Divide, s);
    assert Dispatch(Operator(Divide), s) == Ok(x3);
    r := x3;
  }

  lemma PrecedenceStep7(s: Stacks) returns (r: Stacks)
    requires |s.operators| == 2 && s.operators[0] == Operator(Add) && s.operators[1] == Operator(Divide)
    requires |s.operands| == 2 && s.operands[0] == N("3") && s.operands[1] == Bin(Multiply, N("4"), N("2"))
    ensures |r.operators| == 3 && r.operators[0] == Operator(Add) && r.operators[1] == Operator(Divide)
    ensures r.operators[2] == LeftParenthesis && |r.operands| == 2 && r.operands[0] == N("3")
    ensures r.operands[1] == Bin(Multiply, N("4"), N("2"))
    ensures Dispatch(LeftParenthesis, s) == Ok(r)
  {
    var x1 := Stacks(s.operators + [LeftParenthesis], s.operands);
    assert |x1.operators| == 3 && x1.operators[0] == Operator(Add) && x1.operators[1] == Operator(Divide) && x1.operators[2] == LeftParenthesis && |x1.operands| == 2 && x1.operands[0] == N("3") && x1.operands[1] == Bin(Multiply, N("4"), N("2"));
    assert Dispatch(LeftParenthesis, s) == Ok(x1);
    r := x1;
  }

  lemma PrecedenceStep8(s: Stacks) returns (r: Stacks)
    requires |s.operators| == 3 && s.operators[0] == Operator(Add) && s.operators[1] == Operator(Divide)
    requires s.operators[2] == LeftParenthesis && |s.operands| == 2 && s.operands[0] == N("3")
    requires s.operands[1] == Bin(Multiply, N("4"), N("2"))
    ensures |r.operators| == 3 && r.operators[0] == Operator(Add) && r.operators[1] == Operator(Divide)
    ensures r.operators[2] == LeftParenthesis && |r.operands| == 3 && r.operands[0] == N("3")
    ensures r.operands[1] == Bin(Multiply, N("4"), N("2")) && r.operands[2] == N("1")
    ensures Dispatch(Num("1"), s) == Ok(r)
  {
    var x1 := Stacks(s.operators, s.operands + [Leaf(Num("1"))]);
    assert |x1.operators| == 3 && x1.operators[0] == Operator(Add) && x1.operators[1] == Operator(Divide) && x1.operators[2] == LeftParenthesis && |x1.operands| == 3 && x1.operands[0] == N("3") && x1.operands[1] == Bin(Multiply, N("4"), N("2")) && x1.operands[2] == N("1");
    assert Dispatch(Num("1"), s) == Ok(x1);
    r := x1;
  }

  lemma PrecedenceStep9(s: Stacks) returns (r: Stacks)
    requires |s.operators| == 3 && s.operators[0] == Operator(Add) && s.operators[1] == Operator(Divide)
    requires s.operators[2] == LeftParenthesis && |s.operands| == 3 && s.operands[0] == N("3")
    requires s.operands[1] == Bin(Multiply, N("4"), N("2")) && s.operands[2] == N("1")
    ensures |r.operators| == 4 && r.operators[0] == Operator(Add) && r.operators[1] == Operator(Divide)
    ensures r.operators[2] == LeftParenthesis && r.operators[3] == Operator(Substract) && |r.operands| == 3
    ensures r.operands[0] == N("3") && r.operands[1] == Bin(Multiply, N("4"), N("2"))
    ensures r.operands[2] == N("1")
    ensures Dispatch(Operator(Substract), s) == Ok(r)
  {
    assert ReduceFrom(Substract, s) == Ok(s);
    var x1 := Stacks(s.operators + [Operator(Substract)], s.operands);
    assert |x1.operators| == 4 && x1.operators[0] == Operator(Add) && x1.operators[1] == Operator(Divide) && x1.operators[2] == LeftParenthesis && x1.operators[3] == Operator(Substract) && |x1.operands| == 3 && x1.operands[0] == N("3") && x1.operands[1] == Bin(Multiply, N("4"), N("2")) && x1.operands[2] == N("1");
    DispatchOperator(Substract, s);
    assert Dispatch(Operator(Substract), s) == Ok(x1);
    r := x1;
  }

  lemma PrecedenceStep10(s: Stacks) returns (r: Stacks)
    requires |s.operators| == 4 && s.operators[0] == Operator(Add) && s.operators[1] == Operator(Divide)
    requires s.operators[2] == LeftParenthesis && s.operators[3] == Operator(Substract) && |s.operands| == 3
    requires s.operands[0] == N("3") && s.operands[1] == Bin(Multiply, N("4"), N("2"))
    requires s.operands[2] == N("1")
    ensures |r.operators| == 4 && r.operators[0] == Operator(Add) && r.operators[1] == Operator(Divide)
    ensures r.operators[2] == LeftParenthesis && r.operators[3] == Operator(Substract) && |r.operands| == 4
    ensures r.operands[0] == N("3") && r.operands[1] == Bin(Multiply, N("4"), N("2"))
    ensures r.operands[2] == N("1") && r.operands[3] == N("5")
    ensures Dispatch(Num("5"), s) == Ok(r)
  {
    var x1 := Stacks(s.operators, s.operands + [Leaf(Num("5"))]);
    assert |x1.operators| == 4 && x1.operators[0] == Operator(Add) && x1.operators[1] == Operator(Divide) && x1.operators[2] == LeftParenthesis && x1.operators[3] == Operator(Substract) && |x1.operands| == 4 && x1.operands[0] == N("3") && x1.operands[1] == Bin(Multiply, N("4"), N("2")) && x1.operands[2] == N("1") && x1.operands[3] == N("5");
    assert Dispatch(Num("5"), s) == Ok(x1);
    r := x1;
  }

  lemma PrecedenceStep11Pop1(s: Stacks) returns (r: Stacks)
    requires |s.operators| == 4 && s.operators[0] == Operator(Add) && s.operators[1] == Operator(Divide)
    requires s.operators[2] == LeftParenthesis && s.operators[3] == Operator(Substract) && |s.operands| == 4
    requires s.operands[0] == N("3") && s.operands[1] == Bin(Multiply, N("4"), N("2"))
    requires s.operands[2] == N("1") && s.operands[3] == N("5")
    ensures |r.operators| == 3 && r.operators[0] == Operator(Add) && r.operators[1] == Operator(Divide)
    ensures r.operators[2] == LeftParenthesis && |r.operands| == 3 && r.operands[0] == N("3")
    ensures r.operands[1] == Bin(Multiply, N("4"), N("2"))
    ensures r.operands[2] == Bin(Substract, N("1"), N("5"))
    ensures CloseFrom(s) == CloseFrom(r)
  {
    assert s.operands[2..] == [N("1"), N("5")];
    var o1 := AddOperator(Substract, s.operands).value;
    assert |o1| == 3 && o1[0] == N("3") && o1[1] == Bin(Multiply, N("4"), N("2")) && o1[2] == Bin(Substract, N("1"), N("5"));
    var x2 := Stacks(Init(s.operators), o1);
    assert |x2.operators| == 3 && x2.operators[0] == Operator(Add) && x2.operators[1] == Operator(Divide) && x2.operators[2] == LeftParenthesis && |x2.operands| == 3 && x2.operands[0] == N("3") && x2.operands[1] == Bin(Multiply, N("4"), N("2")) && x2.operands[2] == Bin(Substract, N("1"), N("5"));
    assert CloseFrom(s) == CloseFrom(x2);
    r := x2;
  }

  lemma PrecedenceStep11Pop2(s: Stacks) returns (r: Stacks)
    requires |s.operators| == 3 && s.operators[0] == Operator(Add) && s.operators[1] == Operator(Divide)
    requires s.operators[2] == LeftParenthesis && |s.operands| == 3 && s.operands[0] == N("3")
    requires s.operands[1] == Bin(Multiply, N("4"), N("2"))
    requires s.operands[2] == Bin(Substract, N("1"), N("5"))
    ensures |r.operators| == 2 && r.operators[0] == Operator(Add) && r.operators[1] == Operator(Divide)
    ensures |r.operands| == 3 && r.operands[0] == N("3") && r.operands[1] == Bin(Multiply, N("4"), N("2"))
    ensures r.operands[2] == Bin(Substract, N("1"), N("5"))
    ensures CloseFrom(s) == Ok(r)
  {
    var x1 := Stacks(Init(s.operators), s.operands);
    assert |x1.operators| == 2 && x1.operators[0] == Operator(Add) && x1.operators[1] == Operator(Divide) && |x1.operands| == 3 && x1.operands[0] == N("3") && x1.operands[1] == Bin(Multiply, N("4"), N("2")) && x1.operands[2] == Bin(Substract, N("1"), N("5"));
    assert CloseFrom(s) == Ok(x1);
    r := x1;
  }

  lemma PrecedenceStep11(s: Stacks) returns (r: Stacks)
    requires |s.operators| == 4 && s.operators[0] == Operator(Add) && s.operators[1] == Operator(Divide)
    requires s.operators[2] == LeftParenthesis && s.operators[3] == Operator(Substract) && |s.operands| == 4
    requires s.operands[0] == N("3") && s.operands[1] == Bin(Multiply, N("4"), N("2"))
    requires s.operands[2] == N("1") && s.operands[3] == N("5")
    ensures |r.operators| == 2 && r.operators[0] == Operator(Add) && r.operators[1] == Operator(Divide)
    ensures |r.operands| == 3 && r.operands[0] == N("3") && r.operands[1] == Bin(Multiply, N("4"), N("2"))
    ensures r.operands[2] == Bin(Substract, N("1"), N("5"))
    ensures Dispatch(RightParenthesis, s) == Ok(r)
  {
    var x1 := PrecedenceStep11Pop1(s);
    var x2 := PrecedenceStep11Pop2(x1);
    assert CloseFrom(x1) == Ok(x2);
    assert CloseFrom(s) == Ok(x2);
    DispatchClose(s);
    assert Dispatch(RightParenthesis, s) == Ok(x2);
    r := x2;
  }

  lemma PrecedenceStep12(s: Stacks) returns (r: Stacks)
    requires |s.operators| == 2 && s.operators[0] == Operator(Add) && s.operators[1] == Operator(Divide)
    requires |s.operands| == 3 && s.operands[0] == N("3") && s.operands[1] == Bin(Multiply, N("4"), N("2"))
    requires s.operands[2] == Bin(Substract, N("1"), N("5"))
    ensures |r.operators| == 3 && r.operators[0] == Operator(Add) && r.operators[1] == Operator(Divide)
    ensures r.operators[2] == Operator(Exponentiate) && |r.operands| == 3 && r.operands[0] == N("3")
    ensures r.operands[1] == Bin(Multiply, N("4"), N("2"))
    ensures r.operands[2] == Bin(Substract, N("1"), N("5"))
    ensures Dispatch(Operator(Exponentiate), s) == Ok(r)
  {
    assert ReduceFrom(Exponentiate, s) == Ok(s);
    var x1 := Stacks(s.operators + [Operator(Exponentiate)], s.operands);
    assert |x1.operators| == 3 && x1.operators[0] == Operator(Add) && x1.operators[1] == Operator(Divide) && x1.operators[2] == Operator(Exponentiate) && |x1.operands| == 3 && x1.operands[0] == N("3") && x1.operands[1] == Bin(Multiply, N("4"), N("2")) && x1.operands[2] == Bin(Substract, N("1"), N("5"));
    DispatchOperator(Exponentiate, s);
    assert Dispatch(Operator(Exponentiate), s) == Ok(x1);
    r := x1;
  }

  lemma PrecedenceStep13(s: Stacks) returns (r: Stacks)
    requires |s.operators| == 3 && s.operators[0] == Operator(Add) && s.operators[1] == Operator(Divide)
    requires s.operators[2] == Operator(Exponentiate) && |s.operands| == 3 && s.operands[0] == N("3")
    requires s.operands[1] == Bin(Multiply, N("4"), N("2"))
    requires s.operands[2] == Bin(Substract, N("1"), N("5"))
    ensures |r.operators| == 3 && r.operators[0] == Operator(Add) && r.operators[1] == Operator(Divide)
    ensures r.operators[2] == Operator(Exponentiate) && |r.operands| == 4 && r.operands[0] == N("3")
    ensures r.operands[1] == Bin(Multiply, N("4"), N("2"))
    ensures r.operands[2] == Bin(Substract, N("1"), N("5")) && r.operands[3] == N("2")
    ensures Dispatch(Num("2"), s) == Ok(r)
  {
    var x1 := Stacks(s.operators, s.operands + [Leaf(Num("2"))]);
    assert |x1.operators| == 3 && x1.operators[0] == Operator(Add) && x1.operators[1] == Operator(Divide) && x1.operators[2] == Operator(Exponentiate) && |x1.operands| == 4 && x1.operands[0] == N("3") && x1.operands[1] == Bin(Multiply, N("4"), N("2")) && x1.operands[2] == Bin(Substract, N("1"), N("5")) && x1.operands[3] == N("2");
    assert Dispatch(Num("2"), s) == Ok(x1);
    r := x1;
  }

  lemma PrecedenceStep14(s: Stacks) returns (r: Stacks)
    requires |s.operators| == 3 && s.operators[0] == Operator(Add) && s.operators[1] == Operator(Divide)
    requires s.operators[2] == Operator(Exponentiate) && |s.operands| == 4 && s.operands[0] == N("3")
    requires s.operands[1] == Bin(Multiply, N("4"), N("2"))
    requires s.operands[2] == Bin(Substract, N("1"), N("5")) && s.operands[3] == N("2")
    ensures |r.operators| == 4 && r.operators[0] == Operator(Add) && r.operators[1] == Operator(Divide)
    ensures r.operators[2] == Operator(Exponentiate) && r.operators[3] == Operator(Exponentiate)
    ensures |r.operands| == 4 && r.operands[0] == N("3") && r.operands[1] == Bin(Multiply, N("4"), N("2"))
    ensures r.operands[2] == Bin(Substract, N("1"), N("5")) && r.operands[3] == N("2")
    ensures Dispatch(Operator(Exponentiate), s) == Ok(r)
  {
    assert ReduceFrom(Exponentiate, s) == Ok(s);
    var x1 := Stacks(s.operators + [Operator(Exponentiate)], s.operands);
    assert |x1.operators| == 4 && x1.operators[0] == Operator(Add) && x1.operators[1] == Operator(Divide) && x1.operators[2] == Operator(Exponentiate) && x1.operators[3] == Operator(Exponentiate) && |x1.operands| == 4 && x1.operands[0] == N("3") && x1.operands[1] == Bin(Multiply, N("4"), N("2")) && x1.operands[2] == Bin(Substract, N("1"), N("5")) && x1.operands[3] == N("2");
    DispatchOperator(Exponentiate, s);
    assert Dispatch(Operator(Exponentiate), s) == Ok(x1);
    r := x1;
  }

  lemma PrecedenceStep15(s: Stacks) returns (r: Stacks)
    requires |s.operators| == 4 && s.operators[0] == Operator(Add) && s.operators[1] == Operator(Divide)
    requires s.operators[2] == Operator(Exponentiate) && s.operators[3] == Operator(Exponentiate)
    requires |s.operands| == 4 && s.operands[0] == N("3") && s.operands[1] == Bin(Multiply, N("4"), N("2"))
    requires s.operands[2] == Bin(Substract, N("1"), N("5")) && s.operands[3] == N("2")
    ensures |r.operators| == 4 && r.operators[0] == Operator(Add) && r.operators[1] == Operator(Divide)
    ensures r.operators[2] == Operator(Exponentiate) && r.operators[3] == Operator(Exponentiate)
    ensures |r.operands| == 5 && r.operands[0] == N("3") && r.operands[1] == Bin(Multiply, N("4"), N("2"))
    ensures r.operands[2] == Bin(Substract, N("1"), N("5")) && r.operands[3] == N("2")
    ensures r.operands[4] == N("3")
    ensures Dispatch(Num("3"), s) == Ok(r)
  {
    var x1 := Stacks(s.operators, s.operands + [Leaf(Num("3"))]);
    assert |x1.operators| == 4 && x1.operators[0] == Operator(Add) && x1.operators[1] == Operator(Divide) && x1.operators[2] == Operator(Exponentiate) && x1.operators[3] == Operator(Exponentiate) && |x1.operands| == 5 && x1.operands[0] == N("3") && x1.operands[1] == Bin(Multiply, N("4"), N("2")) && x1.operands[2] == Bin(Substract, N("1"), N("5")) && x1.operands[3] == N("2") && x1.operands[4] == N("3");
    assert Dispatch(Num("3"), s) == Ok(x1);
    r := x1;
  }

  lemma PrecedenceDrain1(s: Stacks) returns (r: Stacks)
    requires |s.operators| == 4 && s.operators[0] == Operator(Add) && s.operators[1] == Operator(Divide)
    requires s.operators[2] == Operator(Exponentiate) && s.operators[3] == Operator(Exponentiate)
    requires |s.operands| == 5 && s.operands[0] == N("3") && s.operands[1] == Bin(Multiply, N("4"), N("2"))
    requires s.operands[2] == Bin(Substract, N("1"), N("5")) && s.operands[3] == N("2")
    requires s.operands[4] == N("3")
    ensures |r.operators| == 3 && r.operators[0] == Operator(Add) && r.operators[1] == Operator(Divide)
    ensures r.operators[2] == Operator(Exponentiate) && |r.operands| == 4 && r.operands[0] == N("3")
    ensures r.operands[1] == Bin(Multiply, N("4"), N("2"))
    ensures r.operands[2] == Bin(Substract, N("1"), N("5"))
    ensures r.operands[3] == Bin(Exponentiate, N("2"), N("3"))
    ensures Drain(s) == Drain(r)
  {
    assert s.operands[3..] == [N("2"), N("3")];
    var o1 := AddOperator(Exponentiate, s.operands).value;
    assert |o1| == 4 && o1[0] == N("3") && o1[1] == Bin(Multiply, N("4"), N("2")) && o1[2] == Bin(Substract, N("1"), N("5")) && o1[3] == Bin(Exponentiate, N("2"), N("3"));
    var x2 := Stacks(Init(s.operators), o1);
    assert |x2.operators| == 3 && x2.operators[0] == Operator(Add) && x2.operators[1] == Operator(Divide) && x2.operators[2] == Operator(Exponentiate) && |x2.operands| == 4 && x2.operands[0] == N("3") && x2.operands[1] == Bin(Multiply, N("4"), N("2")) && x2.operands[2] == Bin(Substract, N("1"), N("5")) && x2.operands[3] == Bin(Exponentiate, N("2"), N("3"));
    assert Drain(s) == Drain(x2);
    r := x2;
  }

  lemma PrecedenceDrain2(s: Stacks) returns (r: Stacks)
    requires |s.operators| == 3 && s.operators[0] == Operator(Add) && s.operators[1] == Operator(Divide)
    requires s.operators[2] == Operator(Exponentiate) && |s.operands| == 4 && s.operands[0] == N("3")
    requires s.operands[1] == Bin(Multiply, N("4"), N("2"))
    requires s.operands[2] == Bin(Substract, N("1"), N("5"))
    requires s.operands[3] == Bin(Exponentiate, N("2"), N("3"))
    ensures |r.operators| == 2 && r.operators[0] == Operator(Add) && r.operators[1] == Operator(Divide)
    ensures |r.operands| == 3 && r.operands[0] == N("3") && r.operands[1] == Bin(Multiply, N("4"), N("2"))
    ensures r.operands[2] == Bin(Exponentiate, Bin(Substract, N("1"), N("5")), Bin(Exponentiate, N("2"), N("3")))
    ensures Drain(s) == Drain(r)
  {
    assert s.operands[2..] == [Bin(Substract, N("1"), N("5")), Bin(Exponentiate, N("2"), N("3"))];
    var o1 := AddOperator(Exponentiate, s.operands).value;
    assert |o1| == 3 && o1[0] == N("3") && o1[1] == Bin(Multiply, N("4"), N("2")) && o1[2] == Bin(Exponentiate, Bin(Substract, N("1"), N("5")), Bin(Exponentiate, N("2"), N("3")));
    var x2 := Stacks(Init(s.operators), o1);
    assert |x2.operators| == 2 && x2.operators[0] == Operator(Add) && x2.operators[1] == Operator(Divide) && |x2.operands| == 3 && x2.operands[0] == N("3") && x2.operands[1] == Bin(Multiply, N("4"), N("2")) && x2.operands[2] == Bin(Exponentiate, Bin(Substract, N("1"), N("5")), Bin(Exponentiate, N("2"), N("3")));
    assert Drain(s) == Drain(x2);
    r := x2;
  }

  lemma PrecedenceDrain3(s: Stacks) returns (r: Stacks)
    requires |s.operators| == 2 && s.operators[0] == Operator(Add) && s.operators[1] == Operator(Divide)
    requires |s.operands| == 3 && s.operands[0] == N("3") && s.operands[1] == Bin(Multiply, N("4"), N("2"))
    requires s.operands[2] == Bin(Exponentiate, Bin(Substract, N("1"), N("5")), Bin(Exponentiate, N("2"), N("3")))
    ensures |r.operators| == 1 && r.operators[0] == Operator(Add) && |r.operands| == 2
    ensures r.operands[0] == N("3")
    ensures r.operands[1] == Bin(Divide, Bin(Multiply, N("4"), N("2")), Bin(Exponentiate, Bin(Substract, N("1"), N("5")), Bin(Exponentiate, N("2"), N("3"))))
    ensures Drain(s) == Drain(r)
  {
    assert s.operands[1..] == [Bin(Multiply, N("4"), N("2")), Bin(Exponentiate, Bin(Substract, N("1"), N("5")), Bin(Exponentiate, N("2"), N("3")))];
    var o1 := AddOperator(Divide, s.operands).value;
    assert |o1| == 2 && o1[0] == N("3") && o1[1] == Bin(Divide, Bin(Multiply, N("4"), N("2")), Bin(Exponentiate, Bin(Substract, N("1"), N("5")), Bin(Exponentiate, N("2"), N("3"))));
    var x2 := Stacks(Init(s.operators), o1);
    assert |x2.operators| == 1 && x2.operators[0] == Operator(Add) && |x2.operands| == 2 && x2.operands[0] == N("3") && x2.operands[1] == Bin(Divide, Bin(Multiply, N("4"), N("2")), Bin(Exponentiate, Bin(Substract, N("1"), N("5")), Bin(Exponentiate, N("2"), N("3"))));
    assert Drain(s) == Drain(x2);
    r := x2;
  }

  lemma PrecedenceDrain4(s: Stacks) returns (r: Stacks)
    requires |s.operators| == 1 && s.operators[0] == Operator(Add) && |s.operands| == 2
    requires s.operands[0] == N("3")
    requires s.operands[1] == Bin(Divide, Bin(Multiply, N("4"), N("2")), Bin(Exponentiate, Bin(Substract, N("1"), N("5")), Bin(Exponentiate, N("2"), N("3"))))
    ensures |r.operators| == 0 && |r.operands| == 1
    ensures r.operands[0] == Bin(Add, N("3"), Bin(Divide, Bin(Multiply, N("4"), N("2")), Bin(Exponentiate, Bin(Substract, N("1"), N("5")), Bin(Exponentiate, N("2"), N("3")))))
    ensures Drain(s) == Drain(r)
  {
    assert s.operands[0..] == [N("3"), Bin(Divide, Bin(Multiply, N("4"), N("2")), Bin(Exponentiate, Bin(Substract, N("1"), N("5")), Bin(Exponentiate, N("2"), N("3"))))];
    var o1 := AddOperator(Add, s.operands).value;
    assert |o1| == 1 && o1[0] == Bin(Add, N("3"), Bin(Divide, Bin(Multiply, N("4"), N("2")), Bin(Exponentiate, Bin(Substract, N("1"), N("5")), Bin(Exponentiate, N("2"), N("3")))));
    var x2 := Stacks(Init(s.operators), o1);
    assert |x2.operators| == 0 && |x2.operands| == 1 && x2.operands[0] == Bin(Add, N("3"), Bin(Divide, Bin(Multiply, N("4"), N("2")), Bin(Exponentiate, Bin(Substract, N("1"), N("5")), Bin(Exponentiate, N("2"), N("3")))));
    assert Drain(s) == Drain(x2);
    r := x2;
  }

  /** The tokens of `3 + 4 * 2 / ( 1 - 5 ) ^ 2 ^ 3` parse to `3 + ((4 * 2) / ((1 - 5) ^ (2 ^ 3)))`: `^` is right-associative, `*` and `/` are left-associative. */
  lemma Precedence(t: seq<Token>)
    requires |t| == 15 && t[0] == Num("3") && t[1] == Operator(Add) && t[2] == Num("4")
    requires t[3] == Operator(Multiply) && t[4] == Num("2") && t[5] == Operator(Divide)
    requires t[6] == LeftParenthesis && t[7] == Num("1") && t[8] == Operator(Substract) && t[9] == Num("5")
    requires t[10] == RightParenthesis && t[11] == Operator(Exponentiate) && t[12] == Num("2")
    requires t[13] == Operator(Exponentiate) && t[14] == Num("3")
    ensures Parse(t) == Ok(Bin(Add, N("3"), Bin(Divide, Bin(Multiply, N("4"), N("2")),
                                   Bin(Exponentiate, Bin(Substract, N("1"), N("5")),
                                                     Bin(Exponentiate, N("2"), N("3"))))))
  {
    var s0 := Stacks([], []);
    var s1 := PrecedenceStep1(s0);
    var s2 := PrecedenceStep2(s1);
    var s3 := PrecedenceStep3(s2);
    var s4 := PrecedenceStep4(s3);
    var s5 := PrecedenceStep5(s4);
    var s6 := PrecedenceStep6(s5);
    var s7 := PrecedenceStep7(s6);
    var s8 := PrecedenceStep8(s7);
    var s9 := PrecedenceStep9(s8);
    var s10 := PrecedenceStep10(s9);
    var s11 := PrecedenceStep11(s10);
    var s12 := PrecedenceStep12(s11);
    var s13 := PrecedenceStep13(s12);
    var s14 := PrecedenceStep14(s13);
    var s15 := PrecedenceStep15(s14);
    assert ParseFrom(t, 15, s15) == Ok(s15);
    DispatchThenParse(t, 14, s14, s15);
    DispatchThenParse(t, 13, s13, s14);
    DispatchThenParse(t, 12, s12, s13);
    DispatchThenParse(t, 11, s11, s12);
    DispatchThenParse(t, 10, s10, s11);
    DispatchThenParse(t, 9, s9, s10);
    DispatchThenParse(t, 8, s8, s9);
    DispatchThenParse(t, 7, s7, s8);
    DispatchThenParse(t, 6, s6, s7);
    DispatchThenParse(t, 5, s5, s6);
    DispatchThenParse(t, 4, s4, s5);
    DispatchThenParse(t, 3, s3, s4);
    DispatchThenParse(t, 2, s2, s3);
    DispatchThenParse(t, 1, s1, s2);
    DispatchThenParse(t, 0, s0, s1);
    var d1 := PrecedenceDrain1(s15);
    var d2 := PrecedenceDrain2(d1);
    var d3 := PrecedenceDrain3(d2);
    var d4 := PrecedenceDrain4(d3);
    assert Drain(d4) == Ok(d4.operands);
  }

  lemma CallWithoutArgumentsStep1(s: Stacks) returns (r: Stacks)
    requires |s.operators| == 0 && |s.operands| == 0
    ensures |r.operators| == 1 && r.operators[0] == Token.Function("max") && |r.operands| == 0
    ensures Dispatch(Token.Function("max"), s) == Ok(r)
  {
    var x1 := Stacks(s.operators + [Token.Function("max")], s.operands);
    assert |x1.operators| == 1 && x1.operators[0] == Token.Function("max") && |x1.operands| == 0;
    assert Dispatch(Token.Function("max"), s) == Ok(x1);
    r := x1;
  }

  lemma CallWithoutArgumentsStep2(s: Stacks) returns (r: Stacks)
    requires |s.operators| == 1 && s.operators[0] == Token.Function("max") && |s.operands| == 0
    ensures |r.operators| == 2 && r.operators[0] == Token.Function("max")
    ensures r.operators[1] == LeftParenthesis && |r.operands| == 0
    ensures Dispatch(LeftParenthesis, s) == Ok(r)
  {
    var x1 := Stacks(s.operators + [LeftParenthesis], s.operands);
    assert |x1.operators| == 2 && x1.operators[0] == Token.Function("max") && x1.operators[1] == LeftParenthesis && |x1.operands| == 0;
    assert Dispatch(LeftParenthesis, s) == Ok(x1);
    r := x1;
  }

  lemma CallWithoutArgumentsStep3Pop1(s: Stacks) returns (r: Stacks)
    requires |s.operators| == 2 && s.operators[0] == Token.Function("max")
    requires s.operators[1] == LeftParenthesis && |s.operands| == 0
    ensures |r.operators| == 1 && r.operators[0] == Token.Function("max") && |r.operands| == 0
    ensures CloseFrom(s) == CloseFrom(r)
  {
    var x1 := Stacks(Init(s.operators), s.operands);
    assert |x1.operators| == 1 && x1.operators[0] == Token.Function("max") && |x1.operands| == 0;
    assert CloseFrom(s) == CloseFrom(x1);
    r := x1;
  }

  lemma CallWithoutArgumentsStep3Pop2(s: Stacks)
    requires |s.operators| == 1 && s.operators[0] == Token.Function("max") && |s.operands| == 0
    ensures CloseFrom(s) == Err(NotEnoughFunctionParams("max"))
  {
    assert CollectFunction("max", s.operands) == Err(NotEnoughFunctionParams("max"));
  }

  lemma CallWithoutArgumentsStep3(s: Stacks)
    requires |s.operators| == 2 && s.operators[0] == Token.Function("max")
    requires s.operators[1] == LeftParenthesis && |s.operands| == 0
    ensures Dispatch(RightParenthesis, s) == Err(NotEnoughFunctionParams("max"))
  {
    var x1 := CallWithoutArgumentsStep3Pop1(s);
    CallWithoutArgumentsStep3Pop2(x1);
    assert CloseFrom(s) == Err(NotEnoughFunctionParams("max"));
    assert CloseFrom(s) == Err(NotEnoughFunctionParams("max"));
    DispatchClose(s);
  }

  /** `max()` has no first argument. */
  lemma CallWithoutArguments(t: seq<Token>)
    requires |t| == 3 && t[0] == Token.Function("max") && t[1] == LeftParenthesis
    requires t[2] == RightParenthesis
    ensures Parse(t) == Err(NotEnoughFunctionParams("max"))
  {
    var s0 := Stacks([], []);
    var s1 := CallWithoutArgumentsStep1(s0);
    var s2 := CallWithoutArgumentsStep2(s1);
    CallWithoutArgumentsStep3(s2);
    assert Dispatch(t[2], s2) == Err(NotEnoughFunctionParams("max"));
    assert ParseFrom(t, 2, s2) == Err(NotEnoughFunctionParams("max"));
    DispatchThenParse(t, 1, s1, s2);
    DispatchThenParse(t, 0, s0, s1);
  }

  lemma CallWithThreeArgumentsStep3(s: Stacks) returns (r: Stacks)
    requires |s.operators| == 2 && s.operators[0] == Token.Function("max")
    requires s.operators[1] == LeftParenthesis && |s.operands| == 0
    ensures |r.operators| == 2 && r.operators[0] == Token.Function("max")
    ensures r.operators[1] == LeftParenthesis && |r.operands| == 1 && r.operands[0] == N("1")
    ensures Dispatch(Num("1"), s) == Ok(r)
  {
    var x1 := Stacks(s.operators, s.operands + [Leaf(Num("1"))]);
    assert |x1.operators| == 2 && x1.operators[0] == Token.Function("max") && x1.operators[1] == LeftParenthesis && |x1.operands| == 1 && x1.operands[0] == N("1");
    assert Dispatch(Num("1"), s) == Ok(x1);
    r := x1;
  }

  lemma CallWithThreeArgumentsStep4(s: Stacks) returns (r: Stacks)
    requires |s.operators| == 2 && s.operators[0] == Token.Function("max")
    requires s.operators[1] == LeftParenthesis && |s.operands| == 1 && s.operands[0] == N("1")
    ensures |r.operators| == 2 && r.operators[0] == Token.Function("max")
    ensures r.operators[1] == LeftParenthesis && |r.operands| == 2 && r.operands[0] == N("1")
    ensures r.operands[1] == Leaf(Comma)
    ensures Dispatch(Comma, s) == Ok(r)
  {
    var x1 := Stacks(s.operators, s.operands + [Leaf(Comma)]);
    assert |x1.operators| == 2 && x1.operators[0] == Token.Function("max") && x1.operators[1] == LeftParenthesis && |x1.operands| == 2 && x1.operands[0] == N("1") && x1.operands[1] == Leaf(Comma);
    assert Dispatch(Comma, s) == Ok(x1);
    r := x1;
  }

  lemma CallWithThreeArgumentsStep5(s: Stacks) returns (r: Stacks)
    requires |s.operators| == 2 && s.operators[0] == Token.Function("max")
    requires s.operators[1] == LeftParenthesis && |s.operands| == 2 && s.operands[0] == N("1")
    requires s.operands[1] == Leaf(Comma)
    ensures |r.operators| == 2 && r.operators[0] == Token.Function("max")
    ensures r.operators[1] == LeftParenthesis && |r.operands| == 3 && r.operands[0] == N("1")
    ensures r.operands[1] == Leaf(Comma) && r.operands[2] == N("2")
    ensures Dispatch(Num("2"), s) == Ok(r)
  {
    var x1 := Stacks(s.operators, s.operands + [Leaf(Num("2"))]);
    assert |x1.operators| == 2 && x1.operators[0] == Token.Function("max") && x1.operators[1] == LeftParenthesis && |x1.operands| == 3 && x1.operands[0] == N("1") && x1.operands[1] == Leaf(Comma) && x1.operands[2] == N("2");
    assert Dispatch(Num("2"), s) == Ok(x1);
    r := x1;
  }

  lemma CallWithThreeArgumentsStep6(s: Stacks) returns (r: Stacks)
    requires |s.operators| == 2 && s.operators[0] == Token.Function("max")
    requires s.operators[1] == LeftParenthesis && |s.operands| == 3 && s.operands[0] == N("1")
    requires s.operands[1] == Leaf(Comma) && s.operands[2] == N("2")
    ensures |r.operators| == 2 && r.operators[0] == Token.Function("max")
    ensures r.operators[1] == LeftParenthesis && |r.operands| == 4 && r.operands[0] == N("1")
    ensures r.operands[1] == Leaf(Comma) && r.operands[2] == N("2") && r.operands[3] == Leaf(Comma)
    ensures Dispatch(Comma, s) == Ok(r)
  {
    var x1 := Stacks(s.operators, s.operands + [Leaf(Comma)]);
    assert |x1.operators| == 2 && x1.operators[0] == Token.Function("max") && x1.operators[1] == LeftParenthesis && |x1.operands| == 4 && x1.operands[0] == N("1") && x1.operands[1] == Leaf(Comma) && x1.operands[2] == N("2") && x1.operands[3] == Leaf(Comma);
    assert Dispatch(Comma, s) == Ok(x1);
    r := x1;
  }

  lemma CallWithThreeArgumentsStep7(s: Stacks) returns (r: Stacks)
    requires |s.operators| == 2 && s.operators[0] == Token.Function("max")
    requires s.operators[1] == LeftParenthesis && |s.operands| == 4 && s.operands[0] == N("1")
    requires s.operands[1] == Leaf(Comma) && s.operands[2] == N("2") && s.operands[3] == Leaf(Comma)
    ensures |r.operators| == 2 && r.operators[0] == Token.Function("max")
    ensures r.operators[1] == LeftParenthesis && |r.operands| == 5 && r.operands[0] == N("1")
    ensures r.operands[1] == Leaf(Comma) && r.operands[2] == N("2") && r.operands[3] == Leaf(Comma)
    ensures r.operands[4] == N("3")
    ensures Dispatch(Num("3"), s) == Ok(r)
  {
    var x1 := Stacks(s.operators, s.operands + [Leaf(Num("3"))]);
    assert |x1.operators| == 2 && x1.operators[0] == Token.Function("max") && x1.operators[1] == LeftParenthesis && |x1.operands| == 5 && x1.operands[0] == N("1") && x1.operands[1] == Leaf(Comma) && x1.operands[2] == N("2") && x1.operands[3] == Leaf(Comma) && x1.operands[4] == N("3");
    assert Dispatch(Num("3"), s) == Ok(x1);
    r := x1;
  }

  lemma CallWithThreeArgumentsStep8Pop1(s: Stacks) returns (r: Stacks)
    requires |s.operators| == 2 && s.operators[0] == Token.Function("max")
    requires s.operators[1] == LeftParenthesis && |s.operands| == 5 && s.operands[0] == N("1")
    requires s.operands[1] == Leaf(Comma) && s.operands[2] == N("2") && s.operands[3] == Leaf(Comma)
    requires s.operands[4] == N("3")
    ensures |r.operators| == 1 && r.operators[0] == Token.Function("max") && |r.operands| == 5
    ensures r.operands[0] == N("1") && r.operands[1] == Leaf(Comma) && r.operands[2] == N("2")
    ensures r.operands[3] == Leaf(Comma) && r.operands[4] == N("3")
    ensures CloseFrom(s) == CloseFrom(r)
  {
    var x1 := Stacks(Init(s.operators), s.operands);
    assert |x1.operators| == 1 && x1.operators[0] == Token.Function("max") && |x1.operands| == 5 && x1.operands[0] == N("1") && x1.operands[1] == Leaf(Comma) && x1.operands[2] == N("2") && x1.operands[3] == Leaf(Comma) && x1.operands[4] == N("3");
    assert CloseFrom(s) == CloseFrom(x1);
    r := x1;
  }

  lemma CallWithThreeArgumentsStep8Pop2(s: Stacks) returns (r: Stacks)
    requires |s.operators| == 1 && s.operators[0] == Token.Function("max") && |s.operands| == 5
    requires s.operands[0] == N("1") && s.operands[1] == Leaf(Comma) && s.operands[2] == N("2")
    requires s.operands[3] == Leaf(Comma) && s.operands[4] == N("3")
    ensures |r.operators| == 0 && |r.operands| == 1
    ensures r.operands[0] == Node(Token.Function("max"), [N("1"), N("2"), N("3")])
    ensures CloseFrom(s) == CloseFrom(r)
  {
    var rest1, args2 := Init(s.operands), [Last(s.operands)];
    assert |rest1| == 4 && rest1[0] == N("1") && rest1[1] == Leaf(Comma) && rest1[2] == N("2") && rest1[3] == Leaf(Comma) && |args2| == 1 && args2[0] == N("3");
    var rest3, args4 := rest1[..|rest1| - 2], [rest1[|rest1| - 2]] + args2;
    assert |rest3| == 2 && rest3[0] == N("1") && rest3[1] == Leaf(Comma) && |args4| == 2 && args4[0] == N("2") && args4[1] == N("3");
    var rest5, args6 := rest3[..|rest3| - 2], [rest3[|rest3| - 2]] + args4;
    assert |rest5| == 0 && |args6| == 3 && args6[0] == N("1") && args6[1] == N("2") && args6[2] == N("3");
    assert GatherFrom("max", rest5, args6) == Ok((rest5, args6));
    assert GatherFrom("max", rest3, args4) == Ok((rest5, args6));
    assert GatherFrom("max", rest1, args2) == Ok((rest5, args6));
    assert args6 == [N("1"), N("2"), N("3")];
    var o7 := CollectFunction("max", s.operands).value;
    assert o7 == rest5 + [Node(Token.Function("max"), args6)];
    assert |o7| == 1 && o7[0] == Node(Token.Function("max"), [N("1"), N("2"), N("3")]);
    var x8 := Stacks(Init(s.operators), o7);
    assert |x8.operators| == 0 && |x8.operands| == 1 && x8.operands[0] == Node(Token.Function("max"), [N("1"), N("2"), N("3")]);
    assert CloseFrom(s) == CloseFrom(x8);
    r := x8;
  }

  lemma CallWithThreeArgumentsStep8(s: Stacks) returns (r: Stacks)
    requires |s.operators| == 2 && s.operators[0] == Token.Function("max")
    requires s.operators[1] == LeftParenthesis && |s.operands| == 5 && s.operands[0] == N("1")
    requires s.operands[1] == Leaf(Comma) && s.operands[2] == N("2") && s.operands[3] == Leaf(Comma)
    requires s.operands[4] == N("3")
    ensures |r.operators| == 0 && |r.operands| == 1
    ensures r.operands[0] == Node(Token.Function("max"), [N("1"), N("2"), N("3")])
    ensures Dispatch(RightParenthesis, s) == Ok(r)
  {
    var x1 := CallWithThreeArgumentsStep8Pop1(s);
    var x2 := CallWithThreeArgumentsStep8Pop2(x1);
    assert CloseFrom(x2) == Ok(x2);
    assert CloseFrom(x1) == Ok(x2);
    assert CloseFrom(s) == Ok(x2);
    DispatchClose(s);
    assert Dispatch(RightParenthesis, s) == Ok(x2);
    r := x2;
  }

  /** `max(1,2,3)` collects its three arguments in order and drops the commas. */
  lemma CallWithThreeArguments(t: seq<Token>)
    requires |t| == 8 && t[0] == Token.Function("max") && t[1] == LeftParenthesis && t[2] == Num("1")
    requires t[3] == Comma && t[4] == Num("2") && t[5] == Comma && t[6] == Num("3")
    requires t[7] == RightParenthesis
    ensures Parse(t) == Ok(Node(Token.Function("max"), [N("1"), N("2"), N("3")]))
  {
    var s0 := Stacks([], []);
    var s1 := CallWithoutArgumentsStep1(s0);
    var s2 := CallWithoutArgumentsStep2(s1);
    var s3 := CallWithThreeArgumentsStep3(s2);
    var s4 := CallWithThreeArgumentsStep4(s3);
    var s5 := CallWithThreeArgumentsStep5(s4);
    var s6 := CallWithThreeArgumentsStep6(s5);
    var s7 := CallWithThreeArgumentsStep7(s6);
    var s8 := CallWithThreeArgumentsStep8(s7);
    assert ParseFrom(t, 8, s8) == Ok(s8);
    DispatchThenParse(t, 7, s7, s8);
    DispatchThenParse(t, 6, s6, s7);
    DispatchThenParse(t, 5, s5, s6);
    DispatchThenParse(t, 4, s4, s5);
    DispatchThenParse(t, 3, s3, s4);
    DispatchThenParse(t, 2, s2, s3);
    DispatchThenParse(t, 1, s1, s2);
    DispatchThenParse(t, 0, s0, s1);
    assert Drain(s8) == Ok(s8.operands);
  }

  lemma NestedCallTakesOuterArgumentsStep5(s: Stacks) returns (r: Stacks)
    requires |s.operators| == 2 && s.operators[0] == Token.Function("max")
    requires s.operators[1] == LeftParenthesis && |s.operands| == 2 && s.operands[0] == N("1")
    requires s.operands[1] == Leaf(Comma)
    ensures |r.operators| == 3 && r.operators[0] == Token.Function("max")
    ensures r.operators[1] == LeftParenthesis && r.operators[2] == Token.Function("sin")
    ensures |r.operands| == 2 && r.operands[0] == N("1") && r.operands[1] == Leaf(Comma)
    ensures Dispatch(Token.Function("sin"), s) == Ok(r)
  {
    var x1 := Stacks(s.operators + [Token.Function("sin")], s.operands);
    assert |x1.operators| == 3 && x1.operators[0] == Token.Function("max") && x1.operators[1] == LeftParenthesis && x1.operators[2] == Token.Function("sin") && |x1.operands| == 2 && x1.operands[0] == N("1") && x1.operands[1] == Leaf(Comma);
    assert Dispatch(Token.Function("sin"), s) == Ok(x1);
    r := x1;
  }

  lemma NestedCallTakesOuterArgumentsStep6(s: Stacks) returns (r: Stacks)
    requires |s.operators| == 3 && s.operators[0] == Token.Function("max")
    requires s.operators[1] == LeftParenthesis && s.operators[2] == Token.Function("sin")
    requires |s.operands| == 2 && s.operands[0] == N("1") && s.operands[1] == Leaf(Comma)
    ensures |r.operators| == 4 && r.operators[0] == Token.Function("max")
    ensures r.operators[1] == LeftParenthesis && r.operators[2] == Token.Function("sin")
    ensures r.operators[3] == LeftParenthesis && |r.operands| == 2 && r.operands[0] == N("1")
    ensures r.operands[1] == Leaf(Comma)
    ensures Dispatch(LeftParenthesis, s) == Ok(r)
  {
    var x1 := Stacks(s.operators + [LeftParenthesis], s.operands);
    assert |x1.operators| == 4 && x1.operators[0] == Token.Function("max") && x1.operators[1] == LeftParenthesis && x1.operators[2] == Token.Function("sin") && x1.operators[3] == LeftParenthesis && |x1.operands| == 2 && x1.operands[0] == N("1") && x1.operands[1] == Leaf(Comma);
    assert Dispatch(LeftParenthesis, s) == Ok(x1);
    r := x1;
  }

  lemma NestedCallTakesOuterArgumentsStep7(s: Stacks) returns (r: Stacks)
    requires |s.operators| == 4 && s.operators[0] == Token.Function("max")
    requires s.operators[1] == LeftParenthesis && s.operators[2] == Token.Function("sin")
    requires s.operators[3] == LeftParenthesis && |s.operands| == 2 && s.operands[0] == N("1")
    requires s.operands[1] == Leaf(Comma)
    ensures |r.operators| == 4 && r.operators[0] == Token.Function("max")
    ensures r.operators[1] == LeftParenthesis && r.operators[2] == Token.Function("sin")
    ensures r.operators[3] == LeftParenthesis && |r.operands| == 3 && r.operands[0] == N("1")
    ensures r.operands[1] == Leaf(Comma) && r.operands[2] == N("2")
    ensures Dispatch(Num("2"), s) == Ok(r)
  {
    var x1 := Stacks(s.operators, s.operands + [Leaf(Num("2"))]);
    assert |x1.operators| == 4 && x1.operators[0] == Token.Function("max") && x1.operators[1] == LeftParenthesis && x1.operators[2] == Token.Function("sin") && x1.operators[3] == LeftParenthesis && |x1.operands| == 3 && x1.operands[0] == N("1") && x1.operands[1] == Leaf(Comma) && x1.operands[2] == N("2");
    assert Dispatch(Num("2"), s) == Ok(x1);
    r := x1;
  }

  lemma NestedCallTakesOuterArgumentsStep8Pop1(s: Stacks) returns (r: Stacks)
    requires |s.operators| == 4 && s.operators[0] == Token.Function("max")
    requires s.operators[1] == LeftParenthesis && s.operators[2] == Token.Function("sin")
    requires s.operators[3] == LeftParenthesis && |s.operands| == 3 && s.operands[0] == N("1")
    requires s.operands[1] == Leaf(Comma) && s.operands[2] == N("2")
    ensures |r.operators| == 3 && r.operators[0] == Token.Function("max")
    ensures r.operators[1] == LeftParenthesis && r.operators[2] == Token.Function("sin")
    ensures |r.operands| == 3 && r.operands[0] == N("1") && r.operands[1] == Leaf(Comma)
    ensures r.operands[2] == N("2")
    ensures CloseFrom(s) == CloseFrom(r)
  {
    var x1 := Stacks(Init(s.operators), s.operands);
    assert |x1.operators| == 3 && x1.operators[0] == Token.Function("max") && x1.operators[1] == LeftParenthesis && x1.operators[2] == Token.Function("sin") && |x1.operands| == 3 && x1.operands[0] == N("1") && x1.operands[1] == Leaf(Comma) && x1.operands[2] == N("2");
    assert CloseFrom(s) == CloseFrom(x1);
    r := x1;
  }

  lemma NestedCallTakesOuterArgumentsStep8Pop2(s: Stacks) returns (r: Stacks)
    requires |s.operators| == 3 && s.operators[0] == Token.Function("max")
    requires s.operators[1] == LeftParenthesis && s.operators[2] == Token.Function("sin")
    requires |s.operands| == 3 && s.operands[0] == N("1") && s.operands[1] == Leaf(Comma)
    requires s.operands[2] == N("2")
    ensures |r.operators| == 2 && r.operators[0] == Token.Function("max")
    ensures r.operators[1] == LeftParenthesis && |r.operands| == 1
    ensures r.operands[0] == Node(Token.Function("sin"), [N("1"), N("2")])
    ensures CloseFrom(s) == CloseFrom(r)
  {
    var rest1, args2 := Init(s.operands), [Last(s.operands)];
    assert |rest1| == 2 && rest1[0] == N("1") && rest1[1] == Leaf(Comma) && |args2| == 1 && args2[0] == N("2");
    var rest3, args4 := rest1[..|rest1| - 2], [rest1[|rest1| - 2]] + args2;
    assert |rest3| == 0 && |args4| == 2 && args4[0] == N("1") && args4[1] == N("2");
    assert GatherFrom("sin", rest3, args4) == Ok((rest3, args4));
    assert GatherFrom("sin", rest1, args2) == Ok((rest3, args4));
    assert args4 == [N("1"), N("2")];
    var o5 := CollectFunction("sin", s.operands).value;
    assert o5 == rest3 + [Node(Token.Function("sin"), args4)];
    assert |o5| == 1 && o5[0] == Node(Token.Function("sin"), [N("1"), N("2")]);
    var x6 := Stacks(Init(s.operators), o5);
    assert |x6.operators| == 2 && x6.operators[0] == Token.Function("max") && x6.operators[1] == LeftParenthesis && |x6.operands| == 1 && x6.operands[0] == Node(Token.Function("sin"), [N("1"), N("2")]);
    assert CloseFrom(s) == CloseFrom(x6);
    r := x6;
  }

  lemma NestedCallTakesOuterArgumentsStep8Pop3(s: Stacks) returns (r: Stacks)
    requires |s.operators| == 2 && s.operators[0] == Token.Function("max")
    requires s.operators[1] == LeftParenthesis && |s.operands| == 1
    requires s.operands[0] == Node(Token.Function("sin"), [N("1"), N("2")])
    ensures |r.operators| == 1 && r.operators[0] == Token.Function("max") && |r.operands| == 1
    ensures r.operands[0] == Node(Token.Function("sin"), [N("1"), N("2")])
    ensures CloseFrom(s) == CloseFrom(r)
  {
    var x1 := Stacks(Init(s.operators), s.operands);
    assert |x1.operators| == 1 && x1.operators[0] == Token.Function("max") && |x1.operands| == 1 && x1.operands[0] == Node(Token.Function("sin"), [N("1"), N("2")]);
    assert CloseFrom(s) == CloseFrom(x1);
    r := x1;
  }

  lemma NestedCallTakesOuterArgumentsStep8Pop4(s: Stacks) returns (r: Stacks)
    requires |s.operators| == 1 && s.operators[0] == Token.Function("max") && |s.operands| == 1
    requires s.operands[0] == Node(Token.Function("sin"), [N("1"), N("2")])
    ensures |r.operators| == 0 && |r.operands| == 1
    ensures r.operands[0] == Node(Token.Function("max"), [Node(Token.Function("sin"), [N("1"), N("2")])])
    ensures CloseFrom(s) == CloseFrom(r)
  {
    var rest1, args2 := Init(s.operands), [Last(s.operands)];
    assert |rest1| == 0 && |args2| == 1 && args2[0] == Node(Token.Function("sin"), [N("1"), N("2")]);
    assert GatherFrom("max", rest1, args2) == Ok((rest1, args2));
    assert args2 == [Node(Token.Function("sin"), [N("1"), N("2")])];
    var o3 := CollectFunction("max", s.operands).value;
    assert o3 == rest1 + [Node(Token.Function("max"), args2)];
    assert |o3| == 1 && o3[0] == Node(Token.Function("max"), [Node(Token.Function("sin"), [N("1"), N("2")])]);
    var x4 := Stacks(Init(s.operators), o3);
    assert |x4.operators| == 0 && |x4.operands| == 1 && x4.operands[0] == Node(Token.Function("max"), [Node(Token.Function("sin"), [N("1"), N("2")])]);
    assert CloseFrom(s) == CloseFrom(x4);
    r := x4;
  }

  lemma NestedCallTakesOuterArgumentsStep8(s: Stacks) returns (r: Stacks)
    requires |s.operators| == 4 && s.operators[0] == Token.Function("max")
    requires s.operators[1] == LeftParenthesis && s.operators[2] == Token.Function("sin")
    requires s.operators[3] == LeftParenthesis && |s.operands| == 3 && s.operands[0] == N("1")
    requires s.operands[1] == Leaf(Comma) && s.operands[2] == N("2")
    ensures |r.operators| == 0 && |r.operands| == 1
    ensures r.operands[0] == Node(Token.Function("max"), [Node(Token.Function("sin"), [N("1"), N("2")])])
    ensures Dispatch(RightParenthesis, s) == Ok(r)
  {
    var x1 := NestedCallTakesOuterArgumentsStep8Pop1(s);
    var x2 := NestedCallTakesOuterArgumentsStep8Pop2(x1);
    var x3 := NestedCallTakesOuterArgumentsStep8Pop3(x2);
    var x4 := NestedCallTakesOuterArgumentsStep8Pop4(x3);
    assert CloseFrom(x4) == Ok(x4);
    assert CloseFrom(x3) == Ok(x4);
    assert CloseFrom(x2) == Ok(x4);
    assert CloseFrom(x1) == Ok(x4);
    assert CloseFrom(s) == Ok(x4);
    DispatchClose(s);
    assert Dispatch(RightParenthesis, s) == Ok(x4);
    r := x4;
  }

  lemma NestedCallTakesOuterArgumentsStep9(s: Stacks) returns (r: Stacks)
    requires |s.operators| == 0 && |s.operands| == 1
    requires s.operands[0] == Node(Token.Function("max"), [Node(Token.Function("sin"), [N("1"), N("2")])])
    ensures |r.operators| == 0 && |r.operands| == 1
    ensures r.operands[0] == Node(Token.Function("max"), [Node(Token.Function("sin"), [N("1"), N("2")])])
    ensures Dispatch(RightParenthesis, s) == Ok(r)
  {
    assert CloseFrom(s) == Ok(s);
    DispatchClose(s);
    assert Dispatch(RightParenthesis, s) == Ok(s);
    r := s;
  }

  /** In `max(1, sin(2))` the inner call also takes `1`, as collection has no group boundary: the result is `max(sin(1, 2))`. */
  lemma NestedCallTakesOuterArguments(t: seq<Token>)
    requires |t| == 9 && t[0] == Token.Function("max") && t[1] == LeftParenthesis && t[2] == Num("1")
    requires t[3] == Comma && t[4] == Token.Function("sin") && t[5] == LeftParenthesis && t[6] == Num("2")
    requires t[7] == RightParenthesis && t[8] == RightParenthesis
    ensures Parse(t) == Ok(Node(Token.Function("max"), [Node(Token.Function("sin"), [N("1"), N("2")])]))
  {
    var s0 := Stacks([], []);
    var s1 := CallWithoutArgumentsStep1(s0);
    var s2 := CallWithoutArgumentsStep2(s1);
    var s3 := CallWithThreeArgumentsStep3(s2);
    var s4 := CallWithThreeArgumentsStep4(s3);
    var s5 := NestedCallTakesOuterArgumentsStep5(s4);
    var s6 := NestedCallTakesOuterArgumentsStep6(s5);
    var s7 := NestedCallTakesOuterArgumentsStep7(s6);
    var s8 := NestedCallTakesOuterArgumentsStep8(s7);
    var s9 := NestedCallTakesOuterArgumentsStep9(s8);
    assert ParseFrom(t, 9, s9) == Ok(s9);
    DispatchThenParse(t, 8, s8, s9);
    DispatchThenParse(t, 7, s7, s8);
    DispatchThenParse(t, 6, s6, s7);
    DispatchThenParse(t, 5, s5, s6);
    DispatchThenParse(t, 4, s4, s5);
    DispatchThenParse(t, 3, s3, s4);
    DispatchThenParse(t, 2, s2, s3);
    DispatchThenParse(t, 1, s1, s2);
    DispatchThenParse(t, 0, s0, s1);
    assert Drain(s9) == Ok(s9.operands);
  }

  lemma NestedCallClosesOuterCallStep3(s: Stacks) returns (r: Stacks)
    requires |s.operators| == 2 && s.operators[0] == Token.Function("max")
    requires s.operators[1] == LeftParenthesis && |s.operands| == 0
    ensures |r.operators| == 3 && r.operators[0] == Token.Function("max")
    ensures r.operators[1] == LeftParenthesis && r.operators[2] == Token.Function("sin")
    ensures |r.operands| == 0
    ensures Dispatch(Token.Function("sin"), s) == Ok(r)
  {
    var x1 := Stacks(s.operators + [Token.Function("sin")], s.operands);
    assert |x1.operators| == 3 && x1.operators[0] == Token.Function("max") && x1.operators[1] == LeftParenthesis && x1.operators[2] == Token.Function("sin") && |x1.operands| == 0;
    assert Dispatch(Token.Function("sin"), s) == Ok(x1);
    r := x1;
  }

  lemma NestedCallClosesOuterCallStep4(s: Stacks) returns (r: Stacks)
    requires |s.operators| == 3 && s.operators[0] == Token.Function("max")
    requires s.operators[1] == LeftParenthesis && s.operators[2] == Token.Function("sin")
    requires |s.operands| == 0
    ensures |r.operators| == 4 && r.operators[0] == Token.Function("max")
    ensures r.operators[1] == LeftParenthesis && r.operators[2] == Token.Function("sin")
    ensures r.operators[3] == LeftParenthesis && |r.operands| == 0
    ensures Dispatch(LeftParenthesis, s) == Ok(r)
  {
    var x1 := Stacks(s.operators + [LeftParenthesis], s.operands);
    assert |x1.operators| == 4 && x1.operators[0] == Token.Function("max") && x1.operators[1] == LeftParenthesis && x1.operators[2] == Token.Function("sin") && x1.operators[3] == LeftParenthesis && |x1.operands| == 0;
    assert Dispatch(LeftParenthesis, s) == Ok(x1);
    r := x1;
  }

  lemma NestedCallClosesOuterCallStep5(s: Stacks) returns (r: Stacks)
    requires |s.operators| == 4 && s.operators[0] == Token.Function("max")
    requires s.operators[1] == LeftParenthesis && s.operators[2] == Token.Function("sin")
    requires s.operators[3] == LeftParenthesis && |s.operands| == 0
    ensures |r.operators| == 4 && r.operators[0] == Token.Function("max")
    ensures r.operators[1] == LeftParenthesis && r.operators[2] == Token.Function("sin")
    ensures r.operators[3] == LeftParenthesis && |r.operands| == 1 && r.operands[0] == N("2")
    ensures Dispatch(Num("2"), s) == Ok(r)
  {
    var x1 := Stacks(s.operators, s.operands + [Leaf(Num("2"))]);
    assert |x1.operators| == 4 && x1.operators[0] == Token.Function("max") && x1.operators[1] == LeftParenthesis && x1.operators[2] == Token.Function("sin") && x1.operators[3] == LeftParenthesis && |x1.operands| == 1 && x1.operands[0] == N("2");
    assert Dispatch(Num("2"), s) == Ok(x1);
    r := x1;
  }

  lemma NestedCallClosesOuterCallStep6Pop1(s: Stacks) returns (r: Stacks)
    requires |s.operators| == 4 && s.operators[0] == Token.Function("max")
    requires s.operators[1] == LeftParenthesis && s.operators[2] == Token.Function("sin")
    requires s.operators[3] == LeftParenthesis && |s.operands| == 1 && s.operands[0] == N("2")
    ensures |r.operators| == 3 && r.operators[0] == Token.Function("max")
    ensures r.operators[1] == LeftParenthesis && r.operators[2] == Token.Function("sin")
    ensures |r.operands| == 1 && r.operands[0] == N("2")
    ensures CloseFrom(s) == CloseFrom(r)
  {
    var x1 := Stacks(Init(s.operators), s.operands);
    assert |x1.operators| == 3 && x1.operators[0] == Token.Function("max") && x1.operators[1] == LeftParenthesis && x1.operators[2] == Token.Function("sin") && |x1.operands| == 1 && x1.operands[0] == N("2");
    assert CloseFrom(s) == CloseFrom(x1);
    r := x1;
  }

  lemma NestedCallClosesOuterCallStep6Pop2(s: Stacks) returns (r: Stacks)
    requires |s.operators| == 3 && s.operators[0] == Token.Function("max")
    requires s.operators[1] == LeftParenthesis && s.operators[2] == Token.Function("sin")
    requires |s.operands| == 1 && s.operands[0] == N("2")
    ensures |r.operators| == 2 && r.operators[0] == Token.Function("max")
    ensures r.operators[1] == LeftParenthesis && |r.operands| == 1
    ensures r.operands[0] == Node(Token.Function("sin"), [N("2")])
    ensures CloseFrom(s) == CloseFrom(r)
  {
    var rest1, args2 := Init(s.operands), [Last(s.operands)];
    assert |rest1| == 0 && |args2| == 1 && args2[0] == N("2");
    assert GatherFrom("sin", rest1, args2) == Ok((rest1, args2));
    assert args2 == [N("2")];
    var o3 := CollectFunction("sin", s.operands).value;
    assert o3 == rest1 + [Node(Token.Function("sin"), args2)];
    assert |o3| == 1 && o3[0] == Node(Token.Function("sin"), [N("2")]);
    var x4 := Stacks(Init(s.operators), o3);
    assert |x4.operators| == 2 && x4.operators[0] == Token.Function("max") && x4.operators[1] == LeftParenthesis && |x4.operands| == 1 && x4.operands[0] == Node(Token.Function("sin"), [N("2")]);
    assert CloseFrom(s) == CloseFrom(x4);
    r := x4;
  }

  lemma NestedCallClosesOuterCallStep6Pop3(s: Stacks) returns (r: Stacks)
    requires |s.operators| == 2 && s.operators[0] == Token.Function("max")
    requires s.operators[1] == LeftParenthesis && |s.operands| == 1
    requires s.operands[0] == Node(Token.Function("sin"), [N("2")])
    ensures |r.operators| == 1 && r.operators[0] == Token.Function("max") && |r.operands| == 1
    ensures r.operands[0] == Node(Token.Function("sin"), [N("2")])
    ensures CloseFrom(s) == CloseFrom(r)
  {
    var x1 := Stacks(Init(s.operators), s.operands);
    assert |x1.operators| == 1 && x1.operators[0] == Token.Function("max") && |x1.operands| == 1 && x1.operands[0] == Node(Token.Function("sin"), [N("2")]);
    assert CloseFrom(s) == CloseFrom(x1);
    r := x1;
  }

  lemma NestedCallClosesOuterCallStep6Pop4(s: Stacks) returns (r: Stacks)
    requires |s.operators| == 1 && s.operators[0] == Token.Function("max") && |s.operands| == 1
    requires s.operands[0] == Node(Token.Function("sin"), [N("2")])
    ensures |r.operators| == 0 && |r.operands| == 1
    ensures r.operands[0] == Node(Token.Function("max"), [Node(Token.Function("sin"), [N("2")])])
    ensures CloseFrom(s) == CloseFrom(r)
  {
    var rest1, args2 := Init(s.operands), [Last(s.operands)];
    assert |rest1| == 0 && |args2| == 1 && args2[0] == Node(Token.Function("sin"), [N("2")]);
    assert GatherFrom("max", rest1, args2) == Ok((rest1, args2));
    assert args2 == [Node(Token.Function("sin"), [N("2")])];
    var o3 := CollectFunction("max", s.operands).value;
    assert o3 == rest1 + [Node(Token.Function("max"), args2)];
    assert |o3| == 1 && o3[0] == Node(Token.Function("max"), [Node(Token.Function("sin"), [N("2")])]);
    var x4 := Stacks(Init(s.operators), o3);
    assert |x4.operators| == 0 && |x4.operands| == 1 && x4.operands[0] == Node(Token.Function("max"), [Node(Token.Function("sin"), [N("2")])]);
    assert CloseFrom(s) == CloseFrom(x4);
    r := x4;
  }

  lemma NestedCallClosesOuterCallStep6(s: Stacks) returns (r: Stacks)
    requires |s.operators| == 4 && s.operators[0] == Token.Function("max")
    requires s.operators[1] == LeftParenthesis && s.operators[2] == Token.Function("sin")
    requires s.operators[3] == LeftParenthesis && |s.operands| == 1 && s.operands[0] == N("2")
    ensures |r.operators| == 0 && |r.operands| == 1
    ensures r.operands[0] == Node(Token.Function("max"), [Node(Token.Function("sin"), [N("2")])])
    ensures Dispatch(RightParenthesis, s) == Ok(r)
  {
    var x1 := NestedCallClosesOuterCallStep6Pop1(s);
    var x2 := NestedCallClosesOuterCallStep6Pop2(x1);
    var x3 := NestedCallClosesOuterCallStep6Pop3(x2);
    var x4 := NestedCallClosesOuterCallStep6Pop4(x3);
    assert CloseFrom(x4) == Ok(x4);
    assert CloseFrom(x3) == Ok(x4);
    assert CloseFrom(x2) == Ok(x4);
    assert CloseFrom(x1) == Ok(x4);
    assert CloseFrom(s) == Ok(x4);
    DispatchClose(s);
    assert Dispatch(RightParenthesis, s) == Ok(x4);
    r := x4;
  }

  lemma NestedCallClosesOuterCallStep7(s: Stacks) returns (r: Stacks)
    requires |s.operators| == 0 && |s.operands| == 1
    requires s.operands[0] == Node(Token.Function("max"), [Node(Token.Function("sin"), [N("2")])])
    ensures |r.operators| == 0 && |r.operands| == 2
    ensures r.operands[0] == Node(Token.Function("max"), [Node(Token.Function("sin"), [N("2")])])
    ensures r.operands[1] == Leaf(Comma)
    ensures Dispatch(Comma, s) == Ok(r)
  {
    var x1 := Stacks(s.operators, s.operands + [Leaf(Comma)]);
    assert |x1.operators| == 0 && |x1.operands| == 2 && x1.operands[0] == Node(Token.Function("max"), [Node(Token.Function("sin"), [N("2")])]) && x1.operands[1] == Leaf(Comma);
    assert Dispatch(Comma, s) == Ok(x1);
    r := x1;
  }

  lemma NestedCallClosesOuterCallStep8(s: Stacks) returns (r: Stacks)
    requires |s.operators| == 0 && |s.operands| == 2
    requires s.operands[0] == Node(Token.Function("max"), [Node(Token.Function("sin"), [N("2")])])
    requires s.operands[1] == Leaf(Comma)
    ensures |r.operators| == 0 && |r.operands| == 3
    ensures r.operands[0] == Node(Token.Function("max"), [Node(Token.Function("sin"), [N("2")])])
    ensures r.operands[1] == Leaf(Comma) && r.operands[2] == N("1")
    ensures Dispatch(Num("1"), s) == Ok(r)
  {
    var x1 := Stacks(s.operators, s.operands + [Leaf(Num("1"))]);
    assert |x1.operators| == 0 && |x1.operands| == 3 && x1.operands[0] == Node(Token.Function("max"), [Node(Token.Function("sin"), [N("2")])]) && x1.operands[1] == Leaf(Comma) && x1.operands[2] == N("1");
    assert Dispatch(Num("1"), s) == Ok(x1);
    r := x1;
  }

  lemma NestedCallClosesOuterCallStep9(s: Stacks) returns (r: Stacks)
    requires |s.operators| == 0 && |s.operands| == 3
    requires s.operands[0] == Node(Token.Function("max"), [Node(Token.Function("sin"), [N("2")])])
    requires s.operands[1] == Leaf(Comma) && s.operands[2] == N("1")
    ensures |r.operators| == 0 && |r.operands| == 3
    ensures r.operands[0] == Node(Token.Function("max"), [Node(Token.Function("sin"), [N("2")])])
    ensures r.operands[1] == Leaf(Comma) && r.operands[2] == N("1")
    ensures Dispatch(RightParenthesis, s) == Ok(r)
  {
    assert CloseFrom(s) == Ok(s);
    DispatchClose(s);
    assert Dispatch(RightParenthesis, s) == Ok(s);
    r := s;
  }

  /** In `max(sin(2), 1)` the first `)` also closes `max`, so the `, 1` that follows is left on the operand stack and becomes the result. */
  lemma NestedCallClosesOuterCall(t: seq<Token>)
    requires |t| == 9 && t[0] == Token.Function("max") && t[1] == LeftParenthesis
    requires t[2] == Token.Function("sin") && t[3] == LeftParenthesis && t[4] == Num("2")
    requires t[5] == RightParenthesis && t[6] == Comma && t[7] == Num("1") && t[8] == RightParenthesis
    ensures Parse(t) == Ok(N("1"))
  {
    var s0 := Stacks([], []);
    var s1 := CallWithoutArgumentsStep1(s0);
    var s2 := CallWithoutArgumentsStep2(s1);
    var s3 := NestedCallClosesOuterCallStep3(s2);
    var s4 := NestedCallClosesOuterCallStep4(s3);
    var s5 := NestedCallClosesOuterCallStep5(s4);
    var s6 := NestedCallClosesOuterCallStep6(s5);
    var s7 := NestedCallClosesOuterCallStep7(s6);
    var s8 := NestedCallClosesOuterCallStep8(s7);
    var s9 := NestedCallClosesOuterCallStep9(s8);
    assert ParseFrom(t, 9, s9) == Ok(s9);
    DispatchThenParse(t, 8, s8, s9);
    DispatchThenParse(t, 7, s7, s8);
    DispatchThenParse(t, 6, s6, s7);
    DispatchThenParse(t, 5, s5, s6);
    DispatchThenParse(t, 4, s4, s5);
    DispatchThenParse(t, 3, s3, s4);
    DispatchThenParse(t, 2, s2, s3);
    DispatchThenParse(t, 1, s1, s2);
    DispatchThenParse(t, 0, s0, s1);
    assert Drain(s9) == Ok(s9.operands);
  }

  lemma ParenMismatchStep1(s: Stacks) returns (r: Stacks)
    requires |s.operators| == 0 && |s.operands| == 0
    ensures |r.operators| == 0 && |r.operands| == 1 && r.operands[0] == Leaf(Variable("x"))
    ensures Dispatch(Variable("x"), s) == Ok(r)
  {
    var x1 := Stacks(s.operators, s.operands + [Leaf(Variable("x"))]);
    assert |x1.operators| == 0 && |x1.operands| == 1 && x1.operands[0] == Leaf(Variable("x"));
    assert Dispatch(Variable("x"), s) == Ok(x1);
    r := x1;
  }

  lemma ParenMismatchStep2(s: Stacks) returns (r: Stacks)
    requires |s.operators| == 0 && |s.operands| == 1 && s.operands[0] == Leaf(Variable("x"))
    ensures |r.operators| == 1 && r.operators[0] == Operator(Add) && |r.operands| == 1
    ensures r.operands[0] == Leaf(Variable("x"))
    ensures Dispatch(Operator(Add), s) == Ok(r)
  {
    assert ReduceFrom(Add, s) == Ok(s);
    var x1 := Stacks(s.operators + [Operator(Add)], s.operands);
    assert |x1.operators| == 1 && x1.operators[0] == Operator(Add) && |x1.operands| == 1 && x1.operands[0] == Leaf(Variable("x"));
    DispatchOperator(Add, s);
    assert Dispatch(Operator(Add), s) == Ok(x1);
    r := x1;
  }

  lemma ParenMismatchStep3(s: Stacks) returns (r: Stacks)
    requires |s.operators| == 1 && s.operators[0] == Operator(Add) && |s.operands| == 1
    requires s.operands[0] == Leaf(Variable("x"))
    ensures |r.operators| == 2 && r.operators[0] == Operator(Add) && r.operators[1] == LeftParenthesis
    ensures |r.operands| == 1 && r.operands[0] == Leaf(Variable("x"))
    ensures Dispatch(LeftParenthesis, s) == Ok(r)
  {
    var x1 := Stacks(s.operators + [LeftParenthesis], s.operands);
    assert |x1.operators| == 2 && x1.operators[0] == Operator(Add) && x1.operators[1] == LeftParenthesis && |x1.operands| == 1 && x1.operands[0] == Leaf(Variable("x"));
    assert Dispatch(LeftParenthesis, s) == Ok(x1);
    r := x1;
  }

  lemma ParenMismatchStep4Pop1(s: Stacks) returns (r: Stacks)
    requires |s.operators| == 2 && s.operators[0] == Operator(Add) && s.operators[1] == LeftParenthesis
    requires |s.operands| == 1 && s.operands[0] == Leaf(Variable("x"))
    ensures |r.operators| == 1 && r.operators[0] == Operator(Add) && |r.operands| == 1
    ensures r.operands[0] == Leaf(Variable("x"))
    ensures CloseFrom(s) == Ok(r)
  {
    var x1 := Stacks(Init(s.operators), s.operands);
    assert |x1.operators| == 1 && x1.operators[0] == Operator(Add) && |x1.operands| == 1 && x1.operands[0] == Leaf(Variable("x"));
    assert CloseFrom(s) == Ok(x1);
    r := x1;
  }

  lemma ParenMismatchStep4(s: Stacks) returns (r: Stacks)
    requires |s.operators| == 2 && s.operators[0] == Operator(Add) && s.operators[1] == LeftParenthesis
    requires |s.operands| == 1 && s.operands[0] == Leaf(Variable("x"))
    ensures |r.operators| == 1 && r.operators[0] == Operator(Add) && |r.operands| == 1
    ensures r.operands[0] == Leaf(Variable("x"))
    ensures Dispatch(RightParenthesis, s) == Ok(r)
  {
    var x1 := ParenMismatchStep4Pop1(s);
    assert CloseFrom(s) == Ok(x1);
    DispatchClose(s);
    assert Dispatch(RightParenthesis, s) == Ok(x1);
    r := x1;
  }

  lemma ParenMismatchStep5Pop1(s: Stacks)
    requires |s.operators| == 1 && s.operators[0] == Operator(Add) && |s.operands| == 1
    requires s.operands[0] == Leaf(Variable("x"))
    ensures CloseFrom(s) == Err(MissingOperands(Add))
  {
    assert AddOperator(Add, s.operands) == Err(MissingOperands(Add));
  }

  lemma ParenMismatchStep5(s: Stacks)
    requires |s.operators| == 1 && s.operators[0] == Operator(Add) && |s.operands| == 1
    requires s.operands[0] == Leaf(Variable("x"))
    ensures Dispatch(RightParenthesis, s) == Err(MissingOperands(Add))
  {
    ParenMismatchStep5Pop1(s);
    assert CloseFrom(s) == Err(MissingOperands(Add));
    DispatchClose(s);
  }

  /** The tokens of `x+())` fail: the second `)` reduces `+` with one operand. */
  lemma ParenMismatch(t: seq<Token>)
    requires |t| == 5 && t[0] == Variable("x") && t[1] == Operator(Add) && t[2] == LeftParenthesis
    requires t[3] == RightParenthesis && t[4] == RightParenthesis
    ensures Parse(t) == Err(MissingOperands(Add))
  {
    var s0 := Stacks([], []);
    var s1 := ParenMismatchStep1(s0);
    var s2 := ParenMismatchStep2(s1);
    var s3 := ParenMismatchStep3(s2);
    var s4 := ParenMismatchStep4(s3);
    ParenMismatchStep5(s4);
    assert Dispatch(t[4], s4) == Err(MissingOperands(Add));
    assert ParseFrom(t, 4, s4) == Err(MissingOperands(Add));
    DispatchThenParse(t, 3, s3, s4);
    DispatchThenParse(t, 2, s2, s3);
    DispatchThenParse(t, 1, s1, s2);
    DispatchThenParse(t, 0, s0, s1);
  }

  lemma CallReducesEnclosingOperatorStep1(s: Stacks) returns (r: Stacks)
    requires |s.operators| == 0 && |s.operands| == 0
    ensures |r.operators| == 0 && |r.operands| == 1 && r.operands[0] == N("1")
    ensures Dispatch(Num("1"), s) == Ok(r)
  {
    var x1 := Stacks(s.operators, s.operands + [Leaf(Num("1"))]);
    assert |x1.operators| == 0 && |x1.operands| == 1 && x1.operands[0] == N("1");
    assert Dispatch(Num("1"), s) == Ok(x1);
    r := x1;
  }

  lemma CallReducesEnclosingOperatorStep2(s: Stacks) returns (r: Stacks)
    requires |s.operators| == 0 && |s.operands| == 1 && s.operands[0] == N("1")
    ensures |r.operators| == 1 && r.operators[0] == Operator(Substract) && |r.operands| == 1
    ensures r.operands[0] == N("1")
    ensures Dispatch(Operator(Substract), s) == Ok(r)
  {
    assert ReduceFrom(Substract, s) == Ok(s);
    var x1 := Stacks(s.operators + [Operator(Substract)], s.operands);
    assert |x1.operators| == 1 && x1.operators[0] == Operator(Substract) && |x1.operands| == 1 && x1.operands[0] == N("1");
    DispatchOperator(Substract, s);
    assert Dispatch(Operator(Substract), s) == Ok(x1);
    r := x1;
  }

  lemma CallReducesEnclosingOperatorStep3(s: Stacks) returns (r: Stacks)
    requires |s.operators| == 1 && s.operators[0] == Operator(Substract) && |s.operands| == 1
    requires s.operands[0] == N("1")
    ensures |r.operators| == 2 && r.operators[0] == Operator(Substract)
    ensures r.operators[1] == Token.Function("max") && |r.operands| == 1 && r.operands[0] == N("1")
    ensures Dispatch(Token.Function("max"), s) == Ok(r)
  {
    var x1 := Stacks(s.operators + [Token.Function("max")], s.operands);
    assert |x1.operators| == 2 && x1.operators[0] == Operator(Substract) && x1.operators[1] == Token.Function("max") && |x1.operands| == 1 && x1.operands[0] == N("1");
    assert Dispatch(Token.Function("max"), s) == Ok(x1);
    r := x1;
  }

  lemma CallReducesEnclosingOperatorStep4(s: Stacks) returns (r: Stacks)
    requires |s.operators| == 2 && s.operators[0] == Operator(Substract)
    requires s.operators[1] == Token.Function("max") && |s.operands| == 1 && s.operands[0] == N("1")
    ensures |r.operators| == 3 && r.operators[0] == Operator(Substract)
    ensures r.operators[1] == Token.Function("max") && r.operators[2] == LeftParenthesis
    ensures |r.operands| == 1 && r.operands[0] == N("1")
    ensures Dispatch(LeftParenthesis, s) == Ok(r)
  {
    var x1 := Stacks(s.operators + [LeftParenthesis], s.operands);
    assert |x1.operators| == 3 && x1.operators[0] == Operator(Substract) && x1.operators[1] == Token.Function("max") && x1.operators[2] == LeftParenthesis && |x1.operands| == 1 && x1.operands[0] == N("1");
    assert Dispatch(LeftParenthesis, s) == Ok(x1);
    r := x1;
  }

  lemma CallReducesEnclosingOperatorStep5(s: Stacks) returns (r: Stacks)
    requires |s.operators| == 3 && s.operators[0] == Operator(Substract)
    requires s.operators[1] == Token.Function("max") && s.operators[2] == LeftParenthesis
    requires |s.operands| == 1 && s.operands[0] == N("1")
    ensures |r.operators| == 3 && r.operators[0] == Operator(Substract)
    ensures r.operators[1] == Token.Function("max") && r.operators[2] == LeftParenthesis
    ensures |r.operands| == 2 && r.operands[0] == N("1") && r.operands[1] == N("2")
    ensures Dispatch(Num("2"), s) == Ok(r)
  {
    var x1 := Stacks(s.operators, s.operands + [Leaf(Num("2"))]);
    assert |x1.operators| == 3 && x1.operators[0] == Operator(Substract) && x1.operators[1] == Token.Function("max") && x1.operators[2] == LeftParenthesis && |x1.operands| == 2 && x1.operands[0] == N("1") && x1.operands[1] == N("2");
    assert Dispatch(Num("2"), s) == Ok(x1);
    r := x1;
  }

  lemma CallReducesEnclosingOperatorStep6Pop1(s: Stacks) returns (r: Stacks)
    requires |s.operators| == 3 && s.operators[0] == Operator(Substract)
    requires s.operators[1] == Token.Function("max") && s.operators[2] == LeftParenthesis
    requires |s.operands| == 2 && s.operands[0] == N("1") && s.operands[1] == N("2")
    ensures |r.operators| == 2 && r.operators[0] == Operator(Substract)
    ensures r.operators[1] == Token.Function("max") && |r.operands| == 2 && r.operands[0] == N("1")
    ensures r.operands[1] == N("2")
    ensures CloseFrom(s) == CloseFrom(r)
  {
    var x1 := Stacks(Init(s.operators), s.operands);
    assert |x1.operators| == 2 && x1.operators[0] == Operator(Substract) && x1.operators[1] == Token.Function("max") && |x1.operands| == 2 && x1.operands[0] == N("1") && x1.operands[1] == N("2");
    assert CloseFrom(s) == CloseFrom(x1);
    r := x1;
  }

  lemma CallReducesEnclosingOperatorStep6Pop2(s: Stacks) returns (r: Stacks)
    requires |s.operators| == 2 && s.operators[0] == Operator(Substract)
    requires s.operators[1] == Token.Function("max") && |s.operands| == 2 && s.operands[0] == N("1")
    requires s.operands[1] == N("2")
    ensures |r.operators| == 1 && r.operators[0] == Operator(Substract) && |r.operands| == 2
    ensures r.operands[0] == N("1") && r.operands[1] == Node(Token.Function("max"), [N("2")])
    ensures CloseFrom(s) == CloseFrom(r)
  {
    var rest1, args2 := Init(s.operands), [Last(s.operands)];
    assert |rest1| == 1 && rest1[0] == N("1") && |args2| == 1 && args2[0] == N("2");
    assert GatherFrom("max", rest1, args2) == Ok((rest1, args2));
    assert args2 == [N("2")];
    var o3 := CollectFunction("max", s.operands).value;
    assert o3 == rest1 + [Node(Token.Function("max"), args2)];
    assert |o3| == 2 && o3[0] == N("1") && o3[1] == Node(Token.Function("max"), [N("2")]);
    var x4 := Stacks(Init(s.operators), o3);
    assert |x4.operators| == 1 && x4.operators[0] == Operator(Substract) && |x4.operands| == 2 && x4.operands[0] == N("1") && x4.operands[1] == Node(Token.Function("max"), [N("2")]);
    assert CloseFrom(s) == CloseFrom(x4);
    r := x4;
  }

  lemma CallReducesEnclosingOperatorStep6Pop3(s: Stacks) returns (r: Stacks)
    requires |s.operators| == 1 && s.operators[0] == Operator(Substract) && |s.operands| == 2
    requires s.operands[0] == N("1") && s.operands[1] == Node(Token.Function("max"), [N("2")])
    ensures |r.operators| == 0 && |r.operands| == 1
    ensures r.operands[0] == Bin(Substract, N("1"), Node(Token.Function("max"), [N("2")]))
    ensures CloseFrom(s) == CloseFrom(r)
  {
    assert s.operands[0..] == [N("1"), Node(Token.Function("max"), [N("2")])];
    var o1 := AddOperator(Substract, s.operands).value;
    assert |o1| == 1 && o1[0] == Bin(Substract, N("1"), Node(Token.Function("max"), [N("2")]));
    var x2 := Stacks(Init(s.operators), o1);
    assert |x2.operators| == 0 && |x2.operands| == 1 && x2.operands[0] == Bin(Substract, N("1"), Node(Token.Function("max"), [N("2")]));
    assert CloseFrom(s) == CloseFrom(x2);
    r := x2;
  }

  lemma CallReducesEnclosingOperatorStep6(s: Stacks) returns (r: Stacks)
    requires |s.operators| == 3 && s.operators[0] == Operator(Substract)
    requires s.operators[1] == Token.Function("max") && s.operators[2] == LeftParenthesis
    requires |s.operands| == 2 && s.operands[0] == N("1") && s.operands[1] == N("2")
    ensures |r.operators| == 0 && |r.operands| == 1
    ensures r.operands[0] == Bin(Substract, N("1"), Node(Token.Function("max"), [N("2")]))
    ensures Dispatch(RightParenthesis, s) == Ok(r)
  {
    var x1 := CallReducesEnclosingOperatorStep6Pop1(s);
    var x2 := CallReducesEnclosingOperatorStep6Pop2(x1);
    var x3 := CallReducesEnclosingOperatorStep6Pop3(x2);
    assert CloseFrom(x3) == Ok(x3);
    assert CloseFrom(x2) == Ok(x3);
    assert CloseFrom(x1) == Ok(x3);
    assert CloseFrom(s) == Ok(x3);
    DispatchClose(s);
    assert Dispatch(RightParenthesis, s) == Ok(x3);
    r := x3;
  }

  lemma CallReducesEnclosingOperatorStep7(s: Stacks) returns (r: Stacks)
    requires |s.operators| == 0 && |s.operands| == 1
    requires s.operands[0] == Bin(Substract, N("1"), Node(Token.Function("max"), [N("2")]))
    ensures |r.operators| == 1 && r.operators[0] == Operator(Multiply) && |r.operands| == 1
    ensures r.operands[0] == Bin(Substract, N("1"), Node(Token.Function("max"), [N("2")]))
    ensures Dispatch(Operator(Multiply), s) == Ok(r)
  {
    assert ReduceFrom(Multiply, s) == Ok(s);
    var x1 := Stacks(s.operators + [Operator(Multiply)], s.operands);
    assert |x1.operators| == 1 && x1.operators[0] == Operator(Multiply) && |x1.operands| == 1 && x1.operands[0] == Bin(Substract, N("1"), Node(Token.Function("max"), [N("2")]));
    DispatchOperator(Multiply, s);
    assert Dispatch(Operator(Multiply), s) == Ok(x1);
    r := x1;
  }

  lemma CallReducesEnclosingOperatorStep8(s: Stacks) returns (r: Stacks)
    requires |s.operators| == 1 && s.operators[0] == Operator(Multiply) && |s.operands| == 1
    requires s.operands[0] == Bin(Substract, N("1"), Node(Token.Function("max"), [N("2")]))
    ensures |r.operators| == 1 && r.operators[0] == Operator(Multiply) && |r.operands| == 2
    ensures r.operands[0] == Bin(Substract, N("1"), Node(Token.Function("max"), [N("2")]))
    ensures r.operands[1] == N("3")
    ensures Dispatch(Num("3"), s) == Ok(r)
  {
    var x1 := Stacks(s.operators, s.operands + [Leaf(Num("3"))]);
    assert |x1.operators| == 1 && x1.operators[0] == Operator(Multiply) && |x1.operands| == 2 && x1.operands[0] == Bin(Substract, N("1"), Node(Token.Function("max"), [N("2")])) && x1.operands[1] == N("3");
    assert Dispatch(Num("3"), s) == Ok(x1);
    r := x1;
  }

  lemma CallReducesEnclosingOperatorDrain1(s: Stacks) returns (r: Stacks)
    requires |s.operators| == 1 && s.operators[0] == Operator(Multiply) && |s.operands| == 2
    requires s.operands[0] == Bin(Substract, N("1"), Node(Token.Function("max"), [N("2")]))
    requires s.operands[1] == N("3")
    ensures |r.operators| == 0 && |r.operands| == 1
    ensures r.operands[0] == Bin(Multiply, Bin(Substract, N("1"), Node(Token.Function("max"), [N("2")])), N("3"))
    ensures Drain(s) == Drain(r)
  {
    assert s.operands[0..] == [Bin(Substract, N("1"), Node(Token.Function("max"), [N("2")])), N("3")];
    var o1 := AddOperator(Multiply, s.operands).value;
    assert |o1| == 1 && o1[0] == Bin(Multiply, Bin(Substract, N("1"), Node(Token.Function("max"), [N("2")])), N("3"));
    var x2 := Stacks(Init(s.operators), o1);
    assert |x2.operators| == 0 && |x2.operands| == 1 && x2.operands[0] == Bin(Multiply, Bin(Substract, N("1"), Node(Token.Function("max"), [N("2")])), N("3"));
    assert Drain(s) == Drain(x2);
    r := x2;
  }

  /** In `1 - max(2) * 3` closing the call also reduces the `-` below it, so the product is taken last: `(1 - max(2)) * 3`. */
  lemma CallReducesEnclosingOperator(t: seq<Token>)
    requires |t| == 8 && t[0] == Num("1") && t[1] == Operator(Substract) && t[2] == Token.Function("max")
    requires t[3] == LeftParenthesis && t[4] == Num("2") && t[5] == RightParenthesis
    requires t[6] == Operator(Multiply) && t[7] == Num("3")
    ensures Parse(t) == Ok(Bin(Multiply, Bin(Substract, N("1"), Node(Token.Function("max"), [N("2")])), N("3")))
  {
    var s0 := Stacks([], []);
    var s1 := CallReducesEnclosingOperatorStep1(s0);
    var s2 := CallReducesEnclosingOperatorStep2(s1);
    var s3 := CallReducesEnclosingOperatorStep3(s2);
    var s4 := CallReducesEnclosingOperatorStep4(s3);
    var s5 := CallReducesEnclosingOperatorStep5(s4);
    var s6 := CallReducesEnclosingOperatorStep6(s5);
    var s7 := CallReducesEnclosingOperatorStep7(s6);
    var s8 := CallReducesEnclosingOperatorStep8(s7);
    assert ParseFrom(t, 8, s8) == Ok(s8);
    DispatchThenParse(t, 7, s7, s8);
    DispatchThenParse(t, 6, s6, s7);
    DispatchThenParse(t, 5, s5, s6);
    DispatchThenParse(t, 4, s4, s5);
    DispatchThenParse(t, 3, s3, s4);
    DispatchThenParse(t, 2, s2, s3);
    DispatchThenParse(t, 1, s1, s2);
    DispatchThenParse(t, 0, s0, s1);
    var d1 := CallReducesEnclosingOperatorDrain1(s8);
    assert Drain(d1) == Ok(d1.operands);
  }

  lemma TooManyBracketsStep1(s: Stacks) returns (r: Stacks)
    requires |s.operators| == 0 && |s.operands| == 0
    ensures |r.operators| == 1 && r.operators[0] == LeftParenthesis && |r.operands| == 0
    ensures Dispatch(LeftParenthesis, s) == Ok(r)
  {
    var x1 := Stacks(s.operators + [LeftParenthesis], s.operands);
    assert |x1.operators| == 1 && x1.operators[0] == LeftParenthesis && |x1.operands| == 0;
    assert Dispatch(LeftParenthesis, s) == Ok(x1);
    r := x1;
  }

  lemma TooManyBracketsStep2(s: Stacks) returns (r: Stacks)
    requires |s.operators| == 1 && s.operators[0] == LeftParenthesis && |s.operands| == 0
    ensures |r.operators| == 2 && r.operators[0] == LeftParenthesis && r.operators[1] == LeftParenthesis
    ensures |r.operands| == 0
    ensures Dispatch(LeftParenthesis, s) == Ok(r)
  {
    var x1 := Stacks(s.operators + [LeftParenthesis], s.operands);
    assert |x1.operators| == 2 && x1.operators[0] == LeftParenthesis && x1.operators[1] == LeftParenthesis && |x1.operands| == 0;
    assert Dispatch(LeftParenthesis, s) == Ok(x1);
    r := x1;
  }

  lemma TooManyBracketsStep3(s: Stacks) returns (r: Stacks)
    requires |s.operators| == 2 && s.operators[0] == LeftParenthesis && s.operators[1] == LeftParenthesis
    requires |s.operands| == 0
    ensures |r.operators| == 3 && r.operators[0] == LeftParenthesis && r.operators[1] == LeftParenthesis
    ensures r.operators[2] == LeftParenthesis && |r.operands| == 0
    ensures Dispatch(LeftParenthesis, s) == Ok(r)
  {
    var x1 := Stacks(s.operators + [LeftParenthesis], s.operands);
    assert |x1.operators| == 3 && x1.operators[0] == LeftParenthesis && x1.operators[1] == LeftParenthesis && x1.operators[2] == LeftParenthesis && |x1.operands| == 0;
    assert Dispatch(LeftParenthesis, s) == Ok(x1);
    r := x1;
  }

  lemma TooManyBracketsStep4(s: Stacks) returns (r: Stacks)
    requires |s.operators| == 3 && s.operators[0] == LeftParenthesis && s.operators[1] == LeftParenthesis
    requires s.operators[2] == LeftParenthesis && |s.operands| == 0
    ensures |r.operators| == 4 && r.operators[0] == LeftParenthesis && r.operators[1] == LeftParenthesis
    ensures r.operators[2] == LeftParenthesis && r.operators[3] == LeftParenthesis && |r.operands| == 0
    ensures Dispatch(LeftParenthesis, s) == Ok(r)
  {
    var x1 := Stacks(s.operators + [LeftParenthesis], s.operands);
    assert |x1.operators| == 4 && x1.operators[0] == LeftParenthesis && x1.operators[1] == LeftParenthesis && x1.operators[2] == LeftParenthesis && x1.operators[3] == LeftParenthesis && |x1.operands| == 0;
    assert Dispatch(LeftParenthesis, s) == Ok(x1);
    r := x1;
  }

  lemma TooManyBracketsStep5(s: Stacks) returns (r: Stacks)
    requires |s.operators| == 4 && s.operators[0] == LeftParenthesis && s.operators[1] == LeftParenthesis
    requires s.operators[2] == LeftParenthesis && s.operators[3] == LeftParenthesis && |s.operands| == 0
    ensures |r.operators| == 5 && r.operators[0] == LeftParenthesis && r.operators[1] == LeftParenthesis
    ensures r.operators[2] == LeftParenthesis && r.operators[3] == LeftParenthesis
    ensures r.operators[4] == LeftParenthesis && |r.operands| == 0
    ensures Dispatch(LeftParenthesis, s) == Ok(r)
  {
    var x1 := Stacks(s.operators + [LeftParenthesis], s.operands);
    assert |x1.operators| == 5 && x1.operators[0] == LeftParenthesis && x1.operators[1] == LeftParenthesis && x1.operators[2] == LeftParenthesis && x1.operators[3] == LeftParenthesis && x1.operators[4] == LeftParenthesis && |x1.operands| == 0;
    assert Dispatch(LeftParenthesis, s) == Ok(x1);
    r := x1;
  }

  lemma TooManyBracketsStep6(s: Stacks) returns (r: Stacks)
    requires |s.operators| == 5 && s.operators[0] == LeftParenthesis && s.operators[1] == LeftParenthesis
    requires s.operators[2] == LeftParenthesis && s.operators[3] == LeftParenthesis
    requires s.operators[4] == LeftParenthesis && |s.operands| == 0
    ensures |r.operators| == 6 && r.operators[0] == LeftParenthesis && r.operators[1] == LeftParenthesis
    ensures r.operators[2] == LeftParenthesis && r.operators[3] == LeftParenthesis
    ensures r.operators[4] == LeftParenthesis && r.operators[5] == LeftParenthesis && |r.operands| == 0
    ensures Dispatch(LeftParenthesis, s) == Ok(r)
  {
    var x1 := Stacks(s.operators + [LeftParenthesis], s.operands);
    assert |x1.operators| == 6 && x1.operators[0] == LeftParenthesis && x1.operators[1] == LeftParenthesis && x1.operators[2] == LeftParenthesis && x1.operators[3] == LeftParenthesis && x1.operators[4] == LeftParenthesis && x1.operators[5] == LeftParenthesis && |x1.operands| == 0;
    assert Dispatch(LeftParenthesis, s) == Ok(x1);
    r := x1;
  }

  lemma TooManyBracketsStep7(s: Stacks) returns (r: Stacks)
    requires |s.operators| == 6 && s.operators[0] == LeftParenthesis && s.operators[1] == LeftParenthesis
    requires s.operators[2] == LeftParenthesis && s.operators[3] == LeftParenthesis
    requires s.operators[4] == LeftParenthesis && s.operators[5] == LeftParenthesis && |s.operands| == 0
    ensures |r.operators| == 6 && r.operators[0] == LeftParenthesis && r.operators[1] == LeftParenthesis
    ensures r.operators[2] == LeftParenthesis && r.operators[3] == LeftParenthesis
    ensures r.operators[4] == LeftParenthesis && r.operators[5] == LeftParenthesis && |r.operands| == 1
    ensures r.operands[0] == Leaf(Variable("x"))
    ensures Dispatch(Variable("x"), s) == Ok(r)
  {
    var x1 := Stacks(s.operators, s.operands + [Leaf(Variable("x"))]);
    assert |x1.operators| == 6 && x1.operators[0] == LeftParenthesis && x1.operators[1] == LeftParenthesis && x1.operators[2] == LeftParenthesis && x1.operators[3] == LeftParenthesis && x1.operators[4] == LeftParenthesis && x1.operators[5] == LeftParenthesis && |x1.operands| == 1 && x1.operands[0] == Leaf(Variable("x"));
    assert Dispatch(Variable("x"), s) == Ok(x1);
    r := x1;
  }

  lemma TooManyBracketsStep8(s: Stacks) returns (r: Stacks)
    requires |s.operators| == 6 && s.operators[0] == LeftParenthesis && s.operators[1] == LeftParenthesis
    requires s.operators[2] == LeftParenthesis && s.operators[3] == LeftParenthesis
    requires s.operators[4] == LeftParenthesis && s.operators[5] == LeftParenthesis && |s.operands| == 1
    requires s.operands[0] == Leaf(Variable("x"))
    ensures |r.operators| == 7 && r.operators[0] == LeftParenthesis && r.operators[1] == LeftParenthesis
    ensures r.operators[2] == LeftParenthesis && r.operators[3] == LeftParenthesis
    ensures r.operators[4] == LeftParenthesis && r.operators[5] == LeftParenthesis
    ensures r.operators[6] == Operator(Exponentiate) && |r.operands| == 1
    ensures r.operands[0] == Leaf(Variable("x"))
    ensures Dispatch(Operator(Exponentiate), s) == Ok(r)
  {
    assert ReduceFrom(Exponentiate, s) == Ok(s);
    var x1 := Stacks(s.operators + [Operator(Exponentiate)], s.operands);
    assert |x1.operators| == 7 && x1.operators[0] == LeftParenthesis && x1.operators[1] == LeftParenthesis && x1.operators[2] == LeftParenthesis && x1.operators[3] == LeftParenthesis && x1.operators[4] == LeftParenthesis && x1.operators[5] == LeftParenthesis && x1.operators[6] == Operator(Exponentiate) && |x1.operands| == 1 && x1.operands[0] == Leaf(Variable("x"));
    DispatchOperator(Exponentiate, s);
    assert Dispatch(Operator(Exponentiate), s) == Ok(x1);
    r := x1;
  }

  lemma TooManyBracketsStep9(s: Stacks) returns (r: Stacks)
    requires |s.operators| == 7 && s.operators[0] == LeftParenthesis && s.operators[1] == LeftParenthesis
    requires s.operators[2] == LeftParenthesis && s.operators[3] == LeftParenthesis
    requires s.operators[4] == LeftParenthesis && s.operators[5] == LeftParenthesis
    requires s.operators[6] == Operator(Exponentiate) && |s.operands| == 1
    requires s.operands[0] == Leaf(Variable("x"))
    ensures |r.operators| == 7 && r.operators[0] == LeftParenthesis && r.operators[1] == LeftParenthesis
    ensures r.operators[2] == LeftParenthesis && r.operators[3] == LeftParenthesis
    ensures r.operators[4] == LeftParenthesis && r.operators[5] == LeftParenthesis
    ensures r.operators[6] == Operator(Exponentiate) && |r.operands| == 2
    ensures r.operands[0] == Leaf(Variable("x")) && r.operands[1] == N("2")
    ensures Dispatch(Num("2"), s) == Ok(r)
  {
    var x1 := Stacks(s.operators, s.operands + [Leaf(Num("2"))]);
    assert |x1.operators| == 7 && x1.operators[0] == LeftParenthesis && x1.operators[1] == LeftParenthesis && x1.operators[2] == LeftParenthesis && x1.operators[3] == LeftParenthesis && x1.operators[4] == LeftParenthesis && x1.operators[5] == LeftParenthesis && x1.operators[6] == Operator(Exponentiate) && |x1.operands| == 2 && x1.operands[0] == Leaf(Variable("x")) && x1.operands[1] == N("2");
    assert Dispatch(Num("2"), s) == Ok(x1);
    r := x1;
  }

  lemma TooManyBracketsStep10Pop1(s: Stacks) returns (r: Stacks)
    requires |s.operators| == 7 && s.operators[0] == LeftParenthesis && s.operators[1] == LeftParenthesis
    requires s.operators[2] == LeftParenthesis && s.operators[3] == LeftParenthesis
    requires s.operators[4] == LeftParenthesis && s.operators[5] == LeftParenthesis
    requires s.operators[6] == Operator(Exponentiate) && |s.operands| == 2
    requires s.operands[0] == Leaf(Variable("x")) && s.operands[1] == N("2")
    ensures |r.operators| == 6 && r.operators[0] == LeftParenthesis && r.operators[1] == LeftParenthesis
    ensures r.operators[2] == LeftParenthesis && r.operators[3] == LeftParenthesis
    ensures r.operators[4] == LeftParenthesis && r.operators[5] == LeftParenthesis && |r.operands| == 1
    ensures r.operands[0] == Bin(Exponentiate, Leaf(Variable("x")), N("2"))
    ensures CloseFrom(s) == CloseFrom(r)
  {
    assert s.operands[0..] == [Leaf(Variable("x")), N("2")];
    var o1 := AddOperator(Exponentiate, s.operands).value;
    assert |o1| == 1 && o1[0] == Bin(Exponentiate, Leaf(Variable("x")), N("2"));
    var x2 := Stacks(Init(s.operators), o1);
    assert |x2.operators| == 6 && x2.operators[0] == LeftParenthesis && x2.operators[1] == LeftParenthesis && x2.operators[2] == LeftParenthesis && x2.operators[3] == LeftParenthesis && x2.operators[4] == LeftParenthesis && x2.operators[5] == LeftParenthesis && |x2.operands| == 1 && x2.operands[0] == Bin(Exponentiate, Leaf(Variable("x")), N("2"));
    assert CloseFrom(s) == CloseFrom(x2);
    r := x2;
  }

  lemma TooManyBracketsStep10Pop2(s: Stacks) returns (r: Stacks)
    requires |s.operators| == 6 && s.operators[0] == LeftParenthesis && s.operators[1] == LeftParenthesis
    requires s.operators[2] == LeftParenthesis && s.operators[3] == LeftParenthesis
    requires s.operators[4] == LeftParenthesis && s.operators[5] == LeftParenthesis && |s.operands| == 1
    requires s.operands[0] == Bin(Exponentiate, Leaf(Variable("x")), N("2"))
    ensures |r.operators| == 5 && r.operators[0] == LeftParenthesis && r.operators[1] == LeftParenthesis
    ensures r.operators[2] == LeftParenthesis && r.operators[3] == LeftParenthesis
    ensures r.operators[4] == LeftParenthesis && |r.operands| == 1
    ensures r.operands[0] == Bin(Exponentiate, Leaf(Variable("x")), N("2"))
    ensures CloseFrom(s) == Ok(r)
  {
    var x1 := Stacks(Init(s.operators), s.operands);
    assert |x1.operators| == 5 && x1.operators[0] == LeftParenthesis && x1.operators[1] == LeftParenthesis && x1.operators[2] == LeftParenthesis && x1.operators[3] == LeftParenthesis && x1.operators[4] == LeftParenthesis && |x1.operands| == 1 && x1.operands[0] == Bin(Exponentiate, Leaf(Variable("x")), N("2"));
    assert CloseFrom(s) == Ok(x1);
    r := x1;
  }

  lemma TooManyBracketsStep10(s: Stacks) returns (r: Stacks)
    requires |s.operators| == 7 && s.operators[0] == LeftParenthesis && s.operators[1] == LeftParenthesis
    requires s.operators[2] == LeftParenthesis && s.operators[3] == LeftParenthesis
    requires s.operators[4] == LeftParenthesis && s.operators[5] == LeftParenthesis
    requires s.operators[6] == Operator(Exponentiate) && |s.operands| == 2
    requires s.operands[0] == Leaf(Variable("x")) && s.operands[1] == N("2")
    ensures |r.operators| == 5 && r.operators[0] == LeftParenthesis && r.operators[1] == LeftParenthesis
    ensures r.operators[2] == LeftParenthesis && r.operators[3] == LeftParenthesis
    ensures r.operators[4] == LeftParenthesis && |r.operands| == 1
    ensures r.operands[0] == Bin(Exponentiate, Leaf(Variable("x")), N("2"))
    ensures Dispatch(RightParenthesis, s) == Ok(r)
  {
    var x1 := TooManyBracketsStep10Pop1(s);
    var x2 := TooManyBracketsStep10Pop2(x1);
    assert CloseFrom(x1) == Ok(x2);
    assert CloseFrom(s) == Ok(x2);
    DispatchClose(s);
    assert Dispatch(RightParenthesis, s) == Ok(x2);
    r := x2;
  }

  lemma TooManyBracketsStep11Pop1(s: Stacks) returns (r: Stacks)
    requires |s.operators| == 5 && s.operators[0] == LeftParenthesis && s.operators[1] == LeftParenthesis
    requires s.operators[2] == LeftParenthesis && s.operators[3] == LeftParenthesis
    requires s.operators[4] == LeftParenthesis && |s.operands| == 1
    requires s.operands[0] == Bin(Exponentiate, Leaf(Variable("x")), N("2"))
    ensures |r.operators| == 4 && r.operators[0] == LeftParenthesis && r.operators[1] == LeftParenthesis
    ensures r.operators[2] == LeftParenthesis && r.operators[3] == LeftParenthesis && |r.operands| == 1
    ensures r.operands[0] == Bin(Exponentiate, Leaf(Variable("x")), N("2"))
    ensures CloseFrom(s) == Ok(r)
  {
    var x1 := Stacks(Init(s.operators), s.operands);
    assert |x1.operators| == 4 && x1.operators[0] == LeftParenthesis && x1.operators[1] == LeftParenthesis && x1.operators[2] == LeftParenthesis && x1.operators[3] == LeftParenthesis && |x1.operands| == 1 && x1.operands[0] == Bin(Exponentiate, Leaf(Variable("x")), N("2"));
    assert CloseFrom(s) == Ok(x1);
    r := x1;
  }

  lemma TooManyBracketsStep11(s: Stacks) returns (r: Stacks)
    requires |s.operators| == 5 && s.operators[0] == LeftParenthesis && s.operators[1] == LeftParenthesis
    requires s.operators[2] == LeftParenthesis && s.operators[3] == LeftParenthesis
    requires s.operators[4] == LeftParenthesis && |s.operands| == 1
    requires s.operands[0] == Bin(Exponentiate, Leaf(Variable("x")), N("2"))
    ensures |r.operators| == 4 && r.operators[0] == LeftParenthesis && r.operators[1] == LeftParenthesis
    ensures r.operators[2] == LeftParenthesis && r.operators[3] == LeftParenthesis && |r.operands| == 1
    ensures r.operands[0] == Bin(Exponentiate, Leaf(Variable("x")), N("2"))
    ensures Dispatch(RightParenthesis, s) == Ok(r)
  {
    var x1 := TooManyBracketsStep11Pop1(s);
    assert CloseFrom(s) == Ok(x1);
    DispatchClose(s);
    assert Dispatch(RightParenthesis, s) == Ok(x1);
    r := x1;
  }

  lemma TooManyBracketsStep12(s: Stacks) returns (r: Stacks)
    requires |s.operators| == 4 && s.operators[0] == LeftParenthesis && s.operators[1] == LeftParenthesis
    requires s.operators[2] == LeftParenthesis && s.operators[3] == LeftParenthesis && |s.operands| == 1
    requires s.operands[0] == Bin(Exponentiate, Leaf(Variable("x")), N("2"))
    ensures |r.operators| == 5 && r.operators[0] == LeftParenthesis && r.operators[1] == LeftParenthesis
    ensures r.operators[2] == LeftParenthesis && r.operators[3] == LeftParenthesis
    ensures r.operators[4] == Operator(Substract) && |r.operands| == 1
    ensures r.operands[0] == Bin(Exponentiate, Leaf(Variable("x")), N("2"))
    ensures Dispatch(Operator(Substract), s) == Ok(r)
  {
    assert ReduceFrom(Substract, s) == Ok(s);
    var x1 := Stacks(s.operators + [Operator(Substract)], s.operands);
    assert |x1.operators| == 5 && x1.operators[0] == LeftParenthesis && x1.operators[1] == LeftParenthesis && x1.operators[2] == LeftParenthesis && x1.operators[3] == LeftParenthesis && x1.operators[4] == Operator(Substract) && |x1.operands| == 1 && x1.operands[0] == Bin(Exponentiate, Leaf(Variable("x")), N("2"));
    DispatchOperator(Substract, s);
    assert Dispatch(Operator(Substract), s) == Ok(x1);
    r := x1;
  }

  lemma TooManyBracketsStep13(s: Stacks) returns (r: Stacks)
    requires |s.operators| == 5 && s.operators[0] == LeftParenthesis && s.operators[1] == LeftParenthesis
    requires s.operators[2] == LeftParenthesis && s.operators[3] == LeftParenthesis
    requires s.operators[4] == Operator(Substract) && |s.operands| == 1
    requires s.operands[0] == Bin(Exponentiate, Leaf(Variable("x")), N("2"))
    ensures |r.operators| == 6 && r.operators[0] == LeftParenthesis && r.operators[1] == LeftParenthesis
    ensures r.operators[2] == LeftParenthesis && r.operators[3] == LeftParenthesis
    ensures r.operators[4] == Operator(Substract) && r.operators[5] == LeftParenthesis && |r.operands| == 1
    ensures r.operands[0] == Bin(Exponentiate, Leaf(Variable("x")), N("2"))
    ensures Dispatch(LeftParenthesis, s) == Ok(r)
  {
    var x1 := Stacks(s.operators + [LeftParenthesis], s.operands);
    assert |x1.operators| == 6 && x1.operators[0] == LeftParenthesis && x1.operators[1] == LeftParenthesis && x1.operators[2] == LeftParenthesis && x1.operators[3] == LeftParenthesis && x1.operators[4] == Operator(Substract) && x1.operators[5] == LeftParenthesis && |x1.operands| == 1 && x1.operands[0] == Bin(Exponentiate, Leaf(Variable("x")), N("2"));
    assert Dispatch(LeftParenthesis, s) == Ok(x1);
    r := x1;
  }

  lemma TooManyBracketsStep14(s: Stacks) returns (r: Stacks)
    requires |s.operators| == 6 && s.operators[0] == LeftParenthesis && s.operators[1] == LeftParenthesis
    requires s.operators[2] == LeftParenthesis && s.operators[3] == LeftParenthesis
    requires s.operators[4] == Operator(Substract) && s.operators[5] == LeftParenthesis && |s.operands| == 1
    requires s.operands[0] == Bin(Exponentiate, Leaf(Variable("x")), N("2"))
    ensures |r.operators| == 7 && r.operators[0] == LeftParenthesis && r.operators[1] == LeftParenthesis
    ensures r.operators[2] == LeftParenthesis && r.operators[3] == LeftParenthesis
    ensures r.operators[4] == Operator(Substract) && r.operators[5] == LeftParenthesis
    ensures r.operators[6] == LeftParenthesis && |r.operands| == 1
    ensures r.operands[0] == Bin(Exponentiate, Leaf(Variable("x")), N("2"))
    ensures Dispatch(LeftParenthesis, s) == Ok(r)
  {
    var x1 := Stacks(s.operators + [LeftParenthesis], s.operands);
    assert |x1.operators| == 7 && x1.operators[0] == LeftParenthesis && x1.operators[1] == LeftParenthesis && x1.operators[2] == LeftParenthesis && x1.operators[3] == LeftParenthesis && x1.operators[4] == Operator(Substract) && x1.operators[5] == LeftParenthesis && x1.operators[6] == LeftParenthesis && |x1.operands| == 1 && x1.operands[0] == Bin(Exponentiate, Leaf(Variable("x")), N("2"));
    assert Dispatch(LeftParenthesis, s) == Ok(x1);
    r := x1;
  }

  lemma TooManyBracketsStep15(s: Stacks) returns (r: Stacks)
    requires |s.operators| == 7 && s.operators[0] == LeftParenthesis && s.operators[1] == LeftParenthesis
    requires s.operators[2] == LeftParenthesis && s.operators[3] == LeftParenthesis
    requires s.operators[4] == Operator(Substract) && s.operators[5] == LeftParenthesis
    requires s.operators[6] == LeftParenthesis && |s.operands| == 1
    requires s.operands[0] == Bin(Exponentiate, Leaf(Variable("x")), N("2"))
    ensures |r.operators| == 7 && r.operators[0] == LeftParenthesis && r.operators[1] == LeftParenthesis
    ensures r.operators[2] == LeftParenthesis && r.operators[3] == LeftParenthesis
    ensures r.operators[4] == Operator(Substract) && r.operators[5] == LeftParenthesis
    ensures r.operators[6] == LeftParenthesis && |r.operands| == 2
    ensures r.operands[0] == Bin(Exponentiate, Leaf(Variable("x")), N("2")) && r.operands[1] == N("16")
    ensures Dispatch(Num("16"), s) == Ok(r)
  {
    var x1 := Stacks(s.operators, s.operands + [Leaf(Num("16"))]);
    assert |x1.operators| == 7 && x1.operators[0] == LeftParenthesis && x1.operators[1] == LeftParenthesis && x1.operators[2] == LeftParenthesis && x1.operators[3] == LeftParenthesis && x1.operators[4] == Operator(Substract) && x1.operators[5] == LeftParenthesis && x1.operators[6] == LeftParenthesis && |x1.operands| == 2 && x1.operands[0] == Bin(Exponentiate, Leaf(Variable("x")), N("2")) && x1.operands[1] == N("16");
    assert Dispatch(Num("16"), s) == Ok(x1);
    r := x1;
  }

  lemma TooManyBracketsStep16Pop1(s: Stacks) returns (r: Stacks)
    requires |s.operators| == 7 && s.operators[0] == LeftParenthesis && s.operators[1] == LeftParenthesis
    requires s.operators[2] == LeftParenthesis && s.operators[3] == LeftParenthesis
    requires s.operators[4] == Operator(Substract) && s.operators[5] == LeftParenthesis
    requires s.operators[6] == LeftParenthesis && |s.operands| == 2
    requires s.operands[0] == Bin(Exponentiate, Leaf(Variable("x")), N("2")) && s.operands[1] == N("16")
    ensures |r.operators| == 6 && r.operators[0] == LeftParenthesis && r.operators[1] == LeftParenthesis
    ensures r.operators[2] == LeftParenthesis && r.operators[3] == LeftParenthesis
    ensures r.operators[4] == Operator(Substract) && r.operators[5] == LeftParenthesis && |r.operands| == 2
    ensures r.operands[0] == Bin(Exponentiate, Leaf(Variable("x")), N("2")) && r.operands[1] == N("16")
    ensures CloseFrom(s) == Ok(r)
  {
    var x1 := Stacks(Init(s.operators), s.operands);
    assert |x1.operators| == 6 && x1.operators[0] == LeftParenthesis && x1.operators[1] == LeftParenthesis && x1.operators[2] == LeftParenthesis && x1.operators[3] == LeftParenthesis && x1.operators[4] == Operator(Substract) && x1.operators[5] == LeftParenthesis && |x1.operands| == 2 && x1.operands[0] == Bin(Exponentiate, Leaf(Variable("x")), N("2")) && x1.operands[1] == N("16");
    assert CloseFrom(s) == Ok(x1);
    r := x1;
  }

  lemma TooManyBracketsStep16(s: Stacks) returns (r: Stacks)
    requires |s.operators| == 7 && s.operators[0] == LeftParenthesis && s.operators[1] == LeftParenthesis
    requires s.operators[2] == LeftParenthesis && s.operators[3] == LeftParenthesis
    requires s.operators[4] == Operator(Substract) && s.operators[5] == LeftParenthesis
    requires s.operators[6] == LeftParenthesis && |s.operands| == 2
    requires s.operands[0] == Bin(Exponentiate, Leaf(Variable("x")), N("2")) && s.operands[1] == N("16")
    ensures |r.operators| == 6 && r.operators[0] == LeftParenthesis && r.operators[1] == LeftParenthesis
    ensures r.operators[2] == LeftParenthesis && r.operators[3] == LeftParenthesis
    ensures r.operators[4] == Operator(Substract) && r.operators[5] == LeftParenthesis && |r.operands| == 2
    ensures r.operands[0] == Bin(Exponentiate, Leaf(Variable("x")), N("2")) && r.operands[1] == N("16")
    ensures Dispatch(RightParenthesis, s) == Ok(r)
  {
    var x1 := TooManyBracketsStep16Pop1(s);
    assert CloseFrom(s) == Ok(x1);
    DispatchClose(s);
    assert Dispatch(RightParenthesis, s) == Ok(x1);
    r := x1;
  }

  lemma TooManyBracketsStep17Pop1(s: Stacks) returns (r: Stacks)
    requires |s.operators| == 6 && s.operators[0] == LeftParenthesis && s.operators[1] == LeftParenthesis
    requires s.operators[2] == LeftParenthesis && s.operators[3] == LeftParenthesis
    requires s.operators[4] == Operator(Substract) && s.operators[5] == LeftParenthesis && |s.operands| == 2
    requires s.operands[0] == Bin(Exponentiate, Leaf(Variable("x")), N("2")) && s.operands[1] == N("16")
    ensures |r.operators| == 5 && r.operators[0] == LeftParenthesis && r.operators[1] == LeftParenthesis
    ensures r.operators[2] == LeftParenthesis && r.operators[3] == LeftParenthesis
    ensures r.operators[4] == Operator(Substract) && |r.operands| == 2
    ensures r.operands[0] == Bin(Exponentiate, Leaf(Variable("x")), N("2")) && r.operands[1] == N("16")
    ensures CloseFrom(s) == Ok(r)
  {
    var x1 := Stacks(Init(s.operators), s.operands);
    assert |x1.operators| == 5 && x1.operators[0] == LeftParenthesis && x1.operators[1] == LeftParenthesis && x1.operators[2] == LeftParenthesis && x1.operators[3] == LeftParenthesis && x1.operators[4] == Operator(Substract) && |x1.operands| == 2 && x1.operands[0] == Bin(Exponentiate, Leaf(Variable("x")), N("2")) && x1.operands[1] == N("16");
    assert CloseFrom(s) == Ok(x1);
    r := x1;
  }

  lemma TooManyBracketsStep17(s: Stacks) returns (r: Stacks)
    requires |s.operators| == 6 && s.operators[0] == LeftParenthesis && s.operators[1] == LeftParenthesis
    requires s.operators[2] == LeftParenthesis && s.operators[3] == LeftParenthesis
    requires s.operators[4] == Operator(Substract) && s.operators[5] == LeftParenthesis && |s.operands| == 2
    requires s.operands[0] == Bin(Exponentiate, Leaf(Variable("x")), N("2")) && s.operands[1] == N("16")
    ensures |r.operators| == 5 && r.operators[0] == LeftParenthesis && r.operators[1] == LeftParenthesis
    ensures r.operators[2] == LeftParenthesis && r.operators[3] == LeftParenthesis
    ensures r.operators[4] == Operator(Substract) && |r.operands| == 2
    ensures r.operands[0] == Bin(Exponentiate, Leaf(Variable("x")), N("2")) && r.operands[1] == N("16")
    ensures Dispatch(RightParenthesis, s) == Ok(r)
  {
    var x1 := TooManyBracketsStep17Pop1(s);
    assert CloseFrom(s) == Ok(x1);
    DispatchClose(s);
    assert Dispatch(RightParenthesis, s) == Ok(x1);
    r := x1;
  }

  lemma TooManyBracketsStep18Pop1(s: Stacks) returns (r: Stacks)
    requires |s.operators| == 5 && s.operators[0] == LeftParenthesis && s.operators[1] == LeftParenthesis
    requires s.operators[2] == LeftParenthesis && s.operators[3] == LeftParenthesis
    requires s.operators[4] == Operator(Substract) && |s.operands| == 2
    requires s.operands[0] == Bin(Exponentiate, Leaf(Variable("x")), N("2")) && s.operands[1] == N("16")
    ensures |r.operators| == 4 && r.operators[0] == LeftParenthesis && r.operators[1] == LeftParenthesis
    ensures r.operators[2] == LeftParenthesis && r.operators[3] == LeftParenthesis && |r.operands| == 1
    ensures r.operands[0] == Bin(Substract, Bin(Exponentiate, Leaf(Variable("x")), N("2")), N("16"))
    ensures CloseFrom(s) == CloseFrom(r)
  {
    assert s.operands[0..] == [Bin(Exponentiate, Leaf(Variable("x")), N("2")), N("16")];
    var o1 := AddOperator(Substract, s.operands).value;
    assert |o1| == 1 && o1[0] == Bin(Substract, Bin(Exponentiate, Leaf(Variable("x")), N("2")), N("16"));
    var x2 := Stacks(Init(s.operators), o1);
    assert |x2.operators| == 4 && x2.operators[0] == LeftParenthesis && x2.operators[1] == LeftParenthesis && x2.operators[2] == LeftParenthesis && x2.operators[3] == LeftParenthesis && |x2.operands| == 1 && x2.operands[0] == Bin(Substract, Bin(Exponentiate, Leaf(Variable("x")), N("2")), N("16"));
    assert CloseFrom(s) == CloseFrom(x2);
    r := x2;
  }

  lemma TooManyBracketsStep18Pop2(s: Stacks) returns (r: Stacks)
    requires |s.operators| == 4 && s.operators[0] == LeftParenthesis && s.operators[1] == LeftParenthesis
    requires s.operators[2] == LeftParenthesis && s.operators[3] == LeftParenthesis && |s.operands| == 1
    requires s.operands[0] == Bin(Substract, Bin(Exponentiate, Leaf(Variable("x")), N("2")), N("16"))
    ensures |r.operators| == 3 && r.operators[0] == LeftParenthesis && r.operators[1] == LeftParenthesis
    ensures r.operators[2] == LeftParenthesis && |r.operands| == 1
    ensures r.operands[0] == Bin(Substract, Bin(Exponentiate, Leaf(Variable("x")), N("2")), N("16"))
    ensures CloseFrom(s) == Ok(r)
  {
    var x1 := Stacks(Init(s.operators), s.operands);
    assert |x1.operators| == 3 && x1.operators[0] == LeftParenthesis && x1.operators[1] == LeftParenthesis && x1.operators[2] == LeftParenthesis && |x1.operands| == 1 && x1.operands[0] == Bin(Substract, Bin(Exponentiate, Leaf(Variable("x")), N("2")), N("16"));
    assert CloseFrom(s) == Ok(x1);
    r := x1;
  }

  lemma TooManyBracketsStep18(s: Stacks) returns (r: Stacks)
    requires |s.operators| == 5 && s.operators[0] == LeftParenthesis && s.operators[1] == LeftParenthesis
    requires s.operators[2] == LeftParenthesis && s.operators[3] == LeftParenthesis
    requires s.operators[4] == Operator(Substract) && |s.operands| == 2
    requires s.operands[0] == Bin(Exponentiate, Leaf(Variable("x")), N("2")) && s.operands[1] == N("16")
    ensures |r.operators| == 3 && r.operators[0] == LeftParenthesis && r.operators[1] == LeftParenthesis
    ensures r.operators[2] == LeftParenthesis && |r.operands| == 1
    ensures r.operands[0] == Bin(Substract, Bin(Exponentiate, Leaf(Variable("x")), N("2")), N("16"))
    ensures Dispatch(RightParenthesis, s) == Ok(r)
  {
    var x1 := TooManyBracketsStep18Pop1(s);
    var x2 := TooManyBracketsStep18Pop2(x1);
    assert CloseFrom(x1) == Ok(x2);
    assert CloseFrom(s) == Ok(x2);
    DispatchClose(s);
    assert Dispatch(RightParenthesis, s) == Ok(x2);
    r := x2;
  }

  lemma TooManyBracketsStep19Pop1(s: Stacks) returns (r: Stacks)
    requires |s.operators| == 3 && s.operators[0] == LeftParenthesis && s.operators[1] == LeftParenthesis
    requires s.operators[2] == LeftParenthesis && |s.operands| == 1
    requires s.operands[0] == Bin(Substract, Bin(Exponentiate, Leaf(Variable("x")), N("2")), N("16"))
    ensures |r.operators| == 2 && r.operators[0] == LeftParenthesis && r.operators[1] == LeftParenthesis
    ensures |r.operands| == 1
    ensures r.operands[0] == Bin(Substract, Bin(Exponentiate, Leaf(Variable("x")), N("2")), N("16"))
    ensures CloseFrom(s) == Ok(r)
  {
    var x1 := Stacks(Init(s.operators), s.operands);
    assert |x1.operators| == 2 && x1.operators[0] == LeftParenthesis && x1.operators[1] == LeftParenthesis && |x1.operands| == 1 && x1.operands[0] == Bin(Substract, Bin(Exponentiate, Leaf(Variable("x")), N("2")), N("16"));
    assert CloseFrom(s) == Ok(x1);
    r := x1;
  }

  lemma TooManyBracketsStep19(s: Stacks) returns (r: Stacks)
    requires |s.operators| == 3 && s.operators[0] == LeftParenthesis && s.operators[1] == LeftParenthesis
    requires s.operators[2] == LeftParenthesis && |s.operands| == 1
    requires s.operands[0] == Bin(Substract, Bin(Exponentiate, Leaf(Variable("x")), N("2")), N("16"))
    ensures |r.operators| == 2 && r.operators[0] == LeftParenthesis && r.operators[1] == LeftParenthesis
    ensures |r.operands| == 1
    ensures r.operands[0] == Bin(Substract, Bin(Exponentiate, Leaf(Variable("x")), N("2")), N("16"))
    ensures Dispatch(RightParenthesis, s) == Ok(r)
  {
    var x1 := TooManyBracketsStep19Pop1(s);
    assert CloseFrom(s) == Ok(x1);
    DispatchClose(s);
    assert Dispatch(RightParenthesis, s) == Ok(x1);
    r := x1;
  }

  lemma TooManyBracketsStep20Pop1(s: Stacks) returns (r: Stacks)
    requires |s.operators| == 2 && s.operators[0] == LeftParenthesis && s.operators[1] == LeftParenthesis
    requires |s.operands| == 1
    requires s.operands[0] == Bin(Substract, Bin(Exponentiate, Leaf(Variable("x")), N("2")), N("16"))
    ensures |r.operators| == 1 && r.operators[0] == LeftParenthesis && |r.operands| == 1
    ensures r.operands[0] == Bin(Substract, Bin(Exponentiate, Leaf(Variable("x")), N("2")), N("16"))
    ensures CloseFrom(s) == Ok(r)
  {
    var x1 := Stacks(Init(s.operators), s.operands);
    assert |x1.operators| == 1 && x1.operators[0] == LeftParenthesis && |x1.operands| == 1 && x1.operands[0] == Bin(Substract, Bin(Exponentiate, Leaf(Variable("x")), N("2")), N("16"));
    assert CloseFrom(s) == Ok(x1);
    r := x1;
  }

  lemma TooManyBracketsStep20(s: Stacks) returns (r: Stacks)
    requires |s.operators| == 2 && s.operators[0] == LeftParenthesis && s.operators[1] == LeftParenthesis
    requires |s.operands| == 1
    requires s.operands[0] == Bin(Substract, Bin(Exponentiate, Leaf(Variable("x")), N("2")), N("16"))
    ensures |r.operators| == 1 && r.operators[0] == LeftParenthesis && |r.operands| == 1
    ensures r.operands[0] == Bin(Substract, Bin(Exponentiate, Leaf(Variable("x")), N("2")), N("16"))
    ensures Dispatch(RightParenthesis, s) == Ok(r)
  {
    var x1 := TooManyBracketsStep20Pop1(s);
    assert CloseFrom(s) == Ok(x1);
    DispatchClose(s);
    assert Dispatch(RightParenthesis, s) == Ok(x1);
    r := x1;
  }

  lemma TooManyBracketsStep21Pop1(s: Stacks) returns (r: Stacks)
    requires |s.operators| == 1 && s.operators[0] == LeftParenthesis && |s.operands| == 1
    requires s.operands[0] == Bin(Substract, Bin(Exponentiate, Leaf(Variable("x")), N("2")), N("16"))
    ensures |r.operators| == 0 && |r.operands| == 1
    ensures r.operands[0] == Bin(Substract, Bin(Exponentiate, Leaf(Variable("x")), N("2")), N("16"))
    ensures CloseFrom(s) == Ok(r)
  {
    var x1 := Stacks(Init(s.operators), s.operands);
    assert |x1.operators| == 0 && |x1.operands| == 1 && x1.operands[0] == Bin(Substract, Bin(Exponentiate, Leaf(Variable("x")), N("2")), N("16"));
    assert CloseFrom(s) == Ok(x1);
    r := x1;
  }

  lemma TooManyBracketsStep21(s: Stacks) returns (r: Stacks)
    requires |s.operators| == 1 && s.operators[0] == LeftParenthesis && |s.operands| == 1
    requires s.operands[0] == Bin(Substract, Bin(Exponentiate, Leaf(Variable("x")), N("2")), N("16"))
    ensures |r.operators| == 0 && |r.operands| == 1
    ensures r.operands[0] == Bin(Substract, Bin(Exponentiate, Leaf(Variable("x")), N("2")), N("16"))
    ensures Dispatch(RightParenthesis, s) == Ok(r)
  {
    var x1 := TooManyBracketsStep21Pop1(s);
    assert CloseFrom(x1) == Ok(x1);
    assert CloseFrom(s) == Ok(x1);
    DispatchClose(s);
    assert Dispatch(RightParenthesis, s) == Ok(x1);
    r := x1;
  }

  /** The tokens of `((((((x^2))-((16))))))`: redundant parentheses leave `x^2 - 16`. */
  lemma TooManyBrackets(t: seq<Token>)
    requires |t| == 21 && t[0] == LeftParenthesis && t[1] == LeftParenthesis && t[2] == LeftParenthesis
    requires t[3] == LeftParenthesis && t[4] == LeftParenthesis && t[5] == LeftParenthesis
    requires t[6] == Variable("x") && t[7] == Operator(Exponentiate) && t[8] == Num("2")
    requires t[9] == RightParenthesis && t[10] == RightParenthesis && t[11] == Operator(Substract)
    requires t[12] == LeftParenthesis && t[13] == LeftParenthesis && t[14] == Num("16")
    requires t[15] == RightParenthesis && t[16] == RightParenthesis && t[17] == RightParenthesis
    requires t[18] == RightParenthesis && t[19] == RightParenthesis && t[20] == RightParenthesis
    ensures Parse(t) == Ok(Bin(Substract, Bin(Exponentiate, Leaf(Variable("x")), N("2")), N("16")))
  {
    var s0 := Stacks([], []);
    var s1 := TooManyBracketsStep1(s0);
    var s2 := TooManyBracketsStep2(s1);
    var s3 := TooManyBracketsStep3(s2);
    var s4 := TooManyBracketsStep4(s3);
    var s5 := TooManyBracketsStep5(s4);
    var s6 := TooManyBracketsStep6(s5);
    var s7 := TooManyBracketsStep7(s6);
    var s8 := TooManyBracketsStep8(s7);
    var s9 := TooManyBracketsStep9(s8);
    var s10 := TooManyBracketsStep10(s9);
    var s11 := TooManyBracketsStep11(s10);
    var s12 := TooManyBracketsStep12(s11);
    var s13 := TooManyBracketsStep13(s12);
    var s14 := TooManyBracketsStep14(s13);
    var s15 := TooManyBracketsStep15(s14);
    var s16 := TooManyBracketsStep16(s15);
    var s17 := TooManyBracketsStep17(s16);
    var s18 := TooManyBracketsStep18(s17);
    var s19 := TooManyBracketsStep19(s18);
    var s20 := TooManyBracketsStep20(s19);
    var s21 := TooManyBracketsStep21(s20);
    assert ParseFrom(t, 21, s21) == Ok(s21);
    DispatchThenParse(t, 20, s20, s21);
    DispatchThenParse(t, 19, s19, s20);
    DispatchThenParse(t, 18, s18, s19);
    DispatchThenParse(t, 17, s17, s18);
    DispatchThenParse(t, 16, s16, s17);
    DispatchThenParse(t, 15, s15, s16);
    DispatchThenParse(t, 14, s14, s15);
    DispatchThenParse(t, 13, s13, s14);
    DispatchThenParse(t, 12, s12, s13);
    DispatchThenParse(t, 11, s11, s12);
    DispatchThenParse(t, 10, s10, s11);
    DispatchThenParse(t, 9, s9, s10);
    DispatchThenParse(t, 8, s8, s9);
    DispatchThenParse(t, 7, s7, s8);
    DispatchThenParse(t, 6, s6, s7);
    DispatchThenParse(t, 5, s5, s6);
    DispatchThenParse(t, 4, s4, s5);
    DispatchThenParse(t, 3, s3, s4);
    DispatchThenParse(t, 2, s2, s3);
    DispatchThenParse(t, 1, s1, s2);
    DispatchThenParse(t, 0, s0, s1);
    assert Drain(s21) == Ok(s21.operands);
  }

  lemma NestedCallsCloseTogetherStep1(s: Stacks) returns (r: Stacks)
    requires |s.operators| == 0 && |s.operands| == 0
    ensures |r.operators| == 1 && r.operators[0] == Token.Function("abs") && |r.operands| == 0
    ensures Dispatch(Token.Function("abs"), s) == Ok(r)
  {
    var x1 := Stacks(s.operators + [Token.Function("abs")], s.operands);
    assert |x1.operators| == 1 && x1.operators[0] == Token.Function("abs") && |x1.operands| == 0;
    assert Dispatch(Token.Function("abs"), s) == Ok(x1);
    r := x1;
  }

  lemma NestedCallsCloseTogetherStep2(s: Stacks) returns (r: Stacks)
    requires |s.operators| == 1 && s.operators[0] == Token.Function("abs") && |s.operands| == 0
    ensures |r.operators| == 2 && r.operators[0] == Token.Function("abs")
    ensures r.operators[1] == LeftParenthesis && |r.operands| == 0
    ensures Dispatch(LeftParenthesis, s) == Ok(r)
  {
    var x1 := Stacks(s.operators + [LeftParenthesis], s.operands);
    assert |x1.operators| == 2 && x1.operators[0] == Token.Function("abs") && x1.operators[1] == LeftParenthesis && |x1.operands| == 0;
    assert Dispatch(LeftParenthesis, s) == Ok(x1);
    r := x1;
  }

  lemma NestedCallsCloseTogetherStep3(s: Stacks) returns (r: Stacks)
    requires |s.operators| == 2 && s.operators[0] == Token.Function("abs")
    requires s.operators[1] == LeftParenthesis && |s.operands| == 0
    ensures |r.operators| == 3 && r.operators[0] == Token.Function("abs")
    ensures r.operators[1] == LeftParenthesis && r.operators[2] == Token.Function("abs")
    ensures |r.operands| == 0
    ensures Dispatch(Token.Function("abs"), s) == Ok(r)
  {
    var x1 := Stacks(s.operators + [Token.Function("abs")], s.operands);
    assert |x1.operators| == 3 && x1.operators[0] == Token.Function("abs") && x1.operators[1] == LeftParenthesis && x1.operators[2] == Token.Function("abs") && |x1.operands| == 0;
    assert Dispatch(Token.Function("abs"), s) == Ok(x1);
    r := x1;
  }

  lemma NestedCallsCloseTogetherStep4(s: Stacks) returns (r: Stacks)
    requires |s.operators| == 3 && s.operators[0] == Token.Function("abs")
    requires s.operators[1] == LeftParenthesis && s.operators[2] == Token.Function("abs")
    requires |s.operands| == 0
    ensures |r.operators| == 4 && r.operators[0] == Token.Function("abs")
    ensures r.operators[1] == LeftParenthesis && r.operators[2] == Token.Function("abs")
    ensures r.operators[3] == LeftParenthesis && |r.operands| == 0
    ensures Dispatch(LeftParenthesis, s) == Ok(r)
  {
    var x1 := Stacks(s.operators + [LeftParenthesis], s.operands);
    assert |x1.operators| == 4 && x1.operators[0] == Token.Function("abs") && x1.operators[1] == LeftParenthesis && x1.operators[2] == Token.Function("abs") && x1.operators[3] == LeftParenthesis && |x1.operands| == 0;
    assert Dispatch(LeftParenthesis, s) == Ok(x1);
    r := x1;
  }

  lemma NestedCallsCloseTogetherStep5(s: Stacks) returns (r: Stacks)
    requires |s.operators| == 4 && s.operators[0] == Token.Function("abs")
    requires s.operators[1] == LeftParenthesis && s.operators[2] == Token.Function("abs")
    requires s.operators[3] == LeftParenthesis && |s.operands| == 0
    ensures |r.operators| == 4 && r.operators[0] == Token.Function("abs")
    ensures r.operators[1] == LeftParenthesis && r.operators[2] == Token.Function("abs")
    ensures r.operators[3] == LeftParenthesis && |r.operands| == 1 && r.operands[0] == N("-1.0")
    ensures Dispatch(Num("-1.0"), s) == Ok(r)
  {
    var x1 := Stacks(s.operators, s.operands + [Leaf(Num("-1.0"))]);
    assert |x1.operators| == 4 && x1.operators[0] == Token.Function("abs") && x1.operators[1] == LeftParenthesis && x1.operators[2] == Token.Function("abs") && x1.operators[3] == LeftParenthesis && |x1.operands| == 1 && x1.operands[0] == N("-1.0");
    assert Dispatch(Num("-1.0"), s) == Ok(x1);
    r := x1;
  }

  lemma NestedCallsCloseTogetherStep6(s: Stacks) returns (r: Stacks)
    requires |s.operators| == 4 && s.operators[0] == Token.Function("abs")
    requires s.operators[1] == LeftParenthesis && s.operators[2] == Token.Function("abs")
    requires s.operators[3] == LeftParenthesis && |s.operands| == 1 && s.operands[0] == N("-1.0")
    ensures |r.operators| == 5 && r.operators[0] == Token.Function("abs")
    ensures r.operators[1] == LeftParenthesis && r.operators[2] == Token.Function("abs")
    ensures r.operators[3] == LeftParenthesis && r.operators[4] == Operator(Multiply) && |r.operands| == 1
    ensures r.operands[0] == N("-1.0")
    ensures Dispatch(Operator(Multiply), s) == Ok(r)
  {
    assert ReduceFrom(Multiply, s) == Ok(s);
    var x1 := Stacks(s.operators + [Operator(Multiply)], s.operands);
    assert |x1.operators| == 5 && x1.operators[0] == Token.Function("abs") && x1.operators[1] == LeftParenthesis && x1.operators[2] == Token.Function("abs") && x1.operators[3] == LeftParenthesis && x1.operators[4] == Operator(Multiply) && |x1.operands| == 1 && x1.operands[0] == N("-1.0");
    DispatchOperator(Multiply, s);
    assert Dispatch(Operator(Multiply), s) == Ok(x1);
    r := x1;
  }

  lemma NestedCallsCloseTogetherStep7(s: Stacks) returns (r: Stacks)
    requires |s.operators| == 5 && s.operators[0] == Token.Function("abs")
    requires s.operators[1] == LeftParenthesis && s.operators[2] == Token.Function("abs")
    requires s.operators[3] == LeftParenthesis && s.operators[4] == Operator(Multiply) && |s.operands| == 1
    requires s.operands[0] == N("-1.0")
    ensures |r.operators| == 5 && r.operators[0] == Token.Function("abs")
    ensures r.operators[1] == LeftParenthesis && r.operators[2] == Token.Function("abs")
    ensures r.operators[3] == LeftParenthesis && r.operators[4] == Operator(Multiply) && |r.operands| == 2
    ensures r.operands[0] == N("-1.0") && r.operands[1] == N("1")
    ensures Dispatch(Num("1"), s) == Ok(r)
  {
    var x1 := Stacks(s.operators, s.operands + [Leaf(Num("1"))]);
    assert |x1.operators| == 5 && x1.operators[0] == Token.Function("abs") && x1.operators[1] == LeftParenthesis && x1.operators[2] == Token.Function("abs") && x1.operators[3] == LeftParenthesis && x1.operators[4] == Operator(Multiply) && |x1.operands| == 2 && x1.operands[0] == N("-1.0") && x1.operands[1] == N("1");
    assert Dispatch(Num("1"), s) == Ok(x1);
    r := x1;
  }

  lemma NestedCallsCloseTogetherStep8Pop1(s: Stacks) returns (r: Stacks)
    requires |s.operators| == 5 && s.operators[0] == Token.Function("abs")
    requires s.operators[1] == LeftParenthesis && s.operators[2] == Token.Function("abs")
    requires s.operators[3] == LeftParenthesis && s.operators[4] == Operator(Multiply) && |s.operands| == 2
    requires s.operands[0] == N("-1.0") && s.operands[1] == N("1")
    ensures |r.operators| == 4 && r.operators[0] == Token.Function("abs")
    ensures r.operators[1] == LeftParenthesis && r.operators[2] == Token.Function("abs")
    ensures r.operators[3] == LeftParenthesis && |r.operands| == 1
    ensures r.operands[0] == Bin(Multiply, N("-1.0"), N("1"))
    ensures CloseFrom(s) == CloseFrom(r)
  {
    assert s.operands[0..] == [N("-1.0"), N("1")];
    var o1 := AddOperator(Multiply, s.operands).value;
    assert |o1| == 1 && o1[0] == Bin(Multiply, N("-1.0"), N("1"));
    var x2 := Stacks(Init(s.operators), o1);
    assert |x2.operators| == 4 && x2.operators[0] == Token.Function("abs") && x2.operators[1] == LeftParenthesis && x2.operators[2] == Token.Function("abs") && x2.operators[3] == LeftParenthesis && |x2.operands| == 1 && x2.operands[0] == Bin(Multiply, N("-1.0"), N("1"));
    assert CloseFrom(s) == CloseFrom(x2);
    r := x2;
  }

  lemma NestedCallsCloseTogetherStep8Pop2(s: Stacks) returns (r: Stacks)
    requires |s.operators| == 4 && s.operators[0] == Token.Function("abs")
    requires s.operators[1] == LeftParenthesis && s.operators[2] == Token.Function("abs")
    requires s.operators[3] == LeftParenthesis && |s.operands| == 1
    requires s.operands[0] == Bin(Multiply, N("-1.0"), N("1"))
    ensures |r.operators| == 3 && r.operators[0] == Token.Function("abs")
    ensures r.operators[1] == LeftParenthesis && r.operators[2] == Token.Function("abs")
    ensures |r.operands| == 1 && r.operands[0] == Bin(Multiply, N("-1.0"), N("1"))
    ensures CloseFrom(s) == CloseFrom(r)
  {
    var x1 := Stacks(Init(s.operators), s.operands);
    assert |x1.operators| == 3 && x1.operators[0] == Token.Function("abs") && x1.operators[1] == LeftParenthesis && x1.operators[2] == Token.Function("abs") && |x1.operands| == 1 && x1.operands[0] == Bin(Multiply, N("-1.0"), N("1"));
    assert CloseFrom(s) == CloseFrom(x1);
    r := x1;
  }

  lemma NestedCallsCloseTogetherStep8Pop3(s: Stacks) returns (r: Stacks)
    requires |s.operators| == 3 && s.operators[0] == Token.Function("abs")
    requires s.operators[1] == LeftParenthesis && s.operators[2] == Token.Function("abs")
    requires |s.operands| == 1 && s.operands[0] == Bin(Multiply, N("-1.0"), N("1"))
    ensures |r.operators| == 2 && r.operators[0] == Token.Function("abs")
    ensures r.operators[1] == LeftParenthesis && |r.operands| == 1
    ensures r.operands[0] == Node(Token.Function("abs"), [Bin(Multiply, N("-1.0"), N("1"))])
    ensures CloseFrom(s) == CloseFrom(r)
  {
    var rest1, args2 := Init(s.operands), [Last(s.operands)];
    assert |rest1| == 0 && |args2| == 1 && args2[0] == Bin(Multiply, N("-1.0"), N("1"));
    assert GatherFrom("abs", rest1, args2) == Ok((rest1, args2));
    assert args2 == [Bin(Multiply, N("-1.0"), N("1"))];
    var o3 := CollectFunction("abs", s.operands).value;
    assert o3 == rest1 + [Node(Token.Function("abs"), args2)];
    assert |o3| == 1 && o3[0] == Node(Token.Function("abs"), [Bin(Multiply, N("-1.0"), N("1"))]);
    var x4 := Stacks(Init(s.operators), o3);
    assert |x4.operators| == 2 && x4.operators[0] == Token.Function("abs") && x4.operators[1] == LeftParenthesis && |x4.operands| == 1 && x4.operands[0] == Node(Token.Function("abs"), [Bin(Multiply, N("-1.0"), N("1"))]);
    assert CloseFrom(s) == CloseFrom(x4);
    r := x4;
  }

  lemma NestedCallsCloseTogetherStep8Pop4(s: Stacks) returns (r: Stacks)
    requires |s.operators| == 2 && s.operators[0] == Token.Function("abs")
    requires s.operators[1] == LeftParenthesis && |s.operands| == 1
    requires s.operands[0] == Node(Token.Function("abs"), [Bin(Multiply, N("-1.0"), N("1"))])
    ensures |r.operators| == 1 && r.operators[0] == Token.Function("abs") && |r.operands| == 1
    ensures r.operands[0] == Node(Token.Function("abs"), [Bin(Multiply, N("-1.0"), N("1"))])
    ensures CloseFrom(s) == CloseFrom(r)
  {
    var x1 := Stacks(Init(s.operators), s.operands);
    assert |x1.operators| == 1 && x1.operators[0] == Token.Function("abs") && |x1.operands| == 1 && x1.operands[0] == Node(Token.Function("abs"), [Bin(Multiply, N("-1.0"), N("1"))]);
    assert CloseFrom(s) == CloseFrom(x1);
    r := x1;
  }

  lemma NestedCallsCloseTogetherStep8Pop5(s: Stacks) returns (r: Stacks)
    requires |s.operators| == 1 && s.operators[0] == Token.Function("abs") && |s.operands| == 1
    requires s.operands[0] == Node(Token.Function("abs"), [Bin(Multiply, N("-1.0"), N("1"))])
    ensures |r.operators| == 0 && |r.operands| == 1
    ensures r.operands[0] == Node(Token.Function("abs"), [Node(Token.Function("abs"), [Bin(Multiply, N("-1.0"), N("1"))])])
    ensures CloseFrom(s) == CloseFrom(r)
  {
    var rest1, args2 := Init(s.operands), [Last(s.operands)];
    assert |rest1| == 0 && |args2| == 1 && args2[0] == Node(Token.Function("abs"), [Bin(Multiply, N("-1.0"), N("1"))]);
    assert GatherFrom("abs", rest1, args2) == Ok((rest1, args2));
    assert args2 == [Node(Token.Function("abs"), [Bin(Multiply, N("-1.0"), N("1"))])];
    var o3 := CollectFunction("abs", s.operands).value;
    assert o3 == rest1 + [Node(Token.Function("abs"), args2)];
    assert |o3| == 1 && o3[0] == Node(Token.Function("abs"), [Node(Token.Function("abs"), [Bin(Multiply, N("-1.0"), N("1"))])]);
    var x4 := Stacks(Init(s.operators), o3);
    assert |x4.operators| == 0 && |x4.operands| == 1 && x4.operands[0] == Node(Token.Function("abs"), [Node(Token.Function("abs"), [Bin(Multiply, N("-1.0"), N("1"))])]);
    assert CloseFrom(s) == CloseFrom(x4);
    r := x4;
  }

  lemma NestedCallsCloseTogetherStep8(s: Stacks) returns (r: Stacks)
    requires |s.operators| == 5 && s.operators[0] == Token.Function("abs")
    requires s.operators[1] == LeftParenthesis && s.operators[2] == Token.Function("abs")
    requires s.operators[3] == LeftParenthesis && s.operators[4] == Operator(Multiply) && |s.operands| == 2
    requires s.operands[0] == N("-1.0") && s.operands[1] == N("1")
    ensures |r.operators| == 0 && |r.operands| == 1
    ensures r.operands[0] == Node(Token.Function("abs"), [Node(Token.Function("abs"), [Bin(Multiply, N("-1.0"), N("1"))])])
    ensures Dispatch(RightParenthesis, s) == Ok(r)
  {
    var x1 := NestedCallsCloseTogetherStep8Pop1(s);
    var x2 := NestedCallsCloseTogetherStep8Pop2(x1);
    var x3 := NestedCallsCloseTogetherStep8Pop3(x2);
    var x4 := NestedCallsCloseTogetherStep8Pop4(x3);
    var x5 := NestedCallsCloseTogetherStep8Pop5(x4);
    assert CloseFrom(x5) == Ok(x5);
    assert CloseFrom(x4) == Ok(x5);
    assert CloseFrom(x3) == Ok(x5);
    assert CloseFrom(x2) == Ok(x5);
    assert CloseFrom(x1) == Ok(x5);
    assert CloseFrom(s) == Ok(x5);
    DispatchClose(s);
    assert Dispatch(RightParenthesis, s) == Ok(x5);
    r := x5;
  }

  lemma NestedCallsCloseTogetherStep9(s: Stacks) returns (r: Stacks)
    requires |s.operators| == 0 && |s.operands| == 1
    requires s.operands[0] == Node(Token.Function("abs"), [Node(Token.Function("abs"), [Bin(Multiply, N("-1.0"), N("1"))])])
    ensures |r.operators| == 0 && |r.operands| == 1
    ensures r.operands[0] == Node(Token.Function("abs"), [Node(Token.Function("abs"), [Bin(Multiply, N("-1.0"), N("1"))])])
    ensures Dispatch(RightParenthesis, s) == Ok(r)
  {
    assert CloseFrom(s) == Ok(s);
    DispatchClose(s);
    assert Dispatch(RightParenthesis, s) == Ok(s);
    r := s;
  }

  /** The tokens of `abs(abs(-1))`, where `-1` lexes as `-1 * 1`: the first `)` closes both calls, the second finds the stack empty. */
  lemma NestedCallsCloseTogether(t: seq<Token>)
    requires |t| == 9 && t[0] == Token.Function("abs") && t[1] == LeftParenthesis
    requires t[2] == Token.Function("abs") && t[3] == LeftParenthesis && t[4] == Num("-1.0")
    requires t[5] == Operator(Multiply) && t[6] == Num("1") && t[7] == RightParenthesis
    requires t[8] == RightParenthesis
    ensures Parse(t) == Ok(Node(Token.Function("abs"), [Node(Token.Function("abs"), [Bin(Multiply, N("-1.0"), N("1"))])]))
  {
    var s0 := Stacks([], []);
    var s1 := NestedCallsCloseTogetherStep1(s0);
    var s2 := NestedCallsCloseTogetherStep2(s1);
    var s3 := NestedCallsCloseTogetherStep3(s2);
    var s4 := NestedCallsCloseTogetherStep4(s3);
    var s5 := NestedCallsCloseTogetherStep5(s4);
    var s6 := NestedCallsCloseTogetherStep6(s5);
    var s7 := NestedCallsCloseTogetherStep7(s6);
    var s8 := NestedCallsCloseTogetherStep8(s7);
    var s9 := NestedCallsCloseTogetherStep9(s8);
    assert ParseFrom(t, 9, s9) == Ok(s9);
    DispatchThenParse(t, 8, s8, s9);
    DispatchThenParse(t, 7, s7, s8);
    DispatchThenParse(t, 6, s6, s7);
    DispatchThenParse(t, 5, s5, s6);
    DispatchThenParse(t, 4, s4, s5);
    DispatchThenParse(t, 3, s3, s4);
    DispatchThenParse(t, 2, s2, s3);
    DispatchThenParse(t, 1, s1, s2);
    DispatchThenParse(t, 0, s0, s1);
    assert Drain(s9) == Ok(s9.operands);
  }

  lemma UnclosedParenthesisStep1(s: Stacks) returns (r: Stacks)
    requires |s.operators| == 0 && |s.operands| == 0
    ensures |r.operators| == 0 && |r.operands| == 1 && r.operands[0] == N("1")
    ensures Dispatch(Num("1"), s) == Ok(r)
  {
    var x1 := Stacks(s.operators, s.operands + [Leaf(Num("1"))]);
    assert |x1.operators| == 0 && |x1.operands| == 1 && x1.operands[0] == N("1");
    assert Dispatch(Num("1"), s) == Ok(x1);
    r := x1;
  }

  lemma UnclosedParenthesisStep2(s: Stacks) returns (r: Stacks)
    requires |s.operators| == 0 && |s.operands| == 1 && s.operands[0] == N("1")
    ensures |r.operators| == 1 && r.operators[0] == Operator(Add) && |r.operands| == 1
    ensures r.operands[0] == N("1")
    ensures Dispatch(Operator(Add), s) == Ok(r)
  {
    assert ReduceFrom(Add, s) == Ok(s);
    var x1 := Stacks(s.operators + [Operator(Add)], s.operands);
    assert |x1.operators| == 1 && x1.operators[0] == Operator(Add) && |x1.operands| == 1 && x1.operands[0] == N("1");
    DispatchOperator(Add, s);
    assert Dispatch(Operator(Add), s) == Ok(x1);
    r := x1;
  }

  lemma UnclosedParenthesisStep3(s: Stacks) returns (r: Stacks)
    requires |s.operators| == 1 && s.operators[0] == Operator(Add) && |s.operands| == 1
    requires s.operands[0] == N("1")
    ensures |r.operators| == 2 && r.operators[0] == Operator(Add) && r.operators[1] == LeftParenthesis
    ensures |r.operands| == 1 && r.operands[0] == N("1")
    ensures Dispatch(LeftParenthesis, s) == Ok(r)
  {
    var x1 := Stacks(s.operators + [LeftParenthesis], s.operands);
    assert |x1.operators| == 2 && x1.operators[0] == Operator(Add) && x1.operators[1] == LeftParenthesis && |x1.operands| == 1 && x1.operands[0] == N("1");
    assert Dispatch(LeftParenthesis, s) == Ok(x1);
    r := x1;
  }

  lemma UnclosedParenthesisStep4(s: Stacks) returns (r: Stacks)
    requires |s.operators| == 2 && s.operators[0] == Operator(Add) && s.operators[1] == LeftParenthesis
    requires |s.operands| == 1 && s.operands[0] == N("1")
    ensures |r.operators| == 2 && r.operators[0] == Operator(Add) && r.operators[1] == LeftParenthesis
    ensures |r.operands| == 2 && r.operands[0] == N("1") && r.operands[1] == N("2")
    ensures Dispatch(Num("2"), s) == Ok(r)
  {
    var x1 := Stacks(s.operators, s.operands + [Leaf(Num("2"))]);
    assert |x1.operators| == 2 && x1.operators[0] == Operator(Add) && x1.operators[1] == LeftParenthesis && |x1.operands| == 2 && x1.operands[0] == N("1") && x1.operands[1] == N("2");
    assert Dispatch(Num("2"), s) == Ok(x1);
    r := x1;
  }

  /** In `1 + (2` the final drain stops at the unclosed `(`, so `+` is never applied and the result is `2`. */
  lemma UnclosedParenthesis(t: seq<Token>)
    requires |t| == 4 && t[0] == Num("1") && t[1] == Operator(Add) && t[2] == LeftParenthesis
    requires t[3] == Num("2")
    ensures Parse(t) == Ok(N("2"))
  {
    var s0 := Stacks([], []);
    var s1 := UnclosedParenthesisStep1(s0);
    var s2 := UnclosedParenthesisStep2(s1);
    var s3 := UnclosedParenthesisStep3(s2);
    var s4 := UnclosedParenthesisStep4(s3);
    assert ParseFrom(t, 4, s4) == Ok(s4);
    DispatchThenParse(t, 3, s3, s4);
    DispatchThenParse(t, 2, s2, s3);
    DispatchThenParse(t, 1, s1, s2);
    DispatchThenParse(t, 0, s0, s1);
    assert Drain(s4) == Ok(s4.operands);
  }

}
