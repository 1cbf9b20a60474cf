/**
 * The operator enum of src/tokens/operator.rs with its attributes.
 * In the source, `==`, `<` and `>` on operators compare precedence only;
 * here that comparison is `Eq`/`PartialCmp`, while Dafny's `==` on the
 * datatype stays structural (what Rust's `match` arms distinguish).
 */
module Operators {
  datatype Operator =
    | Add | Substract | Multiply | Divide | Exponentiate
    | IsGreaterThan | IsLessThan | IsGreaterThanOrEqualTo | IsLessThanOrEqualTo
    | IsEqualTo | IsNotEqualTo | Not

  datatype Ordering = Less | Equal | Greater

  function Precedence(op: Operator): (p: int)
    ensures p == 4 <==> op == Exponentiate
    ensures p == 3 <==> op == Multiply || op == Divide
    ensures 2 <= p <= 4
  {
    match op
    case Add => 2
    case Substract => 2
    case Multiply => 3
    case Divide => 3
    case Exponentiate => 4
    case IsGreaterThan | IsLessThan | IsGreaterThanOrEqualTo | IsLessThanOrEqualTo
      | IsEqualTo | IsNotEqualTo | Not => 2
  }

  function NumOperands(op: Operator): (n: nat)
    ensures n == 1 <==> op == Not
    ensures n == 2 <==> op != Not
  {
    match op
    case Not => 1
    case _ => 2
  }

  /** `PartialEq::eq`: two operators are "equal" when their precedences are. */
  predicate Eq(a: Operator, b: Operator) {
    Precedence(a) == Precedence(b)
  }

  /** `PartialOrd::partial_cmp`: always `Some`, by precedence. */
  function PartialCmp(a: Operator, b: Operator): (o: Ordering)
    ensures o == Equal <==> Eq(a, b)
    ensures o == Less <==> Precedence(a) < Precedence(b)
    ensures o == Greater <==> Precedence(a) > Precedence(b)
  {
    if Precedence(a) < Precedence(b) then Less
    else if Precedence(a) == Precedence(b) then Equal
    else Greater
  }

  /** Rust's `a > b`, derived from `partial_cmp`. */
  predicate Gt(a: Operator, b: Operator) {
    PartialCmp(a, b) == Greater
  }

  /** `*self == Operator::Exponentiate`, i.e. "has precedence 4". */
  predicate IsRightAssociative(op: Operator)
    ensures IsRightAssociative(op) <==> op == Exponentiate
  {
    Eq(op, Exponentiate)
  }

  /** The `Display` symbol of each operator. */
  function Symbol(op: Operator): (s: string)
    ensures 1 <= |s| <= 2
  {
    match op
    case Add => "+"
    case Substract => "-"
    case Multiply => "*"
    case Divide => "/"
    case Exponentiate => "^"
    case IsGreaterThan => ">"
    case IsLessThan => "<"
    case IsGreaterThanOrEqualTo => ">="
    case IsLessThanOrEqualTo => "<="
    case IsEqualTo => "=="
    case IsNotEqualTo => "!="
    case Not => "!"
  }

  /** Precedence equality is an equivalence relation. */
  lemma EqIsEquivalence(a: Operator, b: Operator, c: Operator)
    ensures Eq(a, a)
    ensures Eq(a, b) ==> Eq(b, a)
    ensures Eq(a, b) && Eq(b, c) ==> Eq(a, c)
  {
  }

  /** `==` is coarser than identity: `Add == IsEqualTo` although they differ. */
  lemma EqIsNotIdentity()
    ensures Eq(Add, IsEqualTo) && Add != IsEqualTo
    ensures Eq(Not, Substract) && !Eq(Multiply, Add)
  {
  }

  /** The ordering is total, antisymmetric up to `Eq`, transitive, and agrees with precedences. */
  lemma OrderingIsTotal(a: Operator, b: Operator, c: Operator)
    ensures Gt(a, b) || Eq(a, b) || Gt(b, a)
    ensures !(Gt(a, b) && Gt(b, a)) && !(Gt(a, b) && Eq(a, b))
    ensures Gt(a, b) && Gt(b, c) ==> Gt(a, c)
    ensures Gt(a, b) <==> Precedence(a) > Precedence(b)
    ensures PartialCmp(b, a) == match PartialCmp(a, b) case Less => Greater case Equal => Equal case Greater => Less
  {
  }

  /** Although `==` identifies operators, their `Display` symbols tell all twelve apart. */
  lemma SymbolInjective(a: Operator, b: Operator)
    ensures Symbol(a) == Symbol(b) ==> a == b
  {
  }
}
