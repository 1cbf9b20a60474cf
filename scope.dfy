/** The binding environment of src/ast/scope.rs. */
module Scopes {
  import opened Options
  import Tokens

  /** A user function pointer (`CustomFn`), kept opaque: only its identity matters here. */
  datatype CustomFn = CustomFn(id: nat)

  /** What a name is bound to. */
  datatype Variable = Number(value: Tokens.NumericLiteral) | Function(callable: CustomFn)

  class Scope {
    var variables: map<string, Variable>

    /** `Scope::new()`: nothing is bound. */
    constructor ()
      ensures variables == map[]
      ensures forall name :: GetVar(name) == None
    {
      variables := map[];
    }

    /** `set_var`: bind `name` to a number, replacing any earlier binding of it. */
    method SetVar(name: string, value: Tokens.NumericLiteral)
      modifies this
      ensures variables == old(variables)[name := Number(value)]
      ensures GetVar(name) == Some(Number(value))
      ensures forall other :: other != name ==> GetVar(other) == old(GetVar(other))
    {
      variables := variables[name := Number(value)];
    }

    /** `set_fn`: bind `name` to a user function, replacing any earlier binding of it. */
    method SetFn(name: string, callable: CustomFn)
      modifies this
      ensures variables == old(variables)[name := Function(callable)]
      ensures GetVar(name) == Some(Function(callable))
      ensures forall other :: other != name ==> GetVar(other) == old(GetVar(other))
    {
      variables := variables[name := Function(callable)];
    }

    /** `get_var`: the binding of `name`, if any. */
    function GetVar(name: string): (r: Option<Variable>)
      reads this
      ensures r.Some? <==> name in variables
      ensures r.Some? ==> r.value == variables[name]
    {
      if name in variables then Some(variables[name]) else None
    }
  }

  /** Two writes to one name: the later one wins, whichever kind each write is. */
  method LastWriteWins(name: string, value: Tokens.NumericLiteral, callable: CustomFn)
    returns (afterFn: Option<Variable>, afterVar: Option<Variable>)
    ensures afterFn == Some(Function(callable))
    ensures afterVar == Some(Number(value))
  {
    var scope := new Scope();
    scope.SetVar(name, value);
    scope.SetFn(name, callable);
    afterFn := scope.GetVar(name);
    scope.SetVar(name, value);
    afterVar := scope.GetVar(name);
  }

  /** Binding one name leaves every other name as it was (here: unbound in a fresh scope). */
  method OtherNamesUnaffected(name: string, other: string, value: Tokens.NumericLiteral, callable: CustomFn)
    returns (r: Option<Variable>)
    requires name != other
    ensures r == None
  {
    var scope := new Scope();
    scope.SetVar(name, value);
    scope.SetFn(name, callable);
    r := scope.GetVar(other);
  }
}
