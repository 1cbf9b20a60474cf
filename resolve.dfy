/** Name resolution of src/ast/resolve.rs: the builtin registry first, then the scope. */
module Resolve {
  import opened Options
  import opened Errors
  import opened Constants
  import Tokens
  import Scopes

  /** What `resolve_fn` hands back: a builtin function or a user function from the scope. */
  datatype Callable = Builtin(name: string) | Custom(callable: Scopes.CustomFn)

  /** What `resolve_var` hands back: a builtin constant or a number from the scope. */
  datatype NumberRef = Constant(name: string) | Bound(value: Tokens.NumericLiteral)

  /** The scope binds `name` to a user function. */
  predicate BindsFunction(scope: Scopes.Scope, name: string)
    reads scope
  {
    scope.GetVar(name).Some? && scope.GetVar(name).value.Function?
  }

  /** The scope binds `name` to a number. */
  predicate BindsNumber(scope: Scopes.Scope, name: string)
    reads scope
  {
    scope.GetVar(name).Some? && scope.GetVar(name).value.Number?
  }

  function ResolveFn(name: string, scope: Scopes.Scope): (r: Result<Callable>)
    reads scope
    ensures r.Ok? <==> name in FunctionNames || BindsFunction(scope, name)
    ensures name in FunctionNames ==> r == Ok(Builtin(name))
    ensures name !in FunctionNames && r.Ok? ==>
      r.value.Custom? && scope.GetVar(name) == Some(Scopes.Function(r.value.callable))
    ensures r.Err? ==> r.error == UnknownFunction(name)
  {
    if name in FunctionNames then Ok(Builtin(name))
    else match scope.GetVar(name)
      case Some(Function(f)) => Ok(Custom(f))
      case _ => Err(UnknownFunction(name))
  }

  function ResolveVar(name: string, scope: Scopes.Scope): (r: Result<NumberRef>)
    reads scope
    ensures r.Ok? <==> name in ConstantNames || BindsNumber(scope, name)
    ensures name in ConstantNames ==> r == Ok(Constant(name))
    ensures name !in ConstantNames && r.Ok? ==>
      r.value.Bound? && scope.GetVar(name) == Some(Scopes.Number(r.value.value))
    ensures r.Err? ==> r.error == UnknownVariable(name)
  {
    if name in ConstantNames then Ok(Constant(name))
    else match scope.GetVar(name)
      case Some(Number(n)) => Ok(Bound(n))
      case _ => Err(UnknownVariable(name))
  }

  /** Builtins do not depend on the scope: any two scopes resolve a builtin name alike. */
  lemma BuiltinsIgnoreScope(name: string, s1: Scopes.Scope, s2: Scopes.Scope)
    ensures name in FunctionNames ==> ResolveFn(name, s1) == ResolveFn(name, s2)
    ensures name in ConstantNames ==> ResolveVar(name, s1) == ResolveVar(name, s2)
  {
  }

  /** A name is never resolved as both kinds through the scope: the binding decides which. */
  lemma ScopeKindsExclusive(name: string, scope: Scopes.Scope)
    requires name !in FunctionNames && name !in ConstantNames
    ensures !(ResolveFn(name, scope).Ok? && ResolveVar(name, scope).Ok?)
  {
  }

  /** A constant shadows a scope binding of the same name, whatever that binding is. */
  lemma ConstantsShadowScope(name: string, scope: Scopes.Scope)
    requires name in ConstantNames
    ensures ResolveVar(name, scope) == Ok(Constant(name))
  {
  }
}
