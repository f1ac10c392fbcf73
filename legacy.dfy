/** The earlier, smaller versions of INFER and CHECK (Sources/Stellance/Expression.swift),
  * together with the `TypeCheck` pair they share with the current checker and
  * the `expect` guard. They know no extensions and no subtyping: every
  * comparison is plain equality. */
module Legacy {
  import opened Wrappers
  import opened Syntax
  import opened Errors
  import opened Contexts

  /** A checking goal: `node` is to have type `ty`. */
  datatype TypeCheck = TypeCheck(node: Expression, ty: Type)

  /** `node <= type`: the goal of checking `node` against `type`. */
  function Against(node: Expression, ty: Type): (c: TypeCheck)
    ensures c.node == node && c.ty == ty
  {
    TypeCheck(node, ty)
  }

  /** `expect(type, actual:)`: equal types pass; any other pair is an unexpected type. */
  function Expect(expected: Type, actual: Type): (r: Result<()>)
    ensures r.Ok? <==> expected == actual
    ensures r.Fail? ==> r.failure == Error(UnexpectedType)
  {
    if expected == actual then Ok(()) else Fail(Error(UnexpectedType))
  }

  /** The earlier INFER. Only variables, the boolean and unit constants, the
    * literal 0 and the natural-number primitives are typed; every other form
    * is unsupported. */
  function InferV1(ctx: Context, e: Expression): Result<Type>
    decreases e, 1
  {
    match e
    case Var(x) =>
      if TypeOf(ctx, x).Some? then Ok(TypeOf(ctx, x).value) else Fail(Error(UndefinedVariable))
    case ConstTrue | ConstFalse => Ok(Type.Bool)
    case ConstUnit => Ok(Type.Unit)
    case ConstInt(n) =>
      if n == 0 then Ok(Type.Nat) else Fail(Unsupported(ExpressionNode(e), None, None))
    case Succ(a) =>
      var _ :- CheckV1(ctx, Against(a, Type.Nat));
      Ok(Type.Nat)
    case Pred(a) =>
      var _ :- CheckV1(ctx, Against(a, Type.Nat));
      Ok(Type.Nat)
    case IsZero(a) =>
      var _ :- CheckV1(ctx, Against(a, Type.Nat));
      Ok(Type.Bool)
    case _ => Fail(Unsupported(ExpressionNode(e), None, None))
  }

  /** The earlier CHECK: rules for `if`, `natRec`, lambdas and applications;
    * every other form is inferred and then expected to have the goal's type. */
  function CheckV1(ctx: Context, c: TypeCheck): Result<()>
    decreases c.node, 2
  {
    var t := c.ty;
    match c.node
    case If(cond, a, b) =>
      var _ :- CheckV1(ctx, Against(cond, Type.Bool));
      var _ :- CheckV1(ctx, Against(a, t));
      CheckV1(ctx, Against(b, t))
    case NatRec(n, i, s) =>
      var _ :- CheckV1(ctx, Against(n, Type.Nat));
      var _ :- CheckV1(ctx, Against(i, t));
      CheckV1(ctx, Against(s, Type.Function([Type.Nat], Type.Function([t], t))))
    case Abstraction(params, body) =>
      if !t.Function? then Fail(Error(UnexpectedLambda))
      else if |t.params| != |params| then Fail(Error(UnexpectedParametersNumber))
      else if !SameParamTypes(params, t.params) then Fail(Error(UnexpectedParameterType))
      else CheckV1(ExtendParams(ctx, params), Against(body, t.ret))
    case Application(callee, args) =>
      var ct :- InferV1(ctx, callee);
      if !ct.Function? then Fail(Error(NotAFunction))
      else if |args| != |ct.params| then Fail(Error(IncorrectArgumentsNumber))
      else
        var _ :- CheckAllV1(ctx, args, ct.params);
        Expect(t, ct.ret)
    case _ =>
      var inferred :- InferV1(ctx, c.node);
      Expect(t, inferred)
  }

  /** Every lambda parameter is declared with exactly the expected type. */
  predicate SameParamTypes(params: seq<Param>, expected: seq<Type>)
    requires |params| == |expected|
  {
    forall i :: 0 <= i < |params| ==> params[i].ty == expected[i]
  }

  /** Each argument checks against the parameter type at its position, left to right. */
  function CheckAllV1(ctx: Context, es: seq<Expression>, ts: seq<Type>): Result<()>
    requires |es| == |ts|
    decreases es, 3
  {
    if es == [] then Ok(())
    else
      var _ :- CheckV1(ctx, Against(es[0], ts[0]));
      CheckAllV1(ctx, es[1..], ts[1..])
  }
}
