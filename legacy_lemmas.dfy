/** What the earlier judgments do, rule by rule, and how they relate to the
  * current ones: with subtyping off, whatever the earlier version accepts
  * (outside `pred`, which the current INFER no longer types) the current
  * version accepts with the same result. */
module LegacyFacts {
  import opened Wrappers
  import opened Extensions
  import opened Syntax
  import opened Errors
  import opened Contexts
  import opened Typing
  import opened Legacy

  // ---------------------------------------------------------------------------
  // The earlier INFER

  /** Only the literal 0 is a natural number; other literals are unsupported. */
  lemma InferV1Literals(ctx: Context, n: int)
    ensures InferV1(ctx, ConstTrue) == Ok(Type.Bool) && InferV1(ctx, ConstFalse) == Ok(Type.Bool)
    ensures InferV1(ctx, ConstUnit) == Ok(Type.Unit)
    ensures InferV1(ctx, ConstInt(n)) ==
            (if n == 0 then Ok(Type.Nat) else Fail(Unsupported(ExpressionNode(ConstInt(n)), None, None)))
  {
  }

  /** `succ` and `pred` of an argument that checks as Nat are Nat; `isZero` of one is Bool. */
  lemma InferV1Primitives(ctx: Context, a: Expression)
    ensures InferV1(ctx, Expression.Succ(a)).Ok? <==> CheckV1(ctx, Against(a, Type.Nat)).Ok?
    ensures InferV1(ctx, Pred(a)).Ok? <==> CheckV1(ctx, Against(a, Type.Nat)).Ok?
    ensures InferV1(ctx, IsZero(a)).Ok? <==> CheckV1(ctx, Against(a, Type.Nat)).Ok?
    ensures InferV1(ctx, Expression.Succ(a)).Ok? ==> InferV1(ctx, Expression.Succ(a)).value == Type.Nat
    ensures InferV1(ctx, Pred(a)).Ok? ==> InferV1(ctx, Pred(a)).value == Type.Nat
    ensures InferV1(ctx, IsZero(a)).Ok? ==> InferV1(ctx, IsZero(a)).value == Type.Bool
  {
  }

  /** The forms the earlier INFER types. */
  predicate InferableV1(e: Expression)
  {
    e.Var? || e.ConstTrue? || e.ConstFalse? || e.ConstUnit? || e.ConstInt? ||
    e.Succ? || e.Pred? || e.IsZero?
  }

  /** Every other form, `if` and `natRec` included, is unsupported by the earlier INFER. */
  lemma InferV1Unsupported(ctx: Context, e: Expression)
    requires !InferableV1(e)
    ensures InferV1(ctx, e) == Fail(Unsupported(ExpressionNode(e), None, None))
  {
  }

  /** A variable has its context type, and an unbound one is undefined. */
  lemma InferV1Variable(ctx: Context, x: string)
    ensures TypeOf(ctx, x).Some? ==> InferV1(ctx, Expression.Var(x)) == Ok(TypeOf(ctx, x).value)
    ensures TypeOf(ctx, x).None? ==> InferV1(ctx, Expression.Var(x)) == Fail(Error(UndefinedVariable))
  {
  }

  // ---------------------------------------------------------------------------
  // The earlier CHECK

  lemma {:induction false} CheckAllV1Ok(ctx: Context, es: seq<Expression>, ts: seq<Type>)
    requires |es| == |ts|
    ensures CheckAllV1(ctx, es, ts).Ok? <==>
            forall i :: 0 <= i < |es| ==> CheckV1(ctx, Against(es[i], ts[i])).Ok?
  {
    if es != [] {
      CheckAllV1Ok(ctx, es[1..], ts[1..]);
      if forall i :: 0 <= i < |es| ==> CheckV1(ctx, Against(es[i], ts[i])).Ok? {
        forall i | 0 <= i < |es[1..]|
          ensures CheckV1(ctx, Against(es[1..][i], ts[1..][i])).Ok?
        {
          assert es[1..][i] == es[i + 1] && ts[1..][i] == ts[i + 1];
        }
      }
      if CheckAllV1(ctx, es, ts).Ok? {
        forall i | 0 <= i < |es|
          ensures CheckV1(ctx, Against(es[i], ts[i])).Ok?
        {
          if i > 0 {
            assert es[1..][i - 1] == es[i] && ts[1..][i - 1] == ts[i];
          }
        }
      }
    }
  }

  /** A lambda fails first on a non-function goal, then on a count mismatch,
    * then on a parameter whose declared type is not exactly the expected one;
    * otherwise its body is checked against the result type. */
  lemma LambdaV1(ctx: Context, params: seq<Param>, body: Expression, t: Type)
    ensures !t.Function? ==>
              CheckV1(ctx, Against(Abstraction(params, body), t)) == Fail(Error(UnexpectedLambda))
    ensures t.Function? && |t.params| != |params| ==>
              CheckV1(ctx, Against(Abstraction(params, body), t)) == Fail(Error(UnexpectedParametersNumber))
    ensures t.Function? && |t.params| == |params| &&
            (exists i :: 0 <= i < |params| && params[i].ty != t.params[i]) ==>
              CheckV1(ctx, Against(Abstraction(params, body), t)) == Fail(Error(UnexpectedParameterType))
    ensures CheckV1(ctx, Against(Abstraction(params, body), t)).Ok? <==>
              t.Function? && |t.params| == |params| &&
              (forall i :: 0 <= i < |params| ==> params[i].ty == t.params[i]) &&
              CheckV1(ExtendParams(ctx, params), Against(body, t.ret)).Ok?
  {
  }

  /** An application checks when the callee infers a function of the right arity,
    * every argument checks against its parameter type, and the return type is
    * exactly the goal. */
  lemma ApplicationV1(ctx: Context, callee: Expression, args: seq<Expression>, t: Type)
    ensures InferV1(ctx, callee).Ok? && !InferV1(ctx, callee).value.Function? ==>
              CheckV1(ctx, Against(Application(callee, args), t)) == Fail(Error(NotAFunction))
    ensures InferV1(ctx, callee).Ok? && InferV1(ctx, callee).value.Function? &&
            |args| != |InferV1(ctx, callee).value.params| ==>
              CheckV1(ctx, Against(Application(callee, args), t)) == Fail(Error(IncorrectArgumentsNumber))
    ensures CheckV1(ctx, Against(Application(callee, args), t)).Ok? <==>
              InferV1(ctx, callee).Ok? &&
              var ct := InferV1(ctx, callee).value;
              ct.Function? && |args| == |ct.params| &&
              (forall i :: 0 <= i < |args| ==> CheckV1(ctx, Against(args[i], ct.params[i])).Ok?) &&
              ct.ret == t
  {
    var goal := Against(Application(callee, args), t);
    if InferV1(ctx, callee).Ok? {
      var ct := InferV1(ctx, callee).value;
      if ct.Function? && |args| == |ct.params| {
        assert CheckV1(ctx, goal) == (var _ :- CheckAllV1(ctx, args, ct.params); Expect(t, ct.ret));
        CheckAllV1Ok(ctx, args, ct.params);
      }
    }
  }

  /** Forms without a CHECK rule of their own check exactly when they infer the goal type. */
  lemma FallbackV1(ctx: Context, e: Expression, t: Type)
    requires !(e.If? || e.NatRec? || e.Abstraction? || e.Application?)
    ensures CheckV1(ctx, Against(e, t)).Ok? <==> InferV1(ctx, e) == Ok(t)
    ensures InferV1(ctx, e).Ok? && InferV1(ctx, e).value != t ==>
              CheckV1(ctx, Against(e, t)) == Fail(Error(UnexpectedType))
  {
  }

  // ---------------------------------------------------------------------------
  // From the earlier judgments to the current ones

  /** No `pred` along the subterms the earlier judgments look at. */
  predicate WithoutPred(e: Expression)
  {
    match e
    case Pred(_) => false
    case Succ(a) => WithoutPred(a)
    case IsZero(a) => WithoutPred(a)
    case If(c, a, b) => WithoutPred(c) && WithoutPred(a) && WithoutPred(b)
    case NatRec(n, i, s) => WithoutPred(n) && WithoutPred(i) && WithoutPred(s)
    case Abstraction(_, body) => WithoutPred(body)
    case Application(callee, args) =>
      WithoutPred(callee) && forall i :: 0 <= i < |args| ==> WithoutPred(args[i])
    case _ => true
  }

  /** The current INFER types everything the earlier one does, with the same type. */
  lemma {:induction false} InferV1Refined(sub: Subtyping, ctx: Context, e: Expression)
    requires !IsEnabled(ctx, Extensions.Subtyping) && WithoutPred(e)
    requires InferV1(ctx, e).Ok?
    ensures Infer(sub, ctx, e) == InferV1(ctx, e)
    decreases e, 1
  {
    match e
    case Succ(a) =>
      CheckV1Refined(sub, ctx, a, Type.Nat);
      assert Infer(sub, ctx, e) == InferSucc(sub, ctx, e);
    case IsZero(a) =>
      CheckV1Refined(sub, ctx, a, Type.Nat);
      assert Infer(sub, ctx, e) == InferIsZero(sub, ctx, e);
    case _ =>
  }

  /** The current CHECK accepts every goal the earlier one accepts; and a goal of
    * Top, which the earlier CHECK meets only when the expression yields Top,
    * is then inferred as Top by the current INFER. */
  lemma {:induction false} CheckV1Refined(sub: Subtyping, ctx: Context, e: Expression, t: Type)
    requires !IsEnabled(ctx, Extensions.Subtyping) && WithoutPred(e)
    requires CheckV1(ctx, Against(e, t)).Ok?
    ensures Check(sub, ctx, e, t).Ok?
    ensures t == Type.Top ==> Infer(sub, ctx, e) == Ok(Type.Top)
    decreases e, 2
  {
    if e.If? {
      IfRefined(sub, ctx, e, t);
    } else if e.NatRec? {
      NatRecRefined(sub, ctx, e, t);
    } else if e.Abstraction? {
      AbstractionRefined(sub, ctx, e, t);
    } else if e.Application? {
      ApplicationRefined(sub, ctx, e, t);
    } else {
      InferV1Refined(sub, ctx, e);
      InferredRefined(sub, ctx, e, t);
    }
  }

  /** A form the earlier INFER types has no CHECK rule of its own in the current
    * version, so it is checked by inference and equality. */
  lemma InferredRefined(sub: Subtyping, ctx: Context, e: Expression, t: Type)
    requires !IsEnabled(ctx, Extensions.Subtyping)
    requires InferableV1(e) && Infer(sub, ctx, e) == Ok(t)
    ensures Check(sub, ctx, e, t).Ok?
    ensures t == Type.Top ==> Infer(sub, ctx, e) == Ok(Type.Top)
  {
    if t != Type.Top {
      assert Check(sub, ctx, e, t) == CheckByInference(sub, ctx, e, t);
    }
  }

  lemma {:induction false} IfRefined(sub: Subtyping, ctx: Context, e: Expression, t: Type)
    requires e.If? && !IsEnabled(ctx, Extensions.Subtyping) && WithoutPred(e)
    requires CheckV1(ctx, Against(e, t)).Ok?
    ensures Check(sub, ctx, e, t).Ok?
    ensures t == Type.Top ==> Infer(sub, ctx, e) == Ok(Type.Top)
    decreases e, 0
  {
    CheckV1Refined(sub, ctx, e.cond, Type.Bool);
    CheckV1Refined(sub, ctx, e.thenExpr, t);
    CheckV1Refined(sub, ctx, e.elseExpr, t);
    if t == Type.Top {
      assert Infer(sub, ctx, e) == InferIf(sub, ctx, e);
    } else {
      assert Check(sub, ctx, e, t) == CheckIf(sub, ctx, e, t);
    }
  }

  lemma {:induction false} NatRecRefined(sub: Subtyping, ctx: Context, e: Expression, t: Type)
    requires e.NatRec? && !IsEnabled(ctx, Extensions.Subtyping) && WithoutPred(e)
    requires CheckV1(ctx, Against(e, t)).Ok?
    ensures Check(sub, ctx, e, t).Ok?
    ensures t == Type.Top ==> Infer(sub, ctx, e) == Ok(Type.Top)
    decreases e, 0
  {
    CheckV1Refined(sub, ctx, e.count, Type.Nat);
    CheckV1Refined(sub, ctx, e.initial, t);
    CheckV1Refined(sub, ctx, e.step, Type.Function([Type.Nat], Type.Function([t], t)));
    if t == Type.Top {
      assert Infer(sub, ctx, e) == InferNatRec(sub, ctx, e);
    } else {
      assert Check(sub, ctx, e, t) == CheckNatRec(sub, ctx, e, t);
    }
  }

  lemma {:induction false} AbstractionRefined(sub: Subtyping, ctx: Context, e: Expression, t: Type)
    requires e.Abstraction? && !IsEnabled(ctx, Extensions.Subtyping) && WithoutPred(e)
    requires CheckV1(ctx, Against(e, t)).Ok?
    ensures Check(sub, ctx, e, t).Ok?
    ensures t == Type.Top ==> Infer(sub, ctx, e) == Ok(Type.Top)
    decreases e, 0
  {
    var inner := ExtendParams(ctx, e.params);
    ExtendsKeepsRoot(inner, ctx);
    CheckV1Refined(sub, inner, e.body, t.ret);
    assert ParamsCompatible(sub, ctx, e.params, t.params);
    assert Check(sub, ctx, e, t) == CheckAbstraction(sub, ctx, e, t);
  }

  lemma {:induction false} ApplicationRefined(sub: Subtyping, ctx: Context, e: Expression, t: Type)
    requires e.Application? && !IsEnabled(ctx, Extensions.Subtyping) && WithoutPred(e)
    requires CheckV1(ctx, Against(e, t)).Ok?
    ensures Check(sub, ctx, e, t).Ok?
    ensures t == Type.Top ==> Infer(sub, ctx, e) == Ok(Type.Top)
    decreases e, 0
  {
    InferV1Refined(sub, ctx, e.callee);
    var ct := InferV1(ctx, e.callee).value;
    CheckAllV1Refined(sub, ctx, e.args, ct.params);
    assert Infer(sub, ctx, e) == InferApplication(sub, ctx, e);
    if t != Type.Top {
      assert Check(sub, ctx, e, t) == CheckByInference(sub, ctx, e, t);
    }
  }

  lemma {:induction false} CheckAllV1Refined(sub: Subtyping, ctx: Context, es: seq<Expression>, ts: seq<Type>)
    requires |es| == |ts| && !IsEnabled(ctx, Extensions.Subtyping)
    requires forall i :: 0 <= i < |es| ==> WithoutPred(es[i])
    requires CheckAllV1(ctx, es, ts).Ok?
    ensures CheckAll(sub, ctx, es, ts).Ok?
    decreases es, 3
  {
    if es != [] {
      CheckV1Refined(sub, ctx, es[0], ts[0]);
      assert forall i :: 0 <= i < |es[1..]| ==> WithoutPred(es[1..][i]) by {
        forall i | 0 <= i < |es[1..]| ensures WithoutPred(es[1..][i]) {
          assert es[1..][i] == es[i + 1];
        }
      }
      CheckAllV1Refined(sub, ctx, es[1..], ts[1..]);
    }
  }

  /** `pred` is where the versions part: the earlier INFER types `pred 0` as Nat,
    * the current one does not type it at all. */
  lemma PredDropped(sub: Subtyping, ctx: Context)
    ensures InferV1(ctx, Pred(ConstInt(0))) == Ok(Type.Nat)
    ensures Infer(sub, ctx, Pred(ConstInt(0))).Fail?
  {
    PredInferredV1(ctx);
    PredNotInferred(sub, ctx, ConstInt(0));
  }

  lemma PredInferredV1(ctx: Context)
    ensures InferV1(ctx, Pred(ConstInt(0))) == Ok(Type.Nat)
  {
  }

  lemma PredNotInferred(sub: Subtyping, ctx: Context, a: Expression)
    ensures Infer(sub, ctx, Pred(a)).Fail?
  {
    assert Infer(sub, ctx, Pred(a)) == InferRule(sub, ctx, Pred(a));
  }
}
