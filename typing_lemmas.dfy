/** What INFER and CHECK promise, case by case, and the `tryCastAs` branch of
  * CHECK as the source writes it. */
module TypingFacts {
  import opened Wrappers
  import opened Extensions
  import opened Syntax
  import opened Errors
  import opened Contexts
  import opened Patterns
  import opened Exhaustiveness
  import opened Typing

  // ---------------------------------------------------------------------------
  // The sequence helpers, stated element-wise

  /** `zip`-checking succeeds iff every expression checks against its type. */
  lemma {:induction false} CheckAllOk(sub: Subtyping, ctx: Context, es: seq<Expression>, ts: seq<Type>)
    requires |es| == |ts|
    ensures CheckAll(sub, ctx, es, ts).Ok? <==> forall i :: 0 <= i < |es| ==> Check(sub, ctx, es[i], ts[i]).Ok?
  {
    if es != [] {
      CheckAllOk(sub, ctx, es[1..], ts[1..]);
      if forall i :: 0 <= i < |es| ==> Check(sub, ctx, es[i], ts[i]).Ok? {
        forall i | 0 <= i < |es[1..]|
          ensures Check(sub, ctx, es[1..][i], ts[1..][i]).Ok?
        {
          assert es[1..][i] == es[i + 1] && ts[1..][i] == ts[i + 1];
        }
      }
      if CheckAll(sub, ctx, es, ts).Ok? {
        forall i | 0 <= i < |es|
          ensures Check(sub, ctx, es[i], ts[i]).Ok?
        {
          if i > 0 {
            assert es[1..][i - 1] == es[i] && ts[1..][i - 1] == ts[i];
          }
        }
      }
    }
  }

  /** `forEach`-checking succeeds iff every expression checks against the one type. */
  lemma {:induction false} CheckEachOk(sub: Subtyping, ctx: Context, es: seq<Expression>, t: Type)
    ensures CheckEach(sub, ctx, es, t).Ok? <==> forall i :: 0 <= i < |es| ==> Check(sub, ctx, es[i], t).Ok?
  {
    if es != [] {
      CheckEachOk(sub, ctx, es[1..], t);
      if forall i :: 0 <= i < |es| ==> Check(sub, ctx, es[i], t).Ok? {
        forall i | 0 <= i < |es[1..]|
          ensures Check(sub, ctx, es[1..][i], t).Ok?
        {
          assert es[1..][i] == es[i + 1];
        }
      }
      if CheckEach(sub, ctx, es, t).Ok? {
        forall i | 0 <= i < |es|
          ensures Check(sub, ctx, es[i], t).Ok?
        {
          if i > 0 {
            assert es[1..][i - 1] == es[i];
          }
        }
      }
    }
  }

  /** `map`-inferring succeeds iff every expression infers, and yields their types in order. */
  lemma {:induction false} InferAllOk(sub: Subtyping, ctx: Context, es: seq<Expression>)
    ensures InferAll(sub, ctx, es).Ok? <==> forall i :: 0 <= i < |es| ==> Infer(sub, ctx, es[i]).Ok?
    ensures InferAll(sub, ctx, es).Ok? ==>
              forall i :: 0 <= i < |es| ==> InferAll(sub, ctx, es).value[i] == Infer(sub, ctx, es[i]).value
  {
    if es != [] {
      InferAllOk(sub, ctx, es[1..]);
      if forall i :: 0 <= i < |es| ==> Infer(sub, ctx, es[i]).Ok? {
        forall i | 0 <= i < |es[1..]|
          ensures Infer(sub, ctx, es[1..][i]).Ok?
        {
          assert es[1..][i] == es[i + 1];
        }
      }
      if InferAll(sub, ctx, es).Ok? {
        forall i | 0 <= i < |es|
          ensures Infer(sub, ctx, es[i]).Ok?
          ensures InferAll(sub, ctx, es).value[i] == Infer(sub, ctx, es[i]).value
        {
          if i > 0 {
            assert es[1..][i - 1] == es[i];
          }
        }
      }
    }
  }

  /** Inferring a record literal's fields succeeds iff every field's expression infers. */
  lemma {:induction false} InferFieldsOk(sub: Subtyping, ctx: Context, fields: seq<FieldExpr>)
    ensures InferFields(sub, ctx, fields).Ok? <==> forall i :: 0 <= i < |fields| ==> Infer(sub, ctx, fields[i].expr).Ok?
  {
    if fields != [] {
      InferFieldsOk(sub, ctx, fields[1..]);
      if forall i :: 0 <= i < |fields| ==> Infer(sub, ctx, fields[i].expr).Ok? {
        forall i | 0 <= i < |fields[1..]|
          ensures Infer(sub, ctx, fields[1..][i].expr).Ok?
        {
          assert fields[1..][i] == fields[i + 1];
        }
      }
    }
  }

  /** Each field of a record literal checks against the type its name has in `fts`,
    * or infers when `fts` has no field of that name; the whole succeeds iff every field does. */
  lemma {:induction false} CheckFieldsOk(sub: Subtyping, ctx: Context, fields: seq<FieldExpr>, fts: seq<FieldType>)
    ensures CheckFields(sub, ctx, fields, fts).Ok? <==>
              forall i :: 0 <= i < |fields| ==> FieldChecks(sub, ctx, fields[i], fts)
  {
    if fields != [] {
      CheckFieldsOk(sub, ctx, fields[1..], fts);
      assert CheckFields(sub, ctx, fields, fts).Ok? <==>
               FieldChecks(sub, ctx, fields[0], fts) && CheckFields(sub, ctx, fields[1..], fts).Ok?;
      if forall i :: 0 <= i < |fields| ==> FieldChecks(sub, ctx, fields[i], fts) {
        forall i | 0 <= i < |fields[1..]|
          ensures FieldChecks(sub, ctx, fields[1..][i], fts)
        {
          assert fields[1..][i] == fields[i + 1];
        }
      }
      if CheckFields(sub, ctx, fields, fts).Ok? {
        forall i | 0 <= i < |fields|
          ensures FieldChecks(sub, ctx, fields[i], fts)
        {
          if i > 0 {
            assert fields[1..][i - 1] == fields[i];
          }
        }
      }
    }
  }

  /** One field of a record literal as the loop of TypeChecking treats it. */
  predicate FieldChecks(sub: Subtyping, ctx: Context, field: FieldExpr, fts: seq<FieldType>)
  {
    match FindField(fts, field.name)
    case Some(ft) => Check(sub, ctx, field.expr, ft.ty).Ok?
    case None => Infer(sub, ctx, field.expr).Ok?
  }

  /** The arms of a match check iff each arm does. */
  lemma {:induction false} CheckArmsOk(sub: Subtyping, ctx: Context, cases: seq<MatchCase>, mt: Type, t: Type)
    ensures CheckArms(sub, ctx, cases, mt, t).Ok? <==>
            forall i :: 0 <= i < |cases| ==> CheckArm(sub, ctx, cases[i], mt, t).Ok?
  {
    if cases != [] {
      CheckArmsOk(sub, ctx, cases[1..], mt, t);
      assert CheckArms(sub, ctx, cases, mt, t).Ok? <==>
             CheckArm(sub, ctx, cases[0], mt, t).Ok? && CheckArms(sub, ctx, cases[1..], mt, t).Ok?;
      if forall i :: 0 <= i < |cases| ==> CheckArm(sub, ctx, cases[i], mt, t).Ok? {
        forall i | 0 <= i < |cases[1..]|
          ensures CheckArm(sub, ctx, cases[1..][i], mt, t).Ok?
        {
          assert cases[1..][i] == cases[i + 1];
        }
      }
      if CheckArms(sub, ctx, cases, mt, t).Ok? {
        forall i | 0 <= i < |cases|
          ensures CheckArm(sub, ctx, cases[i], mt, t).Ok?
        {
          if i > 0 {
            assert cases[1..][i - 1] == cases[i];
          }
        }
      }
    }
  }

  /** The arms of an inferred match: the first arm's type is the result, and
    * every later arm checks against it. */
  lemma InferArmsOk(sub: Subtyping, ctx: Context, cases: seq<MatchCase>, mt: Type)
    requires cases != []
    ensures InferArms(sub, ctx, cases, mt).Ok? <==>
              InferArm(sub, ctx, cases[0], mt).Ok? &&
              forall i :: 1 <= i < |cases| ==>
                CheckArm(sub, ctx, cases[i], mt, InferArm(sub, ctx, cases[0], mt).value).Ok?
    ensures InferArms(sub, ctx, cases, mt).Ok? ==>
              InferArms(sub, ctx, cases, mt).value == InferArm(sub, ctx, cases[0], mt).value
  {
    if InferArm(sub, ctx, cases[0], mt).Ok? {
      var rt := InferArm(sub, ctx, cases[0], mt).value;
      CheckArmsOk(sub, ctx, cases[1..], mt, rt);
      if CheckArms(sub, ctx, cases[1..], mt, rt).Ok? {
        forall i | 1 <= i < |cases|
          ensures CheckArm(sub, ctx, cases[i], mt, rt).Ok?
        {
          assert cases[1..][i - 1] == cases[i];
        }
      }
      if forall i :: 1 <= i < |cases| ==> CheckArm(sub, ctx, cases[i], mt, rt).Ok? {
        forall i | 0 <= i < |cases[1..]|
          ensures CheckArm(sub, ctx, cases[1..][i], mt, rt).Ok?
        {
          assert cases[1..][i] == cases[i + 1];
        }
      }
    }
  }

  // ---------------------------------------------------------------------------
  // INFER

  /** Literals infer their base types, whatever the context. */
  lemma InferLiterals(sub: Subtyping, ctx: Context, n: int)
    ensures Infer(sub, ctx, ConstTrue) == Ok(Type.Bool) && Infer(sub, ctx, ConstFalse) == Ok(Type.Bool)
    ensures Infer(sub, ctx, ConstInt(n)) == Ok(Type.Nat)
    ensures Infer(sub, ctx, ConstUnit) == Ok(Type.Unit)
  {
  }

  /** A variable has the type of its innermost binding; an unbound one is an error. */
  lemma InferVariable(sub: Subtyping, ctx: Context, x: string, t: Type)
    ensures TypeOf(ctx, x).None? ==> Infer(sub, ctx, Expression.Var(x)) == Fail(Error(UndefinedVariable))
    ensures TypeOf(ctx, x).Some? ==> Infer(sub, ctx, Expression.Var(x)) == Ok(TypeOf(ctx, x).value)
    ensures Infer(sub, Extend(ctx, x, t), Expression.Var(x)) == Ok(t)
  {
  }

  /** An application: first the callee must be a function, then the arity must
    * agree, then each argument must check; the result is the return type. */
  lemma ApplicationTyping(sub: Subtyping, ctx: Context, callee: Expression, args: seq<Expression>)
    ensures Infer(sub, ctx, callee).Fail? ==>
              Infer(sub, ctx, Application(callee, args)) == Infer(sub, ctx, callee)
    ensures Infer(sub, ctx, callee).Ok? && !Infer(sub, ctx, callee).value.Function? ==>
              Infer(sub, ctx, Application(callee, args)) == Fail(Error(NotAFunction))
    ensures Infer(sub, ctx, callee).Ok? && Infer(sub, ctx, callee).value.Function? &&
            |args| != |Infer(sub, ctx, callee).value.params| ==>
              Infer(sub, ctx, Application(callee, args)) == Fail(Error(IncorrectArgumentsNumber))
    ensures Infer(sub, ctx, Application(callee, args)).Ok? <==>
              Infer(sub, ctx, callee).Ok? && Infer(sub, ctx, callee).value.Function? &&
              |args| == |Infer(sub, ctx, callee).value.params| &&
              forall i :: 0 <= i < |args| ==>
                Check(sub, ctx, args[i], Infer(sub, ctx, callee).value.params[i]).Ok?
    ensures Infer(sub, ctx, Application(callee, args)).Ok? ==>
              Infer(sub, ctx, Application(callee, args)).value == Infer(sub, ctx, callee).value.ret
  {
    assert Infer(sub, ctx, Application(callee, args)) == InferApplication(sub, ctx, Application(callee, args));
    var ct := Infer(sub, ctx, callee);
    if ct.Ok? && ct.value.Function? && |args| == |ct.value.params| {
      CheckAllOk(sub, ctx, args, ct.value.params);
    }
  }

  /** `e.i` needs a tuple with at least `i` components, counted from 1. */
  lemma DotTupleTyping(sub: Subtyping, ctx: Context, tuple: Expression, i: int)
    ensures Infer(sub, ctx, tuple).Ok? && !Infer(sub, ctx, tuple).value.Tuple? ==>
              Infer(sub, ctx, DotTuple(tuple, i)) == Fail(Error(NotATuple))
    ensures Infer(sub, ctx, tuple).Ok? && Infer(sub, ctx, tuple).value.Tuple? &&
            !(1 <= i <= |Infer(sub, ctx, tuple).value.components|) ==>
              Infer(sub, ctx, DotTuple(tuple, i)) == Fail(Error(UnexpectedIndex))
    ensures Infer(sub, ctx, DotTuple(tuple, i)).Ok? <==>
              Infer(sub, ctx, tuple).Ok? && Infer(sub, ctx, tuple).value.Tuple? &&
              1 <= i <= |Infer(sub, ctx, tuple).value.components|
    ensures Infer(sub, ctx, DotTuple(tuple, i)).Ok? ==>
              Infer(sub, ctx, DotTuple(tuple, i)).value == Infer(sub, ctx, tuple).value.components[i - 1]
  {
    assert Infer(sub, ctx, DotTuple(tuple, i)) == InferDotTuple(sub, ctx, DotTuple(tuple, i));
  }

  /** A tuple literal infers the tuple of its components' types. */
  lemma TupleTyping(sub: Subtyping, ctx: Context, items: seq<Expression>)
    ensures Infer(sub, ctx, Expression.Tuple(items)).Ok? <==>
              forall i :: 0 <= i < |items| ==> Infer(sub, ctx, items[i]).Ok?
    ensures Infer(sub, ctx, Expression.Tuple(items)).Ok? ==>
              var t := Infer(sub, ctx, Expression.Tuple(items)).value;
              t.Tuple? && |t.components| == |items| &&
              forall i :: 0 <= i < |items| ==> t.components[i] == Infer(sub, ctx, items[i]).value
  {
    assert Infer(sub, ctx, Expression.Tuple(items)) == InferTuple(sub, ctx, Expression.Tuple(items));
    InferAllOk(sub, ctx, items);
  }

  /** A record literal infers the record type of its field names, in order, each with
    * its expression's inferred type; it fails iff some field's expression does. */
  lemma RecordTyping(sub: Subtyping, ctx: Context, fields: seq<FieldExpr>)
    ensures Infer(sub, ctx, Expression.Record(fields)).Ok? <==>
              forall i :: 0 <= i < |fields| ==> Infer(sub, ctx, fields[i].expr).Ok?
    ensures Infer(sub, ctx, Expression.Record(fields)).Ok? ==>
              var t := Infer(sub, ctx, Expression.Record(fields)).value;
              t.Record? && |t.fields| == |fields| &&
              forall i :: 0 <= i < |fields| ==>
                t.fields[i] == FieldType(fields[i].name, Infer(sub, ctx, fields[i].expr).value)
  {
    assert Infer(sub, ctx, Expression.Record(fields)) == InferRecord(sub, ctx, Expression.Record(fields));
    InferFieldsOk(sub, ctx, fields);
  }

  /** `inl e` infers `Sum(T, Bot)` from type T of `e` under the ambiguous-type-as-bottom
    * extension; without it the sum is ambiguous. */
  lemma InlTyping(sub: Subtyping, ctx: Context, a: Expression)
    ensures Infer(sub, ctx, a).Fail? ==> Infer(sub, ctx, Expression.Inl(a)) == Infer(sub, ctx, a).PropagateFailure()
    ensures Infer(sub, ctx, a).Ok? && !IsEnabled(ctx, AsBottom) ==>
              Infer(sub, ctx, Expression.Inl(a)) == Fail(Error(AmbiguosSum))
    ensures Infer(sub, ctx, a).Ok? && IsEnabled(ctx, AsBottom) ==>
              Infer(sub, ctx, Expression.Inl(a)) == Ok(Type.Sum(Infer(sub, ctx, a).value, Type.Bottom))
  {
    assert Infer(sub, ctx, Expression.Inl(a)) == InferInl(sub, ctx, Expression.Inl(a));
  }

  /** `inr e`, symmetrically, infers `Sum(Bot, T)`. */
  lemma InrTyping(sub: Subtyping, ctx: Context, a: Expression)
    ensures Infer(sub, ctx, a).Fail? ==> Infer(sub, ctx, Expression.Inr(a)) == Infer(sub, ctx, a).PropagateFailure()
    ensures Infer(sub, ctx, a).Ok? && !IsEnabled(ctx, AsBottom) ==>
              Infer(sub, ctx, Expression.Inr(a)) == Fail(Error(AmbiguosSum))
    ensures Infer(sub, ctx, a).Ok? && IsEnabled(ctx, AsBottom) ==>
              Infer(sub, ctx, Expression.Inr(a)) == Ok(Type.Sum(Type.Bottom, Infer(sub, ctx, a).value))
  {
    assert Infer(sub, ctx, Expression.Inr(a)) == InferInr(sub, ctx, Expression.Inr(a));
  }

  /** `panic!` infers Bottom under the ambiguous-type-as-bottom extension and is
    * ambiguous without it; against any expected type other than Top it checks. */
  lemma PanicTyping(sub: Subtyping, ctx: Context, t: Type)
    ensures Infer(sub, ctx, Expression.Panic) == if IsEnabled(ctx, AsBottom) then Ok(Type.Bottom) else Fail(Error(AmbiguousPanic))
    ensures t != Type.Top ==> Check(sub, ctx, Expression.Panic, t) == Ok(())
  {
  }

  /** An empty list literal has no type; a non-empty one has the type of its first
    * element, and every element must check against it. */
  lemma ListTyping(sub: Subtyping, ctx: Context, items: seq<Expression>)
    ensures items == [] ==> Infer(sub, ctx, Expression.List(items)) == Fail(Error(AmbiguosList))
    ensures Infer(sub, ctx, Expression.List(items)).Ok? <==>
              items != [] && Infer(sub, ctx, items[0]).Ok? &&
              forall i :: 0 <= i < |items| ==> Check(sub, ctx, items[i], Infer(sub, ctx, items[0]).value).Ok?
    ensures Infer(sub, ctx, Expression.List(items)).Ok? ==>
              Infer(sub, ctx, Expression.List(items)).value == Type.List(Infer(sub, ctx, items[0]).value)
  {
    assert Infer(sub, ctx, Expression.List(items)) == InferList(sub, ctx, Expression.List(items));
    if items != [] && Infer(sub, ctx, items[0]).Ok? {
      CheckEachOk(sub, ctx, items, Infer(sub, ctx, items[0]).value);
    }
  }

  /** A match: the result is the first arm's type, every later arm checks against
    * it, and only once every arm is typed is exhaustiveness checked. */
  lemma MatchTyping(sub: Subtyping, ctx: Context, scrutinee: Expression, cases: seq<MatchCase>)
    ensures Infer(sub, ctx, scrutinee).Ok? && cases == [] ==>
              Infer(sub, ctx, Expression.Match(scrutinee, cases)) == Fail(Error(EmptyMatch))
    ensures Infer(sub, ctx, Expression.Match(scrutinee, cases)).Ok? ==>
              Infer(sub, ctx, scrutinee).Ok? && cases != [] &&
              var mt := Infer(sub, ctx, scrutinee).value;
              var rt := Infer(sub, ctx, Expression.Match(scrutinee, cases)).value;
              InferArm(sub, ctx, cases[0], mt) == Ok(rt) &&
              (forall i :: 1 <= i < |cases| ==> CheckArm(sub, ctx, cases[i], mt, rt).Ok?) &&
              Exhaustive(CasePatterns(cases), mt)
    ensures Infer(sub, ctx, scrutinee).Ok? && cases != [] &&
            InferArms(sub, ctx, cases, Infer(sub, ctx, scrutinee).value).Fail? ==>
              Infer(sub, ctx, Expression.Match(scrutinee, cases)) ==
                InferArms(sub, ctx, cases, Infer(sub, ctx, scrutinee).value).PropagateFailure()
    ensures Infer(sub, ctx, scrutinee).Ok? && cases != [] &&
            InferArms(sub, ctx, cases, Infer(sub, ctx, scrutinee).value).Ok? &&
            !Exhaustive(CasePatterns(cases), Infer(sub, ctx, scrutinee).value) ==>
              Infer(sub, ctx, Expression.Match(scrutinee, cases)) == Fail(Error(NonexhaustiveMatch))
  {
    var m := Expression.Match(scrutinee, cases);
    assert Infer(sub, ctx, m) == InferMatch(sub, ctx, m);
    if Infer(sub, ctx, scrutinee).Ok? && cases != [] {
      InferArmsOk(sub, ctx, cases, Infer(sub, ctx, scrutinee).value);
    }
  }

  /** `fix e` needs a unary function whose domain and codomain `compare`, and has the codomain. */
  lemma FixTyping(sub: Subtyping, ctx: Context, a: Expression)
    ensures Infer(sub, ctx, a).Ok? && !Infer(sub, ctx, a).value.Function? ==>
              Infer(sub, ctx, Fix(a)) == Fail(Error(NotAFunction))
    ensures Infer(sub, ctx, a).Ok? && Infer(sub, ctx, a).value.Function? &&
            |Infer(sub, ctx, a).value.params| != 1 ==>
              Infer(sub, ctx, Fix(a)) == Fail(Error(IncorrectArgumentsNumber))
    ensures Infer(sub, ctx, Fix(a)).Ok? <==>
              Infer(sub, ctx, a).Ok? && Infer(sub, ctx, a).value.Function? &&
              |Infer(sub, ctx, a).value.params| == 1 &&
              Compare(sub, ctx, Infer(sub, ctx, a).value.params[0], Infer(sub, ctx, a).value.ret)
    ensures Infer(sub, ctx, Fix(a)).Ok? ==> Infer(sub, ctx, Fix(a)).value == Infer(sub, ctx, a).value.ret
    ensures !IsEnabled(ctx, Extensions.Subtyping) && Infer(sub, ctx, a).Ok? && Infer(sub, ctx, a).value.Function? &&
            |Infer(sub, ctx, a).value.params| == 1 &&
            Infer(sub, ctx, a).value.params[0] != Infer(sub, ctx, a).value.ret ==>
              Infer(sub, ctx, Fix(a)) == Fail(Error(UnexpectedType))
  {
    assert Infer(sub, ctx, Fix(a)) == InferFix(sub, ctx, Fix(a));
  }

  /** A bare memory address never has an inferred type. */
  lemma InferConstMemory(sub: Subtyping, ctx: Context, address: string)
    ensures Infer(sub, ctx, ConstMemory(address)) == Fail(Error(AmbiguousReference))
  {
  }

  // ---------------------------------------------------------------------------
  // CHECK

  /** Checking against Top is inference: it succeeds iff INFER does, and fails as INFER fails. */
  lemma CheckTop(sub: Subtyping, ctx: Context, e: Expression)
    ensures Check(sub, ctx, e, Type.Top).Ok? <==> Infer(sub, ctx, e).Ok?
    ensures Infer(sub, ctx, e).Fail? ==> Check(sub, ctx, e, Type.Top) == Infer(sub, ctx, e).PropagateFailure()
  {
  }

  /** A lambda: the expected type must be a function, then the parameter count
    * must agree, then each declared parameter type must `compare` with the expected one. */
  lemma LambdaChecking(sub: Subtyping, ctx: Context, params: seq<Param>, body: Expression, t: Type)
    requires t != Type.Top
    ensures !t.Function? ==> Check(sub, ctx, Abstraction(params, body), t) == Fail(Error(UnexpectedLambda))
    ensures t.Function? && |t.params| != |params| ==>
              Check(sub, ctx, Abstraction(params, body), t) == Fail(Error(UnexpectedParametersNumber))
    ensures t.Function? && |t.params| == |params| &&
            (exists i :: 0 <= i < |params| && !Compare(sub, ctx, t.params[i], params[i].ty)) ==>
              Check(sub, ctx, Abstraction(params, body), t) == Fail(Error(UnexpectedParameterType))
    ensures Check(sub, ctx, Abstraction(params, body), t).Ok? <==>
              t.Function? && |t.params| == |params| &&
              (forall i :: 0 <= i < |params| ==> Compare(sub, ctx, t.params[i], params[i].ty)) &&
              Check(sub, ExtendParams(ctx, params), body, t.ret).Ok?
  {
    assert Check(sub, ctx, Abstraction(params, body), t) == CheckAbstraction(sub, ctx, Abstraction(params, body), t);
  }

  /** A tuple against a tuple type of another length fails on the length. */
  lemma TupleChecking(sub: Subtyping, ctx: Context, items: seq<Expression>, t: Type)
    requires t != Type.Top
    ensures !t.Tuple? ==> Check(sub, ctx, Expression.Tuple(items), t) == Fail(Error(UnexpectedTuple))
    ensures t.Tuple? && |t.components| != |items| ==>
              Check(sub, ctx, Expression.Tuple(items), t) == Fail(Error(UnexpectedLength))
    ensures Check(sub, ctx, Expression.Tuple(items), t).Ok? <==>
              t.Tuple? && |t.components| == |items| &&
              forall i :: 0 <= i < |items| ==> Check(sub, ctx, items[i], t.components[i]).Ok?
  {
    assert Check(sub, ctx, Expression.Tuple(items), t) == CheckTuple(sub, ctx, Expression.Tuple(items), t);
    if t.Tuple? && |t.components| == |items| {
      CheckAllOk(sub, ctx, items, t.components);
    }
  }

  /** A record literal against a type other than Top (see `CheckTop`): a non-record type
    * is an error; a missing field
    * is reported even when there are extra fields too; extra fields are an error only
    * without subtyping; otherwise each field is checked by name. */
  lemma RecordChecking(sub: Subtyping, ctx: Context, fields: seq<FieldExpr>, t: Type)
    ensures !t.Record? && t != Type.Top ==> Check(sub, ctx, Expression.Record(fields), t) == Fail(Error(UnexpectedRecord))
    ensures t.Record? && (exists f :: f in FieldTypeNames(t.fields) && f !in FieldExprNames(fields)) ==>
              Check(sub, ctx, Expression.Record(fields), t) == Fail(Error(MissingFields))
    ensures t.Record? && (forall f :: f in FieldTypeNames(t.fields) ==> f in FieldExprNames(fields)) &&
            (exists f :: f in FieldExprNames(fields) && f !in FieldTypeNames(t.fields)) &&
            !IsEnabled(ctx, Extensions.Subtyping) ==>
              Check(sub, ctx, Expression.Record(fields), t) == Fail(Error(UnexpectedFields))
    ensures t.Record? && (forall f :: f in FieldTypeNames(t.fields) ==> f in FieldExprNames(fields)) &&
            ((forall f :: f in FieldExprNames(fields) ==> f in FieldTypeNames(t.fields)) ||
             IsEnabled(ctx, Extensions.Subtyping)) ==>
              Check(sub, ctx, Expression.Record(fields), t) ==
                if HasDuplicates(FieldTypeNames(t.fields)) then Fail(Trap)
                else CheckFields(sub, ctx, fields, t.fields)
  {
    if t.Record? {
      assert Check(sub, ctx, Expression.Record(fields), t) == CheckRecord(sub, ctx, Expression.Record(fields), t);
      var given := NameSet(FieldExprNames(fields));
      var expected := NameSet(FieldTypeNames(t.fields));
      if exists f :: f in FieldTypeNames(t.fields) && f !in FieldExprNames(fields) {
        var f :| f in FieldTypeNames(t.fields) && f !in FieldExprNames(fields);
        assert f in expected - given;
      }
      if exists f :: f in FieldExprNames(fields) && f !in FieldTypeNames(t.fields) {
        var f :| f in FieldExprNames(fields) && f !in FieldTypeNames(t.fields);
        assert f in given - expected;
      }
      if forall f :: f in FieldTypeNames(t.fields) ==> f in FieldExprNames(fields) {
        assert expected - given == {};
      }
      if forall f :: f in FieldExprNames(fields) ==> f in FieldTypeNames(t.fields) {
        assert given - expected == {};
      }
    } else if t != Type.Top {
      assert Check(sub, ctx, Expression.Record(fields), t) == CheckRecord(sub, ctx, Expression.Record(fields), t);
    }
  }

  /** With no field missing, and no extra field unless subtyping is on, a record literal
    * with distinct expected names checks iff each field checks against its type by name. */
  lemma RecordCheckingOk(sub: Subtyping, ctx: Context, fields: seq<FieldExpr>, t: Type)
    requires t.Record? && !HasDuplicates(FieldTypeNames(t.fields))
    requires forall f :: f in FieldTypeNames(t.fields) ==> f in FieldExprNames(fields)
    requires (forall f :: f in FieldExprNames(fields) ==> f in FieldTypeNames(t.fields)) ||
             IsEnabled(ctx, Extensions.Subtyping)
    ensures Check(sub, ctx, Expression.Record(fields), t).Ok? <==>
              forall i :: 0 <= i < |fields| ==> FieldChecks(sub, ctx, fields[i], t.fields)
  {
    RecordChecking(sub, ctx, fields, t);
    CheckFieldsOk(sub, ctx, fields, t.fields);
  }

  /** A variant literal against a variant type fails in three distinct ways. */
  lemma VariantChecking(sub: Subtyping, ctx: Context, tag: string, payload: Option<Expression>, t: Type)
    requires t.Variant?
    ensures tag !in TagNames(t.tags) ==>
              Check(sub, ctx, Expression.Variant(tag, payload), t) == Fail(Error(UnexpectedTag))
    ensures tag in TagNames(t.tags) ==>
              var found := FindTag(t.tags, tag).value;
              Check(sub, ctx, Expression.Variant(tag, payload), t) ==
                if found.payload.Some? && payload.None? then Fail(Error(MissingData))
                else if found.payload.None? && payload.Some? then Fail(Error(UnexpectedData))
                else if found.payload.None? then Ok(())
                else Check(sub, ctx, payload.value, found.payload.value)
  {
    assert Check(sub, ctx, Expression.Variant(tag, payload), t) == CheckVariant(sub, ctx, Expression.Variant(tag, payload), t);
  }

  /** The expressions CHECK hands to INFER. */
  predicate InferredForm(e: Expression)
  {
    e.Var? || e.ConstTrue? || e.ConstFalse? || e.ConstInt? || e.Application? || e.Succ? || e.Pred? ||
    e.IsZero? || e.ConstUnit? || e.DotTuple? || e.DotRecord? || e.TypeAscription? || e.Head? ||
    e.Tail? || e.IsEmpty? || e.Fix? || e.Assign? || e.TypeCast? || e.Binary?
  }

  /** CHECK hands these forms to inference followed by the comparison. */
  lemma CheckDefersToInference(sub: Subtyping, ctx: Context, e: Expression, t: Type)
    requires InferredForm(e) && t != Type.Top
    ensures Check(sub, ctx, e, t) == CheckByInference(sub, ctx, e, t)
  {
    assert Check(sub, ctx, e, t) == CheckRule(sub, ctx, e, t);
  }

  /** The fallback: without subtyping the inferred type must equal the expected
    * one, with subtyping it must be a subtype of it. */
  lemma FallbackChecking(sub: Subtyping, ctx: Context, e: Expression, t: Type)
    requires InferredForm(e) && t != Type.Top
    ensures Infer(sub, ctx, e).Fail? ==> Check(sub, ctx, e, t) == Infer(sub, ctx, e).PropagateFailure()
    ensures !IsEnabled(ctx, Extensions.Subtyping) ==>
              (Check(sub, ctx, e, t).Ok? <==> Infer(sub, ctx, e) == Ok(t))
    ensures !IsEnabled(ctx, Extensions.Subtyping) && Infer(sub, ctx, e).Ok? && Infer(sub, ctx, e).value != t ==>
              Check(sub, ctx, e, t) == Fail(Error(UnexpectedType))
    ensures IsEnabled(ctx, Extensions.Subtyping) ==>
              (Check(sub, ctx, e, t).Ok? <==> Infer(sub, ctx, e).Ok? && sub(Infer(sub, ctx, e).value, t))
    ensures IsEnabled(ctx, Extensions.Subtyping) && Infer(sub, ctx, e).Ok? && !sub(Infer(sub, ctx, e).value, t) ==>
              Check(sub, ctx, e, t) == Fail(Error(UnexpectedSubtype))
  {
    CheckDefersToInference(sub, ctx, e, t);
  }

  /** `compare` is plain equality while subtyping is off. */
  lemma CompareWithoutSubtyping(sub: Subtyping, ctx: Context, a: Type, b: Type)
    requires !IsEnabled(ctx, Extensions.Subtyping)
    ensures Compare(sub, ctx, a, b) <==> a == b
  {
  }

  /** Both continuations of `try cast as` are checked against the expected type. */
  lemma TryCastAsChecking(sub: Subtyping, ctx: Context, tryExpr: Expression, castType: Type, pattern: Pattern,
                       newExpr: Expression, recover: Expression, t: Type)
    requires t != Type.Top
    ensures Check(sub, ctx, TryCastAs(tryExpr, castType, pattern, newExpr, recover), t).Ok? <==>
              Infer(sub, ctx, tryExpr).Ok? && Bind(ctx, pattern, castType).Ok? &&
              Check(sub, Bind(ctx, pattern, castType).value, newExpr, t).Ok? &&
              Check(sub, ctx, recover, t).Ok?
  {
    var e := TryCastAs(tryExpr, castType, pattern, newExpr, recover);
    TryCastAsUnfolds(sub, ctx, e, t);
  }

  /** CHECK of `try cast as` at any type but Top is its own rule. */
  lemma TryCastAsUnfolds(sub: Subtyping, ctx: Context, e: Expression, t: Type)
    requires e.TryCastAs? && t != Type.Top
    ensures Check(sub, ctx, e, t) == CheckTryCastAs(sub, ctx, e, t)
  {
  }

  // ---------------------------------------------------------------------------
  // `tryCastAs` as written

  /** CHECK's `tryCastAs` branch as the source has it: the case binding `type`
    * shadows the expected type, so both continuations are checked against the
    * cast type and the expected type is never consulted. */
  function CheckTryCastAsWritten(sub: Subtyping, ctx: Context, e: Expression, t: Type): Result<()>
    requires e.TryCastAs?
  {
    if t == Type.Top then
      var _ :- Infer(sub, ctx, e);
      Ok(())
    else
      var _ :- Infer(sub, ctx, e.tryExpr);
      var c :- Bind(ctx, e.pattern, e.ty);
      var _ :- Check(sub, c, e.newExpr, e.ty);
      Check(sub, ctx, e.recover, e.ty)
  }

  /** A variable bound at Nat checks at Nat and not at Bool, when subtyping is off. */
  lemma NatVariableChecks(sub: Subtyping, c: Context, x: string)
    requires TypeOf(c, x) == Some(Type.Nat) && !IsEnabled(c, Extensions.Subtyping)
    ensures Check(sub, c, Expression.Var(x), Type.Nat) == Ok(())
    ensures Check(sub, c, Expression.Var(x), Type.Bool) == Fail(Error(UnexpectedType))
  {
    CheckDefersToInference(sub, c, Expression.Var(x), Type.Nat);
    CheckDefersToInference(sub, c, Expression.Var(x), Type.Bool);
  }

  /** As written, the branch accepts `try cast 0 as Nat { x => x } with { 0 }`
    * at type Bool, in any context without structural subtyping, although the
    * expression infers Nat; the corrected CHECK rejects it. */
  lemma TryCastAsIgnoresExpectedType(sub: Subtyping, ctx: Context, x: string)
    requires !IsEnabled(ctx, Extensions.Subtyping)
    ensures var e := TryCastAs(ConstInt(0), Type.Nat, Pattern.Var(x), Expression.Var(x), ConstInt(0));
            CheckTryCastAsWritten(sub, ctx, e, Type.Bool) == Ok(()) &&
            Infer(sub, ctx, e) == Ok(Type.Nat) &&
            Check(sub, ctx, e, Type.Bool) == Fail(Error(UnexpectedType))
  {
    var e := TryCastAs(ConstInt(0), Type.Nat, Pattern.Var(x), Expression.Var(x), ConstInt(0));
    BindVariable(ctx, x, Type.Nat, x);
    var c := Bind(ctx, Pattern.Var(x), Type.Nat).value;
    BindKeepsFlags(ctx, Pattern.Var(x), Type.Nat);
    NatVariableChecks(sub, c, x);
    assert Infer(sub, c, Expression.Var(x)) == Ok(Type.Nat);
    CheckDefersToInference(sub, ctx, ConstInt(0), Type.Nat);
    CastExampleInfers(sub, ctx, x, c);
    assert Infer(sub, ctx, ConstInt(0)) == Ok(Type.Nat);
    CastExampleRejected(sub, ctx, x, c);
  }

  /** The example infers Nat: the continuation `x` has the cast type. */
  lemma CastExampleInfers(sub: Subtyping, ctx: Context, x: string, c: Context)
    requires Bind(ctx, Pattern.Var(x), Type.Nat) == Ok(c)
    requires Infer(sub, c, Expression.Var(x)) == Ok(Type.Nat)
    requires Check(sub, ctx, ConstInt(0), Type.Nat) == Ok(())
    ensures Infer(sub, ctx, TryCastAs(ConstInt(0), Type.Nat, Pattern.Var(x), Expression.Var(x), ConstInt(0))) == Ok(Type.Nat)
  {
    var e := TryCastAs(ConstInt(0), Type.Nat, Pattern.Var(x), Expression.Var(x), ConstInt(0));
    assert Infer(sub, ctx, e) == InferTryCastAs(sub, ctx, e);
  }

  /** The corrected CHECK rejects the example at Bool: the continuation `x` is a Nat. */
  lemma CastExampleRejected(sub: Subtyping, ctx: Context, x: string, c: Context)
    requires Bind(ctx, Pattern.Var(x), Type.Nat) == Ok(c)
    requires Infer(sub, ctx, ConstInt(0)).Ok?
    requires Check(sub, c, Expression.Var(x), Type.Bool) == Fail(Error(UnexpectedType))
    ensures Check(sub, ctx, TryCastAs(ConstInt(0), Type.Nat, Pattern.Var(x), Expression.Var(x), ConstInt(0)), Type.Bool) ==
            Fail(Error(UnexpectedType))
  {
    var e := TryCastAs(ConstInt(0), Type.Nat, Pattern.Var(x), Expression.Var(x), ConstInt(0));
    assert Check(sub, ctx, e, Type.Bool) == CheckTryCastAs(sub, ctx, e, Type.Bool);
  }
}
