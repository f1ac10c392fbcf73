/** The bidirectional type checker: INFER `context |- expr` (Sources/Stellance/TypeInference.swift)
  * and CHECK `context |- expr <= type` (Sources/Stellance/TypeChecking.swift).
  *
  * The subtyping relation `~` is not defined in the modelled files, so both
  * judgments take it as a parameter `sub`; its properties are not modelled. */
module Typing {
  import opened Wrappers
  import opened Extensions
  import opened Syntax
  import opened Errors
  import opened Contexts
  import opened Patterns
  import opened Exhaustiveness

  /** The subtyping relation `~`: `sub(s, t)` reads "s is a subtype of t". */
  type Subtyping = (Type, Type) -> bool

  /** `compare(type1, type2, in: context)`: subtyping when the extension is on, equality otherwise. */
  predicate Compare(sub: Subtyping, ctx: Context, a: Type, b: Type)
  {
    if IsEnabled(ctx, Extensions.Subtyping) then sub(a, b) else a == b
  }

  /** Every lambda parameter's declared type is compatible with the expected one. */
  predicate ParamsCompatible(sub: Subtyping, ctx: Context, params: seq<Param>, expected: seq<Type>)
    requires |params| == |expected|
  {
    forall i :: 0 <= i < |params| ==> Compare(sub, ctx, expected[i], params[i].ty)
  }

  /** INFER: the type of `e` in `ctx`, or the first failure met. The forms
    * without premises are typed here, the others by their rule below. */
  function Infer(sub: Subtyping, ctx: Context, e: Expression): Result<Type>
    decreases e, 2
  {
    match e
    case Var(x) =>
      if TypeOf(ctx, x).Some? then Ok(TypeOf(ctx, x).value) else Fail(Error(UndefinedVariable))
    case ConstTrue | ConstFalse => Ok(Type.Bool)
    case ConstInt(_) => Ok(Type.Nat)
    case ConstUnit => Ok(Type.Unit)
    case ConstMemory(_) => Fail(Error(AmbiguousReference))
    case Panic =>
      if !IsEnabled(ctx, AsBottom) then Fail(Error(AmbiguousPanic)) else Ok(Type.Bottom)
    case _ => InferRule(sub, ctx, e)
  }

  /** The INFER rule for each form with premises; the remaining forms have none. */
  function InferRule(sub: Subtyping, ctx: Context, e: Expression): Result<Type>
    decreases e, 1
  {
    match e
    case If(_, _, _) => InferIf(sub, ctx, e)
    case Application(_, _) => InferApplication(sub, ctx, e)
    case Succ(_) => InferSucc(sub, ctx, e)
    case IsZero(_) => InferIsZero(sub, ctx, e)
    case NatRec(_, _, _) => InferNatRec(sub, ctx, e)
    case Abstraction(_, _) => InferAbstraction(sub, ctx, e)
    case Tuple(_) => InferTuple(sub, ctx, e)
    case DotTuple(_, _) => InferDotTuple(sub, ctx, e)
    case Record(_) => InferRecord(sub, ctx, e)
    case DotRecord(_, _) => InferDotRecord(sub, ctx, e)
    case Let(_, _) => InferLet(sub, ctx, e)
    case LetRec(_, _) => InferLetRec(sub, ctx, e)
    case TypeAscription(_, _) => InferAscription(sub, ctx, e)
    case Inl(_) => InferInl(sub, ctx, e)
    case Inr(_) => InferInr(sub, ctx, e)
    case Match(_, _) => InferMatch(sub, ctx, e)
    case List(_) => InferList(sub, ctx, e)
    case ConsList(_, _) => InferCons(sub, ctx, e)
    case Head(_) => InferHead(sub, ctx, e)
    case Tail(_) => InferTail(sub, ctx, e)
    case IsEmpty(_) => InferIsEmpty(sub, ctx, e)
    case Variant(_, _) => InferVariant(sub, ctx, e)
    case Fix(_) => InferFix(sub, ctx, e)
    case Sequence(_, _) => InferSequence(sub, ctx, e)
    case Ref(_) => InferRef(sub, ctx, e)
    case Deref(_) => InferDeref(sub, ctx, e)
    case Assign(_, _) => InferAssign(sub, ctx, e)
    case Throw(_) => InferThrow(sub, ctx, e)
    case TryWith(_, _) => InferTryWith(sub, ctx, e)
    case TryCatch(_, _, _) => InferTryCatch(sub, ctx, e)
    case TypeCast(_, _) => InferCast(sub, ctx, e)
    case TryCastAs(_, _, _, _, _) => InferTryCastAs(sub, ctx, e)
    case _ => Fail(Unsupported(ExpressionNode(e), Some("Inference not implemented"), None))
  }

  function InferIf(sub: Subtyping, ctx: Context, e: Expression): Result<Type>
    requires e.If?
    decreases e, 0
  {
    var _ :- Check(sub, ctx, e.cond, Type.Bool);
    var t :- Infer(sub, ctx, e.thenExpr);
    var _ :- Check(sub, ctx, e.elseExpr, t);
    Ok(t)
  }

  function InferApplication(sub: Subtyping, ctx: Context, e: Expression): Result<Type>
    requires e.Application?
    decreases e, 0
  {
    var ct :- Infer(sub, ctx, e.callee);
    if !ct.Function? then Fail(Error(NotAFunction))
    else if |e.args| != |ct.params| then Fail(Error(IncorrectArgumentsNumber))
    else
      var _ :- CheckAll(sub, ctx, e.args, ct.params);
      Ok(ct.ret)
  }

  function InferSucc(sub: Subtyping, ctx: Context, e: Expression): Result<Type>
    requires e.Succ?
    decreases e, 0
  {
    var _ :- Check(sub, ctx, e.arg, Type.Nat);
    Ok(Type.Nat)
  }

  function InferIsZero(sub: Subtyping, ctx: Context, e: Expression): Result<Type>
    requires e.IsZero?
    decreases e, 0
  {
    var _ :- Check(sub, ctx, e.arg, Type.Nat);
    Ok(Type.Bool)
  }

  function InferNatRec(sub: Subtyping, ctx: Context, e: Expression): Result<Type>
    requires e.NatRec?
    decreases e, 0
  {
    var _ :- Check(sub, ctx, e.count, Type.Nat);
    var t :- Infer(sub, ctx, e.initial);
    var _ :- Check(sub, ctx, e.step, Type.Function([Type.Nat], Type.Function([t], t)));
    Ok(t)
  }

  function InferAbstraction(sub: Subtyping, ctx: Context, e: Expression): Result<Type>
    requires e.Abstraction?
    decreases e, 0
  {
    var r :- Infer(sub, ExtendParams(ctx, e.params), e.body);
    Ok(Type.Function(ParamTypes(e.params), r))
  }

  function InferTuple(sub: Subtyping, ctx: Context, e: Expression): Result<Type>
    requires e.Tuple?
    decreases e, 0
  {
    var ts :- InferAll(sub, ctx, e.items);
    Ok(Type.Tuple(ts))
  }

  function InferDotTuple(sub: Subtyping, ctx: Context, e: Expression): Result<Type>
    requires e.DotTuple?
    decreases e, 0
  {
    var tt :- Infer(sub, ctx, e.tuple);
    if !tt.Tuple? then Fail(Error(NotATuple))
    else if !(1 <= e.index <= |tt.components|) then Fail(Error(UnexpectedIndex))
    else Ok(tt.components[e.index - 1])
  }

  function InferRecord(sub: Subtyping, ctx: Context, e: Expression): Result<Type>
    requires e.Record?
    decreases e, 0
  {
    var fts :- InferFields(sub, ctx, e.fields);
    Ok(Type.Record(fts))
  }

  function InferDotRecord(sub: Subtyping, ctx: Context, e: Expression): Result<Type>
    requires e.DotRecord?
    decreases e, 0
  {
    var rt :- Infer(sub, ctx, e.record);
    if !rt.Record? then Fail(Error(NotARecord))
    else if FindField(rt.fields, e.field).None? then Fail(Error(UnexpectedFieldAccess))
    else Ok(FindField(rt.fields, e.field).value.ty)
  }

  function InferLet(sub: Subtyping, ctx: Context, e: Expression): Result<Type>
    requires e.Let?
    decreases e, 0
  {
    var c :- LetBindings(sub, ctx, e.bindings);
    Infer(sub, c, e.body)
  }

  function InferLetRec(sub: Subtyping, ctx: Context, e: Expression): Result<Type>
    requires e.LetRec?
    decreases e, 0
  {
    var c :- LetRecBindings(sub, ctx, e.bindings);
    Infer(sub, c, e.body)
  }

  function InferAscription(sub: Subtyping, ctx: Context, e: Expression): Result<Type>
    requires e.TypeAscription?
    decreases e, 0
  {
    var _ :- Check(sub, ctx, e.arg, e.ty);
    Ok(e.ty)
  }

  function InferInl(sub: Subtyping, ctx: Context, e: Expression): Result<Type>
    requires e.Inl?
    decreases e, 0
  {
    var l :- Infer(sub, ctx, e.arg);
    if !IsEnabled(ctx, AsBottom) then Fail(Error(AmbiguosSum)) else Ok(Type.Sum(l, Type.Bottom))
  }

  function InferInr(sub: Subtyping, ctx: Context, e: Expression): Result<Type>
    requires e.Inr?
    decreases e, 0
  {
    var r :- Infer(sub, ctx, e.arg);
    if !IsEnabled(ctx, AsBottom) then Fail(Error(AmbiguosSum)) else Ok(Type.Sum(Type.Bottom, r))
  }

  function InferMatch(sub: Subtyping, ctx: Context, e: Expression): Result<Type>
    requires e.Match?
    decreases e, 0
  {
    var mt :- Infer(sub, ctx, e.scrutinee);
    if e.cases == [] then Fail(Error(EmptyMatch))
    else
      var rt :- InferArms(sub, ctx, e.cases, mt);
      if !Exhaustive(CasePatterns(e.cases), mt) then Fail(Error(NonexhaustiveMatch)) else Ok(rt)
  }

  function InferList(sub: Subtyping, ctx: Context, e: Expression): Result<Type>
    requires e.List?
    decreases e, 0
  {
    if e.items == [] then Fail(Error(AmbiguosList))
    else
      var t :- Infer(sub, ctx, e.items[0]);
      var _ :- CheckEach(sub, ctx, e.items, t);
      Ok(Type.List(t))
  }

  function InferCons(sub: Subtyping, ctx: Context, e: Expression): Result<Type>
    requires e.ConsList?
    decreases e, 0
  {
    var t :- Infer(sub, ctx, e.head);
    var _ :- Check(sub, ctx, e.tail, Type.List(t));
    Ok(Type.List(t))
  }

  function InferHead(sub: Subtyping, ctx: Context, e: Expression): Result<Type>
    requires e.Head?
    decreases e, 0
  {
    var t :- Infer(sub, ctx, e.arg);
    if !t.List? then Fail(Error(NotAList)) else Ok(t.elem)
  }

  function InferTail(sub: Subtyping, ctx: Context, e: Expression): Result<Type>
    requires e.Tail?
    decreases e, 0
  {
    var t :- Infer(sub, ctx, e.arg);
    if !t.List? then Fail(Error(NotAList)) else Ok(Type.List(t.elem))
  }

  function InferIsEmpty(sub: Subtyping, ctx: Context, e: Expression): Result<Type>
    requires e.IsEmpty?
    decreases e, 0
  {
    var t :- Infer(sub, ctx, e.arg);
    if !t.List? then Fail(Error(NotAList)) else Ok(Type.Bool)
  }

  function InferVariant(sub: Subtyping, ctx: Context, e: Expression): Result<Type>
    requires e.Variant?
    decreases e, 0
  {
    if e.payload.None? then
      if !IsEnabled(ctx, Extensions.Subtyping) then Fail(Error(AmbiguosVariant))
      else Ok(Type.Variant([TagType(e.tag, None)]))
    else
      var t :- Infer(sub, ctx, e.payload.value);
      if !IsEnabled(ctx, Extensions.Subtyping) then Fail(Error(AmbiguosVariant))
      else Ok(Type.Variant([TagType(e.tag, Some(t))]))
  }

  function InferFix(sub: Subtyping, ctx: Context, e: Expression): Result<Type>
    requires e.Fix?
    decreases e, 0
  {
    var ft :- Infer(sub, ctx, e.arg);
    if !ft.Function? then Fail(Error(NotAFunction))
    else if |ft.params| != 1 then Fail(Error(IncorrectArgumentsNumber))
    else if !Compare(sub, ctx, ft.params[0], ft.ret) then
      if IsEnabled(ctx, Extensions.Subtyping) then Fail(Error(UnexpectedSubtype))
      else Fail(Error(UnexpectedType))
    else Ok(ft.ret)
  }

  function InferSequence(sub: Subtyping, ctx: Context, e: Expression): Result<Type>
    requires e.Sequence?
    decreases e, 0
  {
    var _ :- Check(sub, ctx, e.first, Type.Unit);
    Infer(sub, ctx, e.second)
  }

  function InferRef(sub: Subtyping, ctx: Context, e: Expression): Result<Type>
    requires e.Ref?
    decreases e, 0
  {
    var t :- Infer(sub, ctx, e.arg);
    Ok(Type.Reference(t))
  }

  function InferDeref(sub: Subtyping, ctx: Context, e: Expression): Result<Type>
    requires e.Deref?
    decreases e, 0
  {
    var t :- Infer(sub, ctx, e.arg);
    if !t.Reference? then Fail(Error(NotAReference)) else Ok(t.target)
  }

  function InferAssign(sub: Subtyping, ctx: Context, e: Expression): Result<Type>
    requires e.Assign?
    decreases e, 0
  {
    var t :- Infer(sub, ctx, e.target);
    if !t.Reference? then Fail(Error(NotAReference))
    else
      var _ :- Check(sub, ctx, e.value, t.target);
      Ok(Type.Unit)
  }

  function InferThrow(sub: Subtyping, ctx: Context, e: Expression): Result<Type>
    requires e.Throw?
    decreases e, 0
  {
    if ExceptionType(ctx).None? then Fail(Error(ExceptionNotDeclared))
    else
      var _ :- Check(sub, ctx, e.arg, ExceptionType(ctx).value);
      if !IsEnabled(ctx, Extensions.Subtyping) then Fail(Error(AmbiguousThrow)) else Ok(Type.Bottom)
  }

  function InferTryWith(sub: Subtyping, ctx: Context, e: Expression): Result<Type>
    requires e.TryWith?
    decreases e, 0
  {
    var t :- Infer(sub, ctx, e.tryExpr);
    var _ :- Check(sub, ctx, e.recover, t);
    Ok(t)
  }

  function InferTryCatch(sub: Subtyping, ctx: Context, e: Expression): Result<Type>
    requires e.TryCatch?
    decreases e, 0
  {
    var t :- Infer(sub, ctx, e.tryExpr);
    if ExceptionType(ctx).None? then Fail(Error(ExceptionNotDeclared))
    else
      var c :- Bind(ctx, e.pattern, ExceptionType(ctx).value);
      var _ :- Check(sub, c, e.recover, t);
      Ok(t)
  }

  function InferCast(sub: Subtyping, ctx: Context, e: Expression): Result<Type>
    requires e.TypeCast?
    decreases e, 0
  {
    var _ :- Infer(sub, ctx, e.arg);
    Ok(e.ty)
  }

  function InferTryCastAs(sub: Subtyping, ctx: Context, e: Expression): Result<Type>
    requires e.TryCastAs?
    decreases e, 0
  {
    var _ :- Infer(sub, ctx, e.tryExpr);
    var c :- Bind(ctx, e.pattern, e.ty);
    var t :- Infer(sub, c, e.newExpr);
    var _ :- Check(sub, ctx, e.recover, t);
    Ok(t)
  }

  /** CHECK: `e` has type `t` in `ctx`, or the first failure met. Against Top
    * it only infers; otherwise the leaves are checked here and the other forms
    * by their rule below. */
  function Check(sub: Subtyping, ctx: Context, e: Expression, t: Type): Result<()>
    decreases e, 5
  {
    if t == Type.Top then
      var _ :- Infer(sub, ctx, e);
      Ok(())
    else
      match e
      case ConstMemory(_) =>
        if !t.Reference? then Fail(Error(UnexpectedAddress)) else Ok(())
      case Panic => Ok(())
      case _ => CheckRule(sub, ctx, e, t)
  }

  /** The CHECK rule for each form that has one; every other form is inferred and compared. */
  function CheckRule(sub: Subtyping, ctx: Context, e: Expression, t: Type): Result<()>
    decreases e, 4
  {
    match e
    case If(_, _, _) => CheckIf(sub, ctx, e, t)
    case NatRec(_, _, _) => CheckNatRec(sub, ctx, e, t)
    case Abstraction(_, _) => CheckAbstraction(sub, ctx, e, t)
    case Tuple(_) => CheckTuple(sub, ctx, e, t)
    case Record(_) => CheckRecord(sub, ctx, e, t)
    case Let(_, _) => CheckLet(sub, ctx, e, t)
    case LetRec(_, _) => CheckLetRec(sub, ctx, e, t)
    case Inl(_) => CheckInl(sub, ctx, e, t)
    case Inr(_) => CheckInr(sub, ctx, e, t)
    case Match(_, _) => CheckMatch(sub, ctx, e, t)
    case List(_) => CheckList(sub, ctx, e, t)
    case ConsList(_, _) => CheckCons(sub, ctx, e, t)
    case Variant(_, _) => CheckVariant(sub, ctx, e, t)
    case Sequence(_, _) => CheckSequence(sub, ctx, e, t)
    case Ref(_) => CheckRef(sub, ctx, e, t)
    case Deref(_) => CheckDeref(sub, ctx, e, t)
    case Throw(_) => CheckThrow(sub, ctx, e, t)
    case TryWith(_, _) => CheckTryWith(sub, ctx, e, t)
    case TryCatch(_, _, _) => CheckTryCatch(sub, ctx, e, t)
    case TryCastAs(_, _, _, _, _) => CheckTryCastAs(sub, ctx, e, t)
    case _ => CheckByInference(sub, ctx, e, t)
  }

  function CheckIf(sub: Subtyping, ctx: Context, e: Expression, t: Type): Result<()>
    requires e.If?
    decreases e, 3
  {
    var _ :- Check(sub, ctx, e.cond, Type.Bool);
    var _ :- Check(sub, ctx, e.thenExpr, t);
    Check(sub, ctx, e.elseExpr, t)
  }

  function CheckNatRec(sub: Subtyping, ctx: Context, e: Expression, t: Type): Result<()>
    requires e.NatRec?
    decreases e, 3
  {
    var _ :- Check(sub, ctx, e.count, Type.Nat);
    var _ :- Check(sub, ctx, e.initial, t);
    Check(sub, ctx, e.step, Type.Function([Type.Nat], Type.Function([t], t)))
  }

  function CheckAbstraction(sub: Subtyping, ctx: Context, e: Expression, t: Type): Result<()>
    requires e.Abstraction?
    decreases e, 3
  {
    if !t.Function? then Fail(Error(UnexpectedLambda))
    else if |t.params| != |e.params| then Fail(Error(UnexpectedParametersNumber))
    else if !ParamsCompatible(sub, ctx, e.params, t.params) then Fail(Error(UnexpectedParameterType))
    else Check(sub, ExtendParams(ctx, e.params), e.body, t.ret)
  }

  function CheckTuple(sub: Subtyping, ctx: Context, e: Expression, t: Type): Result<()>
    requires e.Tuple?
    decreases e, 3
  {
    if !t.Tuple? then Fail(Error(UnexpectedTuple))
    else if |t.components| != |e.items| then Fail(Error(UnexpectedLength))
    else CheckAll(sub, ctx, e.items, t.components)
  }

  function CheckRecord(sub: Subtyping, ctx: Context, e: Expression, t: Type): Result<()>
    requires e.Record?
    decreases e, 3
  {
    if !t.Record? then Fail(Error(UnexpectedRecord))
    else
      var given := NameSet(FieldExprNames(e.fields));
      var expected := NameSet(FieldTypeNames(t.fields));
      if expected - given != {} then Fail(Error(MissingFields))
      else if given - expected != {} && !IsEnabled(ctx, Extensions.Subtyping) then Fail(Error(UnexpectedFields))
      // `Dictionary(uniqueKeysWithValues: fieldTypes)` traps on a repeated field
      else if HasDuplicates(FieldTypeNames(t.fields)) then Fail(Trap)
      else CheckFields(sub, ctx, e.fields, t.fields)
  }

  function CheckLet(sub: Subtyping, ctx: Context, e: Expression, t: Type): Result<()>
    requires e.Let?
    decreases e, 3
  {
    var c :- LetBindings(sub, ctx, e.bindings);
    Check(sub, c, e.body, t)
  }

  function CheckLetRec(sub: Subtyping, ctx: Context, e: Expression, t: Type): Result<()>
    requires e.LetRec?
    decreases e, 3
  {
    var c :- LetRecBindings(sub, ctx, e.bindings);
    Check(sub, c, e.body, t)
  }

  function CheckInl(sub: Subtyping, ctx: Context, e: Expression, t: Type): Result<()>
    requires e.Inl?
    decreases e, 3
  {
    if !t.Sum? then Fail(Error(UnexpectedInjection)) else Check(sub, ctx, e.arg, t.left)
  }

  function CheckInr(sub: Subtyping, ctx: Context, e: Expression, t: Type): Result<()>
    requires e.Inr?
    decreases e, 3
  {
    if !t.Sum? then Fail(Error(UnexpectedInjection)) else Check(sub, ctx, e.arg, t.right)
  }

  function CheckMatch(sub: Subtyping, ctx: Context, e: Expression, t: Type): Result<()>
    requires e.Match?
    decreases e, 3
  {
    var mt :- Infer(sub, ctx, e.scrutinee);
    var _ :- CheckArms(sub, ctx, e.cases, mt, t);
    if !Exhaustive(CasePatterns(e.cases), mt) then Fail(Error(NonexhaustiveMatch)) else Ok(())
  }

  function CheckList(sub: Subtyping, ctx: Context, e: Expression, t: Type): Result<()>
    requires e.List?
    decreases e, 3
  {
    if !t.List? then Fail(Error(UnexpectedList)) else CheckEach(sub, ctx, e.items, t.elem)
  }

  function CheckCons(sub: Subtyping, ctx: Context, e: Expression, t: Type): Result<()>
    requires e.ConsList?
    decreases e, 3
  {
    if !t.List? then Fail(Error(UnexpectedList))
    else
      var _ :- Check(sub, ctx, e.head, t.elem);
      Check(sub, ctx, e.tail, Type.List(t.elem))
  }

  function CheckVariant(sub: Subtyping, ctx: Context, e: Expression, t: Type): Result<()>
    requires e.Variant?
    decreases e, 3
  {
    if !t.Variant? then Fail(Error(UnexpectedVariant))
    else if FindTag(t.tags, e.tag).None? then Fail(Error(UnexpectedTag))
    else
      var found := FindTag(t.tags, e.tag).value;
      if found.payload.Some? then
        if e.payload.None? then Fail(Error(MissingData))
        else Check(sub, ctx, e.payload.value, found.payload.value)
      else if e.payload.Some? then Fail(Error(UnexpectedData))
      else Ok(())
  }

  function CheckSequence(sub: Subtyping, ctx: Context, e: Expression, t: Type): Result<()>
    requires e.Sequence?
    decreases e, 3
  {
    var _ :- Check(sub, ctx, e.first, Type.Unit);
    Check(sub, ctx, e.second, t)
  }

  function CheckRef(sub: Subtyping, ctx: Context, e: Expression, t: Type): Result<()>
    requires e.Ref?
    decreases e, 3
  {
    if !t.Reference? then Fail(Error(UnexpectedReference)) else Check(sub, ctx, e.arg, t.target)
  }

  function CheckDeref(sub: Subtyping, ctx: Context, e: Expression, t: Type): Result<()>
    requires e.Deref?
    decreases e, 3
  {
    Check(sub, ctx, e.arg, Type.Reference(t))
  }

  function CheckThrow(sub: Subtyping, ctx: Context, e: Expression, t: Type): Result<()>
    requires e.Throw?
    decreases e, 3
  {
    if ExceptionType(ctx).None? then Fail(Error(ExceptionNotDeclared))
    else Check(sub, ctx, e.arg, ExceptionType(ctx).value)
  }

  function CheckTryWith(sub: Subtyping, ctx: Context, e: Expression, t: Type): Result<()>
    requires e.TryWith?
    decreases e, 3
  {
    var _ :- Check(sub, ctx, e.tryExpr, t);
    Check(sub, ctx, e.recover, t)
  }

  function CheckTryCatch(sub: Subtyping, ctx: Context, e: Expression, t: Type): Result<()>
    requires e.TryCatch?
    decreases e, 3
  {
    var _ :- Check(sub, ctx, e.tryExpr, t);
    if ExceptionType(ctx).None? then Fail(Error(ExceptionNotDeclared))
    else
      var c :- Bind(ctx, e.pattern, ExceptionType(ctx).value);
      Check(sub, c, e.recover, t)
  }

  /** The corrected `tryCastAs` rule: both continuations are checked against the
    * expected type `t`. This departs from TypeChecking.swift:206-209, whose case
    * binding shadows `t` with the cast type; that rule is `CheckTryCastAsWritten`
    * in the facts module. */
  function CheckTryCastAs(sub: Subtyping, ctx: Context, e: Expression, t: Type): Result<()>
    requires e.TryCastAs?
    decreases e, 3
  {
    var _ :- Infer(sub, ctx, e.tryExpr);
    var c :- Bind(ctx, e.pattern, e.ty);
    var _ :- Check(sub, c, e.newExpr, t);
    Check(sub, ctx, e.recover, t)
  }

  /** The fallback: infer, then compare the inferred type with the expected one. */
  function CheckByInference(sub: Subtyping, ctx: Context, e: Expression, t: Type): Result<()>
    decreases e, 3
  {
    var inferred :- Infer(sub, ctx, e);
    Subsumes(sub, ctx, inferred, t)
  }

  /** The inferred type `s` meets the expected `t`: equality without subtyping, `~` with it. */
  function Subsumes(sub: Subtyping, ctx: Context, s: Type, t: Type): Result<()>
  {
    if !IsEnabled(ctx, Extensions.Subtyping) then
      if s == t then Ok(()) else Fail(Error(UnexpectedType))
    else if sub(s, t) then Ok(())
    else Fail(Error(UnexpectedSubtype))
  }

  /** Each expression checks against the type at its position, left to right. */
  function CheckAll(sub: Subtyping, ctx: Context, es: seq<Expression>, ts: seq<Type>): Result<()>
    requires |es| == |ts|
    decreases es, 7
  {
    if es == [] then Ok(())
    else
      var _ :- Check(sub, ctx, es[0], ts[0]);
      CheckAll(sub, ctx, es[1..], ts[1..])
  }

  /** Each expression checks against the one type `t`, left to right. */
  function CheckEach(sub: Subtyping, ctx: Context, es: seq<Expression>, t: Type): Result<()>
    decreases es, 7
  {
    if es == [] then Ok(())
    else
      var _ :- Check(sub, ctx, es[0], t);
      CheckEach(sub, ctx, es[1..], t)
  }

  /** The inferred type of each expression, in order, or the first failure. */
  function InferAll(sub: Subtyping, ctx: Context, es: seq<Expression>): (r: Result<seq<Type>>)
    ensures r.Ok? ==> |r.value| == |es|
    decreases es, 7
  {
    if es == [] then Ok([])
    else
      var t :- Infer(sub, ctx, es[0]);
      var ts :- InferAll(sub, ctx, es[1..]);
      Ok([t] + ts)
  }

  /** The record type of a record literal: its names, in order, with their inferred types. */
  function InferFields(sub: Subtyping, ctx: Context, fields: seq<FieldExpr>): (r: Result<seq<FieldType>>)
    ensures r.Ok? ==> FieldTypeNames(r.value) == FieldExprNames(fields)
    ensures r.Ok? ==> |r.value| == |fields|
    ensures r.Ok? ==>
              forall i :: 0 <= i < |fields| ==>
                Infer(sub, ctx, fields[i].expr).Ok? &&
                r.value[i] == FieldType(fields[i].name, Infer(sub, ctx, fields[i].expr).value)
    decreases fields, 7
  {
    if fields == [] then Ok([])
    else
      var t :- Infer(sub, ctx, fields[0].expr);
      var fts :- InferFields(sub, ctx, fields[1..]);
      Ok([FieldType(fields[0].name, t)] + fts)
  }

  /** Each field of a record literal against its field's type, or inferred if the type lacks it. */
  function CheckFields(sub: Subtyping, ctx: Context, fields: seq<FieldExpr>, fts: seq<FieldType>): Result<()>
    decreases fields, 7
  {
    if fields == [] then Ok(())
    else
      var _ :-
        if FindField(fts, fields[0].name).Some? then
          Check(sub, ctx, fields[0].expr, FindField(fts, fields[0].name).value.ty)
        else
          var _ :- Infer(sub, ctx, fields[0].expr);
          Ok(());
      CheckFields(sub, ctx, fields[1..], fts)
  }

  /** `let`: each right-hand side is inferred in the context the earlier bindings built. */
  function LetBindings(sub: Subtyping, ctx: Context, bindings: seq<PatternBinding>): Result<Context>
    decreases bindings, 7
  {
    if bindings == [] then Ok(ctx)
    else
      var c :- LetBinding(sub, ctx, bindings[0]);
      LetBindings(sub, c, bindings[1..])
  }

  /** One `let` binding: the pattern bound at the right-hand side's inferred type. */
  function LetBinding(sub: Subtyping, ctx: Context, b: PatternBinding): Result<Context>
    decreases b, 6
  {
    var t :- Infer(sub, ctx, b.rhs);
    Bind(ctx, b.pattern, t)
  }

  /** `letrec`: each right-hand side is inferred with its own pattern's ascriptions in scope. */
  function LetRecBindings(sub: Subtyping, ctx: Context, bindings: seq<PatternBinding>): Result<Context>
    decreases bindings, 7
  {
    if bindings == [] then Ok(ctx)
    else
      var c :- LetRecBinding(sub, ctx, bindings[0]);
      LetRecBindings(sub, c, bindings[1..])
  }

  /** One `letrec` binding: the right-hand side is inferred with the ascribed pattern already bound,
    * and the pattern is then bound at that type in the outer context. */
  function LetRecBinding(sub: Subtyping, ctx: Context, b: PatternBinding): Result<Context>
    decreases b, 6
  {
    var enriched :- BindUntyped(ctx, b.pattern);
    var t :- Infer(sub, enriched, b.rhs);
    Bind(ctx, b.pattern, t)
  }

  /** INFER's arms: the first arm's body gives the result type, the later ones are checked against it. */
  function InferArms(sub: Subtyping, ctx: Context, cases: seq<MatchCase>, mt: Type): Result<Type>
    requires cases != []
    decreases cases, 7
  {
    var rt :- InferArm(sub, ctx, cases[0], mt);
    var _ :- CheckArms(sub, ctx, cases[1..], mt, rt);
    Ok(rt)
  }

  /** `context + pattern ~> matchingType |- body`. */
  function InferArm(sub: Subtyping, ctx: Context, arm: MatchCase, mt: Type): Result<Type>
    decreases arm, 6
  {
    var c :- Bind(ctx, arm.pattern, mt);
    Infer(sub, c, arm.body)
  }

  /** Every arm's body against `t`, its pattern bound at the scrutinee's type `mt`. */
  function CheckArms(sub: Subtyping, ctx: Context, cases: seq<MatchCase>, mt: Type, t: Type): Result<()>
    decreases cases, 7
  {
    if cases == [] then Ok(())
    else
      var _ :- CheckArm(sub, ctx, cases[0], mt, t);
      CheckArms(sub, ctx, cases[1..], mt, t)
  }

  /** `context + pattern ~> matchingType |- body <= t`. */
  function CheckArm(sub: Subtyping, ctx: Context, arm: MatchCase, mt: Type, t: Type): Result<()>
    decreases arm, 6
  {
    var c :- Bind(ctx, arm.pattern, mt);
    Check(sub, c, arm.body, t)
  }
}
