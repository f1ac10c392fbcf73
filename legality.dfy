/** The legality checker (Sources/Stellance/SyntaxCheck/): before any typing,
  * every construct of the program must be licensed by at least one enabled
  * extension, record fields and variant tags must not repeat, a `match` must
  * have arms, and only plain function declarations are accepted. All four
  * judgments read only the global table's enabled extensions. */
module Legality {
  import opened Wrappers
  import opened Extensions
  import opened Syntax
  import opened Errors
  import opened Contexts
  import opened Utils

  /** `betterEnable(ext, or: others…, for: node, in: g)`: some of the named
    * extensions is enabled, and otherwise the first one is suggested. */
  function BetterEnable(g: GlobalContext, ext: KnownExtension, others: seq<KnownExtension>, node: Syntax): (r: Result<()>)
    ensures r.Ok? <==> GlobalIsEnabled(g, ext) || exists i :: 0 <= i < |others| && GlobalIsEnabled(g, others[i])
    ensures r.Fail? ==> r.failure == Unsupported(node, None, Some(ext))
  {
    AnyIffExists(others, (o: KnownExtension) => GlobalIsEnabled(g, o));
    if GlobalIsEnabled(g, ext) || Any(others, (o: KnownExtension) => GlobalIsEnabled(g, o)) then Ok(())
    else Fail(Unsupported(node, None, Some(ext)))
  }

  // ---------------------------------------------------------------------------
  // Types (CheckType.swift)

  /** `check(_ type: Type, in:)`. */
  function CheckType(g: GlobalContext, t: Type): Result<()>
  {
    match t
    case Bool | Nat => Ok(())
    case Function(args, ret) =>
      if args == [] && !GlobalIsEnabled(g, NullFunctions) then
        Fail(Unsupported(TypeNode(t), Some("Zero argument function type"), Some(NullFunctions)))
      else if |args| > 1 && !GlobalIsEnabled(g, MultiFunctions) then
        Fail(Unsupported(TypeNode(t), Some("Multi argument function type"), Some(MultiFunctions)))
      else
        var _ :- CheckTypes(g, args);
        CheckType(g, ret)
    case Unit => BetterEnable(g, UnitType, [], TypeNode(t))
    case Tuple(ts) =>
      var _ :- if |ts| == 2 then BetterEnable(g, Pairs, [Tuples], TypeNode(t))
               else BetterEnable(g, Tuples, [], TypeNode(t));
      CheckTypes(g, ts)
    case Record(fields) =>
      var _ :- BetterEnable(g, Records, [], TypeNode(t));
      if HasDuplicates(FieldTypeNames(fields)) then Fail(Error(DuplicateTypeFields))
      else CheckFieldTypes(g, fields)
    case Sum(l, r) =>
      var _ :- BetterEnable(g, SumTypes, [], TypeNode(t));
      var _ :- CheckType(g, l);
      CheckType(g, r)
    case List(elem) =>
      var _ :- BetterEnable(g, Lists, [], TypeNode(t));
      CheckType(g, elem)
    case Variant(tags) =>
      var _ :- BetterEnable(g, Variants, [], TypeNode(t));
      if HasDuplicates(TagNames(tags)) then Fail(Error(DuplicateTypeTags))
      else
        var _ :- if Any(tags, (tag: TagType) => tag.payload.None?) then BetterEnable(g, NullVariants, [], TypeNode(t))
                 else Ok(());
        CheckTagPayloads(g, tags)
    case _ => Fail(Unsupported(TypeNode(t), None, None))
  }

  /** Every type of a list, left to right, stopping at the first failure. */
  function CheckTypes(g: GlobalContext, ts: seq<Type>): Result<()>
  {
    if ts == [] then Ok(())
    else
      var _ :- CheckType(g, ts[0]);
      CheckTypes(g, ts[1..])
  }

  /** The field types of a record type, left to right. */
  function CheckFieldTypes(g: GlobalContext, fields: seq<FieldType>): Result<()>
  {
    if fields == [] then Ok(())
    else
      var _ :- CheckType(g, fields[0].ty);
      CheckFieldTypes(g, fields[1..])
  }

  /** The payload types of a variant type, left to right, nullary tags skipped. */
  function CheckTagPayloads(g: GlobalContext, tags: seq<TagType>): Result<()>
  {
    if tags == [] then Ok(())
    else
      var _ :- if tags[0].payload.Some? then CheckType(g, tags[0].payload.value) else Ok(());
      CheckTagPayloads(g, tags[1..])
  }

  // ---------------------------------------------------------------------------
  // Patterns (CheckPattern.swift)

  /** `Pattern.isVariable`. */
  predicate IsVariable(p: Pattern)
  {
    match p
    case Var(_) => true
    case _ => false
  }

  /** `check(_ pattern: Pattern, in:)`. */
  function CheckPattern(g: GlobalContext, p: Pattern): Result<()>
  {
    match p
    case Var(_) => Ok(())
    case False | True | Unit | Int(_) => BetterEnable(g, StructuralPatterns, [], PatternNode(p))
    case Succ(q) =>
      var _ :- BetterEnable(g, StructuralPatterns, [], PatternNode(p));
      CheckPattern(g, q)
    case Tuple(ps) =>
      var _ :- BetterEnable(g, StructuralPatterns, [], PatternNode(p));
      CheckPatterns(g, ps)
    case Record(fields) =>
      var _ :- BetterEnable(g, StructuralPatterns, [], PatternNode(p));
      if HasDuplicates(FieldPatternNames(fields)) then Fail(Error(DuplicatePatternFields))
      else CheckFieldPatterns(g, fields)
    case Inl(q) =>
      var _ :- BetterEnable(g, SumTypes, [], PatternNode(p));
      CheckPattern(g, q)
    case Inr(q) =>
      var _ :- BetterEnable(g, SumTypes, [], PatternNode(p));
      CheckPattern(g, q)
    case List(ps) =>
      var _ :- BetterEnable(g, StructuralPatterns, [], PatternNode(p));
      CheckPatterns(g, ps)
    case Cons(h, tl) =>
      var _ :- BetterEnable(g, StructuralPatterns, [], PatternNode(p));
      var _ :- CheckPattern(g, h);
      CheckPattern(g, tl)
    case Variant(_, payload) =>
      if payload.None? then BetterEnable(g, NullVariants, [], PatternNode(p))
      else
        var _ :- BetterEnable(g, Variants, [], PatternNode(p));
        CheckPattern(g, payload.value)
    case Ascription(q, ty) =>
      var _ :- BetterEnable(g, PatternAscriptions, [], PatternNode(p));
      var _ :- CheckType(g, ty);
      CheckPattern(g, q)
    case CastAs(_, _) => Fail(Unsupported(PatternNode(p), None, None))
  }

  function CheckPatterns(g: GlobalContext, ps: seq<Pattern>): Result<()>
  {
    if ps == [] then Ok(())
    else
      var _ :- CheckPattern(g, ps[0]);
      CheckPatterns(g, ps[1..])
  }

  function CheckFieldPatterns(g: GlobalContext, fields: seq<FieldPattern>): Result<()>
  {
    if fields == [] then Ok(())
    else
      var _ :- CheckPattern(g, fields[0].pattern);
      CheckFieldPatterns(g, fields[1..])
  }

  // ---------------------------------------------------------------------------
  // Expressions (CheckExpression.swift)

  /** The decimal digits of `n`, as Swift's string interpolation writes an `Int`. */
  function Decimal(n: int): string
  {
    if n < 0 then "-" + Digits(-n) else Digits(n)
  }

  function Digits(n: nat): string
  {
    if n < 10 then ["0123456789"[n]] else Digits(n / 10) + ["0123456789"[n % 10]]
  }

  /** The failure of every form the legality checker has no case for. */
  function NotSupportedYet(e: Expression): Result<()>
  {
    Fail(Unsupported(ExpressionNode(e), Some("Not supported yet"), None))
  }

  /** `check(_ expr: Expression, in:)`. */
  function CheckExpression(g: GlobalContext, e: Expression): Result<()>
    decreases e, 1
  {
    match e
    case Var(_) | ConstTrue | ConstFalse => Ok(())
    case If(c, a, b) =>
      var _ :- CheckExpression(g, c);
      var _ :- CheckExpression(g, a);
      CheckExpression(g, b)
    case ConstInt(n) =>
      if n >= 1 then BetterEnable(g, NatLiterals, [], ExpressionNode(e))
      else if n == 0 then Ok(())
      else NotSupportedYet(e)
    case Application(callee, args) =>
      var _ :- CheckExpression(g, callee);
      CheckExpressions(g, args)
    case Succ(a) => CheckExpression(g, a)
    case IsZero(a) => CheckExpression(g, a)
    case NatRec(n, i, s) =>
      var _ :- CheckExpression(g, n);
      var _ :- CheckExpression(g, i);
      CheckExpression(g, s)
    case Abstraction(params, body) =>
      if params == [] && !GlobalIsEnabled(g, NullFunctions) then
        Fail(Unsupported(ExpressionNode(e), Some("Zero argument lambdas"), Some(NullFunctions)))
      else if |params| > 1 && !GlobalIsEnabled(g, MultiFunctions) then
        Fail(Unsupported(ExpressionNode(e), Some("Multi argument lambdas"), Some(MultiFunctions)))
      else
        var _ :- CheckTypes(g, ParamTypes(params));
        CheckExpression(g, body)
    case ConstUnit => BetterEnable(g, UnitType, [], ExpressionNode(e))
    case Tuple(items) =>
      var _ :- if |items| == 2 then BetterEnable(g, Pairs, [Tuples], ExpressionNode(e))
               else BetterEnable(g, Tuples, [], ExpressionNode(e));
      CheckExpressions(g, items)
    case DotTuple(t, index) =>
      if 1 <= index <= 2 then
        var _ :- BetterEnable(g, Pairs, [Tuples], ExpressionNode(e));
        CheckExpression(g, t)
      else if index >= 2 then
        var _ :- BetterEnable(g, Tuples, [], ExpressionNode(e));
        CheckExpression(g, t)
      else Fail(Unsupported(ExpressionNode(e), Some("Bad tuple index: " + Decimal(index)), None))
    case Record(fields) =>
      var _ :- BetterEnable(g, Records, [], ExpressionNode(e));
      if HasDuplicates(FieldExprNames(fields)) then Fail(Error(DuplicateFields))
      else CheckFieldExprs(g, fields)
    case DotRecord(r, _) =>
      var _ :- BetterEnable(g, Records, [], ExpressionNode(e));
      CheckExpression(g, r)
    case Let(bindings, body) =>
      if |bindings| != 1 then NotSupportedYet(e)
      else
        var _ :- BetterEnable(g, LetBindings, [], ExpressionNode(e));
        var _ :- CheckSingleBinding(g, e, bindings[0]);
        CheckExpression(g, body)
    case LetRec(bindings, body) =>
      if |bindings| != 1 then NotSupportedYet(e)
      else
        var _ :- BetterEnable(g, Letrec, [], ExpressionNode(e));
        var _ :- CheckSingleBinding(g, e, bindings[0]);
        CheckExpression(g, body)
    case TypeAscription(a, ty) =>
      var _ :- BetterEnable(g, TypeAscriptions, [], ExpressionNode(e));
      var _ :- CheckExpression(g, a);
      CheckType(g, ty)
    case Inl(a) =>
      var _ :- BetterEnable(g, SumTypes, [], ExpressionNode(e));
      CheckExpression(g, a)
    case Inr(a) =>
      var _ :- BetterEnable(g, SumTypes, [], ExpressionNode(e));
      CheckExpression(g, a)
    case Match(scrutinee, cases) =>
      if cases == [] then Fail(Error(EmptyMatch))
      else
        var _ :- CheckExpression(g, scrutinee);
        var _ :- CheckPatterns(g, CasePatterns(cases));
        CheckCaseBodies(g, cases)
    case List(items) =>
      var _ :- BetterEnable(g, Lists, [], ExpressionNode(e));
      CheckExpressions(g, items)
    case ConsList(h, tl) =>
      var _ :- BetterEnable(g, Lists, [], ExpressionNode(e));
      var _ :- CheckExpression(g, h);
      CheckExpression(g, tl)
    case Head(a) =>
      var _ :- BetterEnable(g, Lists, [], ExpressionNode(e));
      CheckExpression(g, a)
    case Tail(a) =>
      var _ :- BetterEnable(g, Lists, [], ExpressionNode(e));
      CheckExpression(g, a)
    case IsEmpty(a) =>
      var _ :- BetterEnable(g, Lists, [], ExpressionNode(e));
      CheckExpression(g, a)
    case Variant(_, payload) =>
      if payload.None? then BetterEnable(g, NullVariants, [], ExpressionNode(e))
      else
        var _ :- BetterEnable(g, Variants, [], ExpressionNode(e));
        CheckExpression(g, payload.value)
    case Fix(a) =>
      var _ :- BetterEnable(g, Fixpoint, [], ExpressionNode(e));
      CheckExpression(g, a)
    case _ => NotSupportedYet(e)
  }

  /** The one binding of a `let` or `letrec` (`e`): a pattern other than a
    * variable needs let-patterns; then its pattern, then its right-hand side. */
  function CheckSingleBinding(g: GlobalContext, e: Expression, b: PatternBinding): Result<()>
    decreases b, 2
  {
    var _ :- if !IsVariable(b.pattern) then BetterEnable(g, LetPatterns, [], ExpressionNode(e)) else Ok(());
    var _ :- CheckPattern(g, b.pattern);
    CheckExpression(g, b.rhs)
  }

  function CheckExpressions(g: GlobalContext, es: seq<Expression>): Result<()>
    decreases es, 3
  {
    if es == [] then Ok(())
    else
      var _ :- CheckExpression(g, es[0]);
      CheckExpressions(g, es[1..])
  }

  function CheckFieldExprs(g: GlobalContext, fields: seq<FieldExpr>): Result<()>
    decreases fields, 3
  {
    if fields == [] then Ok(())
    else
      var _ :- CheckFieldExpr(g, fields[0]);
      CheckFieldExprs(g, fields[1..])
  }

  function CheckFieldExpr(g: GlobalContext, f: FieldExpr): Result<()>
    decreases f, 2
  {
    CheckExpression(g, f.expr)
  }

  /** The bodies of the arms of a match, left to right. */
  function CheckCaseBodies(g: GlobalContext, cases: seq<MatchCase>): Result<()>
    decreases cases, 3
  {
    if cases == [] then Ok(())
    else
      var _ :- CheckCaseBody(g, cases[0]);
      CheckCaseBodies(g, cases[1..])
  }

  function CheckCaseBody(g: GlobalContext, arm: MatchCase): Result<()>
    decreases arm, 2
  {
    CheckExpression(g, arm.body)
  }

  // ---------------------------------------------------------------------------
  // Declarations (SyntaxCheck.swift)

  /** Which parameter-count guard a declaration check applies. `AsWritten` is
    * SyntaxCheck.swift's: exactly one parameter, or multiparameter-functions.
    * `AtMostOne` is the guard the type and lambda checks use: at most one
    * parameter, or multiparameter-functions. */
  datatype ArityRule = AsWritten | AtMostOne

  predicate ArityAllowed(g: GlobalContext, rule: ArityRule, n: nat)
  {
    match rule
    case AsWritten => n == 1 || GlobalIsEnabled(g, MultiFunctions)
    case AtMostOne => n <= 1 || GlobalIsEnabled(g, MultiFunctions)
  }

  /** `check(_ decl: Declaration, in:)`, under the given parameter-count guard;
    * the source's check is `CheckDeclaration(g, AsWritten, d)`. */
  function CheckDeclaration(g: GlobalContext, rule: ArityRule, d: Declaration): Result<()>
  {
    match d
    case FunctionDecl(annotations, _, params, returnType, throwTypes, body, returnExpr) =>
      if annotations != [] then
        Fail(Unsupported(DeclarationNode(d), Some("Function with annotations"), None))
      else if throwTypes != [] then
        Fail(Unsupported(DeclarationNode(d), Some("Function with throw types"), None))
      else if returnType.None? then
        Fail(Unsupported(DeclarationNode(d), Some("Function with no return type"), None))
      else if params == [] && !GlobalIsEnabled(g, NullFunctions) then
        Fail(Unsupported(DeclarationNode(d), Some("Functions with no parameters"), Some(NullFunctions)))
      else if !ArityAllowed(g, rule, |params|) then
        Fail(Unsupported(DeclarationNode(d), Some("Functions with multiple parameters"), Some(MultiFunctions)))
      else if body != [] && !GlobalIsEnabled(g, NestedDeclarations) then
        Fail(Unsupported(DeclarationNode(d), Some("Function with statements"), Some(NestedDeclarations)))
      else
        // the throw types, checked next in the source, are empty by the guard above
        var _ :- CheckTypes(g, ParamTypes(params));
        var _ :- CheckType(g, returnType.value);
        var _ :- CheckDeclarations(g, rule, body);
        CheckExpression(g, returnExpr)
    case GenericFunctionDecl(_, _, _, _, _, _, _, _) =>
      Fail(Unsupported(DeclarationNode(d), Some("Generic functions"), None))
    case _ => Fail(Unsupported(DeclarationNode(d), None, None))
  }

  /** Every declaration, in order, stopping at the first failure. */
  function CheckDeclarations(g: GlobalContext, rule: ArityRule, ds: seq<Declaration>): Result<()>
  {
    if ds == [] then Ok(())
    else
      var _ :- CheckDeclaration(g, rule, ds[0]);
      CheckDeclarations(g, rule, ds[1..])
  }
}
