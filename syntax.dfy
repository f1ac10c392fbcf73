/** The abstract syntax of Stella programs that the checker consumes.
  * The parser package that defines these types in the original system is not
  * part of this model; the datatypes below cover every form the checker
  * inspects, plus `Binary` and the `CastAs` pattern, which stand for the forms
  * it leaves to its "not supported" branches. */
module Syntax {
  import opened Wrappers

  datatype Type =
    | Bool
    | Nat
    | Unit
    | Top
    | Bottom
    | Function(params: seq<Type>, ret: Type)
    | Tuple(components: seq<Type>)
    | Record(fields: seq<FieldType>)
    | Variant(tags: seq<TagType>)
    | Sum(left: Type, right: Type)
    | List(elem: Type)
    | Reference(target: Type)

  /** A record field of a record type. */
  datatype FieldType = FieldType(name: string, ty: Type)

  /** A tag of a variant type; `payload` is None for a nullary tag. */
  datatype TagType = TagType(name: string, payload: Option<Type>)

  datatype Pattern =
    | Var(name: string)
    | False
    | True
    | Unit
    | Int(n: int)
    | Succ(inner: Pattern)
    | Tuple(items: seq<Pattern>)
    | Record(fields: seq<FieldPattern>)
    | Inl(inner: Pattern)
    | Inr(inner: Pattern)
    | List(items: seq<Pattern>)
    | Cons(head: Pattern, tail: Pattern)
    | Variant(tag: string, payload: Option<Pattern>)
    | Ascription(inner: Pattern, ty: Type)
    | CastAs(inner: Pattern, ty: Type)

  datatype FieldPattern = FieldPattern(name: string, pattern: Pattern)

  /** A lambda or function parameter `name : ty`. */
  datatype Param = Param(name: string, ty: Type)

  /** One `pattern = rhs` binding of a `let` or `letrec`. */
  datatype PatternBinding = PatternBinding(pattern: Pattern, rhs: Expression)

  /** One `pattern => body` arm of a `match`. */
  datatype MatchCase = MatchCase(pattern: Pattern, body: Expression)

  /** One `name = expr` field of a record literal. */
  datatype FieldExpr = FieldExpr(name: string, expr: Expression)

  /** The arithmetic and logical operators of Stella, which this checker does not handle. */
  datatype BinaryOp = Add | Subtract | Multiply | Divide | Less | LessEqual | Greater | GreaterEqual
                    | Equal | NotEqual | LogicAnd | LogicOr

  datatype Expression =
    | Var(name: string)
    | ConstTrue
    | ConstFalse
    | If(cond: Expression, thenExpr: Expression, elseExpr: Expression)
    | ConstInt(n: int)
    | Application(callee: Expression, args: seq<Expression>)
    | Succ(arg: Expression)
    | Pred(arg: Expression)
    | IsZero(arg: Expression)
    | NatRec(count: Expression, initial: Expression, step: Expression)
    | Abstraction(params: seq<Param>, body: Expression)
    | ConstUnit
    | Tuple(items: seq<Expression>)
    | DotTuple(tuple: Expression, index: int)
    | Record(fields: seq<FieldExpr>)
    | DotRecord(record: Expression, field: string)
    | Let(bindings: seq<PatternBinding>, body: Expression)
    | LetRec(bindings: seq<PatternBinding>, body: Expression)
    | TypeAscription(arg: Expression, ty: Type)
    | Inl(arg: Expression)
    | Inr(arg: Expression)
    | Match(scrutinee: Expression, cases: seq<MatchCase>)
    | List(items: seq<Expression>)
    | ConsList(head: Expression, tail: Expression)
    | Head(arg: Expression)
    | Tail(arg: Expression)
    | IsEmpty(arg: Expression)
    | Variant(tag: string, payload: Option<Expression>)
    | Fix(arg: Expression)
    | Sequence(first: Expression, second: Expression)
    | Ref(arg: Expression)
    | Deref(arg: Expression)
    | Assign(target: Expression, value: Expression)
    | ConstMemory(address: string)
    | Panic
    | Throw(arg: Expression)
    | TryWith(tryExpr: Expression, recover: Expression)
    | TryCatch(tryExpr: Expression, pattern: Pattern, recover: Expression)
    | TypeCast(arg: Expression, ty: Type)
    | TryCastAs(tryExpr: Expression, ty: Type, pattern: Pattern, newExpr: Expression, recover: Expression)
    | Binary(op: BinaryOp, left: Expression, right: Expression)

  datatype Declaration =
    | FunctionDecl(annotations: seq<string>, name: string, params: seq<Param>, returnType: Option<Type>,
                   throwTypes: seq<Type>, body: seq<Declaration>, returnExpr: Expression)
    | GenericFunctionDecl(annotations: seq<string>, name: string, typeVars: seq<string>, params: seq<Param>,
                          returnType: Option<Type>, throwTypes: seq<Type>, body: seq<Declaration>,
                          returnExpr: Expression)
    | TypeAlias(alias: string, aliased: Type)
    | ExceptionTypeDecl(exceptionType: Type)
    | ExceptionVariantDecl(tag: string, payloadType: Type)

  /** A parsed program: the names of every `language` extension line, then the declarations. */
  datatype Program = Program(extensions: seq<seq<string>>, declarations: seq<Declaration>)

  /** Any syntax node, as carried by a legality failure. */
  datatype Syntax =
    | TypeNode(t: Type)
    | PatternNode(p: Pattern)
    | ExpressionNode(e: Expression)
    | DeclarationNode(d: Declaration)

  /** The declared types of the parameters, in order. */
  function ParamTypes(params: seq<Param>): (ts: seq<Type>)
    ensures |ts| == |params|
    ensures forall i :: 0 <= i < |params| ==> ts[i] == params[i].ty
  {
    if params == [] then [] else [params[0].ty] + ParamTypes(params[1..])
  }

  /** The field names of a record type, in order. */
  function FieldTypeNames(fields: seq<FieldType>): (names: seq<string>)
    ensures |names| == |fields|
    ensures forall i :: 0 <= i < |fields| ==> names[i] == fields[i].name
  {
    if fields == [] then [] else [fields[0].name] + FieldTypeNames(fields[1..])
  }

  /** The tag names of a variant type, in order. */
  function TagNames(tags: seq<TagType>): (names: seq<string>)
    ensures |names| == |tags|
    ensures forall i :: 0 <= i < |tags| ==> names[i] == tags[i].name
  {
    if tags == [] then [] else [tags[0].name] + TagNames(tags[1..])
  }

  /** The field names of a record pattern, in order. */
  function FieldPatternNames(fields: seq<FieldPattern>): (names: seq<string>)
    ensures |names| == |fields|
    ensures forall i :: 0 <= i < |fields| ==> names[i] == fields[i].name
  {
    if fields == [] then [] else [fields[0].name] + FieldPatternNames(fields[1..])
  }

  /** The field names of a record literal, in order. */
  function FieldExprNames(fields: seq<FieldExpr>): (names: seq<string>)
    ensures |names| == |fields|
    ensures forall i :: 0 <= i < |fields| ==> names[i] == fields[i].name
  {
    if fields == [] then [] else [fields[0].name] + FieldExprNames(fields[1..])
  }

  /** The patterns of the arms of a match, in order. */
  function CasePatterns(cases: seq<MatchCase>): (ps: seq<Pattern>)
    ensures |ps| == |cases|
    ensures forall i :: 0 <= i < |cases| ==> ps[i] == cases[i].pattern
  {
    if cases == [] then [] else [cases[0].pattern] + CasePatterns(cases[1..])
  }

  /** `allDuplicates` is non-empty: some name occurs more than once. */
  predicate HasDuplicates(names: seq<string>)
  {
    exists i, j :: 0 <= i < j < |names| && names[i] == names[j]
  }

  /** No field before position `i` has the name of the field at `i`. */
  predicate FirstFieldName(fields: seq<FieldType>, i: int)
    requires 0 <= i < |fields|
  {
    forall j :: 0 <= j < i ==> fields[j].name != fields[i].name
  }

  /** No tag before position `i` has the name of the tag at `i`. */
  predicate FirstTagName(tags: seq<TagType>, i: int)
    requires 0 <= i < |tags|
  {
    forall j :: 0 <= j < i ==> tags[j].name != tags[i].name
  }

  /** The first field of a record type with the given name, if any. */
  function FindField(fields: seq<FieldType>, name: string): (r: Option<FieldType>)
    ensures r.Some? <==> name in FieldTypeNames(fields)
    ensures r.Some? ==> r.value in fields && r.value.name == name
    ensures forall i :: 0 <= i < |fields| && fields[i].name == name && FirstFieldName(fields, i) ==> r == Some(fields[i])
  {
    if fields == [] then None
    else if fields[0].name == name then Some(fields[0])
    else
      FindField(fields[1..], name)
  }

  /** The first tag of a variant type with the given name, if any. */
  function FindTag(tags: seq<TagType>, name: string): (r: Option<TagType>)
    ensures r.Some? <==> name in TagNames(tags)
    ensures r.Some? ==> r.value in tags && r.value.name == name
    ensures forall i :: 0 <= i < |tags| && tags[i].name == name && FirstTagName(tags, i) ==> r == Some(tags[i])
  {
    if tags == [] then None
    else if tags[0].name == name then Some(tags[0])
    else FindTag(tags[1..], name)
  }
}
