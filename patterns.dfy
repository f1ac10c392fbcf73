/** Pattern binding (Sources/Stellance/PatternMatching.swift): destructuring a
  * pattern against a type to extend a context (`context + (pattern ~> type)`),
  * and the untyped variant used by `letrec` (`context + pattern`). */
module Patterns {
  import opened Wrappers
  import opened Syntax
  import opened Errors
  import opened Contexts

  /** The names of a list, as a set (`Set(...)`). */
  function NameSet(names: seq<string>): (s: set<string>)
    ensures forall n :: n in s <==> n in names
  {
    set n | n in names
  }

  /** Typed binding: the context after matching pattern `p` against a value of type `t`. */
  function Bind(ctx: Context, p: Pattern, t: Type): Result<Context>
    decreases p
  {
    match p
    case Var(x) => Ok(Extend(ctx, x, t))
    case False | True | Unit | Int(_) => Ok(ctx)
    case Succ(inner) =>
      if t == Type.Nat then Bind(ctx, inner, Type.Nat) else Fail(Error(UnexpectedPattern))
    case Tuple(ps) =>
      if t.Tuple? && |t.components| == |ps| then BindEach(ctx, ps, t.components)
      else Fail(Error(UnexpectedPattern))
    case Record(fps) =>
      if t.Record? && NameSet(FieldPatternNames(fps)) == NameSet(FieldTypeNames(t.fields)) then
        // `Dictionary(uniqueKeysWithValues: fieldTypes)` traps on a repeated field
        if HasDuplicates(FieldTypeNames(t.fields)) then Fail(Trap)
        else BindFields(ctx, fps, t.fields)
      else Fail(Error(UnexpectedPattern))
    case Inl(inner) =>
      if t.Sum? then Bind(ctx, inner, t.left) else Fail(Error(UnexpectedPattern))
    case Inr(inner) =>
      if t.Sum? then Bind(ctx, inner, t.right) else Fail(Error(UnexpectedPattern))
    case List(ps) =>
      if t.List? then BindAllAt(ctx, ps, t.elem) else Fail(Error(UnexpectedPattern))
    case Cons(head, tail) =>
      if t.List? then
        var c :- Bind(ctx, head, t.elem);
        Bind(c, tail, Type.List(t.elem))
      else Fail(Error(UnexpectedPattern))
    case Variant(tag, sub) =>
      if !t.Variant? then Fail(Error(UnexpectedPattern))
      else
        match FindTag(t.tags, tag) {
          case None => Fail(Error(UnexpectedPattern))
          case Some(found) =>
            if found.payload.Some? then
              if sub.None? then Fail(Error(UnexpectedNullVariantPattern))
              else Bind(ctx, sub.value, found.payload.value)
            else if sub.Some? then Fail(Error(UnexpectedNonNullVariantPattern))
            else Ok(ctx)
        }
    case Ascription(inner, asType) =>
      if asType == t then Bind(ctx, inner, asType) else Fail(Error(UnexpectedPattern))
    case CastAs(_, _) => Fail(Unsupported(PatternNode(p), Some("Not implemented"), None))
  }

  /** Each pattern bound at the type at its position, left to right, each in the context the earlier ones built. */
  function BindEach(ctx: Context, ps: seq<Pattern>, ts: seq<Type>): Result<Context>
    requires |ps| == |ts|
    decreases ps
  {
    if ps == [] then Ok(ctx)
    else
      var c :- Bind(ctx, ps[0], ts[0]);
      BindEach(c, ps[1..], ts[1..])
  }

  /** Each pattern bound at the one type `of`, left to right, each in the context the earlier ones built. */
  function BindAllAt(ctx: Context, ps: seq<Pattern>, t: Type): Result<Context>
    decreases ps
  {
    if ps == [] then Ok(ctx)
    else
      var c :- Bind(ctx, ps[0], t);
      BindAllAt(c, ps[1..], t)
  }

  /** Each field pattern at the type its field has in the record type, in pattern order. */
  function BindFields(ctx: Context, fps: seq<FieldPattern>, fields: seq<FieldType>): Result<Context>
    requires forall i :: 0 <= i < |fps| ==> fps[i].name in FieldTypeNames(fields)
    decreases fps
  {
    if fps == [] then Ok(ctx)
    else
      var c :- Bind(ctx, fps[0].pattern, FindField(fields, fps[0].name).value.ty);
      BindFields(c, fps[1..], fields)
  }

  /** `context + pattern`: binding without a type, only under ascriptions. */
  function BindUntyped(ctx: Context, p: Pattern): Result<Context>
    decreases p
  {
    match p
    case Succ(inner) => BindUntyped(ctx, inner)
    case Inl(inner) => BindUntyped(ctx, inner)
    case Inr(inner) => BindUntyped(ctx, inner)
    case Tuple(ps) => BindUntypedEach(ctx, ps)
    case Record(fps) => BindUntypedFields(ctx, fps)
    case List(ps) => BindUntypedEach(ctx, ps)
    case Cons(head, tail) =>
      var c :- BindUntyped(ctx, head);
      BindUntyped(c, tail)
    case Variant(_, Some(inner)) => BindUntyped(ctx, inner)
    case Ascription(inner, ty) => Bind(ctx, inner, ty)
    case _ => Fail(Error(AmbiguosPattern))
  }

  function BindUntypedEach(ctx: Context, ps: seq<Pattern>): Result<Context>
    decreases ps
  {
    if ps == [] then Ok(ctx)
    else
      var c :- BindUntyped(ctx, ps[0]);
      BindUntypedEach(c, ps[1..])
  }

  function BindUntypedFields(ctx: Context, fps: seq<FieldPattern>): Result<Context>
    decreases fps
  {
    if fps == [] then Ok(ctx)
    else
      var c :- BindUntyped(ctx, fps[0].pattern);
      BindUntypedFields(c, fps[1..])
  }

  /** The pattern has an ascription somewhere inside it. */
  predicate HasAscription(p: Pattern)
  {
    match p
    case Succ(inner) => HasAscription(inner)
    case Inl(inner) => HasAscription(inner)
    case Inr(inner) => HasAscription(inner)
    case Tuple(ps) => exists i :: 0 <= i < |ps| && HasAscription(ps[i])
    case Record(fps) => exists i :: 0 <= i < |fps| && HasAscription(fps[i].pattern)
    case List(ps) => exists i :: 0 <= i < |ps| && HasAscription(ps[i])
    case Cons(head, tail) => HasAscription(head) || HasAscription(tail)
    case Variant(_, sub) => sub.Some? && HasAscription(sub.value)
    case Ascription(_, _) => true
    case CastAs(inner, _) => HasAscription(inner)
    case _ => false
  }

  // ---------------------------------------------------------------------------
  // Properties of typed binding

  /** A variable binds its name at the type and leaves every other name as it was. */
  lemma BindVariable(ctx: Context, x: string, t: Type, y: string)
    ensures Bind(ctx, Pattern.Var(x), t).Ok?
    ensures TypeOf(Bind(ctx, Pattern.Var(x), t).value, x) == Some(t)
    ensures y != x ==> TypeOf(Bind(ctx, Pattern.Var(x), t).value, y) == TypeOf(ctx, y)
  {
  }

  /** Literal patterns bind nothing and fail at no type. */
  lemma BindLiteral(ctx: Context, p: Pattern, t: Type)
    requires p.False? || p.True? || p.Unit? || p.Int?
    ensures Bind(ctx, p, t) == Ok(ctx)
  {
  }

  /** `succ p` matches only Nat, and then binds `p` at Nat. */
  lemma BindSucc(ctx: Context, q: Pattern, t: Type)
    ensures t != Type.Nat ==> Bind(ctx, Pattern.Succ(q), t) == Fail(Error(UnexpectedPattern))
    ensures t == Type.Nat ==> Bind(ctx, Pattern.Succ(q), t) == Bind(ctx, q, Type.Nat)
  {
  }

  /** A tuple pattern matches only a tuple type of its own length, component by component. */
  lemma BindTuple(ctx: Context, ps: seq<Pattern>, t: Type)
    ensures Bind(ctx, Pattern.Tuple(ps), t).Ok? ==> t.Tuple? && |t.components| == |ps|
    ensures !(t.Tuple? && |t.components| == |ps|) ==>
              Bind(ctx, Pattern.Tuple(ps), t) == Fail(Error(UnexpectedPattern))
    ensures t.Tuple? && |t.components| == |ps| ==>
              Bind(ctx, Pattern.Tuple(ps), t) == BindEach(ctx, ps, t.components)
  {
  }

  /** Component-wise binding runs left to right: binding a concatenation binds
    * the first part, then the second part in the context the first part gave. */
  lemma {:induction false} BindEachAppend(ctx: Context, ps1: seq<Pattern>, ts1: seq<Type>,
                                          ps2: seq<Pattern>, ts2: seq<Type>)
    requires |ps1| == |ts1| && |ps2| == |ts2|
    ensures BindEach(ctx, ps1 + ps2, ts1 + ts2) ==
            (match BindEach(ctx, ps1, ts1)
             case Ok(c) => BindEach(c, ps2, ts2)
             case Fail(f) => Fail(f))
    decreases ps1
  {
    if ps1 == [] {
      assert ps1 + ps2 == ps2 && ts1 + ts2 == ts2;
    } else {
      assert (ps1 + ps2)[0] == ps1[0] && (ts1 + ts2)[0] == ts1[0];
      assert (ps1 + ps2)[1..] == ps1[1..] + ps2 && (ts1 + ts2)[1..] == ts1[1..] + ts2;
      match Bind(ctx, ps1[0], ts1[0])
      case Fail(_) =>
      case Ok(c) => BindEachAppend(c, ps1[1..], ts1[1..], ps2, ts2);
    }
  }

  /** A record pattern matches a record type only when both name exactly the same
    * fields: a type with a field the pattern lacks is rejected (no width leniency). */
  lemma BindRecord(ctx: Context, fps: seq<FieldPattern>, t: Type)
    ensures Bind(ctx, Pattern.Record(fps), t).Ok? ==>
              t.Record? && NameSet(FieldPatternNames(fps)) == NameSet(FieldTypeNames(t.fields))
    ensures !t.Record? ==> Bind(ctx, Pattern.Record(fps), t) == Fail(Error(UnexpectedPattern))
    ensures t.Record? && (exists f :: f in FieldTypeNames(t.fields) && f !in FieldPatternNames(fps)) ==>
              Bind(ctx, Pattern.Record(fps), t) == Fail(Error(UnexpectedPattern))
    ensures t.Record? && (exists f :: f in FieldPatternNames(fps) && f !in FieldTypeNames(t.fields)) ==>
              Bind(ctx, Pattern.Record(fps), t) == Fail(Error(UnexpectedPattern))
    ensures t.Record? && NameSet(FieldPatternNames(fps)) == NameSet(FieldTypeNames(t.fields)) ==>
              (forall i :: 0 <= i < |fps| ==> fps[i].name in FieldTypeNames(t.fields)) &&
              Bind(ctx, Pattern.Record(fps), t) ==
                if HasDuplicates(FieldTypeNames(t.fields)) then Fail(Trap)
                else BindFields(ctx, fps, t.fields)
  {
    if t.Record? && NameSet(FieldPatternNames(fps)) == NameSet(FieldTypeNames(t.fields)) {
      forall i | 0 <= i < |fps|
        ensures fps[i].name in FieldTypeNames(t.fields)
      {
        assert fps[i].name == FieldPatternNames(fps)[i];
        assert fps[i].name in NameSet(FieldPatternNames(fps));
      }
    }
  }

  /** The three ways a variant pattern fails, and what it binds otherwise. */
  lemma BindVariant(ctx: Context, tag: string, sub: Option<Pattern>, t: Type)
    ensures (!t.Variant? || FindTag(t.tags, tag).None?) ==>
              Bind(ctx, Pattern.Variant(tag, sub), t) == Fail(Error(UnexpectedPattern))
    ensures t.Variant? && FindTag(t.tags, tag).Some? ==>
              var payload := FindTag(t.tags, tag).value.payload;
              Bind(ctx, Pattern.Variant(tag, sub), t) ==
                (if payload.Some? && sub.None? then Fail(Error(UnexpectedNullVariantPattern))
                 else if payload.None? && sub.Some? then Fail(Error(UnexpectedNonNullVariantPattern))
                 else if payload.None? then Ok(ctx)
                 else Bind(ctx, sub.value, payload.value))
  {
    if t.Variant? {
      var found := FindTag(t.tags, tag);
      assert Bind(ctx, Pattern.Variant(tag, sub), t) ==
             (match found {
                case None => Fail(Error(UnexpectedPattern))
                case Some(f) =>
                  if f.payload.Some? then
                    if sub.None? then Fail(Error(UnexpectedNullVariantPattern))
                    else Bind(ctx, sub.value, f.payload.value)
                  else if sub.Some? then Fail(Error(UnexpectedNonNullVariantPattern))
                  else Ok(ctx)
              });
    }
  }

  /** An ascription binds only at exactly its own type. */
  lemma BindAscription(ctx: Context, q: Pattern, asType: Type, t: Type)
    ensures asType == t ==> Bind(ctx, Pattern.Ascription(q, asType), t) == Bind(ctx, q, t)
    ensures asType != t ==> Bind(ctx, Pattern.Ascription(q, asType), t) == Fail(Error(UnexpectedPattern))
  {
  }

  /** Binding only pushes frames: the result extends the context it started from. */
  lemma {:induction false} BindExtends(ctx: Context, p: Pattern, t: Type)
    ensures Bind(ctx, p, t).Ok? ==> Extends(Bind(ctx, p, t).value, ctx)
    decreases p
  {
    match p
    case Var(_) =>
    case False | True | Unit | Int(_) =>
    case Succ(inner) => BindExtends(ctx, inner, Type.Nat);
    case Tuple(ps) =>
      if t.Tuple? && |t.components| == |ps| { BindEachExtends(ctx, ps, t.components); }
    case Record(fps) =>
      if t.Record? && NameSet(FieldPatternNames(fps)) == NameSet(FieldTypeNames(t.fields)) &&
         !HasDuplicates(FieldTypeNames(t.fields)) {
        BindFieldsExtends(ctx, fps, t.fields);
      }
    case Inl(inner) => if t.Sum? { BindExtends(ctx, inner, t.left); }
    case Inr(inner) => if t.Sum? { BindExtends(ctx, inner, t.right); }
    case List(ps) => if t.List? { BindAllAtExtends(ctx, ps, t.elem); }
    case Cons(head, tail) =>
      if t.List? {
        BindExtends(ctx, head, t.elem);
        if Bind(ctx, head, t.elem).Ok? {
          var c := Bind(ctx, head, t.elem).value;
          BindExtends(c, tail, Type.List(t.elem));
          if Bind(c, tail, Type.List(t.elem)).Ok? {
            ExtendsTrans(Bind(c, tail, Type.List(t.elem)).value, c, ctx);
          }
        }
      }
    case Variant(tag, sub) =>
      if t.Variant? && FindTag(t.tags, tag).Some? && sub.Some? && FindTag(t.tags, tag).value.payload.Some? {
        BindExtends(ctx, sub.value, FindTag(t.tags, tag).value.payload.value);
      }
    case Ascription(inner, asType) => BindExtends(ctx, inner, asType);
    case CastAs(_, _) =>
  }

  lemma {:induction false} BindEachExtends(ctx: Context, ps: seq<Pattern>, ts: seq<Type>)
    requires |ps| == |ts|
    ensures BindEach(ctx, ps, ts).Ok? ==> Extends(BindEach(ctx, ps, ts).value, ctx)
    decreases ps
  {
    if ps != [] {
      BindExtends(ctx, ps[0], ts[0]);
      if Bind(ctx, ps[0], ts[0]).Ok? {
        var c := Bind(ctx, ps[0], ts[0]).value;
        BindEachExtends(c, ps[1..], ts[1..]);
        if BindEach(c, ps[1..], ts[1..]).Ok? {
          ExtendsTrans(BindEach(c, ps[1..], ts[1..]).value, c, ctx);
        }
      }
    }
  }

  lemma {:induction false} BindAllAtExtends(ctx: Context, ps: seq<Pattern>, t: Type)
    ensures BindAllAt(ctx, ps, t).Ok? ==> Extends(BindAllAt(ctx, ps, t).value, ctx)
    decreases ps
  {
    if ps != [] {
      BindExtends(ctx, ps[0], t);
      if Bind(ctx, ps[0], t).Ok? {
        var c := Bind(ctx, ps[0], t).value;
        BindAllAtExtends(c, ps[1..], t);
        if BindAllAt(c, ps[1..], t).Ok? {
          ExtendsTrans(BindAllAt(c, ps[1..], t).value, c, ctx);
        }
      }
    }
  }

  lemma {:induction false} BindFieldsExtends(ctx: Context, fps: seq<FieldPattern>, fields: seq<FieldType>)
    requires forall i :: 0 <= i < |fps| ==> fps[i].name in FieldTypeNames(fields)
    ensures BindFields(ctx, fps, fields).Ok? ==> Extends(BindFields(ctx, fps, fields).value, ctx)
    decreases fps
  {
    if fps != [] {
      var ft := FindField(fields, fps[0].name).value.ty;
      BindExtends(ctx, fps[0].pattern, ft);
      if Bind(ctx, fps[0].pattern, ft).Ok? {
        var c := Bind(ctx, fps[0].pattern, ft).value;
        BindFieldsExtends(c, fps[1..], fields);
        if BindFields(c, fps[1..], fields).Ok? {
          ExtendsTrans(BindFields(c, fps[1..], fields).value, c, ctx);
        }
      }
    }
  }

  /** So binding keeps the flags and the exception type of the context. */
  lemma BindKeepsFlags(ctx: Context, p: Pattern, t: Type)
    requires Bind(ctx, p, t).Ok?
    ensures forall e :: IsEnabled(Bind(ctx, p, t).value, e) == IsEnabled(ctx, e)
    ensures ExceptionType(Bind(ctx, p, t).value) == ExceptionType(ctx)
  {
    BindExtends(ctx, p, t);
    ExtendsKeepsRoot(Bind(ctx, p, t).value, ctx);
  }

  // ---------------------------------------------------------------------------
  // Properties of untyped binding

  /** Variables, literals, nullary variants and cast patterns cannot be bound without a type. */
  lemma UntypedAmbiguous(ctx: Context, p: Pattern)
    requires p.Var? || p.False? || p.True? || p.Unit? || p.Int? || (p.Variant? && p.payload.None?) || p.CastAs?
    ensures BindUntyped(ctx, p) == Fail(Error(AmbiguosPattern))
  {
  }

  /** An ascription is bound at its own type. */
  lemma UntypedAscription(ctx: Context, q: Pattern, ty: Type)
    ensures BindUntyped(ctx, Pattern.Ascription(q, ty)) == Bind(ctx, q, ty)
  {
  }

  /** Only ascriptions add bindings: without one, a successful untyped binding
    * gives back the context unchanged. */
  lemma {:induction false} UntypedWithoutAscription(ctx: Context, p: Pattern)
    requires !HasAscription(p)
    ensures BindUntyped(ctx, p).Ok? ==> BindUntyped(ctx, p).value == ctx
    decreases p
  {
    match p
    case Succ(inner) => UntypedWithoutAscription(ctx, inner);
    case Inl(inner) => UntypedWithoutAscription(ctx, inner);
    case Inr(inner) => UntypedWithoutAscription(ctx, inner);
    case Tuple(ps) => UntypedEachWithoutAscription(ctx, ps);
    case Record(fps) => UntypedFieldsWithoutAscription(ctx, fps);
    case List(ps) => UntypedEachWithoutAscription(ctx, ps);
    case Cons(head, tail) =>
      UntypedWithoutAscription(ctx, head);
      if BindUntyped(ctx, head).Ok? { UntypedWithoutAscription(ctx, tail); }
    case Variant(_, sub) => if sub.Some? { UntypedWithoutAscription(ctx, sub.value); }
    case _ =>
  }

  lemma {:induction false} UntypedEachWithoutAscription(ctx: Context, ps: seq<Pattern>)
    requires forall i :: 0 <= i < |ps| ==> !HasAscription(ps[i])
    ensures BindUntypedEach(ctx, ps).Ok? ==> BindUntypedEach(ctx, ps).value == ctx
    decreases ps
  {
    if ps != [] {
      UntypedWithoutAscription(ctx, ps[0]);
      if BindUntyped(ctx, ps[0]).Ok? { UntypedEachWithoutAscription(ctx, ps[1..]); }
    }
  }

  lemma {:induction false} UntypedFieldsWithoutAscription(ctx: Context, fps: seq<FieldPattern>)
    requires forall i :: 0 <= i < |fps| ==> !HasAscription(fps[i].pattern)
    ensures BindUntypedFields(ctx, fps).Ok? ==> BindUntypedFields(ctx, fps).value == ctx
    decreases fps
  {
    if fps != [] {
      UntypedWithoutAscription(ctx, fps[0].pattern);
      if BindUntyped(ctx, fps[0].pattern).Ok? { UntypedFieldsWithoutAscription(ctx, fps[1..]); }
    }
  }
}
