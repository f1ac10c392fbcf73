/** What the legality checker licenses, construct by construct, and the fact
  * that enabling more extensions never makes a legal program illegal. */
module LegalityFacts {
  import opened Wrappers
  import opened Extensions
  import opened Syntax
  import opened Errors
  import opened Contexts
  import opened Utils
  import opened Legality

  // ---------------------------------------------------------------------------
  // The sequence helpers, stated element-wise

  lemma {:induction false} CheckTypesOk(g: GlobalContext, ts: seq<Type>)
    ensures CheckTypes(g, ts).Ok? <==> forall i :: 0 <= i < |ts| ==> CheckType(g, ts[i]).Ok?
  {
    if ts != [] {
      CheckTypesOk(g, ts[1..]);
      if forall i :: 0 <= i < |ts| ==> CheckType(g, ts[i]).Ok? {
        forall i | 0 <= i < |ts[1..]|
          ensures CheckType(g, ts[1..][i]).Ok?
        {
          assert ts[1..][i] == ts[i + 1];
        }
      }
      if CheckTypes(g, ts).Ok? {
        forall i | 0 <= i < |ts|
          ensures CheckType(g, ts[i]).Ok?
        {
          if i > 0 {
            assert ts[1..][i - 1] == ts[i];
          }
        }
      }
    }
  }

  lemma {:induction false} CheckExpressionsOk(g: GlobalContext, es: seq<Expression>)
    ensures CheckExpressions(g, es).Ok? <==> forall i :: 0 <= i < |es| ==> CheckExpression(g, es[i]).Ok?
  {
    if es != [] {
      CheckExpressionsOk(g, es[1..]);
      if forall i :: 0 <= i < |es| ==> CheckExpression(g, es[i]).Ok? {
        forall i | 0 <= i < |es[1..]|
          ensures CheckExpression(g, es[1..][i]).Ok?
        {
          assert es[1..][i] == es[i + 1];
        }
      }
      if CheckExpressions(g, es).Ok? {
        forall i | 0 <= i < |es|
          ensures CheckExpression(g, es[i]).Ok?
        {
          if i > 0 {
            assert es[1..][i - 1] == es[i];
          }
        }
      }
    }
  }

  lemma {:induction false} CheckFieldTypesOk(g: GlobalContext, fields: seq<FieldType>)
    ensures CheckFieldTypes(g, fields).Ok? <==> forall i :: 0 <= i < |fields| ==> CheckType(g, fields[i].ty).Ok?
  {
    if fields != [] {
      CheckFieldTypesOk(g, fields[1..]);
      if forall i :: 0 <= i < |fields| ==> CheckType(g, fields[i].ty).Ok? {
        forall i | 0 <= i < |fields[1..]|
          ensures CheckType(g, fields[1..][i].ty).Ok?
        {
          assert fields[1..][i] == fields[i + 1];
        }
      }
    }
  }

  lemma {:induction false} CheckTagPayloadsOk(g: GlobalContext, tags: seq<TagType>)
    ensures CheckTagPayloads(g, tags).Ok? <==>
              forall i :: 0 <= i < |tags| && tags[i].payload.Some? ==> CheckType(g, tags[i].payload.value).Ok?
  {
    if tags != [] {
      CheckTagPayloadsOk(g, tags[1..]);
      if forall i :: 0 <= i < |tags| && tags[i].payload.Some? ==> CheckType(g, tags[i].payload.value).Ok? {
        forall i | 0 <= i < |tags[1..]| && tags[1..][i].payload.Some?
          ensures CheckType(g, tags[1..][i].payload.value).Ok?
        {
          assert tags[1..][i] == tags[i + 1];
        }
      }
    }
  }

  lemma {:induction false} CheckFieldExprsOk(g: GlobalContext, fields: seq<FieldExpr>)
    ensures CheckFieldExprs(g, fields).Ok? <==> forall i :: 0 <= i < |fields| ==> CheckExpression(g, fields[i].expr).Ok?
  {
    if fields != [] {
      CheckFieldExprsOk(g, fields[1..]);
      if forall i :: 0 <= i < |fields| ==> CheckExpression(g, fields[i].expr).Ok? {
        forall i | 0 <= i < |fields[1..]|
          ensures CheckExpression(g, fields[1..][i].expr).Ok?
        {
          assert fields[1..][i] == fields[i + 1];
        }
      }
    }
  }

  // ---------------------------------------------------------------------------
  // Types

  /** Bool and Nat need no extension. */
  lemma BaseTypesLegal(g: GlobalContext)
    ensures CheckType(g, Type.Bool) == Ok(()) && CheckType(g, Type.Nat) == Ok(())
  {
  }

  /** A function type of no arguments needs nullary-functions, one of several
    * needs multiparameter-functions; its argument and result types must be legal. */
  lemma FunctionTypeLegality(g: GlobalContext, args: seq<Type>, ret: Type)
    ensures args == [] && !GlobalIsEnabled(g, NullFunctions) ==>
              CheckType(g, Type.Function(args, ret)) ==
                Fail(Unsupported(TypeNode(Type.Function(args, ret)), Some("Zero argument function type"), Some(NullFunctions)))
    ensures |args| > 1 && !GlobalIsEnabled(g, MultiFunctions) ==>
              CheckType(g, Type.Function(args, ret)) ==
                Fail(Unsupported(TypeNode(Type.Function(args, ret)), Some("Multi argument function type"), Some(MultiFunctions)))
    ensures CheckType(g, Type.Function(args, ret)).Ok? <==>
              (args != [] || GlobalIsEnabled(g, NullFunctions)) &&
              (|args| <= 1 || GlobalIsEnabled(g, MultiFunctions)) &&
              (forall i :: 0 <= i < |args| ==> CheckType(g, args[i]).Ok?) &&
              CheckType(g, ret).Ok?
  {
    CheckTypesOk(g, args);
  }

  /** A pair type needs pairs or tuples; a tuple type of any other length needs tuples. */
  lemma TupleTypeLegality(g: GlobalContext, ts: seq<Type>)
    ensures CheckType(g, Type.Tuple(ts)).Ok? <==>
              (if |ts| == 2 then GlobalIsEnabled(g, Pairs) || GlobalIsEnabled(g, Tuples)
               else GlobalIsEnabled(g, Tuples)) &&
              forall i :: 0 <= i < |ts| ==> CheckType(g, ts[i]).Ok?
  {
    CheckTypesOk(g, ts);
  }

  /** A record type needs records, and a repeated field name is an error. */
  lemma RecordTypeLegality(g: GlobalContext, fields: seq<FieldType>)
    ensures !GlobalIsEnabled(g, Records) ==>
              CheckType(g, Type.Record(fields)) == Fail(Unsupported(TypeNode(Type.Record(fields)), None, Some(Records)))
    ensures GlobalIsEnabled(g, Records) && HasDuplicates(FieldTypeNames(fields)) ==>
              CheckType(g, Type.Record(fields)) == Fail(Error(DuplicateTypeFields))
    ensures CheckType(g, Type.Record(fields)).Ok? <==>
              GlobalIsEnabled(g, Records) && !HasDuplicates(FieldTypeNames(fields)) &&
              forall i :: 0 <= i < |fields| ==> CheckType(g, fields[i].ty).Ok?
  {
    RecordTypeUnfolds(g, fields);
    CheckFieldTypesOk(g, fields);
  }

  lemma RecordTypeUnfolds(g: GlobalContext, fields: seq<FieldType>)
    ensures CheckType(g, Type.Record(fields)) ==
              if !GlobalIsEnabled(g, Records) then Fail(Unsupported(TypeNode(Type.Record(fields)), None, Some(Records)))
              else if HasDuplicates(FieldTypeNames(fields)) then Fail(Error(DuplicateTypeFields))
              else CheckFieldTypes(g, fields)
  {
  }

  /** A variant type needs variants, distinct tags, and nullary-variant-labels
    * as soon as one tag has no payload. */
  lemma VariantTypeLegality(g: GlobalContext, tags: seq<TagType>)
    ensures !GlobalIsEnabled(g, Variants) ==>
              CheckType(g, Type.Variant(tags)) == Fail(Unsupported(TypeNode(Type.Variant(tags)), None, Some(Variants)))
    ensures GlobalIsEnabled(g, Variants) && HasDuplicates(TagNames(tags)) ==>
              CheckType(g, Type.Variant(tags)) == Fail(Error(DuplicateTypeTags))
    ensures GlobalIsEnabled(g, Variants) && !HasDuplicates(TagNames(tags)) &&
            (exists i :: 0 <= i < |tags| && tags[i].payload.None?) && !GlobalIsEnabled(g, NullVariants) ==>
              CheckType(g, Type.Variant(tags)) == Fail(Unsupported(TypeNode(Type.Variant(tags)), None, Some(NullVariants)))
    ensures CheckType(g, Type.Variant(tags)).Ok? <==>
              GlobalIsEnabled(g, Variants) && !HasDuplicates(TagNames(tags)) &&
              ((exists i :: 0 <= i < |tags| && tags[i].payload.None?) ==> GlobalIsEnabled(g, NullVariants)) &&
              forall i :: 0 <= i < |tags| && tags[i].payload.Some? ==> CheckType(g, tags[i].payload.value).Ok?
  {
    VariantTypeUnfolds(g, tags);
    CheckTagPayloadsOk(g, tags);
  }

  lemma VariantTypeUnfolds(g: GlobalContext, tags: seq<TagType>)
    ensures CheckType(g, Type.Variant(tags)) ==
              if !GlobalIsEnabled(g, Variants) then Fail(Unsupported(TypeNode(Type.Variant(tags)), None, Some(Variants)))
              else if HasDuplicates(TagNames(tags)) then Fail(Error(DuplicateTypeTags))
              else if (exists i :: 0 <= i < |tags| && tags[i].payload.None?) && !GlobalIsEnabled(g, NullVariants) then
                Fail(Unsupported(TypeNode(Type.Variant(tags)), None, Some(NullVariants)))
              else CheckTagPayloads(g, tags)
  {
    AnyIffExists(tags, (tag: TagType) => tag.payload.None?);
  }

  /** Top, Bottom and reference types are never licensed. */
  lemma OtherTypesUnsupported(g: GlobalContext, t: Type)
    requires t.Top? || t.Bottom? || t.Reference?
    ensures CheckType(g, t) == Fail(Unsupported(TypeNode(t), None, None))
  {
  }

  // ---------------------------------------------------------------------------
  // Patterns

  /** Literal patterns need structural-patterns, and nothing else. */
  lemma LiteralPatternLegality(g: GlobalContext, p: Pattern)
    requires p.False? || p.True? || p.Unit? || p.Int?
    ensures CheckPattern(g, p).Ok? <==> GlobalIsEnabled(g, StructuralPatterns)
    ensures CheckPattern(g, p).Fail? ==> CheckPattern(g, p) == Fail(Unsupported(PatternNode(p), None, Some(StructuralPatterns)))
  {
  }

  /** Variables need nothing; `succ`, tuple, list and cons patterns need
    * structural-patterns before their sub-patterns are looked at. */
  lemma StructuralPatternLegality(g: GlobalContext, p: Pattern)
    ensures p.Var? ==> CheckPattern(g, p) == Ok(())
    ensures (p.Succ? || p.Tuple? || p.List? || p.Cons? || p.Record?) && !GlobalIsEnabled(g, StructuralPatterns) ==>
              CheckPattern(g, p) == Fail(Unsupported(PatternNode(p), None, Some(StructuralPatterns)))
    ensures p.Record? && GlobalIsEnabled(g, StructuralPatterns) && HasDuplicates(FieldPatternNames(p.fields)) ==>
              CheckPattern(g, p) == Fail(Error(DuplicatePatternFields))
    ensures p.Succ? ==>
              (CheckPattern(g, p).Ok? <==> GlobalIsEnabled(g, StructuralPatterns) && CheckPattern(g, p.inner).Ok?)
    ensures p.Cons? ==>
              (CheckPattern(g, p).Ok? <==>
                 GlobalIsEnabled(g, StructuralPatterns) && CheckPattern(g, p.head).Ok? && CheckPattern(g, p.tail).Ok?)
    ensures (p.Tuple? || p.List?) ==>
              (CheckPattern(g, p).Ok? <==>
                 GlobalIsEnabled(g, StructuralPatterns) && forall i :: 0 <= i < |p.items| ==> CheckPattern(g, p.items[i]).Ok?)
    ensures p.Record? ==>
              (CheckPattern(g, p).Ok? <==>
                 GlobalIsEnabled(g, StructuralPatterns) && !HasDuplicates(FieldPatternNames(p.fields)) &&
                 forall i :: 0 <= i < |p.fields| ==> CheckPattern(g, p.fields[i].pattern).Ok?)
  {
    if p.Tuple? || p.List? {
      CheckPatternsOk(g, p.items);
    } else if p.Record? {
      CheckFieldPatternsOk(g, p.fields);
    }
  }

  lemma {:induction false} CheckPatternsOk(g: GlobalContext, ps: seq<Pattern>)
    ensures CheckPatterns(g, ps).Ok? <==> forall i :: 0 <= i < |ps| ==> CheckPattern(g, ps[i]).Ok?
  {
    if ps != [] {
      CheckPatternsOk(g, ps[1..]);
      if forall i :: 0 <= i < |ps| ==> CheckPattern(g, ps[i]).Ok? {
        forall i | 0 <= i < |ps[1..]|
          ensures CheckPattern(g, ps[1..][i]).Ok?
        {
          assert ps[1..][i] == ps[i + 1];
        }
      }
    }
  }

  lemma {:induction false} CheckFieldPatternsOk(g: GlobalContext, fields: seq<FieldPattern>)
    ensures CheckFieldPatterns(g, fields).Ok? <==> forall i :: 0 <= i < |fields| ==> CheckPattern(g, fields[i].pattern).Ok?
  {
    if fields != [] {
      CheckFieldPatternsOk(g, fields[1..]);
      if forall i :: 0 <= i < |fields| ==> CheckPattern(g, fields[i].pattern).Ok? {
        forall i | 0 <= i < |fields[1..]|
          ensures CheckPattern(g, fields[1..][i].pattern).Ok?
        {
          assert fields[1..][i] == fields[i + 1];
        }
      }
    }
  }

  /** Injections need sum-types, nullary variants nullary-variant-labels, and
    * variants with a payload need variants and a legal payload pattern. */
  lemma VariantPatternLegality(g: GlobalContext, p: Pattern)
    ensures (p.Inl? || p.Inr?) ==>
              (CheckPattern(g, p).Ok? <==> GlobalIsEnabled(g, SumTypes) && CheckPattern(g, p.inner).Ok?)
    ensures p.Variant? && p.payload.None? ==> (CheckPattern(g, p).Ok? <==> GlobalIsEnabled(g, NullVariants))
    ensures p.Variant? && p.payload.Some? ==>
              (CheckPattern(g, p).Ok? <==> GlobalIsEnabled(g, Variants) && CheckPattern(g, p.payload.value).Ok?)
  {
  }

  /** An ascription needs pattern-ascriptions, a legal type and a legal inner pattern. */
  lemma AscriptionPatternLegality(g: GlobalContext, q: Pattern, ty: Type)
    ensures CheckPattern(g, Pattern.Ascription(q, ty)).Ok? <==>
              GlobalIsEnabled(g, PatternAscriptions) && CheckType(g, ty).Ok? && CheckPattern(g, q).Ok?
  {
  }

  // ---------------------------------------------------------------------------
  // Expressions

  /** `0` is always legal; larger literals need natural-literals. */
  lemma IntLiteralLegality(g: GlobalContext, n: int)
    ensures n == 0 ==> CheckExpression(g, ConstInt(n)) == Ok(())
    ensures n >= 1 ==> (CheckExpression(g, ConstInt(n)).Ok? <==> GlobalIsEnabled(g, NatLiterals))
  {
  }

  /** A lambda of no parameters needs nullary-functions, one of several
    * multiparameter-functions; then its parameter types and body must be legal. */
  lemma LambdaLegality(g: GlobalContext, params: seq<Param>, body: Expression)
    ensures params == [] && !GlobalIsEnabled(g, NullFunctions) ==>
              CheckExpression(g, Abstraction(params, body)) ==
                Fail(Unsupported(ExpressionNode(Abstraction(params, body)), Some("Zero argument lambdas"), Some(NullFunctions)))
    ensures |params| > 1 && !GlobalIsEnabled(g, MultiFunctions) ==>
              CheckExpression(g, Abstraction(params, body)) ==
                Fail(Unsupported(ExpressionNode(Abstraction(params, body)), Some("Multi argument lambdas"), Some(MultiFunctions)))
    ensures CheckExpression(g, Abstraction(params, body)).Ok? <==>
              (params != [] || GlobalIsEnabled(g, NullFunctions)) &&
              (|params| <= 1 || GlobalIsEnabled(g, MultiFunctions)) &&
              (forall i :: 0 <= i < |params| ==> CheckType(g, params[i].ty).Ok?) &&
              CheckExpression(g, body).Ok?
  {
    CheckTypesOk(g, ParamTypes(params));
  }

  /** A pair needs pairs or tuples; a tuple of any other length needs tuples. */
  lemma TupleLegality(g: GlobalContext, items: seq<Expression>)
    ensures CheckExpression(g, Expression.Tuple(items)).Ok? <==>
              (if |items| == 2 then GlobalIsEnabled(g, Pairs) || GlobalIsEnabled(g, Tuples)
               else GlobalIsEnabled(g, Tuples)) &&
              forall i :: 0 <= i < |items| ==> CheckExpression(g, items[i]).Ok?
  {
    CheckExpressionsOk(g, items);
  }

  /** Projections 1 and 2 need pairs or tuples, later ones tuples; an index
    * below 1 is rejected whatever is enabled. */
  lemma DotTupleLegality(g: GlobalContext, t: Expression, i: int)
    ensures i <= 0 ==>
              CheckExpression(g, DotTuple(t, i)) ==
                Fail(Unsupported(ExpressionNode(DotTuple(t, i)), Some("Bad tuple index: " + Decimal(i)), None))
    ensures 1 <= i <= 2 ==>
              (CheckExpression(g, DotTuple(t, i)).Ok? <==>
                 (GlobalIsEnabled(g, Pairs) || GlobalIsEnabled(g, Tuples)) && CheckExpression(g, t).Ok?)
    ensures i >= 3 ==>
              (CheckExpression(g, DotTuple(t, i)).Ok? <==> GlobalIsEnabled(g, Tuples) && CheckExpression(g, t).Ok?)
  {
  }

  /** A record literal needs records, and a repeated field name is an error. */
  lemma RecordLegality(g: GlobalContext, fields: seq<FieldExpr>)
    ensures !GlobalIsEnabled(g, Records) ==>
              CheckExpression(g, Expression.Record(fields)) ==
                Fail(Unsupported(ExpressionNode(Expression.Record(fields)), None, Some(Records)))
    ensures GlobalIsEnabled(g, Records) && HasDuplicates(FieldExprNames(fields)) ==>
              CheckExpression(g, Expression.Record(fields)) == Fail(Error(DuplicateFields))
    ensures CheckExpression(g, Expression.Record(fields)).Ok? <==>
              GlobalIsEnabled(g, Records) && !HasDuplicates(FieldExprNames(fields)) &&
              forall i :: 0 <= i < |fields| ==> CheckExpression(g, fields[i].expr).Ok?
  {
    RecordUnfolds(g, fields);
    CheckFieldExprsOk(g, fields);
  }

  lemma RecordUnfolds(g: GlobalContext, fields: seq<FieldExpr>)
    ensures CheckExpression(g, Expression.Record(fields)) ==
              if !GlobalIsEnabled(g, Records) then
                Fail(Unsupported(ExpressionNode(Expression.Record(fields)), None, Some(Records)))
              else if HasDuplicates(FieldExprNames(fields)) then Fail(Error(DuplicateFields))
              else CheckFieldExprs(g, fields)
  {
  }

  /** `let` and `letrec` are licensed only with exactly one binding; a binding
    * whose pattern is not a variable also needs let-patterns. */
  lemma LetLegality(g: GlobalContext, bindings: seq<PatternBinding>, body: Expression)
    ensures |bindings| != 1 ==>
              CheckExpression(g, Let(bindings, body)) == NotSupportedYet(Let(bindings, body)) &&
              CheckExpression(g, LetRec(bindings, body)) == NotSupportedYet(LetRec(bindings, body))
    ensures |bindings| == 1 && !GlobalIsEnabled(g, LetBindings) ==>
              CheckExpression(g, Let(bindings, body)) ==
                Fail(Unsupported(ExpressionNode(Let(bindings, body)), None, Some(LetBindings)))
    ensures |bindings| == 1 && !GlobalIsEnabled(g, Letrec) ==>
              CheckExpression(g, LetRec(bindings, body)) ==
                Fail(Unsupported(ExpressionNode(LetRec(bindings, body)), None, Some(Letrec)))
    ensures |bindings| == 1 ==>
              (CheckExpression(g, Let(bindings, body)).Ok? <==>
                 GlobalIsEnabled(g, LetBindings) &&
                 (!bindings[0].pattern.Var? ==> GlobalIsEnabled(g, LetPatterns)) &&
                 CheckPattern(g, bindings[0].pattern).Ok? && CheckExpression(g, bindings[0].rhs).Ok? &&
                 CheckExpression(g, body).Ok?)
    ensures |bindings| == 1 ==>
              (CheckExpression(g, LetRec(bindings, body)).Ok? <==>
                 GlobalIsEnabled(g, Letrec) &&
                 (!bindings[0].pattern.Var? ==> GlobalIsEnabled(g, LetPatterns)) &&
                 CheckPattern(g, bindings[0].pattern).Ok? && CheckExpression(g, bindings[0].rhs).Ok? &&
                 CheckExpression(g, body).Ok?)
  {
    if |bindings| == 1 {
      var _ := CheckSingleBinding(g, Let(bindings, body), bindings[0]);
      var _ := CheckSingleBinding(g, LetRec(bindings, body), bindings[0]);
    }
  }

  /** A `match` with no arms is an error whatever is enabled. */
  lemma EmptyMatchIllegal(g: GlobalContext, scrutinee: Expression)
    ensures CheckExpression(g, Match(scrutinee, [])) == Fail(Error(EmptyMatch))
  {
  }

  /** The forms without a case in the legality checker are never licensed. */
  lemma UnlicensedForms(g: GlobalContext, e: Expression)
    requires e.Pred? || e.Sequence? || e.Ref? || e.Deref? || e.Assign? || e.ConstMemory? || e.Panic? ||
             e.Throw? || e.TryWith? || e.TryCatch? || e.TypeCast? || e.TryCastAs? || e.Binary?
    ensures CheckExpression(g, e) == Fail(Unsupported(ExpressionNode(e), Some("Not supported yet"), None))
  {
  }

  // ---------------------------------------------------------------------------
  // Declarations

  /** A function declaration is rejected for annotations, then throw types, then
    * a missing return type, then zero parameters without nullary-functions, then
    * a parameter count the rule refuses; it is legal exactly when every guard
    * passes and its parameter types, return type, local declarations and return
    * expression are legal. */
  lemma FunctionDeclarationLegality(g: GlobalContext, rule: ArityRule, d: Declaration)
    requires d.FunctionDecl?
    ensures d.annotations != [] ==>
              CheckDeclaration(g, rule, d) == Fail(Unsupported(DeclarationNode(d), Some("Function with annotations"), None))
    ensures d.annotations == [] && d.throwTypes != [] ==>
              CheckDeclaration(g, rule, d) == Fail(Unsupported(DeclarationNode(d), Some("Function with throw types"), None))
    ensures d.annotations == [] && d.throwTypes == [] && d.returnType.None? ==>
              CheckDeclaration(g, rule, d) == Fail(Unsupported(DeclarationNode(d), Some("Function with no return type"), None))
    ensures d.annotations == [] && d.throwTypes == [] && d.returnType.Some? &&
            d.params == [] && !GlobalIsEnabled(g, NullFunctions) ==>
              CheckDeclaration(g, rule, d) ==
              Fail(Unsupported(DeclarationNode(d), Some("Functions with no parameters"), Some(NullFunctions)))
    ensures d.annotations == [] && d.throwTypes == [] && d.returnType.Some? &&
            (d.params == [] ==> GlobalIsEnabled(g, NullFunctions)) && !ArityAllowed(g, rule, |d.params|) ==>
              CheckDeclaration(g, rule, d) ==
              Fail(Unsupported(DeclarationNode(d), Some("Functions with multiple parameters"), Some(MultiFunctions)))
    ensures CheckDeclaration(g, rule, d).Ok? <==>
              d.annotations == [] && d.throwTypes == [] && d.returnType.Some? &&
              (d.params == [] ==> GlobalIsEnabled(g, NullFunctions)) &&
              ArityAllowed(g, rule, |d.params|) &&
              (d.body != [] ==> GlobalIsEnabled(g, NestedDeclarations)) &&
              (forall i :: 0 <= i < |d.params| ==> CheckType(g, d.params[i].ty).Ok?) &&
              CheckType(g, d.returnType.value).Ok? &&
              CheckDeclarations(g, rule, d.body).Ok? && CheckExpression(g, d.returnExpr).Ok?
  {
    CheckTypesOk(g, ParamTypes(d.params));
  }

  /** The source's rule: any parameter count other than one needs
    * multiparameter-functions, so a nullary declaration needs both
    * nullary-functions and multiparameter-functions. */
  lemma SourceDeclarationArity(g: GlobalContext, d: Declaration)
    requires d.FunctionDecl?
    ensures CheckDeclaration(g, AsWritten, d).Ok? ==>
              (|d.params| != 1 ==> GlobalIsEnabled(g, MultiFunctions)) &&
              (d.params == [] ==> GlobalIsEnabled(g, NullFunctions) && GlobalIsEnabled(g, MultiFunctions))
  {
    FunctionDeclarationLegality(g, AsWritten, d);
  }

  /** The corrected rule: only more than one parameter needs
    * multiparameter-functions; the parameter-count guard always passes for a
    * nullary declaration, which needs nullary-functions alone. */
  lemma CorrectedDeclarationArity(g: GlobalContext, d: Declaration)
    requires d.FunctionDecl?
    ensures d.params == [] ==> ArityAllowed(g, AtMostOne, 0)
    ensures CheckDeclaration(g, AtMostOne, d).Ok? ==>
              (|d.params| > 1 ==> GlobalIsEnabled(g, MultiFunctions)) &&
              (d.params == [] ==> GlobalIsEnabled(g, NullFunctions))
  {
    FunctionDeclarationLegality(g, AtMostOne, d);
  }

  /** The source's rule is stricter than the corrected one. */
  lemma {:induction false} AsWrittenStricter(g: GlobalContext, d: Declaration)
    ensures CheckDeclaration(g, AsWritten, d).Ok? ==> CheckDeclaration(g, AtMostOne, d).Ok?
  {
    if d.FunctionDecl? {
      AllAsWrittenStricter(g, d.body);
    }
  }

  lemma {:induction false} AllAsWrittenStricter(g: GlobalContext, ds: seq<Declaration>)
    ensures CheckDeclarations(g, AsWritten, ds).Ok? ==> CheckDeclarations(g, AtMostOne, ds).Ok?
  {
    if ds != [] {
      AsWrittenStricter(g, ds[0]);
      AllAsWrittenStricter(g, ds[1..]);
    }
  }

  /** With multiparameter-functions on, the two rules give the same verdict. */
  lemma {:induction false} RulesAgreeWithMultiFunctions(g: GlobalContext, d: Declaration)
    requires GlobalIsEnabled(g, MultiFunctions)
    ensures CheckDeclaration(g, AsWritten, d) == CheckDeclaration(g, AtMostOne, d)
  {
    if d.FunctionDecl? {
      AllRulesAgreeWithMultiFunctions(g, d.body);
    }
  }

  lemma {:induction false} AllRulesAgreeWithMultiFunctions(g: GlobalContext, ds: seq<Declaration>)
    requires GlobalIsEnabled(g, MultiFunctions)
    ensures CheckDeclarations(g, AsWritten, ds) == CheckDeclarations(g, AtMostOne, ds)
  {
    if ds != [] {
      RulesAgreeWithMultiFunctions(g, ds[0]);
      AllRulesAgreeWithMultiFunctions(g, ds[1..]);
    }
  }

  /** Generic functions, type aliases and exception declarations are never licensed. */
  lemma OtherDeclarationsIllegal(g: GlobalContext, rule: ArityRule, d: Declaration)
    requires !d.FunctionDecl?
    ensures CheckDeclaration(g, rule, d).Fail? && CheckDeclaration(g, rule, d).failure.Unsupported?
    ensures d.GenericFunctionDecl? ==>
              CheckDeclaration(g, rule, d) == Fail(Unsupported(DeclarationNode(d), Some("Generic functions"), None))
  {
  }

  /** As written, the parameter-count guard refuses `fn f() -> T { return 0 }`
    * with nullary-functions on and multiparameter-functions off, naming
    * multiparameter-functions; the corrected rule accepts it. */
  lemma NullaryDeclarationMisjudged(g: GlobalContext, ret: Type)
    requires GlobalIsEnabled(g, NullFunctions) && !GlobalIsEnabled(g, MultiFunctions)
    requires CheckType(g, ret).Ok?
    ensures var f := FunctionDecl([], "f", [], Some(ret), [], [], ConstInt(0));
            CheckDeclaration(g, AsWritten, f) ==
              Fail(Unsupported(DeclarationNode(f), Some("Functions with multiple parameters"), Some(MultiFunctions))) &&
            CheckDeclaration(g, AtMostOne, f) == Ok(())
  {
    assert ParamTypes([]) == [];
  }

  // ---------------------------------------------------------------------------
  // Enabling more extensions keeps a program legal

  /** Every extension enabled in `g1` is enabled in `g2`. */
  predicate Wider(g1: GlobalContext, g2: GlobalContext)
  {
    forall e :: GlobalIsEnabled(g1, e) ==> GlobalIsEnabled(g2, e)
  }

  lemma {:induction false} TypeMonotone(g1: GlobalContext, g2: GlobalContext, t: Type)
    requires Wider(g1, g2)
    ensures CheckType(g1, t).Ok? ==> CheckType(g2, t).Ok?
  {
    match t
    case Function(args, ret) => TypesMonotone(g1, g2, args); TypeMonotone(g1, g2, ret);
    case Tuple(ts) => TypesMonotone(g1, g2, ts);
    case Record(fields) => FieldTypesMonotone(g1, g2, fields);
    case Sum(l, r) => TypeMonotone(g1, g2, l); TypeMonotone(g1, g2, r);
    case List(elem) => TypeMonotone(g1, g2, elem);
    case Variant(tags) => TagPayloadsMonotone(g1, g2, tags);
    case _ =>
  }

  lemma {:induction false} TypesMonotone(g1: GlobalContext, g2: GlobalContext, ts: seq<Type>)
    requires Wider(g1, g2)
    ensures CheckTypes(g1, ts).Ok? ==> CheckTypes(g2, ts).Ok?
  {
    if ts != [] {
      TypeMonotone(g1, g2, ts[0]);
      TypesMonotone(g1, g2, ts[1..]);
    }
  }

  lemma {:induction false} FieldTypesMonotone(g1: GlobalContext, g2: GlobalContext, fields: seq<FieldType>)
    requires Wider(g1, g2)
    ensures CheckFieldTypes(g1, fields).Ok? ==> CheckFieldTypes(g2, fields).Ok?
  {
    if fields != [] {
      TypeMonotone(g1, g2, fields[0].ty);
      FieldTypesMonotone(g1, g2, fields[1..]);
    }
  }

  lemma {:induction false} TagPayloadsMonotone(g1: GlobalContext, g2: GlobalContext, tags: seq<TagType>)
    requires Wider(g1, g2)
    ensures CheckTagPayloads(g1, tags).Ok? ==> CheckTagPayloads(g2, tags).Ok?
  {
    if tags != [] {
      if tags[0].payload.Some? {
        TypeMonotone(g1, g2, tags[0].payload.value);
      }
      TagPayloadsMonotone(g1, g2, tags[1..]);
    }
  }

  lemma {:induction false} PatternMonotone(g1: GlobalContext, g2: GlobalContext, p: Pattern)
    requires Wider(g1, g2)
    ensures CheckPattern(g1, p).Ok? ==> CheckPattern(g2, p).Ok?
  {
    match p
    case Succ(q) => PatternMonotone(g1, g2, q);
    case Tuple(ps) => PatternsMonotone(g1, g2, ps);
    case Record(fields) => FieldPatternsMonotone(g1, g2, fields);
    case Inl(q) => PatternMonotone(g1, g2, q);
    case Inr(q) => PatternMonotone(g1, g2, q);
    case List(ps) => PatternsMonotone(g1, g2, ps);
    case Cons(h, tl) => PatternMonotone(g1, g2, h); PatternMonotone(g1, g2, tl);
    case Variant(_, payload) => if payload.Some? { PatternMonotone(g1, g2, payload.value); }
    case Ascription(q, ty) => TypeMonotone(g1, g2, ty); PatternMonotone(g1, g2, q);
    case _ =>
  }

  lemma {:induction false} PatternsMonotone(g1: GlobalContext, g2: GlobalContext, ps: seq<Pattern>)
    requires Wider(g1, g2)
    ensures CheckPatterns(g1, ps).Ok? ==> CheckPatterns(g2, ps).Ok?
  {
    if ps != [] {
      PatternMonotone(g1, g2, ps[0]);
      PatternsMonotone(g1, g2, ps[1..]);
    }
  }

  lemma {:induction false} FieldPatternsMonotone(g1: GlobalContext, g2: GlobalContext, fields: seq<FieldPattern>)
    requires Wider(g1, g2)
    ensures CheckFieldPatterns(g1, fields).Ok? ==> CheckFieldPatterns(g2, fields).Ok?
  {
    if fields != [] {
      PatternMonotone(g1, g2, fields[0].pattern);
      FieldPatternsMonotone(g1, g2, fields[1..]);
    }
  }

  lemma {:induction false} ExpressionMonotone(g1: GlobalContext, g2: GlobalContext, e: Expression)
    requires Wider(g1, g2)
    ensures CheckExpression(g1, e).Ok? ==> CheckExpression(g2, e).Ok?
    decreases e, 1
  {
    if LambdaCalculusForm(e) {
      LambdaCalculusMonotone(g1, g2, e);
    } else if ProductForm(e) {
      ProductMonotone(g1, g2, e);
    } else if BindingForm(e) {
      BindingMonotone(g1, g2, e);
    } else if SumForm(e) {
      SumMonotone(g1, g2, e);
    } else if ListForm(e) {
      ListMonotone(g1, g2, e);
    }
  }

  predicate LambdaCalculusForm(e: Expression)
  {
    e.If? || e.Application? || e.Succ? || e.IsZero? || e.NatRec? || e.Abstraction?
  }

  predicate ProductForm(e: Expression)
  {
    e.Tuple? || e.DotTuple? || e.Record? || e.DotRecord?
  }

  predicate BindingForm(e: Expression)
  {
    e.Let? || e.LetRec? || e.TypeAscription?
  }

  predicate SumForm(e: Expression)
  {
    e.Inl? || e.Inr? || e.Match? || e.Variant? || e.Fix?
  }

  predicate ListForm(e: Expression)
  {
    e.List? || e.ConsList? || e.Head? || e.Tail? || e.IsEmpty?
  }

  lemma {:induction false} LambdaCalculusMonotone(g1: GlobalContext, g2: GlobalContext, e: Expression)
    requires Wider(g1, g2) && LambdaCalculusForm(e)
    ensures CheckExpression(g1, e).Ok? ==> CheckExpression(g2, e).Ok?
    decreases e, 0
  {
    match e
    case If(c, a, b) =>
      ExpressionMonotone(g1, g2, c); ExpressionMonotone(g1, g2, a); ExpressionMonotone(g1, g2, b);
    case Application(callee, args) =>
      ExpressionMonotone(g1, g2, callee); ExpressionsMonotone(g1, g2, args);
    case Succ(a) => ExpressionMonotone(g1, g2, a);
    case IsZero(a) => ExpressionMonotone(g1, g2, a);
    case NatRec(n, i, s) =>
      ExpressionMonotone(g1, g2, n); ExpressionMonotone(g1, g2, i); ExpressionMonotone(g1, g2, s);
    case Abstraction(params, body) =>
      TypesMonotone(g1, g2, ParamTypes(params)); ExpressionMonotone(g1, g2, body);
  }

  lemma {:induction false} ProductMonotone(g1: GlobalContext, g2: GlobalContext, e: Expression)
    requires Wider(g1, g2) && ProductForm(e)
    ensures CheckExpression(g1, e).Ok? ==> CheckExpression(g2, e).Ok?
    decreases e, 0
  {
    match e
    case Tuple(items) => ExpressionsMonotone(g1, g2, items);
    case DotTuple(t, _) => ExpressionMonotone(g1, g2, t);
    case Record(fields) => FieldExprsMonotone(g1, g2, fields);
    case DotRecord(r, _) => ExpressionMonotone(g1, g2, r);
  }

  lemma {:induction false} BindingMonotone(g1: GlobalContext, g2: GlobalContext, e: Expression)
    requires Wider(g1, g2) && BindingForm(e)
    ensures CheckExpression(g1, e).Ok? ==> CheckExpression(g2, e).Ok?
    decreases e, 0
  {
    match e
    case Let(bindings, body) =>
      if |bindings| == 1 { SingleBindingMonotone(g1, g2, e, bindings[0]); }
      ExpressionMonotone(g1, g2, body);
    case LetRec(bindings, body) =>
      if |bindings| == 1 { SingleBindingMonotone(g1, g2, e, bindings[0]); }
      ExpressionMonotone(g1, g2, body);
    case TypeAscription(a, ty) => ExpressionMonotone(g1, g2, a); TypeMonotone(g1, g2, ty);
  }

  lemma {:induction false} SumMonotone(g1: GlobalContext, g2: GlobalContext, e: Expression)
    requires Wider(g1, g2) && SumForm(e)
    ensures CheckExpression(g1, e).Ok? ==> CheckExpression(g2, e).Ok?
    decreases e, 0
  {
    match e
    case Inl(a) => ExpressionMonotone(g1, g2, a);
    case Inr(a) => ExpressionMonotone(g1, g2, a);
    case Match(scrutinee, cases) =>
      ExpressionMonotone(g1, g2, scrutinee);
      PatternsMonotone(g1, g2, CasePatterns(cases));
      CaseBodiesMonotone(g1, g2, cases);
    case Variant(_, payload) => if payload.Some? { ExpressionMonotone(g1, g2, payload.value); }
    case Fix(a) => ExpressionMonotone(g1, g2, a);
  }

  lemma {:induction false} ListMonotone(g1: GlobalContext, g2: GlobalContext, e: Expression)
    requires Wider(g1, g2) && ListForm(e)
    ensures CheckExpression(g1, e).Ok? ==> CheckExpression(g2, e).Ok?
    decreases e, 0
  {
    match e
    case List(items) => ExpressionsMonotone(g1, g2, items);
    case ConsList(h, tl) => ExpressionMonotone(g1, g2, h); ExpressionMonotone(g1, g2, tl);
    case Head(a) => ExpressionMonotone(g1, g2, a);
    case Tail(a) => ExpressionMonotone(g1, g2, a);
    case IsEmpty(a) => ExpressionMonotone(g1, g2, a);
  }

  lemma {:induction false} SingleBindingMonotone(g1: GlobalContext, g2: GlobalContext, e: Expression, b: PatternBinding)
    requires Wider(g1, g2)
    ensures CheckSingleBinding(g1, e, b).Ok? ==> CheckSingleBinding(g2, e, b).Ok?
    decreases b, 2
  {
    PatternMonotone(g1, g2, b.pattern);
    ExpressionMonotone(g1, g2, b.rhs);
  }

  lemma {:induction false} ExpressionsMonotone(g1: GlobalContext, g2: GlobalContext, es: seq<Expression>)
    requires Wider(g1, g2)
    ensures CheckExpressions(g1, es).Ok? ==> CheckExpressions(g2, es).Ok?
    decreases es, 3
  {
    if es != [] {
      ExpressionMonotone(g1, g2, es[0]);
      ExpressionsMonotone(g1, g2, es[1..]);
    }
  }

  lemma {:induction false} FieldExprsMonotone(g1: GlobalContext, g2: GlobalContext, fields: seq<FieldExpr>)
    requires Wider(g1, g2)
    ensures CheckFieldExprs(g1, fields).Ok? ==> CheckFieldExprs(g2, fields).Ok?
    decreases fields, 3
  {
    if fields != [] {
      FieldExprMonotone(g1, g2, fields[0]);
      FieldExprsMonotone(g1, g2, fields[1..]);
    }
  }

  lemma {:induction false} FieldExprMonotone(g1: GlobalContext, g2: GlobalContext, f: FieldExpr)
    requires Wider(g1, g2)
    ensures CheckFieldExpr(g1, f).Ok? ==> CheckFieldExpr(g2, f).Ok?
    decreases f, 2
  {
    ExpressionMonotone(g1, g2, f.expr);
  }

  lemma {:induction false} CaseBodiesMonotone(g1: GlobalContext, g2: GlobalContext, cases: seq<MatchCase>)
    requires Wider(g1, g2)
    ensures CheckCaseBodies(g1, cases).Ok? ==> CheckCaseBodies(g2, cases).Ok?
    decreases cases, 3
  {
    if cases != [] {
      CaseBodyMonotone(g1, g2, cases[0]);
      CaseBodiesMonotone(g1, g2, cases[1..]);
    }
  }

  lemma {:induction false} CaseBodyMonotone(g1: GlobalContext, g2: GlobalContext, arm: MatchCase)
    requires Wider(g1, g2)
    ensures CheckCaseBody(g1, arm).Ok? ==> CheckCaseBody(g2, arm).Ok?
    decreases arm, 2
  {
    ExpressionMonotone(g1, g2, arm.body);
  }

  /** A declaration legal under `g1` stays legal under any `g2` that enables at least as much. */
  lemma {:induction false} DeclarationMonotone(g1: GlobalContext, g2: GlobalContext, rule: ArityRule, d: Declaration)
    requires Wider(g1, g2)
    ensures CheckDeclaration(g1, rule, d).Ok? ==> CheckDeclaration(g2, rule, d).Ok?
  {
    if d.FunctionDecl? {
      TypesMonotone(g1, g2, ParamTypes(d.params));
      if d.returnType.Some? {
        TypeMonotone(g1, g2, d.returnType.value);
      }
      DeclarationsMonotone(g1, g2, rule, d.body);
      ExpressionMonotone(g1, g2, d.returnExpr);
    }
  }

  lemma {:induction false} DeclarationsMonotone(g1: GlobalContext, g2: GlobalContext, rule: ArityRule, ds: seq<Declaration>)
    requires Wider(g1, g2)
    ensures CheckDeclarations(g1, rule, ds).Ok? ==> CheckDeclarations(g2, rule, ds).Ok?
  {
    if ds != [] {
      DeclarationMonotone(g1, g2, rule, ds[0]);
      DeclarationsMonotone(g1, g2, rule, ds[1..]);
    }
  }

  /** The declarations are legal exactly when each of them is. */
  lemma {:induction false} CheckDeclarationsOk(g: GlobalContext, rule: ArityRule, ds: seq<Declaration>)
    ensures CheckDeclarations(g, rule, ds).Ok? <==> forall i :: 0 <= i < |ds| ==> CheckDeclaration(g, rule, ds[i]).Ok?
  {
    if ds != [] {
      CheckDeclarationsOk(g, rule, ds[1..]);
      if forall i :: 0 <= i < |ds| ==> CheckDeclaration(g, rule, ds[i]).Ok? {
        forall i | 0 <= i < |ds[1..]|
          ensures CheckDeclaration(g, rule, ds[1..][i]).Ok?
        {
          assert ds[1..][i] == ds[i + 1];
        }
      }
      if CheckDeclarations(g, rule, ds).Ok? {
        forall i | 0 <= i < |ds|
          ensures CheckDeclaration(g, rule, ds[i]).Ok?
        {
          if i > 0 {
            assert ds[1..][i - 1] == ds[i];
          }
        }
      }
    }
  }
}
