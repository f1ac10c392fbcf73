/** The closed set of language extensions the checker knows by name
  * (the `KnownExtension` enum of Sources/Stellance/Model.swift). */
module Extensions {
  import opened Wrappers

  datatype KnownExtension =
    | UnitType | Pairs | Tuples | Records | LetBindings | LetPatterns | LetManyVars
    | TypeAscriptions | SumTypes | Lists | Variants | Fixpoint
    | NatLiterals | NullFunctions | MultiFunctions | NestedDeclarations
    | StructuralPatterns | NullVariants | Letrec | PatternAscriptions
    | Sequencing | References | Panic | Exceptions
    | ExceptionTypeDeclarations | OpenVariantExceptions
    | Subtyping
    | Top | Bot | AsBottom
    | Cast | TryCast | CastPatterns

  /** The raw value of the enum case: the name written after `#` in a program. */
  function Name(e: KnownExtension): string
  {
    match e
    case UnitType => "unit-type"
    case Pairs => "pairs"
    case Tuples => "tuples"
    case Records => "records"
    case LetBindings => "let-bindings"
    case LetPatterns => "let-patterns"
    case LetManyVars => "let-many-bindings"
    case TypeAscriptions => "type-ascriptions"
    case SumTypes => "sum-types"
    case Lists => "lists"
    case Variants => "variants"
    case Fixpoint => "fixpoint-combinator"
    case NatLiterals => "natural-literals"
    case NullFunctions => "nullary-functions"
    case MultiFunctions => "multiparameter-functions"
    case NestedDeclarations => "nested-function-declarations"
    case StructuralPatterns => "structural-patterns"
    case NullVariants => "nullary-variant-labels"
    case Letrec => "letrec-bindings"
    case PatternAscriptions => "pattern-ascriptions"
    case Sequencing => "sequencing"
    case References => "references"
    case Panic => "panic"
    case Exceptions => "exceptions"
    case ExceptionTypeDeclarations => "exception-type-declaration"
    case OpenVariantExceptions => "open-variant-exceptions"
    case Subtyping => "structural-subtyping"
    case Top => "top-type"
    case Bot => "bottom-type"
    case AsBottom => "ambiguous-type-as-bottom"
    case Cast => "type-cast"
    case TryCast => "try-cast-as"
    case CastPatterns => "type-cast-patterns"
  }

  /** `KnownExtension(rawValue:)`: the case whose raw value is `s`, if any
    * (the candidates are grouped by the length of their raw value). */
  function Parse(s: string): Option<KnownExtension>
  {
    if |s| == 5 then
      if s == "pairs" then Some(Pairs)
      else if s == "lists" then Some(Lists)
      else if s == "panic" then Some(Panic)
      else None
    else if |s| == 6 then
      if s == "tuples" then Some(Tuples)
      else None
    else if |s| == 7 then
      if s == "records" then Some(Records)
      else None
    else if |s| == 8 then
      if s == "variants" then Some(Variants)
      else if s == "top-type" then Some(Top)
      else None
    else if |s| == 9 then
      if s == "unit-type" then Some(UnitType)
      else if s == "sum-types" then Some(SumTypes)
      else if s == "type-cast" then Some(Cast)
      else None
    else if |s| == 10 then
      if s == "sequencing" then Some(Sequencing)
      else if s == "references" then Some(References)
      else if s == "exceptions" then Some(Exceptions)
      else None
    else if |s| == 11 then
      if s == "bottom-type" then Some(Bot)
      else if s == "try-cast-as" then Some(TryCast)
      else None
    else if |s| == 12 then
      if s == "let-bindings" then Some(LetBindings)
      else if s == "let-patterns" then Some(LetPatterns)
      else None
    else if |s| == 15 then
      if s == "letrec-bindings" then Some(Letrec)
      else None
    else if |s| == 16 then
      if s == "type-ascriptions" then Some(TypeAscriptions)
      else if s == "natural-literals" then Some(NatLiterals)
      else None
    else if |s| == 17 then
      if s == "let-many-bindings" then Some(LetManyVars)
      else if s == "nullary-functions" then Some(NullFunctions)
      else None
    else if |s| == 18 then
      if s == "type-cast-patterns" then Some(CastPatterns)
      else None
    else if |s| == 19 then
      if s == "fixpoint-combinator" then Some(Fixpoint)
      else if s == "structural-patterns" then Some(StructuralPatterns)
      else if s == "pattern-ascriptions" then Some(PatternAscriptions)
      else None
    else if |s| == 20 then
      if s == "structural-subtyping" then Some(Subtyping)
      else None
    else if |s| == 22 then
      if s == "nullary-variant-labels" then Some(NullVariants)
      else None
    else if |s| == 23 then
      if s == "open-variant-exceptions" then Some(OpenVariantExceptions)
      else None
    else if |s| == 24 then
      if s == "multiparameter-functions" then Some(MultiFunctions)
      else if s == "ambiguous-type-as-bottom" then Some(AsBottom)
      else None
    else if |s| == 26 then
      if s == "exception-type-declaration" then Some(ExceptionTypeDeclarations)
      else None
    else if |s| == 28 then
      if s == "nested-function-declarations" then Some(NestedDeclarations)
      else None
    else None
  }

  /** `description`: the extension as it is written in a program. */
  function Description(e: KnownExtension): (d: string)
    ensures |d| == |Name(e)| + 1 && d[0] == '#' && d[1..] == Name(e)
  {
    "#" + Name(e)
  }

  /** Parsing a raw value gives back its case. */
  lemma ParseName(e: KnownExtension)
    ensures Parse(Name(e)) == Some(e)
  {
    if e.UnitType? || e.Pairs? || e.Tuples? || e.Records? || e.LetBindings? || e.LetPatterns? || e.LetManyVars? {
      ParseNameA(e);
    } else if e.TypeAscriptions? || e.SumTypes? || e.Lists? || e.Variants? || e.Fixpoint? || e.NatLiterals? || e.NullFunctions? {
      ParseNameB(e);
    } else if e.MultiFunctions? || e.NestedDeclarations? || e.StructuralPatterns? || e.NullVariants? || e.Letrec? || e.PatternAscriptions? || e.Sequencing? {
      ParseNameC(e);
    } else if e.References? || e.Panic? || e.Exceptions? || e.ExceptionTypeDeclarations? || e.OpenVariantExceptions? || e.Subtyping? {
      ParseNameD(e);
    } else if e.Top? || e.Bot? || e.AsBottom? {
      ParseNameE(e);
    } else {
      ParseNameF(e);
    }
  }

  /** The same, for the cases from `UnitType` to `LetManyVars` in declaration order. */
  lemma ParseNameA(e: KnownExtension)
    requires e.UnitType? || e.Pairs? || e.Tuples? || e.Records? || e.LetBindings? || e.LetPatterns? || e.LetManyVars?
    ensures Parse(Name(e)) == Some(e)
  {
  }

  /** The same, for the cases from `TypeAscriptions` to `NullFunctions` in declaration order. */
  lemma ParseNameB(e: KnownExtension)
    requires e.TypeAscriptions? || e.SumTypes? || e.Lists? || e.Variants? || e.Fixpoint? || e.NatLiterals? || e.NullFunctions?
    ensures Parse(Name(e)) == Some(e)
  {
  }

  /** The same, for the cases from `MultiFunctions` to `Sequencing` in declaration order. */
  lemma ParseNameC(e: KnownExtension)
    requires e.MultiFunctions? || e.NestedDeclarations? || e.StructuralPatterns? || e.NullVariants? || e.Letrec? || e.PatternAscriptions? || e.Sequencing?
    ensures Parse(Name(e)) == Some(e)
  {
  }

  /** The same, for the cases from `References` to `Subtyping` in declaration order. */
  lemma ParseNameD(e: KnownExtension)
    requires e.References? || e.Panic? || e.Exceptions? || e.ExceptionTypeDeclarations? || e.OpenVariantExceptions? || e.Subtyping?
    ensures Parse(Name(e)) == Some(e)
  {
  }

  /** The same, for the cases from `Top` to `AsBottom` in declaration order. */
  lemma ParseNameE(e: KnownExtension)
    requires e.Top? || e.Bot? || e.AsBottom?
    ensures Parse(Name(e)) == Some(e)
  {
  }

  /** The same, for the cases from `Cast` to `CastPatterns` in declaration order. */
  lemma ParseNameF(e: KnownExtension)
    requires e.Cast? || e.TryCast? || e.CastPatterns?
    ensures Parse(Name(e)) == Some(e)
  {
  }

  /** No two cases share a raw value. */
  lemma NameInjective(a: KnownExtension, b: KnownExtension)
    requires Name(a) == Name(b)
    ensures a == b
  {
    ParseName(a);
    ParseName(b);
  }

  /** A name that parses is the raw value of the case it parses to
    * (proved by the length of the name). */
  lemma ParseSound(s: string)
    ensures Parse(s).Some? ==> Name(Parse(s).value) == s
  {
    if |s| <= 7 {
      ParseSoundUpTo7(s);
    } else if |s| <= 10 {
      ParseSoundUpTo10(s);
    } else if |s| <= 16 {
      ParseSoundUpTo16(s);
    } else if |s| <= 18 {
      ParseSoundUpTo18(s);
    } else if |s| == 19 {
      ParseSoundOf19(s);
    } else if |s| <= 23 {
      ParseSoundUpTo23(s);
    } else {
      ParseSoundLong(s);
    }
  }

  lemma ParseSoundUpTo7(s: string)
    requires |s| <= 7
    ensures Parse(s).Some? ==> Name(Parse(s).value) == s
  {
  }

  lemma ParseSoundUpTo10(s: string)
    requires 8 <= |s| <= 10
    ensures Parse(s).Some? ==> Name(Parse(s).value) == s
  {
  }

  lemma ParseSoundUpTo16(s: string)
    requires 11 <= |s| <= 16
    ensures Parse(s).Some? ==> Name(Parse(s).value) == s
  {
  }

  lemma ParseSoundUpTo18(s: string)
    requires 17 <= |s| <= 18
    ensures Parse(s).Some? ==> Name(Parse(s).value) == s
  {
  }

  lemma ParseSoundOf19(s: string)
    requires |s| == 19
    ensures Parse(s).Some? ==> Name(Parse(s).value) == s
  {
  }

  lemma ParseSoundUpTo23(s: string)
    requires 20 <= |s| <= 23
    ensures Parse(s).Some? ==> Name(Parse(s).value) == s
  {
  }

  lemma ParseSoundLong(s: string)
    requires 24 <= |s|
    ensures Parse(s).Some? ==> Name(Parse(s).value) == s
  {
  }
}
