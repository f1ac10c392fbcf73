/** The checker's failures: the semantic error tags with their stable codes
  * (Sources/Stellance/Errors.swift) and the two kinds of failure a check can
  * end with (the `Code` enum of Sources/Stellance/main.swift). */
module Errors {
  import opened Wrappers
  import opened Extensions
  import opened Syntax

  /** The semantic error tags. The first 32 are the cases of `TypeCheckError`
    * in Errors.swift; the rest are thrown by the checker with payloads and have
    * no code in that file. The spelling of the source's case names is kept. */
  datatype ErrorTag =
    | MissingMain | UndefinedVariable | UnexpectedType | NotAFunction | NotATuple
    | NotARecord | NotAList | UnexpectedLambda | UnexpectedParameterType | UnexpectedTuple
    | UnexpectedRecord | UnexpectedVariant | UnexpectedList | UnexpectedInjection | MissingFields
    | UnexpectedFields | UnexpectedFieldAccess | UnexpectedTag | UnexpectedIndex | UnexpectedLength
    | AmbiguosSum | AmbiguosVariant | AmbiguosList | EmptyMatch | NonexhaustiveMatch
    | UnexpectedPattern | DuplicateFields | DuplicateTypeFields | DuplicateTypeTags
    | IncorrectMainArity | IncorrectArgumentsNumber | UnexpectedParametersNumber
    // thrown by the checker, not listed in Errors.swift
    | UnexpectedSubtype | NotAReference | AmbiguousReference | AmbiguousPanic
    | ExceptionNotDeclared | AmbiguousThrow | MissingData | UnexpectedData
    | UnexpectedReference | UnexpectedAddress | UnexpectedNullVariantPattern
    | UnexpectedNonNullVariantPattern | AmbiguosPattern | DuplicatePatternFields

  /** The tag is a case of `TypeCheckError` in Errors.swift, so it has a code. */
  predicate HasCode(t: ErrorTag)
  {
    !(t.UnexpectedSubtype? || t.NotAReference? || t.AmbiguousReference? || t.AmbiguousPanic? ||
      t.ExceptionNotDeclared? || t.AmbiguousThrow? || t.MissingData? || t.UnexpectedData? ||
      t.UnexpectedReference? || t.UnexpectedAddress? || t.UnexpectedNullVariantPattern? ||
      t.UnexpectedNonNullVariantPattern? || t.AmbiguosPattern? || t.DuplicatePatternFields?)
  }

  /** The `code` mapping exactly as Errors.swift writes it, including the
    * misspelt code of `undefinedVariable`: `ERROR_` followed by the words below. */
  function CodeAsWritten(t: ErrorTag): (c: string)
    requires HasCode(t)
    ensures |c| >= 6 && c[..6] == "ERROR_"
  {
    "ERROR_" + SuffixAsWritten(t)
  }

  function SuffixAsWritten(t: ErrorTag): string
    requires HasCode(t)
  {
    match t
    case MissingMain => "MISSING_MAIN"
    case UndefinedVariable => "UDEFINED_VARIABLE"
    case UnexpectedType => "UNEXPECTED_TYPE_FOR_EXPRESSION"
    case NotAFunction => "NOT_A_FUNCTION"
    case NotATuple => "NOT_A_TUPLE"
    case NotARecord => "NOT_A_RECORD"
    case NotAList => "NOT_A_LIST"
    case UnexpectedLambda => "UNEXPECTED_LAMBDA"
    case UnexpectedParameterType => "UNEXPECTED_TYPE_FOR_PARAMETER"
    case UnexpectedTuple => "UNEXPECTED_TUPLE"
    case UnexpectedRecord => "UNEXPECTED_RECORD"
    case UnexpectedVariant => "UNEXPECTED_VARIANT"
    case UnexpectedList => "UNEXPECTED_LIST"
    case UnexpectedInjection => "UNEXPECTED_INJECTION"
    case MissingFields => "MISSING_RECORD_FIELDS"
    case UnexpectedFields => "UNEXPECTED_RECORD_FIELDS"
    case UnexpectedFieldAccess => "UNEXPECTED_FIELD_ACCESS"
    case UnexpectedTag => "UNEXPECTED_VARIANT_LABEL"
    case UnexpectedIndex => "TUPLE_INDEX_OUT_OF_BOUNDS"
    case UnexpectedLength => "UNEXPECTED_TUPLE_LENGTH"
    case AmbiguosSum => "AMBIGUOUS_SUM_TYPE"
    case AmbiguosVariant => "AMBIGUOUS_VARIANT_TYPE"
    case AmbiguosList => "AMBIGUOUS_LIST"
    case EmptyMatch => "ILLEGAL_EMPTY_MATCHING"
    case NonexhaustiveMatch => "NONEXHAUSTIVE_MATCH_PATTERNS"
    case UnexpectedPattern => "UNEXPECTED_PATTERN_FOR_TYPE"
    case DuplicateFields => "DUPLICATE_RECORD_FIELDS"
    case DuplicateTypeFields => "DUPLICATE_RECORD_TYPE_FIELDS"
    case DuplicateTypeTags => "DUPLICATE_VARIANT_TYPE_FIELDS"
    case IncorrectMainArity => "INCORRECT_ARITY_OF_MAIN"
    case IncorrectArgumentsNumber => "INCORRECT_NUMBER_OF_ARGUMENTS"
    case UnexpectedParametersNumber => "UNEXPECTED_NUMBER_OF_PARAMETERS_IN_LAMBDA"
  }

  /** The misspelling: the code of an undefined variable does not spell the
    * words of its tag, so it can never equal the code reported under that name. */
  lemma UndefinedVariableCodeMisspelt()
    ensures CodeAsWritten(UndefinedVariable) != "ERROR_UNDEFINED_VARIABLE"
    ensures forall t :: HasCode(t) && t != UndefinedVariable ==> Code(t) == CodeAsWritten(t)
  {
    assert CodeAsWritten(UndefinedVariable)[7] == 'D';
  }

  /** The `code` mapping with the misspelling corrected. The source's table is `CodeAsWritten`,
    * on which `ReportedCode` is built; this one is kept to state the intended codes. */
  function Code(t: ErrorTag): (c: string)
    requires HasCode(t)
    ensures t == UndefinedVariable ==> c == "ERROR_UNDEFINED_VARIABLE"
    ensures |c| >= 6 && c[..6] == "ERROR_"
  {
    "ERROR_" + Suffix(t)
  }

  function Suffix(t: ErrorTag): string
    requires HasCode(t)
  {
    if t == UndefinedVariable then "UNDEFINED_VARIABLE" else SuffixAsWritten(t)
  }

  /** The tag a code stands for: the inverse of `Code`. */
  function TagOfCode(c: string): Option<ErrorTag>
  {
    if |c| >= 6 && c[..6] == "ERROR_" then TagOfSuffix(c[6..]) else None
  }

  /** The tag whose code ends in `s`; the candidates are grouped by length. */
  function TagOfSuffix(s: string): Option<ErrorTag>
  {
    if |s| == 10 then
      if s == "NOT_A_LIST" then Some(NotAList)
      else None
    else if |s| == 11 then
      if s == "NOT_A_TUPLE" then Some(NotATuple)
      else None
    else if |s| == 12 then
      if s == "MISSING_MAIN" then Some(MissingMain)
      else if s == "NOT_A_RECORD" then Some(NotARecord)
      else None
    else if |s| == 14 then
      if s == "NOT_A_FUNCTION" then Some(NotAFunction)
      else if s == "AMBIGUOUS_LIST" then Some(AmbiguosList)
      else None
    else if |s| == 15 then
      if s == "UNEXPECTED_LIST" then Some(UnexpectedList)
      else None
    else if |s| == 16 then
      if s == "UNEXPECTED_TUPLE" then Some(UnexpectedTuple)
      else None
    else if |s| == 17 then
      if s == "UNEXPECTED_LAMBDA" then Some(UnexpectedLambda)
      else if s == "UNEXPECTED_RECORD" then Some(UnexpectedRecord)
      else None
    else if |s| == 18 then
      if s == "UNDEFINED_VARIABLE" then Some(UndefinedVariable)
      else if s == "UNEXPECTED_VARIANT" then Some(UnexpectedVariant)
      else if s == "AMBIGUOUS_SUM_TYPE" then Some(AmbiguosSum)
      else None
    else if |s| == 20 then
      if s == "UNEXPECTED_INJECTION" then Some(UnexpectedInjection)
      else None
    else if |s| == 21 then
      if s == "MISSING_RECORD_FIELDS" then Some(MissingFields)
      else None
    else if |s| == 22 then
      if s == "AMBIGUOUS_VARIANT_TYPE" then Some(AmbiguosVariant)
      else if s == "ILLEGAL_EMPTY_MATCHING" then Some(EmptyMatch)
      else None
    else if |s| == 23 then
      if s == "UNEXPECTED_FIELD_ACCESS" then Some(UnexpectedFieldAccess)
      else if s == "UNEXPECTED_TUPLE_LENGTH" then Some(UnexpectedLength)
      else if s == "DUPLICATE_RECORD_FIELDS" then Some(DuplicateFields)
      else if s == "INCORRECT_ARITY_OF_MAIN" then Some(IncorrectMainArity)
      else None
    else if |s| == 24 then
      if s == "UNEXPECTED_RECORD_FIELDS" then Some(UnexpectedFields)
      else if s == "UNEXPECTED_VARIANT_LABEL" then Some(UnexpectedTag)
      else None
    else if |s| == 25 then
      if s == "TUPLE_INDEX_OUT_OF_BOUNDS" then Some(UnexpectedIndex)
      else None
    else if |s| == 27 then
      if s == "UNEXPECTED_PATTERN_FOR_TYPE" then Some(UnexpectedPattern)
      else None
    else if |s| == 28 then
      if s == "NONEXHAUSTIVE_MATCH_PATTERNS" then Some(NonexhaustiveMatch)
      else if s == "DUPLICATE_RECORD_TYPE_FIELDS" then Some(DuplicateTypeFields)
      else None
    else if |s| == 29 then
      if s == "UNEXPECTED_TYPE_FOR_PARAMETER" then Some(UnexpectedParameterType)
      else if s == "DUPLICATE_VARIANT_TYPE_FIELDS" then Some(DuplicateTypeTags)
      else if s == "INCORRECT_NUMBER_OF_ARGUMENTS" then Some(IncorrectArgumentsNumber)
      else None
    else if |s| == 30 then
      if s == "UNEXPECTED_TYPE_FOR_EXPRESSION" then Some(UnexpectedType)
      else None
    else if |s| == 41 then
      if s == "UNEXPECTED_NUMBER_OF_PARAMETERS_IN_LAMBDA" then Some(UnexpectedParametersNumber)
      else None
    else None
  }

  /** Every code reads back as its own tag. */
  lemma TagOfCodeInverts(t: ErrorTag)
    requires HasCode(t)
    ensures TagOfCode(Code(t)) == Some(t)
  {
    assert Code(t)[6..] == Suffix(t);
    if t.MissingMain? || t.UndefinedVariable? || t.UnexpectedType? || t.NotAFunction? || t.NotATuple? || t.NotARecord? || t.NotAList? || t.UnexpectedLambda? {
      SuffixInvertsA(t);
    } else if t.UnexpectedParameterType? || t.UnexpectedTuple? || t.UnexpectedRecord? || t.UnexpectedVariant? || t.UnexpectedList? || t.UnexpectedInjection? || t.MissingFields? || t.UnexpectedFields? {
      SuffixInvertsB(t);
    } else if t.UnexpectedFieldAccess? || t.UnexpectedTag? || t.UnexpectedIndex? || t.UnexpectedLength? || t.AmbiguosSum? || t.AmbiguosVariant? || t.AmbiguosList? || t.EmptyMatch? {
      SuffixInvertsC(t);
    } else if t.NonexhaustiveMatch? || t.UnexpectedPattern? || t.DuplicateFields? || t.DuplicateTypeFields? {
      SuffixInvertsD(t);
    } else if t.DuplicateTypeTags? || t.IncorrectMainArity? {
      SuffixInvertsE(t);
    } else {
      SuffixInvertsF(t);
    }
  }

  /** The suffixes of the first eight coded tags, in declaration order, read back as their tags. */
  lemma SuffixInvertsA(t: ErrorTag)
    requires t.MissingMain? || t.UndefinedVariable? || t.UnexpectedType? || t.NotAFunction? || t.NotATuple? || t.NotARecord? || t.NotAList? || t.UnexpectedLambda?
    ensures TagOfSuffix(Suffix(t)) == Some(t)
  {
  }

  /** The suffixes of the second eight coded tags, in declaration order, read back as their tags. */
  lemma SuffixInvertsB(t: ErrorTag)
    requires t.UnexpectedParameterType? || t.UnexpectedTuple? || t.UnexpectedRecord? || t.UnexpectedVariant? || t.UnexpectedList? || t.UnexpectedInjection? || t.MissingFields? || t.UnexpectedFields?
    ensures TagOfSuffix(Suffix(t)) == Some(t)
  {
  }

  /** The suffixes of the third eight coded tags, in declaration order, read back as their tags. */
  lemma SuffixInvertsC(t: ErrorTag)
    requires t.UnexpectedFieldAccess? || t.UnexpectedTag? || t.UnexpectedIndex? || t.UnexpectedLength? || t.AmbiguosSum? || t.AmbiguosVariant? || t.AmbiguosList? || t.EmptyMatch?
    ensures TagOfSuffix(Suffix(t)) == Some(t)
  {
  }

  /** The suffixes of the next four coded tags, in declaration order, read back as their tags. */
  lemma SuffixInvertsD(t: ErrorTag)
    requires t.NonexhaustiveMatch? || t.UnexpectedPattern? || t.DuplicateFields? || t.DuplicateTypeFields?
    ensures TagOfSuffix(Suffix(t)) == Some(t)
  {
  }

  /** The suffixes of the next two coded tags, in declaration order, read back as their tags. */
  lemma SuffixInvertsE(t: ErrorTag)
    requires t.DuplicateTypeTags? || t.IncorrectMainArity?
    ensures TagOfSuffix(Suffix(t)) == Some(t)
  {
  }

  /** The suffixes of the last two coded tags, in declaration order, read back as their tags. */
  lemma SuffixInvertsF(t: ErrorTag)
    requires t.IncorrectArgumentsNumber? || t.UnexpectedParametersNumber?
    ensures TagOfSuffix(Suffix(t)) == Some(t)
  {
  }

  /** The corrected `code` is injective: no two tags share a code. */
  lemma CodeInjective(a: ErrorTag, b: ErrorTag)
    requires HasCode(a) && HasCode(b) && Code(a) == Code(b)
    ensures a == b
  {
    TagOfCodeInverts(a);
    TagOfCodeInverts(b);
  }

  /** The source's `code` is injective too: the misspelt code is no other tag's code. */
  lemma CodeAsWrittenInjective(a: ErrorTag, b: ErrorTag)
    requires HasCode(a) && HasCode(b) && CodeAsWritten(a) == CodeAsWritten(b)
    ensures a == b
  {
    if a == UndefinedVariable || b == UndefinedVariable {
      MisspeltCodeIsOnlyItsOwn(a, b);
    } else {
      CodesAgree(a);
      CodesAgree(b);
      CodeInjective(a, b);
    }
  }

  /** Only undefined-variable has the misspelt code in the source's table. */
  lemma MisspeltCodeIsOnlyItsOwn(a: ErrorTag, b: ErrorTag)
    requires HasCode(a) && HasCode(b) && CodeAsWritten(a) == CodeAsWritten(b)
    requires a == UndefinedVariable || b == UndefinedVariable
    ensures a == b
  {
    CodesAgree(a);
    CodesAgree(b);
  }

  /** The source's code of a tag is its corrected code, except for undefined-variable,
    * whose code is no tag's corrected code. */
  lemma CodesAgree(t: ErrorTag)
    requires HasCode(t)
    ensures t != UndefinedVariable ==> CodeAsWritten(t) == Code(t) && Code(t) != "ERROR_UDEFINED_VARIABLE"
    ensures t == UndefinedVariable ==> CodeAsWritten(t) == "ERROR_UDEFINED_VARIABLE"
  {
    if t != UndefinedVariable {
      assert Suffix(t) == SuffixAsWritten(t);
      MisspeltCodeIsNoCode(t);
    }
  }

  /** No tag's corrected code is the misspelt one. */
  lemma MisspeltCodeIsNoCode(t: ErrorTag)
    requires HasCode(t)
    ensures Code(t) != "ERROR_UDEFINED_VARIABLE"
  {
    TagOfCodeInverts(t);
    assert TagOfCode("ERROR_UDEFINED_VARIABLE") == None;
  }

  /** The generic summary line of a tag (`message`). */
  function Message(t: ErrorTag): (m: Option<string>)
    ensures m.Some? <==> t == MissingMain || t == IncorrectMainArity
  {
    match t
    case MissingMain => Some("main function is missing from the program")
    case IncorrectMainArity => Some("main function must have one and only one parameter")
    case _ => None
  }

  /** The code the repository's tests compare for a tag: the source's `code`,
    * with `ERROR_AMBIGUOUS_LIST` read as `ERROR_AMBIGUOUS_LIST_TYPE`
    * (Tests/StellanceTests/StellanceTest.swift:44-49). */
  function ReportedCode(t: ErrorTag): (c: string)
    requires HasCode(t)
    ensures t == AmbiguosList ==> c == "ERROR_AMBIGUOUS_LIST_TYPE"
    ensures t != AmbiguosList ==> c == CodeAsWritten(t)
  {
    if CodeAsWritten(t) == "ERROR_AMBIGUOUS_LIST" then
      CodeAsWrittenInjective(t, AmbiguosList);
      "ERROR_AMBIGUOUS_LIST_TYPE"
    else CodeAsWritten(t)
  }

  /** The compared codes still tell the tags apart. */
  lemma ReportedCodeInjective(a: ErrorTag, b: ErrorTag)
    requires HasCode(a) && HasCode(b) && ReportedCode(a) == ReportedCode(b)
    ensures a == b
  {
    if a != AmbiguosList && b != AmbiguosList {
      CodeAsWrittenInjective(a, b);
    } else if a != AmbiguosList {
      ListTypeCodeIsNoCode(a);
    } else if b != AmbiguosList {
      ListTypeCodeIsNoCode(b);
    }
  }

  /** `ERROR_AMBIGUOUS_LIST_TYPE` is no tag's code in the source's table. */
  lemma ListTypeCodeIsNoCode(t: ErrorTag)
    requires HasCode(t)
    ensures CodeAsWritten(t) != "ERROR_AMBIGUOUS_LIST_TYPE"
  {
    CodesAgree(t);
    if t != UndefinedVariable {
      TagOfCodeInverts(t);
      assert TagOfCode("ERROR_AMBIGUOUS_LIST_TYPE") == None;
    }
  }

  /** How a check ends when it does not succeed (the `Code` enum of main.swift):
    * a construct the legality checker does not license, a semantic error, or a
    * runtime trap of `Dictionary(uniqueKeysWithValues:)` on a repeated key. */
  datatype Failure =
    | Unsupported(node: Syntax, description: Option<string>, tryEnabling: Option<KnownExtension>)
    | Error(tag: ErrorTag)
    | Trap

  /** The result of a check that may fail, usable with `:-`. */
  datatype Result<+T> = Ok(value: T) | Fail(failure: Failure) {
    predicate IsFailure() { Fail? }
    function PropagateFailure<U>(): Result<U> requires Fail? { Fail(failure) }
    function Extract(): T requires Ok? { value }
  }
}
