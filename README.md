# Stellance, modelled in Dafny

Stellance is a static type checker for Stella, a small teaching language. It
takes a parsed program and runs two passes over it:

1. A **legality** pass (`SyntaxCheck/`). Every type, pattern, expression and
   declaration must be licensed by at least one language extension that the
   program enables with `#extension` lines. Duplicate record fields and variant
   tags, an empty `match`, and the declaration kinds it does not implement are
   rejected here.
2. A **bidirectional type checker**. INFER (`context |- e`) computes a type.
   CHECK (`context |- e <= T`) checks an expression against an expected type.
   Patterns bind names into a persistent linked context
   (`context + (pattern ~> type)`). `match` must pass a shallow exhaustiveness
   test (`|?`).

The program-level driver (`main.swift`) does three things:
- it builds the global context from the function signatures and the enabled
  extensions;
- it runs the legality pass over every declaration;
- it insists on a unary `main` and checks every function's return expression
  against its declared return type.

Every failure ends the run with a tag. A tag is either a semantic error with an
error code, or "unsupported", which names a construct and may suggest an
extension to enable.

The model keeps that structure, one Dafny module per source file:

| module | file | models |
|---|---|---|
| `Extensions` | `extensions.dfy` | `KnownExtension`, its raw names and `#`-description |
| `Syntax` | `syntax.dfy` | the Stella syntax tree |
| `Errors` | `errors.dfy` | error tags, codes, messages, and the failure type |
| `Contexts` | `contexts.dfy` | global and local contexts, lookup, flag and exception-type inheritance |
| `Utils` | `utils.dfy` | `anySatisfy`, as a loop |
| `Patterns` | `patterns.dfy` | typed and untyped pattern binding |
| `Exhaustiveness` | `exhaustiveness.dfy` | the `|?` approximation |
| `Typing` | `typing.dfy` | INFER, CHECK and `compare` |
| `TypingFacts` | `typing_lemmas.dfy` | the rules INFER and CHECK promise |
| `Legacy` | `legacy.dfy` | the earlier INFER/CHECK of `Expression.swift` |
| `LegacyFacts` | `legacy_lemmas.dfy` | their rules, and that the current checker refines them |
| `Legality` | `legality.dfy` | the legality pass |
| `LegalityFacts` | `legality_lemmas.dfy` | what each construct needs, and monotonicity in the enabled extensions |
| `ProgramCheck` | `program.dfy` | signatures, extension filtering, the `main` contract, the order of the two passes |
| `ProgramFacts` | `program_lemmas.dfy` | what a passing program is |

Keeping Dafny total:
- Every judgment returns `Result<T>`, so every error path of the source is an
  explicit `Fail`. None of them is a precondition.
- INFER and CHECK are mutually recursive. They terminate on the measure
  (expression, rank): CHECK may hand the same expression to INFER, which has
  the lower rank.

Beyond the rule-by-rule lemmas, the model proves five whole-system facts:
- **Monotonicity.** Enabling more extensions never makes a legal program
  illegal (`LegalityFacts.DeclarationsMonotone`).
- **Refinement.** The current checker accepts everything the earlier one
  accepted, with subtyping off, as long as the program uses no `pred`
  (`LegacyFacts.CheckV1Refined`). `pred` is the one form the earlier INFER typed
  and the current one does not (`LegacyFacts.PredDropped`).
- **Passing programs.** A program that passes has a unique signature per name
  (`ProgramFacts.UniqueMapOk`) and a unary `main`
  (`ProgramFacts.PassingProgramHasMain`), and every declaration is legal and
  well typed (`ProgramFacts.StaticCheckOk`).
- **Extension filtering.** Filtering extension names is a left inverse of
  naming: unrecognised names are dropped, recognised ones kept in order
  (`ProgramFacts.FilterNames`, `ProgramFacts.FilterMembership`).
- **Error codes.** The source's codes, misspelling included, are injective and
  carry the `ERROR_` prefix (`Errors.CodeAsWrittenInjective`,
  `Errors.CodeAsWritten`). So are the corrected codes (`Errors.CodeInjective`,
  `Errors.Code`), and so are the codes the repository's tests compare
  (`Errors.ReportedCodeInjective`).

## Model

| member | source | states |
|---|---|---|
| `Extensions.Description` | Sources/Stellance/Model.swift:45-47 | the description of an extension is `#` followed by exactly its raw name |
| `Extensions.ParseName` | Sources/Stellance/Model.swift:3-43 | parsing an extension's raw name gives back that extension |
| `Extensions.NameInjective` | Sources/Stellance/Model.swift:3-43 | no two extensions share a raw name |
| `Extensions.ParseSound` | Sources/Stellance/Model.swift:3-43 | whatever string parses to an extension is that extension's raw name, so `rawValue` init and the name are mutually inverse |
| `Syntax.FindField` | Sources/Stellance/TypeInference.swift:83 | the field found is the first with the name, and one is found iff the name is among the field names |
| `Syntax.FindTag` | Sources/Stellance/TypeChecking.swift:147 | the tag found is the first with the name, and one is found iff the name is among the tags |
| `Contexts.GlobalTypeOf` | Sources/Stellance/Model.swift:64-66 | a global lookup succeeds exactly for names in the variable map and returns the mapped type |
| `Contexts.Extend` | Sources/Stellance/Model.swift:78-81 | pushing a frame makes the new name look up to its type, leaves every other name's lookup unchanged, and extends the context |
| `Contexts.ExtendParams` | Sources/Stellance/Model.swift:78-81 | pushing a parameter list yields an extension of the original context |
| `Contexts.ExtendsTrans` | Sources/Stellance/Model.swift:73-90 | being an extension of a context is transitive |
| `Contexts.ExtendsKeepsRoot` | Sources/Stellance/Model.swift:83-89 | an extension has the same global root, the same exception type and the same enabled extensions as the context it extends |
| `Contexts.LocalAsksRoot` | Sources/Stellance/Model.swift:83-89 | on any chain of local frames, `isEnabled` and `exceptionType` are those of the global root |
| `Contexts.GlobalQueries` | Sources/Stellance/Model.swift:64-70 | global lookup is map lookup (absent name gives none); a global flag is on iff it occurs in the enabled list |
| `Contexts.LocalLookup` | Sources/Stellance/Model.swift:78-81 | in `Local(parent, n, t)` the name `n` is `t` (innermost binding shadows) and any other name is looked up in the parent |
| `Contexts.ExtendParamsLookup` | Sources/Stellance/Model.swift:78-81 | after pushing parameters, a name that is no parameter keeps its old type and a parameter name has the type of its last occurrence |
| `Contexts.ParamNames` | Sources/Stellance/Model.swift:78-81 | the parameter names, one per parameter, in order |
| `Utils.AnySatisfy` | Sources/Stellance/Utils.swift:4-11 | the loop returns true iff some element satisfies the predicate, and false on the empty array; its invariant is that no element examined so far satisfied it |
| `Utils.AnyIffExists` | Sources/Stellance/Utils.swift:4-11 | the recursive reference `Any` holds iff some index satisfies the predicate |
| `Utils.AnyAppend` | Sources/Stellance/Utils.swift:4-11 | `anySatisfy` of a concatenation is the disjunction over the two parts |
| `Utils.AnyMonotone` | Sources/Stellance/Utils.swift:4-11 | a weaker predicate is satisfied whenever a stronger one is |
| `Errors.CodeAsWritten` | Sources/Stellance/Errors.swift:37-72 | the source's table: every one of the 32 coded tags has a code starting with `ERROR_` |
| `Errors.CodeAsWrittenInjective` | Sources/Stellance/Errors.swift:37-72 | no two tags share a code in the source's table, the misspelt one included |
| `Errors.CodesAgree` | Sources/Stellance/Errors.swift:37-72 | the source's table and the corrected one agree on every tag but undefined-variable, whose source code is no tag's corrected code |
| `Errors.MisspeltCodeIsNoCode` | Sources/Stellance/Errors.swift:40 | `ERROR_UDEFINED_VARIABLE` is no tag's corrected code |
| `Errors.Code` | Sources/Stellance/Errors.swift:37-72 | the corrected table: every one of the 32 coded tags has a code starting with `ERROR_`, and undefined-variable's is `ERROR_UNDEFINED_VARIABLE` |
| `Errors.UndefinedVariableCodeMisspelt` | Sources/Stellance/Errors.swift:40 | the source's code for undefined-variable differs from `ERROR_UNDEFINED_VARIABLE`, and the corrected table agrees with the source on every other tag |
| `Errors.TagOfCodeInverts` | Sources/Stellance/Errors.swift:37-72 | decoding a tag's code gives back that tag |
| `Errors.CodeInjective` | Sources/Stellance/Errors.swift:39-70 | no two tags share a corrected code |
| `Errors.Message` | Sources/Stellance/Errors.swift:76-84 | a general message exists exactly for missing-main and incorrect-main-arity |
| `Errors.ReportedCode` | Tests/StellanceTests/StellanceTest.swift:44-49 | the code the tests compare is the source's code, except that ambiguous-list's is `ERROR_AMBIGUOUS_LIST_TYPE` |
| `Errors.ReportedCodeInjective` | Tests/StellanceTests/StellanceTest.swift:44-49 | the compared codes still tell every two tags apart |
| `Errors.ListTypeCodeIsNoCode` | Tests/StellanceTests/StellanceTest.swift:46-47 | `ERROR_AMBIGUOUS_LIST_TYPE` is no tag's code in the source's table |
| `Patterns.Bind` | Sources/Stellance/PatternMatching.swift:5-99 | `context + (pattern ~> type)`; has no `ensures` itself: its contract is `Patterns.BindVariable` through `Patterns.BindKeepsFlags` below |
| `Patterns.BindUntyped` | Sources/Stellance/PatternMatching.swift:101-127 | `context + pattern`; has no `ensures` itself: its contract is `Patterns.UntypedAmbiguous` through `Patterns.UntypedFieldsWithoutAscription` below |
| `Patterns.NameSet` | Sources/Stellance/PatternMatching.swift:29-39 | the set of names holds exactly the names in the list |
| `Patterns.BindVariable` | Sources/Stellance/PatternMatching.swift:11-12 | binding `x` at `T` succeeds; in the result `x` is `T` and every other name is unchanged |
| `Patterns.BindLiteral` | Sources/Stellance/PatternMatching.swift:14-15 | literal patterns return the context unchanged, at any type |
| `Patterns.BindSucc` | Sources/Stellance/PatternMatching.swift:17-21 | `succ p` fails with unexpected-pattern unless the type is Nat, and binds `p` at Nat otherwise |
| `Patterns.BindTuple` | Sources/Stellance/PatternMatching.swift:23-27 | a tuple pattern binds only at a tuple type of its own length, component by component; anything else is unexpected-pattern |
| `Patterns.BindEachAppend` | Sources/Stellance/PatternMatching.swift:23-27 | component binding runs left to right: a concatenation binds the first part, then the second in the context the first produced |
| `Patterns.BindRecord` | Sources/Stellance/PatternMatching.swift:29-39 | a record pattern succeeds only at a record type with exactly the same field-name set; a non-record type, a missing field or an extra pattern field is unexpected-pattern; with equal name sets, a repeated type field traps (`uniqueKeysWithValues`) and otherwise each field pattern is bound, left to right, at the type its name has in the record type |
| `Patterns.BindVariant` | Sources/Stellance/PatternMatching.swift:65-87 | an absent tag or non-variant type is unexpected-pattern; a payload tag without sub-pattern and a nullary tag with one fail with their own tags; otherwise the payload is bound |
| `Patterns.BindAscription` | Sources/Stellance/PatternMatching.swift:89-94 | an ascribed pattern binds only at exactly its ascribed type |
| `Patterns.BindExtends` | Sources/Stellance/PatternMatching.swift:9-98 | a successful binding only pushes frames onto the context it started from |
| `Patterns.BindEachExtends` | Sources/Stellance/PatternMatching.swift:23-27 | binding a list of patterns only pushes frames |
| `Patterns.BindAllAtExtends` | Sources/Stellance/PatternMatching.swift:53-63 | binding list elements at one element type only pushes frames |
| `Patterns.BindFieldsExtends` | Sources/Stellance/PatternMatching.swift:29-39 | binding record fields only pushes frames |
| `Patterns.BindKeepsFlags` | Sources/Stellance/PatternMatching.swift:9-98 | pattern binding never changes the enabled extensions or the exception type |
| `Patterns.UntypedAmbiguous` | Sources/Stellance/PatternMatching.swift:101-127 | untyped binding of a variable, a literal or a nullary variant fails with ambiguous-pattern |
| `Patterns.UntypedAscription` | Sources/Stellance/PatternMatching.swift:101-127 | untyped binding of an ascription is typed binding at the ascribed type |
| `Patterns.UntypedWithoutAscription` | Sources/Stellance/PatternMatching.swift:101-127 | a pattern without ascriptions, if it binds untyped at all, adds no binding |
| `Patterns.UntypedEachWithoutAscription` | Sources/Stellance/PatternMatching.swift:101-127 | the same, for a list of sub-patterns |
| `Patterns.UntypedFieldsWithoutAscription` | Sources/Stellance/PatternMatching.swift:101-127 | the same, for record field patterns |
| `Exhaustiveness.Exhaustive` | Sources/Stellance/TypeChecking.swift:237-301 | `patterns |? type`; has no `ensures` itself: its contract is `Exhaustiveness.ExhaustiveIff` and the lemmas beside it |
| `Exhaustiveness.AllTagsCoveredIff` | Sources/Stellance/TypeChecking.swift:237-301 | every tag of a variant type is covered iff each has a pattern with that label and matching payload arity |
| `Exhaustiveness.AnyShape` | Sources/Stellance/TypeChecking.swift:237-301 | the `contains(where:)` test holds iff some pattern present has the shape |
| `Exhaustiveness.ExhaustiveIff` | Sources/Stellance/TypeChecking.swift:237-301 | a variable arm makes any match exhaustive. Otherwise: Bool needs both literals, Nat `0` and a `succ`, Sum an `inl` and an `inr`, List `[]` and a `cons`, a variant every tag; every other type passes |
| `Exhaustiveness.ExhaustiveMonotone` | Sources/Stellance/TypeChecking.swift:237-301 | adding arms never makes an exhaustive match non-exhaustive |
| `Exhaustiveness.ExhaustiveSameArms` | Sources/Stellance/TypeChecking.swift:237-301 | exhaustiveness depends only on which patterns occur, not their order or multiplicity |
| `Exhaustiveness.NoArms` | Sources/Stellance/TypeChecking.swift:237-301 | no arms are exhaustive exactly for types other than Bool, Nat, Sum, List and inhabited variants |
| `Exhaustiveness.ShallowNat` | Sources/Stellance/TypeChecking.swift:237-301 | `0` and `succ q` cover Nat whatever `q` is: sub-patterns are not inspected |
| `Typing.Infer` | Sources/Stellance/TypeInference.swift:6-272 | INFER; has no `ensures` itself: its contract is the `TypingFacts` INFER lemmas below (`InferLiterals` through `InferConstMemory`) |
| `Typing.Check` | Sources/Stellance/TypeChecking.swift:5-224 | CHECK; has no `ensures` itself: its contract is the `TypingFacts` CHECK lemmas below (`CheckTop` through `TryCastAsChecking`). Its `tryCastAs` case is the corrected rule of the Findings, not the source's |
| `Typing.Compare` | Sources/Stellance/TypeChecking.swift:226-232 | `compare`; has no `ensures` itself: `TypingFacts.CompareWithoutSubtyping` states it is equality with subtyping off |
| `Typing.Subsumes` | Sources/Stellance/TypeChecking.swift:211-222 | the fallback comparison; has no `ensures` itself: `TypingFacts.FallbackChecking` states its verdicts and error tags |
| `Typing.InferAll` | Sources/Stellance/TypeInference.swift:60-62 | inferring a list of expressions yields one type per expression |
| `Typing.InferFields` | Sources/Stellance/TypeInference.swift:74-76 | on success, one field type per field of the literal, in order: field `i` pairs the literal's `i`-th name with the type its expression infers (`zip(names, types)`) |
| `TypingFacts.CheckAllOk` | Sources/Stellance/TypeInference.swift:33-37 | checking arguments pairwise succeeds iff each argument checks against its type |
| `TypingFacts.CheckEachOk` | Sources/Stellance/TypeInference.swift:138-144 | checking many expressions at one type succeeds iff each one checks |
| `TypingFacts.InferFieldsOk` | Sources/Stellance/TypeInference.swift:75 | inferring a record literal's fields succeeds iff every field's expression infers |
| `TypingFacts.CheckFieldsOk` | Sources/Stellance/TypeChecking.swift:88-93 | the per-field loop succeeds iff each field checks against the type its name has in the record type, or infers when the type has no such field |
| `TypingFacts.InferAllOk` | Sources/Stellance/TypeInference.swift:60-62 | inferring many expressions succeeds iff each infers, and the types are theirs, in order |
| `TypingFacts.CheckArmsOk` | Sources/Stellance/TypeChecking.swift:120-128 | checking match arms succeeds iff every arm checks |
| `TypingFacts.InferArmsOk` | Sources/Stellance/TypeInference.swift:120-136 | inferring arms succeeds iff the first arm infers and every later arm checks against its type, which is the result |
| `TypingFacts.InferLiterals` | Sources/Stellance/TypeInference.swift:13-58 | booleans infer Bool, any integer literal Nat, unit Unit, in every context |
| `TypingFacts.InferVariable` | Sources/Stellance/TypeInference.swift:8-12 | a variable infers its innermost binding's type and an unbound one is undefined-variable |
| `TypingFacts.ApplicationTyping` | Sources/Stellance/TypeInference.swift:23-39 | failures of the callee propagate, then not-a-function, then incorrect-arguments-number; success iff each argument checks, with the callee's return type |
| `TypingFacts.DotTupleTyping` | Sources/Stellance/TypeInference.swift:64-72 | `e.i` needs a tuple type (else not-a-tuple) and `1 <= i <= n` (else unexpected-index) and has component `i-1` |
| `TypingFacts.TupleTyping` | Sources/Stellance/TypeInference.swift:60-62 | a tuple infers iff each component does, and its type lists their types in order |
| `TypingFacts.RecordTyping` | Sources/Stellance/TypeInference.swift:74-76 | a record literal infers iff each field's expression does, and then its type is the record of its names, in order, each with that expression's type |
| `TypingFacts.InlTyping` | Sources/Stellance/TypeInference.swift:106-111 | `inl` is ambiguous-sum unless ambiguous-type-as-bottom is on, when it is `Sum(T, Bot)` |
| `TypingFacts.InrTyping` | Sources/Stellance/TypeInference.swift:113-118 | `inr` is ambiguous-sum unless ambiguous-type-as-bottom is on, when it is `Sum(Bot, T)` |
| `TypingFacts.PanicTyping` | Sources/Stellance/TypeInference.swift:230-234 | `panic!` infers Bot with ambiguous-type-as-bottom and is ambiguous-panic without; it checks against any type but Top |
| `TypingFacts.ListTyping` | Sources/Stellance/TypeInference.swift:138-144 | an empty list is ambiguous-list; a non-empty one infers iff every element checks at the first element's type, and is a list of it |
| `TypingFacts.MatchTyping` | Sources/Stellance/TypeInference.swift:120-136 | an empty match is empty-match. A match's type is its first arm's, later arms check against it, and the arms must be exhaustive. Arm failures come before non-exhaustive-match |
| `TypingFacts.FixTyping` | Sources/Stellance/TypeInference.swift:185-203 | `fix e` needs a unary function (else not-a-function or incorrect-arguments-number) whose domain and codomain `compare`, and has the codomain |
| `TypingFacts.InferConstMemory` | Sources/Stellance/TypeInference.swift:227-228 | a bare memory address always fails with ambiguous-reference |
| `TypingFacts.CheckTop` | Sources/Stellance/TypeChecking.swift:9-13 | checking against Top succeeds iff INFER does, and fails just as INFER does |
| `TypingFacts.LambdaChecking` | Sources/Stellance/TypeChecking.swift:29-52 | a non-function type is unexpected-lambda, then a count mismatch is unexpected-parameters-number, then a parameter failing `compare` is unexpected-parameter-type; otherwise the body checks at the return type |
| `TypingFacts.TupleChecking` | Sources/Stellance/TypeChecking.swift:54-67 | a tuple against a non-tuple type is unexpected-tuple, against another length unexpected-length, and otherwise checks component-wise |
| `TypingFacts.RecordChecking` | Sources/Stellance/TypeChecking.swift:69-94 | a record literal against a non-record type (other than Top) is unexpected-record; missing fields are reported before extra ones; extra fields are an error only with subtyping off; with no field missing and either no extra field or subtyping on, a repeated expected name traps and otherwise the fields are checked by name |
| `TypingFacts.RecordCheckingOk` | Sources/Stellance/TypeChecking.swift:69-94 | on the path that reaches the loop, with distinct expected names, the literal checks iff each field checks against its type by name, or infers if the record type lacks it |
| `TypingFacts.VariantChecking` | Sources/Stellance/TypeChecking.swift:143-161 | an unknown tag is unexpected-tag, a payload tag without data missing-data, a nullary tag with data unexpected-data; otherwise the payload checks at the tag's type |
| `TypingFacts.CheckDefersToInference` | Sources/Stellance/TypeChecking.swift:211-222 | every form CHECK has no rule for is inferred and then compared with the expected type |
| `TypingFacts.FallbackChecking` | Sources/Stellance/TypeChecking.swift:211-222 | in the fallback, with subtyping off, success iff the inferred type equals the expected one, else unexpected-type; with subtyping on, success iff it is a subtype, else unexpected-subtype |
| `TypingFacts.CompareWithoutSubtyping` | Sources/Stellance/TypeChecking.swift:226-232 | `compare` is plain equality when subtyping is off |
| `TypingFacts.TryCastAsChecking` | Sources/Stellance/TypeChecking.swift:206-209 | corrected rule: `try cast as` checks iff the tried expression infers, the pattern binds at the cast type, and both continuations check against the expected type |
| `TypingFacts.NatVariableChecks` | Sources/Stellance/TypeChecking.swift:211-222 | a variable bound at Nat checks at Nat and is unexpected-type at Bool, with subtyping off |
| `TypingFacts.CheckTryCastAsWritten` | Sources/Stellance/TypeChecking.swift:206-209 | the source's `try cast as` rule, with both continuations checked against the cast type; has no `ensures` itself: its contract is `TypingFacts.TryCastAsIgnoresExpectedType` |
| `TypingFacts.TryCastAsIgnoresExpectedType` | Sources/Stellance/TypeChecking.swift:206-209 | the rule as written accepts at Bool a `try cast` that infers Nat, which the corrected rule rejects |
| `Legacy.InferV1` | Sources/Stellance/Expression.swift:47-77 | the earlier INFER; has no `ensures` itself: its contract is the `LegacyFacts.InferV1*` lemmas and `LegacyFacts.InferV1Refined` |
| `Legacy.CheckV1` | Sources/Stellance/Expression.swift:79-153 | the earlier CHECK; has no `ensures` itself: its contract is `LegacyFacts.LambdaV1`, `ApplicationV1`, `FallbackV1` and `CheckV1Refined` |
| `Legacy.Against` | Sources/Stellance/Expression.swift:25-27 | `e <= T` is the goal with node `e` and type `T` |
| `Legacy.Expect` | Sources/Stellance/Expression.swift:29-44 | `expect` succeeds iff the types are equal and fails with unexpected-type otherwise |
| `LegacyFacts.InferV1Literals` | Sources/Stellance/Expression.swift:54-62 | the earlier INFER types booleans Bool, unit Unit and only the literal `0` Nat; other literals are unsupported |
| `LegacyFacts.InferV1Primitives` | Sources/Stellance/Expression.swift:63-68 | `succ`/`pred` infer Nat and `isZero` Bool exactly when the argument checks at Nat |
| `LegacyFacts.InferV1Unsupported` | Sources/Stellance/Expression.swift:74-75 | every form the earlier INFER has no case for is unsupported |
| `LegacyFacts.InferV1Variable` | Sources/Stellance/Expression.swift:49-53 | a variable infers its bound type; an unbound one is undefined-variable |
| `LegacyFacts.CheckAllV1Ok` | Sources/Stellance/Expression.swift:118-145 | checking arguments pairwise succeeds iff each argument checks |
| `LegacyFacts.LambdaV1` | Sources/Stellance/Expression.swift:93-116 | the earlier lambda rule fails in the same order as the current one but needs parameter types equal to the expected ones |
| `LegacyFacts.ApplicationV1` | Sources/Stellance/Expression.swift:118-145 | not-a-function, then incorrect-arguments-number; success iff each argument checks and the return type equals the goal's |
| `LegacyFacts.FallbackV1` | Sources/Stellance/Expression.swift:148-151 | every other form checks iff it infers exactly the goal's type, else unexpected-type |
| `LegacyFacts.InferV1Refined` | Sources/Stellance/Expression.swift:47-77 | on `pred`-free expressions, with subtyping off, whatever the earlier INFER types the current INFER types identically |
| `LegacyFacts.CheckV1Refined` | Sources/Stellance/Expression.swift:79-153 | on `pred`-free expressions, with subtyping off, whatever the earlier CHECK accepts the current CHECK accepts |
| `LegacyFacts.InferredRefined` | Sources/Stellance/Expression.swift:148-151 | a form both versions infer and the current INFER types `T` checks at `T` |
| `LegacyFacts.IfRefined` | Sources/Stellance/Expression.swift:83-86 | the refinement for conditionals |
| `LegacyFacts.NatRecRefined` | Sources/Stellance/Expression.swift:88-91 | the refinement for `Nat::rec` |
| `LegacyFacts.AbstractionRefined` | Sources/Stellance/Expression.swift:93-116 | the refinement for lambdas: exact parameter types satisfy `compare` |
| `LegacyFacts.ApplicationRefined` | Sources/Stellance/Expression.swift:118-145 | the refinement for applications |
| `LegacyFacts.CheckAllV1Refined` | Sources/Stellance/Expression.swift:118-145 | the refinement for argument lists |
| `LegacyFacts.PredDropped` | Sources/Stellance/Expression.swift:63-65 | `pred 0` is typed Nat by the earlier INFER and rejected by the current one |
| `Legality.CheckType` | Sources/Stellance/SyntaxCheck/CheckType.swift:3-75 | legality of a type; has no `ensures` itself: its contract is the `LegalityFacts` type lemmas and `LegalityFacts.TypeMonotone` |
| `Legality.CheckPattern` | Sources/Stellance/SyntaxCheck/CheckPattern.swift:3-61 | legality of a pattern; has no `ensures` itself: its contract is the `LegalityFacts` pattern lemmas and `LegalityFacts.PatternMonotone` |
| `Legality.CheckExpression` | Sources/Stellance/SyntaxCheck/CheckExpression.swift:3-166 | legality of an expression; has no `ensures` itself: its contract is the `LegalityFacts` expression lemmas and `LegalityFacts.ExpressionMonotone` |
| `Legality.CheckDeclaration` | Sources/Stellance/SyntaxCheck/SyntaxCheck.swift:3-71 | legality of a declaration under a parameter-count rule: `AsWritten` is the source's guard and is what the program driver uses; `AtMostOne` is the corrected guard of the Findings. No `ensures` itself: its contract is `LegalityFacts.FunctionDeclarationLegality` and the lemmas after it |
| `Legality.BetterEnable` | Sources/Stellance/SyntaxCheck/SyntaxCheck.swift:73-80 | succeeds iff the extension or an alternative is enabled; on failure it suggests the first extension |
| `LegalityFacts.CheckTypesOk` | Sources/Stellance/SyntaxCheck/CheckType.swift:17-29 | a list of types is legal iff each type is |
| `LegalityFacts.CheckExpressionsOk` | Sources/Stellance/SyntaxCheck/CheckExpression.swift:35-37 | a list of expressions is legal iff each is |
| `LegalityFacts.CheckFieldTypesOk` | Sources/Stellance/SyntaxCheck/CheckType.swift:47 | a record type's field types are legal iff each one is |
| `LegalityFacts.CheckTagPayloadsOk` | Sources/Stellance/SyntaxCheck/CheckType.swift:70 | a variant type's payloads are legal iff every tag that has a payload has a legal one |
| `LegalityFacts.CheckFieldExprsOk` | Sources/Stellance/SyntaxCheck/CheckExpression.swift:88 | a record literal's field expressions are legal iff each one is |
| `LegalityFacts.BaseTypesLegal` | Sources/Stellance/SyntaxCheck/CheckType.swift:16 | Bool and Nat are legal with no extension enabled |
| `LegalityFacts.FunctionTypeLegality` | Sources/Stellance/SyntaxCheck/CheckType.swift:17-29 | a nullary function type needs nullary-functions and a multi-argument one multiparameter-functions, with their descriptions; legal iff those hold and all parts are legal |
| `LegalityFacts.TupleTypeLegality` | Sources/Stellance/SyntaxCheck/CheckType.swift:33-39 | a 2-tuple type needs pairs or tuples, other arities tuples, and legal components |
| `LegalityFacts.RecordTypeLegality` | Sources/Stellance/SyntaxCheck/CheckType.swift:41-47 | without records a record type is unsupported with records suggested; with it, duplicates are duplicate-type-fields; legal iff records is on, the names are distinct and every field type is legal |
| `LegalityFacts.VariantTypeLegality` | Sources/Stellance/SyntaxCheck/CheckType.swift:58-70 | without variants a variant type is unsupported with variants suggested; then duplicates are duplicate-type-tags; then a nullary tag without nullary-variant-labels is unsupported with it suggested; legal iff all of these pass and every payload type is legal |
| `LegalityFacts.OtherTypesUnsupported` | Sources/Stellance/SyntaxCheck/CheckType.swift:72-73 | Top, Bot and reference types are unsupported whatever is enabled |
| `LegalityFacts.LiteralPatternLegality` | Sources/Stellance/SyntaxCheck/CheckPattern.swift:14-15 | literal patterns are legal iff structural-patterns is on, and suggest it otherwise |
| `LegalityFacts.StructuralPatternLegality` | Sources/Stellance/SyntaxCheck/CheckPattern.swift:12-31 | variable patterns are always legal; succ, tuple, list, cons and record patterns need structural-patterns, else unsupported with it suggested; a repeated record field is duplicate-pattern-fields; each of these forms is legal iff structural-patterns is on, a record's names are distinct, and every sub-pattern is legal |
| `LegalityFacts.CheckPatternsOk` | Sources/Stellance/SyntaxCheck/CheckPattern.swift:21-39 | a list of patterns is legal iff each one is |
| `LegalityFacts.CheckFieldPatternsOk` | Sources/Stellance/SyntaxCheck/CheckPattern.swift:31 | a record pattern's field patterns are legal iff each one is |
| `LegalityFacts.VariantPatternLegality` | Sources/Stellance/SyntaxCheck/CheckPattern.swift:33-51 | `inl`/`inr` need sum-types, a nullary variant nullary-variant-labels, a payload variant variants |
| `LegalityFacts.AscriptionPatternLegality` | Sources/Stellance/SyntaxCheck/CheckPattern.swift:53-56 | an ascription pattern is legal iff pattern-ascriptions is on and the type and pattern are legal |
| `LegalityFacts.IntLiteralLegality` | Sources/Stellance/SyntaxCheck/CheckExpression.swift:31-33 | `0` is always legal; literals from 1 need natural-literals |
| `LegalityFacts.LambdaLegality` | Sources/Stellance/SyntaxCheck/CheckExpression.swift:47-59 | a lambda with no parameters needs nullary-functions, with several multiparameter-functions; legal iff those hold and its parts are legal |
| `LegalityFacts.TupleLegality` | Sources/Stellance/SyntaxCheck/CheckExpression.swift:63-69 | a 2-tuple needs pairs or tuples, any other tuple tuples |
| `LegalityFacts.DotTupleLegality` | Sources/Stellance/SyntaxCheck/CheckExpression.swift:71-80 | index 1 or 2 needs pairs or tuples, index 3 and up tuples, and an index of 0 or less is unsupported as a bad index |
| `LegalityFacts.RecordLegality` | Sources/Stellance/SyntaxCheck/CheckExpression.swift:82-88 | without records a record literal is unsupported with records suggested; with it, duplicates are duplicate-fields; legal iff records is on, the names are distinct and every field's expression is legal |
| `LegalityFacts.LetLegality` | Sources/Stellance/SyntaxCheck/CheckExpression.swift:94-114 | other binding counts are not supported yet; with one binding, a missing let-bindings/letrec-bindings is unsupported with it suggested, and the form is legal iff that flag is on, let-patterns is on for a non-variable pattern, and the pattern, right-hand side and body are legal |
| `LegalityFacts.EmptyMatchIllegal` | Sources/Stellance/SyntaxCheck/CheckExpression.swift:125-128 | an empty `match` is empty-match whatever is enabled |
| `LegalityFacts.UnlicensedForms` | Sources/Stellance/SyntaxCheck/CheckExpression.swift:162-163 | `pred`, sequencing, references, panic, exceptions and casts are unsupported as not supported yet |
| `LegalityFacts.FunctionDeclarationLegality` | Sources/Stellance/SyntaxCheck/SyntaxCheck.swift:5-52 | under either rule, a declaration is rejected for annotations, then throw types, then a missing return type, then zero parameters without nullary-functions, then a parameter count the rule refuses, each with the source's description and suggestion. It is legal iff every guard passes and its parameter types, return type, local declarations and return expression are legal |
| `LegalityFacts.SourceDeclarationArity` | Sources/Stellance/SyntaxCheck/SyntaxCheck.swift:24-37 | as written, any parameter count other than one needs multiparameter-functions, so a nullary declaration needs both nullary-functions and multiparameter-functions |
| `LegalityFacts.CorrectedDeclarationArity` | Sources/Stellance/SyntaxCheck/SyntaxCheck.swift:24-37 | under the corrected guard only more than one parameter needs multiparameter-functions; a nullary declaration needs nullary-functions and always passes the count guard |
| `LegalityFacts.AsWrittenStricter` | Sources/Stellance/SyntaxCheck/SyntaxCheck.swift:31-37 | every declaration legal under the source's guard is legal under the corrected one |
| `LegalityFacts.AllAsWrittenStricter` | Sources/Stellance/SyntaxCheck/SyntaxCheck.swift:31-37 | the same for lists of declarations |
| `LegalityFacts.RulesAgreeWithMultiFunctions` | Sources/Stellance/SyntaxCheck/SyntaxCheck.swift:31-37 | with multiparameter-functions on, the two guards give the same verdict on every declaration |
| `LegalityFacts.AllRulesAgreeWithMultiFunctions` | Sources/Stellance/SyntaxCheck/SyntaxCheck.swift:31-37 | the same for lists of declarations |
| `LegalityFacts.OtherDeclarationsIllegal` | Sources/Stellance/SyntaxCheck/SyntaxCheck.swift:54-68 | generic functions, aliases and exception declarations are always unsupported |
| `LegalityFacts.NullaryDeclarationMisjudged` | Sources/Stellance/SyntaxCheck/SyntaxCheck.swift:31-37 | with nullary-functions on and multiparameter-functions off, the source's check refuses `fn f() -> T { return 0 }` as "Functions with multiple parameters", suggesting multiparameter-functions; the corrected check accepts it |
| `LegalityFacts.TypeMonotone` | Sources/Stellance/SyntaxCheck/CheckType.swift:14-74 | a type legal under some extensions stays legal when more are enabled |
| `LegalityFacts.TypesMonotone` | Sources/Stellance/SyntaxCheck/CheckType.swift:17-29 | the same for lists of types |
| `LegalityFacts.FieldTypesMonotone` | Sources/Stellance/SyntaxCheck/CheckType.swift:41-47 | the same for record field types |
| `LegalityFacts.TagPayloadsMonotone` | Sources/Stellance/SyntaxCheck/CheckType.swift:58-70 | the same for variant payloads |
| `LegalityFacts.PatternMonotone` | Sources/Stellance/SyntaxCheck/CheckPattern.swift:10-60 | a legal pattern stays legal when more extensions are enabled |
| `LegalityFacts.PatternsMonotone` | Sources/Stellance/SyntaxCheck/CheckPattern.swift:21-23 | the same for lists of patterns |
| `LegalityFacts.FieldPatternsMonotone` | Sources/Stellance/SyntaxCheck/CheckPattern.swift:25-31 | the same for record field patterns |
| `LegalityFacts.ExpressionMonotone` | Sources/Stellance/SyntaxCheck/CheckExpression.swift:22-164 | a legal expression stays legal when more extensions are enabled |
| `LegalityFacts.SingleBindingMonotone` | Sources/Stellance/SyntaxCheck/CheckExpression.swift:94-114 | the same for one `let` binding |
| `LegalityFacts.ExpressionsMonotone` | Sources/Stellance/SyntaxCheck/CheckExpression.swift:35-37 | the same for lists of expressions |
| `LegalityFacts.FieldExprsMonotone` | Sources/Stellance/SyntaxCheck/CheckExpression.swift:82-88 | the same for record fields |
| `LegalityFacts.CaseBodiesMonotone` | Sources/Stellance/SyntaxCheck/CheckExpression.swift:125-132 | the same for match arms |
| `LegalityFacts.DeclarationMonotone` | Sources/Stellance/SyntaxCheck/SyntaxCheck.swift:5-52 | a legal declaration stays legal when more extensions are enabled |
| `LegalityFacts.DeclarationsMonotone` | Sources/Stellance/main.swift:93-95 | a legal program stays legal when more extensions are enabled |
| `LegalityFacts.CheckDeclarationsOk` | Sources/Stellance/main.swift:93-95 | the legality pass over a program succeeds iff every declaration is legal |
| `ProgramCheck.ProgramContext` | Sources/Stellance/main.swift:52-67 | the global context; has no `ensures` itself: its contract is `ProgramFacts.ProgramContextOk` and `ProgramFacts.UniqueMapOk` |
| `ProgramCheck.CheckProgram` | Sources/Stellance/main.swift:69-89 | `context |- program`; has no `ensures` itself: its contract is `ProgramFacts.MainContract` |
| `ProgramCheck.CheckBodies` | Sources/Stellance/main.swift:81-88 | the loop over declarations; has no `ensures` itself: its contract is `ProgramFacts.CheckBodiesOk` |
| `ProgramCheck.CheckBody` | Sources/Stellance/main.swift:82-87 | one declaration of that loop; has no `ensures` itself: `ProgramFacts.CheckBodiesOk` states what it checks |
| `ProgramCheck.StaticCheck` | Sources/Stellance/main.swift:52-97 | the whole check, with the legality pass under the source's parameter-count guard; has no `ensures` itself: its contract is `ProgramFacts.StaticCheckOk`, `ProgramFacts.LegalityFirst` and `ProgramFacts.PassingProgramHasMain` |
| `ProgramCheck.ExtensionNames` | Sources/Stellance/main.swift:30 | no extension lines name no extension, and every name on any line is among the names (the converse is `ProgramFacts.ExtensionNamesIn`) |
| `ProgramCheck.FilterExtensions` | Sources/Stellance/main.swift:32-39 | filtering never yields more extensions than names, and every kept extension's raw name was written (the converse is `ProgramFacts.FilterMembership`) |
| `ProgramCheck.DeclarationTypes` | Sources/Stellance/main.swift:52-62 | signatures, when built, are one per declaration |
| `ProgramCheck.UniqueMap` | Sources/Stellance/main.swift:64-67 | building the global map can fail only by the duplicate-key trap |
| `ProgramFacts.ExtensionNamesIn` | Sources/Stellance/main.swift:30 | a name is among the program's extension names iff some extension line lists it |
| `ProgramFacts.FilterAppend` | Sources/Stellance/main.swift:32-39 | filtering distributes over concatenation, so source order is kept |
| `ProgramFacts.FilterSingle` | Sources/Stellance/main.swift:32-39 | one name is kept as its extension if recognised and dropped otherwise |
| `ProgramFacts.FilterMembership` | Sources/Stellance/main.swift:32-39 | an extension is enabled iff its raw name is among the names |
| `ProgramFacts.FilterNames` | Sources/Stellance/main.swift:32-39 | filtering the names of a list of extensions gives back that list |
| `ProgramFacts.DeclarationTypesOk` | Sources/Stellance/main.swift:52-62 | signatures are built iff every declaration is a function with a return type, each `name ↦ Function(params, ret)`; otherwise the first other declaration is unsupported |
| `ProgramFacts.HasDuplicatesCons` | Sources/Stellance/main.swift:64-67 | a name list repeats a name iff its head recurs in its tail or its tail repeats one |
| `ProgramFacts.UniqueMapContents` | Sources/Stellance/main.swift:64-67 | the global map's keys are exactly the signature names and each maps to its signature |
| `ProgramFacts.UniqueMapOk` | Sources/Stellance/main.swift:64-67 | the global map is built iff no name is declared twice, and traps otherwise |
| `ProgramFacts.ProgramContextOk` | Sources/Stellance/main.swift:52-67 | a built context has every declaration's function type under its name, enables exactly the named extensions, and has no exception type |
| `ProgramFacts.CheckBodiesOk` | Sources/Stellance/main.swift:81-88 | the loop over declarations succeeds iff each one's body checks |
| `ProgramFacts.MainContract` | Sources/Stellance/main.swift:69-89 | no `main` or a non-function `main` is missing-main; a `main` of other than one parameter is incorrect-main-arity. Success iff `main` is unary and every return expression checks against its type with its parameters pushed |
| `ProgramFacts.LegalityFirst` | Sources/Stellance/main.swift:91-97 | a legality failure is the outcome, whatever the typing would say |
| `ProgramFacts.StaticCheckOk` | Sources/Stellance/main.swift:52-97 | a program passes iff its context builds, every declaration is legal, and the program check passes |
| `ProgramFacts.MainDeclared` | Sources/Stellance/main.swift:64-75 | a function `main` in the context comes from a `main` declaration with as many parameters |
| `ProgramFacts.PassingProgramHasMain` | Sources/Stellance/main.swift:69-79 | every passing program declares a unary function `main` |
| `ProgramFacts.IdentityMainPasses` | Sources/Stellance/main.swift:52-97 | `fn main(n : Nat) -> Nat { return n }`, with no extensions, passes |

## Left out

- Reading the input file, parsing, printing, warnings, `quit`/`exit` and diagnostic formatting are left out. So are the `.code` pretty-printing of syntax and the `message:` strings built by `dump`: these are side effects or display.
- The Stella syntax tree belongs to an external package. It is re-declared with the constructors these files use. Forms the checker has no case for share one constructor, `Binary`, and one pattern, `CastAs`.
- Subtyping `~` has no definition in these files. It is a parameter `sub` of every judgment, and nothing is assumed about it.
- Duplicate keys in `Dictionary(uniqueKeysWithValues:)` trap at run time (PatternMatching.swift:35, TypeChecking.swift:87, main.swift:65). They are modelled as the failure `Trap`, not as preconditions, so the judgments stay total.
- The global context of `main.swift` is built without an exception type. The model uses none there.
- `try program.declarations.map` (main.swift:52) sits outside the `do`/`catch` that prints diagnostics. The error it throws for a declaration that is not a function with a return type is caught by neither `do`/`catch` (main.swift:22-28, 91-133), so the process ends on an uncaught top-level error instead of a diagnostic. The model returns it as an ordinary `Unsupported` failure.
- The unrecognised-extension warning (main.swift:35) is output only. Dropping the name is modelled.
- `Typing.CheckTryCastAs`: CHECK uses the corrected `tryCastAs` rule, which checks both continuations against the expected type; the source checks them against the cast type (TypeChecking.swift:206-209). `Typing.Check` therefore rejects what the source accepts there. The source's rule is kept as `TypingFacts.CheckTryCastAsWritten`, and the two are separated in the Findings. No program reaches the rule through the driver, because the legality pass refuses every `try cast as` first (CheckExpression.swift:162-163).
- `Errors.Code`: spells undefined-variable's code `ERROR_UNDEFINED_VARIABLE`, where the source has `ERROR_UDEFINED_VARIABLE` (Errors.swift:40). The source's table is `Errors.CodeAsWritten`, and `Errors.ReportedCode` and the injectivity facts are stated for it too.
- Type equality (`==` on `Type`) is Dafny's structural datatype equality, so the fields of a record type and the tags of a variant type are compared in order. The `Equatable` conformance of the Stella package's `Type` is not part of this model. Equality up to the order of fields and tags is left out. The members that rely on it are `Legacy.Expect`, `Typing.Compare`, `Typing.Subsumes` (with subtyping off), `Patterns.Bind` on an ascription, `TypingFacts.FixTyping` and the `TypingFacts` lemmas that compare inferred types.
- `Legality.CheckDeclaration` does not re-check the legality of throw types (SyntaxCheck.swift:46-52). Any declaration with throw types was already rejected at SyntaxCheck.swift:14-18, so that check could never fail.
- `Unsupported` failures keep the syntax node, the description and the suggested extension. They do not keep the printed text.
- `Pattern.isVariable` (CheckPattern.swift:63-68) is the predicate `Legality.IsVariable`, and the model folds it into the `let` rules. It has no lemma of its own because it is a one-line constructor test.

## Findings

| source | as written | input that shows it | evidently intended | confidence | as-written member | corrected member |
|---|---|---|---|---|---|---|
| Sources/Stellance/Errors.swift:40 | the code of undefined-variable is `ERROR_UDEFINED_VARIABLE` | any program using an unbound name, e.g. `fn main(n : Nat) -> Nat { return m }` | `ERROR_UNDEFINED_VARIABLE`, spelling the words out as every other code does | not executed | `Errors.UndefinedVariableCodeMisspelt` | `Errors.Code` |
| Sources/Stellance/TypeChecking.swift:206-209 | the case binding named `type` shadows the expected type, so both continuations of `try cast as` are checked against the cast type | `try cast 0 as Nat { x => x } with { 0 }` checked at Bool is accepted although it has type Nat (`TypingFacts.TryCastAsIgnoresExpectedType`) | check both continuations against the expected type; the fault is latent in the shipped driver, since the legality pass refuses every `try cast as` as not supported yet (CheckExpression.swift:162-163, `ProgramFacts.LegalityFirst`) | not executed | `TypingFacts.CheckTryCastAsWritten` | `TypingFacts.TryCastAsChecking` |
| Sources/Stellance/SyntaxCheck/SyntaxCheck.swift:31-37 | the guard `parameters.count == 1` demands multiparameter-functions for every non-unary declaration, nullary ones included | `fn f() -> Nat { return 0 }` with only nullary-functions enabled is refused | demand multiparameter-functions only for more than one parameter, as CheckType.swift and CheckExpression.swift do; the corrected guard is the rule `AtMostOne` of `Legality.CheckDeclaration`, while the program driver keeps the source's guard, because nothing but that consistency says the guard is wrong | not executed | `LegalityFacts.NullaryDeclarationMisjudged` | `LegalityFacts.CorrectedDeclarationArity` |
