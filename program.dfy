/** The program-level check of Sources/Stellance/main.swift: the extensions a
  * program enables, the global context built from its function signatures,
  * the contract on `main`, and the order in which legality and typing run.
  * Reading the file, parsing and printing the outcome are not modelled. */
module ProgramCheck {
  import opened Wrappers
  import opened Extensions
  import opened Syntax
  import opened Errors
  import opened Contexts
  import opened Typing
  import opened Legality

  /** Every extension name of the program's extension lines, in order. */
  function ExtensionNames(lines: seq<seq<string>>): (names: seq<string>)
    ensures |lines| == 0 ==> names == []
    ensures forall i, s :: 0 <= i < |lines| && s in lines[i] ==> s in names
  {
    if lines == [] then [] else lines[0] + ExtensionNames(lines[1..])
  }

  /** The recognised names, as
    * extensions, in source order; unrecognised names are dropped. */
  function FilterExtensions(names: seq<string>): (exts: seq<KnownExtension>)
    ensures |exts| <= |names|
    ensures forall e :: e in exts ==> Name(e) in names
  {
    if names == [] then []
    else
      ParseSound(names[0]);
      var head := if Parse(names[0]).Some? then [Parse(names[0]).value] else [];
      head + FilterExtensions(names[1..])
  }

  /** A declaration's signature: a function with a declared return type
    * contributes its name and function type; anything else is unsupported. */
  function DeclarationType(d: Declaration): Result<(string, Type)>
  {
    match d
    case FunctionDecl(_, name, params, Some(rt), _, _, _) => Ok((name, Type.Function(ParamTypes(params), rt)))
    case _ => Fail(Unsupported(DeclarationNode(d), None, None))
  }

  /** The signatures of the declarations, in order, or the first failure. */
  function DeclarationTypes(ds: seq<Declaration>): (r: Result<seq<(string, Type)>>)
    ensures r.Ok? ==> |r.value| == |ds|
  {
    if ds == [] then Ok([])
    else
      var sig :- DeclarationType(ds[0]);
      var rest :- DeclarationTypes(ds[1..]);
      Ok([sig] + rest)
  }

  /** The names of a list of signatures, in order. */
  function SignatureNames(sigs: seq<(string, Type)>): (names: seq<string>)
    ensures |names| == |sigs|
    ensures forall i :: 0 <= i < |sigs| ==> names[i] == sigs[i].0
  {
    if sigs == [] then [] else [sigs[0].0] + SignatureNames(sigs[1..])
  }

  /** `Dictionary(uniqueKeysWithValues:)`: the map of the signatures; a
    * repeated name is a runtime trap. */
  function UniqueMap(sigs: seq<(string, Type)>): (r: Result<map<string, Type>>)
    ensures r.Fail? ==> r.failure == Trap
  {
    if sigs == [] then Ok(map[])
    else
      var m :- UniqueMap(sigs[1..]);
      if sigs[0].0 in m then Fail(Trap) else Ok(m[sigs[0].0 := sigs[0].1])
  }

  /** The global context of a program: its signatures, the extensions it
    * names, and no exception type. */
  function ProgramContext(p: Program): Result<GlobalContext>
  {
    var sigs :- DeclarationTypes(p.declarations);
    var globals :- UniqueMap(sigs);
    Ok(GlobalContext(globals, FilterExtensions(ExtensionNames(p.extensions)), None))
  }

  /** `context |- program`: `main` must be a function of one parameter, then
    * every function's return expression is checked against its return type. */
  function CheckProgram(sub: Subtyping, g: GlobalContext, p: Program): Result<()>
  {
    if "main" !in g.globalVariables || !g.globalVariables["main"].Function? then Fail(Error(MissingMain))
    else if |g.globalVariables["main"].params| != 1 then Fail(Error(IncorrectMainArity))
    else CheckBodies(sub, g, p.declarations)
  }

  /** Every declaration's body, in order, stopping at the first failure. */
  function CheckBodies(sub: Subtyping, g: GlobalContext, ds: seq<Declaration>): Result<()>
  {
    if ds == [] then Ok(())
    else
      var _ :- CheckBody(sub, g, ds[0]);
      CheckBodies(sub, g, ds[1..])
  }

  /** One declaration of the loop: its return expression against its return
    * type, with the parameters pushed onto the global context. */
  function CheckBody(sub: Subtyping, g: GlobalContext, d: Declaration): Result<()>
  {
    match d
    case FunctionDecl(_, _, params, Some(rt), _, _, returnExpr) =>
      Check(sub, ExtendParams(Global(g), params), returnExpr, rt)
    case _ => Fail(Unsupported(DeclarationNode(d), None, None))
  }

  /** The whole static check: build the context, check every declaration's
    * legality under the source's parameter-count guard, then type the program. */
  function StaticCheck(sub: Subtyping, p: Program): Result<()>
  {
    var g :- ProgramContext(p);
    var _ :- CheckDeclarations(g, AsWritten, p.declarations);
    CheckProgram(sub, g, p)
  }
}
