/** What the program-level check promises: which extensions end up enabled,
  * which signatures the global context holds, what `main` must look like,
  * and that a program passes only when every declaration is legal and every
  * function body has its declared type. */
module ProgramFacts {
  import opened Wrappers
  import opened Extensions
  import opened Syntax
  import opened Errors
  import opened Contexts
  import opened Typing
  import opened Legality
  import opened LegalityFacts
  import opened ProgramCheck

  // ---------------------------------------------------------------------------
  // Extensions

  /** A name is among the extension names exactly when some `#extension` line lists it. */
  lemma {:induction false} ExtensionNamesIn(lines: seq<seq<string>>, s: string)
    ensures s in ExtensionNames(lines) <==> exists i :: 0 <= i < |lines| && s in lines[i]
  {
    if lines != [] {
      ExtensionNamesIn(lines[1..], s);
      if exists i :: 0 <= i < |lines[1..]| && s in lines[1..][i] {
        var i :| 0 <= i < |lines[1..]| && s in lines[1..][i];
        assert lines[1..][i] == lines[i + 1];
      }
      if exists i :: 1 <= i < |lines| && s in lines[i] {
        var i :| 1 <= i < |lines| && s in lines[i];
        assert lines[1..][i - 1] == lines[i];
      }
    }
  }

  /** Filtering distributes over concatenation, so source order is kept. */
  lemma {:induction false} FilterAppend(a: seq<string>, b: seq<string>)
    ensures FilterExtensions(a + b) == FilterExtensions(a) + FilterExtensions(b)
  {
    if a != [] {
      var head := if Parse(a[0]).Some? then [Parse(a[0]).value] else [];
      assert (a + b)[0] == a[0];
      assert (a + b)[1..] == a[1..] + b;
      assert FilterExtensions(a + b) == head + FilterExtensions(a[1..] + b);
      assert FilterExtensions(a) == head + FilterExtensions(a[1..]);
      FilterAppend(a[1..], b);
      assert head + (FilterExtensions(a[1..]) + FilterExtensions(b)) ==
             (head + FilterExtensions(a[1..])) + FilterExtensions(b);
    } else {
      assert a + b == b;
    }
  }

  /** A single name survives exactly when it is recognised. */
  lemma FilterSingle(s: string)
    ensures FilterExtensions([s]) == (if Parse(s).Some? then [Parse(s).value] else [])
  {
  }

  /** An extension is enabled exactly when its raw name was written. */
  lemma {:induction false} FilterMembership(names: seq<string>, e: KnownExtension)
    ensures e in FilterExtensions(names) <==> Name(e) in names
  {
    if names != [] {
      FilterMembership(names[1..], e);
      ParseSound(names[0]);
      ParseName(e);
      assert names == [names[0]] + names[1..];
    }
  }

  /** The raw names of a list of extensions, in order. */
  function Names(exts: seq<KnownExtension>): (names: seq<string>)
    ensures |names| == |exts|
    ensures forall i :: 0 <= i < |exts| ==> names[i] == Name(exts[i])
  {
    if exts == [] then [] else [Name(exts[0])] + Names(exts[1..])
  }

  /** Writing out extensions by name and filtering them gives them back. */
  lemma {:induction false} FilterNames(exts: seq<KnownExtension>)
    ensures FilterExtensions(Names(exts)) == exts
  {
    if exts != [] {
      ParseName(exts[0]);
      FilterNames(exts[1..]);
      FilterAppend([Name(exts[0])], Names(exts[1..]));
      assert Names(exts) == [Name(exts[0])] + Names(exts[1..]);
    }
  }

  // ---------------------------------------------------------------------------
  // Signatures and the global context

  /** Only functions with a declared return type have a signature. */
  predicate Signed(d: Declaration)
  {
    d.FunctionDecl? && d.returnType.Some?
  }

  /** The signature list exists when every declaration is signed, and then it
    * lists each declaration's name and function type in order; otherwise the
    * first unsigned declaration is reported as unsupported. */
  lemma {:induction false} DeclarationTypesOk(ds: seq<Declaration>)
    ensures DeclarationTypes(ds).Ok? <==> forall i :: 0 <= i < |ds| ==> Signed(ds[i])
    ensures DeclarationTypes(ds).Ok? ==>
              forall i :: 0 <= i < |ds| ==>
                DeclarationTypes(ds).value[i] ==
                  (ds[i].name, Type.Function(ParamTypes(ds[i].params), ds[i].returnType.value))
    ensures DeclarationTypes(ds).Fail? ==>
              exists k :: 0 <= k < |ds| && !Signed(ds[k]) && (forall j :: 0 <= j < k ==> Signed(ds[j])) &&
                DeclarationTypes(ds).failure == Unsupported(DeclarationNode(ds[k]), None, None)
  {
    if ds != [] {
      DeclarationTypesOk(ds[1..]);
      if forall i :: 0 <= i < |ds| ==> Signed(ds[i]) {
        assert forall i :: 0 <= i < |ds[1..]| ==> Signed(ds[1..][i]) by {
          forall i | 0 <= i < |ds[1..]| ensures Signed(ds[1..][i]) {
            assert ds[1..][i] == ds[i + 1];
          }
        }
        var rest := DeclarationTypes(ds[1..]).value;
        forall i | 0 <= i < |ds|
          ensures DeclarationTypes(ds).value[i] ==
                    (ds[i].name, Type.Function(ParamTypes(ds[i].params), ds[i].returnType.value))
        {
          if i > 0 {
            assert ds[1..][i - 1] == ds[i];
          }
        }
      } else if Signed(ds[0]) {
        var k :| 0 <= k < |ds[1..]| && !Signed(ds[1..][k]) && (forall j :: 0 <= j < k ==> Signed(ds[1..][j])) &&
                 DeclarationTypes(ds[1..]).failure == Unsupported(DeclarationNode(ds[1..][k]), None, None);
        assert ds[1..][k] == ds[k + 1];
        assert forall j :: 0 <= j < k + 1 ==> Signed(ds[j]) by {
          forall j | 0 <= j < k + 1 ensures Signed(ds[j]) {
            if j > 0 { assert ds[1..][j - 1] == ds[j]; }
          }
        }
      } else {
        assert !Signed(ds[0]);
      }
    }
  }

  /** A list has a repeat when its head recurs in its tail or its tail has a repeat. */
  lemma HasDuplicatesCons(names: seq<string>)
    requires names != []
    ensures HasDuplicates(names) <==> names[0] in names[1..] || HasDuplicates(names[1..])
  {
    if HasDuplicates(names) {
      var i, j :| 0 <= i < j < |names| && names[i] == names[j];
      if i == 0 {
        assert names[1..][j - 1] == names[j];
      } else {
        assert names[1..][i - 1] == names[i] && names[1..][j - 1] == names[j];
      }
    }
    if names[0] in names[1..] {
      var j :| 0 <= j < |names[1..]| && names[1..][j] == names[0];
      assert names[0] == names[j + 1];
    }
    if HasDuplicates(names[1..]) {
      var i, j :| 0 <= i < j < |names[1..]| && names[1..][i] == names[1..][j];
      assert names[i + 1] == names[j + 1];
    }
  }

  /** The map holds exactly the signature names, each with its signature. */
  lemma {:induction false} UniqueMapContents(sigs: seq<(string, Type)>)
    requires UniqueMap(sigs).Ok?
    ensures forall x :: x in UniqueMap(sigs).value <==> x in SignatureNames(sigs)
    ensures forall i :: 0 <= i < |sigs| ==> UniqueMap(sigs).value[sigs[i].0] == sigs[i].1
  {
    if sigs != [] {
      UniqueMapContents(sigs[1..]);
      var names := SignatureNames(sigs);
      assert SignatureNames(sigs[1..]) == names[1..];
      assert names == [sigs[0].0] + names[1..];
      forall i | 0 <= i < |sigs|
        ensures UniqueMap(sigs).value[sigs[i].0] == sigs[i].1
      {
        if i > 0 {
          assert sigs[1..][i - 1] == sigs[i];
        }
      }
    }
  }

  /** The map exists exactly when no name repeats; otherwise building it traps. */
  lemma {:induction false} UniqueMapOk(sigs: seq<(string, Type)>)
    ensures UniqueMap(sigs).Ok? <==> !HasDuplicates(SignatureNames(sigs))
    ensures UniqueMap(sigs).Fail? ==> UniqueMap(sigs) == Fail(Trap)
  {
    if sigs != [] {
      UniqueMapOk(sigs[1..]);
      var names := SignatureNames(sigs);
      assert SignatureNames(sigs[1..]) == names[1..];
      HasDuplicatesCons(names);
      if UniqueMap(sigs[1..]).Ok? {
        UniqueMapContents(sigs[1..]);
      }
    }
  }

  /** The global context of a program that builds one: every function is in it
    * under its name with its signature, and exactly the written extensions are enabled. */
  lemma ProgramContextOk(p: Program)
    requires ProgramContext(p).Ok?
    ensures forall i :: 0 <= i < |p.declarations| ==> Signed(p.declarations[i])
    ensures var g := ProgramContext(p).value;
            (forall i :: 0 <= i < |p.declarations| ==>
               var d := p.declarations[i];
               Signed(d) && d.name in g.globalVariables &&
               g.globalVariables[d.name] == Type.Function(ParamTypes(d.params), d.returnType.value)) &&
            (forall e :: GlobalIsEnabled(g, e) <==> Name(e) in ExtensionNames(p.extensions)) &&
            g.exceptionType.None?
  {
    var ds := p.declarations;
    DeclarationTypesOk(ds);
    var sigs := DeclarationTypes(ds).value;
    UniqueMapContents(sigs);
    var g := ProgramContext(p).value;
    forall e ensures GlobalIsEnabled(g, e) <==> Name(e) in ExtensionNames(p.extensions) {
      FilterMembership(ExtensionNames(p.extensions), e);
    }
    forall i | 0 <= i < |ds|
      ensures ds[i].name in g.globalVariables
      ensures g.globalVariables[ds[i].name] == Type.Function(ParamTypes(ds[i].params), ds[i].returnType.value)
    {
      assert sigs[i].0 == ds[i].name;
    }
  }

  // ---------------------------------------------------------------------------
  // The program check

  lemma {:induction false} CheckBodiesOk(sub: Subtyping, g: GlobalContext, ds: seq<Declaration>)
    ensures CheckBodies(sub, g, ds).Ok? <==> forall i :: 0 <= i < |ds| ==> CheckBody(sub, g, ds[i]).Ok?
  {
    if ds != [] {
      CheckBodiesOk(sub, g, ds[1..]);
      if forall i :: 0 <= i < |ds| ==> CheckBody(sub, g, ds[i]).Ok? {
        forall i | 0 <= i < |ds[1..]|
          ensures CheckBody(sub, g, ds[1..][i]).Ok?
        {
          assert ds[1..][i] == ds[i + 1];
        }
      }
      if CheckBodies(sub, g, ds).Ok? {
        forall i | 0 <= i < |ds|
          ensures CheckBody(sub, g, ds[i]).Ok?
        {
          if i > 0 {
            assert ds[1..][i - 1] == ds[i];
          }
        }
      }
    }
  }

  /** `main` is missing, or bound to something other than a function: missing
    * main; a function of other than one parameter: wrong arity; otherwise the
    * program checks exactly when every function body has its declared type. */
  lemma MainContract(sub: Subtyping, g: GlobalContext, p: Program)
    ensures "main" !in g.globalVariables ==> CheckProgram(sub, g, p) == Fail(Error(MissingMain))
    ensures "main" in g.globalVariables && !g.globalVariables["main"].Function? ==>
              CheckProgram(sub, g, p) == Fail(Error(MissingMain))
    ensures "main" in g.globalVariables && g.globalVariables["main"].Function? &&
            |g.globalVariables["main"].params| != 1 ==>
              CheckProgram(sub, g, p) == Fail(Error(IncorrectMainArity))
    ensures CheckProgram(sub, g, p).Ok? <==>
              "main" in g.globalVariables && g.globalVariables["main"].Function? &&
              |g.globalVariables["main"].params| == 1 &&
              forall i :: 0 <= i < |p.declarations| ==>
                var d := p.declarations[i];
                Signed(d) && Check(sub, ExtendParams(Global(g), d.params), d.returnExpr, d.returnType.value).Ok?
  {
    CheckBodiesOk(sub, g, p.declarations);
  }

  /** Legality runs first: an illegal declaration is reported before `main`
    * or any function body is looked at. */
  lemma LegalityFirst(sub: Subtyping, p: Program)
    requires ProgramContext(p).Ok?
    requires CheckDeclarations(ProgramContext(p).value, AsWritten, p.declarations).Fail?
    ensures StaticCheck(sub, p) == CheckDeclarations(ProgramContext(p).value, AsWritten, p.declarations)
  {
  }

  /** A program passes when, and only when, its context builds, every
    * declaration is legal, `main` takes one parameter and every function body
    * has its declared type in the global context extended by the parameters. */
  lemma StaticCheckOk(sub: Subtyping, p: Program)
    ensures StaticCheck(sub, p).Ok? <==>
              ProgramContext(p).Ok? &&
              var g := ProgramContext(p).value;
              (forall i :: 0 <= i < |p.declarations| ==> CheckDeclaration(g, AsWritten, p.declarations[i]).Ok?) &&
              CheckProgram(sub, g, p).Ok?
  {
    if ProgramContext(p).Ok? {
      CheckDeclarationsOk(ProgramContext(p).value, AsWritten, p.declarations);
    }
  }

  /** A context whose `main` is a one-parameter function comes from a
    * one-parameter function declaration named `main`. */
  lemma MainDeclared(p: Program, g: GlobalContext)
    requires ProgramContext(p) == Ok(g)
    requires "main" in g.globalVariables && g.globalVariables["main"].Function?
    ensures exists i :: 0 <= i < |p.declarations| &&
              p.declarations[i].FunctionDecl? && p.declarations[i].name == "main" &&
              |p.declarations[i].params| == |g.globalVariables["main"].params|
  {
    DeclarationTypesOk(p.declarations);
    var sigs := DeclarationTypes(p.declarations).value;
    UniqueMapContents(sigs);
    var i :| 0 <= i < |sigs| && SignatureNames(sigs)[i] == "main";
    assert g.globalVariables["main"] == sigs[i].1;
  }

  /** A program that passes has a one-parameter `main` among its declarations. */
  lemma PassingProgramHasMain(sub: Subtyping, p: Program)
    requires StaticCheck(sub, p).Ok?
    ensures exists i :: 0 <= i < |p.declarations| &&
              p.declarations[i].FunctionDecl? && p.declarations[i].name == "main" &&
              |p.declarations[i].params| == 1
  {
    var g := ProgramContext(p).value;
    assert CheckProgram(sub, g, p).Ok?;
    MainDeclared(p, g);
  }

  /** The smallest program: `fn main(n : Nat) -> Nat { return n }`, with no extensions. */
  function IdentityMain(): Program
  {
    Program([], [FunctionDecl([], "main", [Param("n", Type.Nat)], Some(Type.Nat), [], [], Expression.Var("n"))])
  }

  /** It passes. */
  lemma IdentityMainPasses(sub: Subtyping)
    ensures StaticCheck(sub, IdentityMain()) == Ok(())
  {
    var p := IdentityMain();
    var d := p.declarations[0];
    var g := GlobalContext(map["main" := Type.Function([Type.Nat], Type.Nat)], [], None);
    assert ParamTypes(d.params) == [Type.Nat];
    DeclarationTypesOk(p.declarations);
    assert Signed(d);
    assert DeclarationTypes(p.declarations).Ok?;
    var sigs := DeclarationTypes(p.declarations).value;
    assert |sigs| == 1;
    assert sigs[0].0 == "main";
    assert sigs[0].1 == Type.Function([Type.Nat], Type.Nat);
    var expected: seq<(string, Type)> := [("main", Type.Function([Type.Nat], Type.Nat))];
    assert sigs == expected;
    assert UniqueMap(expected) == Ok(g.globalVariables);
    assert ProgramContext(p) == Ok(g);
    assert CheckDeclaration(g, AsWritten, d) == Ok(());
    var c := ExtendParams(Global(g), d.params);
    assert c == Local(Global(g), "n", Type.Nat);
    assert Check(sub, c, d.returnExpr, Type.Nat) == CheckByInference(sub, c, d.returnExpr, Type.Nat);
    assert CheckBody(sub, g, d) == Ok(());
  }
}
