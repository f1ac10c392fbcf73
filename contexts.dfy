/** The typing environment (the `Context` protocol of Sources/Stellance/Model.swift):
  * a global table at the root and a persistent chain of local frames above it. */
module Contexts {
  import opened Wrappers
  import opened Extensions
  import opened Syntax

  /** `GlobalContext`: the declared functions, the enabled extensions and the declared exception type. */
  datatype GlobalContext = GlobalContext(
    globalVariables: map<string, Type>,
    enabledExtensions: seq<KnownExtension>,
    exceptionType: Option<Type>)

  /** A context is the global table or a `LocalContext` frame binding one name over its parent. */
  datatype Context =
    | Global(global: GlobalContext)
    | Local(next: Context, name: string, ty: Type)

  /** `GlobalContext.type(of:)`. */
  function GlobalTypeOf(g: GlobalContext, x: string): (r: Option<Type>)
    ensures r.Some? <==> x in g.globalVariables
    ensures r.Some? ==> r.value == g.globalVariables[x]
  {
    if x in g.globalVariables then Some(g.globalVariables[x]) else None
  }

  /** `GlobalContext.isEnabled`. */
  predicate GlobalIsEnabled(g: GlobalContext, ext: KnownExtension)
  {
    ext in g.enabledExtensions
  }

  /** `type(of:)`: the innermost binding of `x`, else the global table. */
  function TypeOf(ctx: Context, x: string): Option<Type>
  {
    match ctx
    case Global(g) => GlobalTypeOf(g, x)
    case Local(next, name, ty) => if x == name then Some(ty) else TypeOf(next, x)
  }

  /** `isEnabled`: a local frame asks its parent. */
  predicate IsEnabled(ctx: Context, ext: KnownExtension)
  {
    match ctx
    case Global(g) => GlobalIsEnabled(g, ext)
    case Local(next, _, _) => IsEnabled(next, ext)
  }

  /** `exceptionType`: a local frame asks its parent. */
  function ExceptionType(ctx: Context): Option<Type>
  {
    match ctx
    case Global(g) => g.exceptionType
    case Local(next, _, _) => ExceptionType(next)
  }

  /** The global table at the bottom of the chain. */
  function Root(ctx: Context): GlobalContext
  {
    match ctx
    case Global(g) => g
    case Local(next, _, _) => Root(next)
  }

  /** `context + name ~> type`: push one frame. */
  function Extend(ctx: Context, name: string, ty: Type): (c: Context)
    ensures TypeOf(c, name) == Some(ty)
    ensures forall y :: y != name ==> TypeOf(c, y) == TypeOf(ctx, y)
    ensures Extends(c, ctx)
  {
    Local(ctx, name, ty)
  }

  /** Push one frame per parameter, left to right. */
  function ExtendParams(ctx: Context, params: seq<Param>): (c: Context)
    ensures Extends(c, ctx)
    decreases |params|
  {
    if params == [] then ctx
    else
      var c := ExtendParams(Local(ctx, params[0].name, params[0].ty), params[1..]);
      ExtendsTrans(c, Local(ctx, params[0].name, params[0].ty), ctx);
      c
  }

  /** `c` is `base` with zero or more frames pushed on top. */
  predicate Extends(c: Context, base: Context)
  {
    c == base || (c.Local? && Extends(c.next, base))
  }

  lemma {:induction false} ExtendsTrans(a: Context, b: Context, c: Context)
    requires Extends(a, b) && Extends(b, c)
    ensures Extends(a, c)
  {
    if a != b {
      ExtendsTrans(a.next, b, c);
    }
  }

  /** Pushing frames never changes the flags, the exception type or the root. */
  lemma {:induction false} ExtendsKeepsRoot(c: Context, base: Context)
    requires Extends(c, base)
    ensures Root(c) == Root(base)
    ensures ExceptionType(c) == ExceptionType(base)
    ensures forall e :: IsEnabled(c, e) == IsEnabled(base, e)
  {
    if c != base {
      ExtendsKeepsRoot(c.next, base);
    }
  }

  /** Every chain of frames asks its global root about flags and the exception type. */
  lemma {:induction false} LocalAsksRoot(ctx: Context)
    ensures forall e :: IsEnabled(ctx, e) == GlobalIsEnabled(Root(ctx), e)
    ensures ExceptionType(ctx) == Root(ctx).exceptionType
  {
    match ctx
    case Global(_) =>
    case Local(next, _, _) => LocalAsksRoot(next);
  }

  /** Global lookup is map lookup, and global `isEnabled` is list membership. */
  lemma GlobalQueries(g: GlobalContext, x: string, e: KnownExtension)
    ensures TypeOf(Global(g), x) == (if x in g.globalVariables then Some(g.globalVariables[x]) else None)
    ensures IsEnabled(Global(g), e) <==> exists i :: 0 <= i < |g.enabledExtensions| && g.enabledExtensions[i] == e
  {
  }

  /** The innermost binding shadows outer ones; other names see through the frame. */
  lemma LocalLookup(parent: Context, n: string, t: Type, m: string)
    ensures TypeOf(Local(parent, n, t), n) == Some(t)
    ensures m != n ==> TypeOf(Local(parent, n, t), m) == TypeOf(parent, m)
  {
  }

  /** After pushing the parameters, a name looks up to its last parameter of that name,
    * or, if no parameter has it, to what it was before. */
  lemma {:induction false} ExtendParamsLookup(ctx: Context, params: seq<Param>, x: string)
    ensures x !in ParamNames(params) ==> TypeOf(ExtendParams(ctx, params), x) == TypeOf(ctx, x)
    ensures forall i :: 0 <= i < |params| && params[i].name == x &&
                        (forall j :: i < j < |params| ==> params[j].name != x) ==>
                        TypeOf(ExtendParams(ctx, params), x) == Some(params[i].ty)
    decreases |params|
  {
    if params != [] {
      var c1 := Local(ctx, params[0].name, params[0].ty);
      ExtendParamsLookup(c1, params[1..], x);
      assert ParamNames(params) == [params[0].name] + ParamNames(params[1..]);
      forall i | 0 <= i < |params| && params[i].name == x &&
                 (forall j :: i < j < |params| ==> params[j].name != x)
        ensures TypeOf(ExtendParams(ctx, params), x) == Some(params[i].ty)
      {
        if i == 0 {
          assert forall k :: 0 <= k < |params[1..]| ==> params[1..][k].name != x by {
            forall k | 0 <= k < |params[1..]| ensures params[1..][k].name != x {
              assert params[1..][k] == params[k + 1];
            }
          }
          assert x !in ParamNames(params[1..]);
        } else {
          assert params[1..][i - 1] == params[i];
          assert forall j :: i - 1 < j < |params[1..]| ==> params[1..][j].name != x by {
            forall j | i - 1 < j < |params[1..]| ensures params[1..][j].name != x {
              assert params[1..][j] == params[j + 1];
            }
          }
        }
      }
    }
  }

  /** The parameter names, in order. */
  function ParamNames(params: seq<Param>): (names: seq<string>)
    ensures |names| == |params|
    ensures forall i :: 0 <= i < |params| ==> names[i] == params[i].name
  {
    if params == [] then [] else [params[0].name] + ParamNames(params[1..])
  }
}
