/** The approximate exhaustiveness test `patterns |? type` used by `match`
  * (Sources/Stellance/TypeChecking.swift). It looks only at the outermost
  * constructor of each arm's pattern; sub-patterns are never inspected. */
module Exhaustiveness {
  import opened Wrappers
  import opened Syntax
  import opened Utils

  /** An arm of this shape covers the given tag: same name, and a payload
    * pattern exactly when the tag carries data. */
  predicate CoversTag(tag: TagType, p: Pattern)
  {
    p.Variant? && p.tag == tag.name && (p.payload.Some? == tag.payload.Some?)
  }

  /** Every tag of the variant is covered by some arm. */
  predicate AllTagsCovered(ps: seq<Pattern>, tags: seq<TagType>)
  {
    tags == [] || (Any(ps, p => CoversTag(tags[0], p)) && AllTagsCovered(ps, tags[1..]))
  }

  /** `patterns |? type`. */
  predicate Exhaustive(ps: seq<Pattern>, t: Type)
  {
    if Any(ps, (p: Pattern) => p.Var?) then true
    else
      match t
      case Bool => Pattern.True in ps && Pattern.False in ps
      case Nat => Pattern.Int(0) in ps && Any(ps, (p: Pattern) => p.Succ?)
      case Sum(_, _) => Any(ps, (p: Pattern) => p.Inl?) && Any(ps, (p: Pattern) => p.Inr?)
      case List(_) => Pattern.List([]) in ps && Any(ps, (p: Pattern) => p.Cons?)
      case Variant(tags) => AllTagsCovered(ps, tags)
      case _ => true
  }

  // ---------------------------------------------------------------------------
  // A reference definition over the set of arms

  /** Every tag of the variant is covered by some arm. */
  lemma {:induction false} AllTagsCoveredIff(ps: seq<Pattern>, tags: seq<TagType>)
    ensures AllTagsCovered(ps, tags) <==>
            forall k :: 0 <= k < |tags| ==> exists p :: p in ps && CoversTag(tags[k], p)
  {
    if tags != [] {
      AnyIffExists(ps, p => CoversTag(tags[0], p));
      AllTagsCoveredIff(ps, tags[1..]);
      if AllTagsCovered(ps, tags) {
        forall k | 0 <= k < |tags|
          ensures exists p :: p in ps && CoversTag(tags[k], p)
        {
          if k == 0 {
            var i :| 0 <= i < |ps| && CoversTag(tags[0], ps[i]);
            assert ps[i] in ps;
          } else {
            assert tags[1..][k - 1] == tags[k];
          }
        }
      }
      if forall k :: 0 <= k < |tags| ==> exists p :: p in ps && CoversTag(tags[k], p) {
        var p :| p in ps && CoversTag(tags[0], p);
        var i :| 0 <= i < |ps| && ps[i] == p;
        forall k | 0 <= k < |tags[1..]|
          ensures exists p :: p in ps && CoversTag(tags[1..][k], p)
        {
          assert tags[1..][k] == tags[k + 1];
        }
      }
    }
  }

  /** Some arm has the given outermost shape. */
  lemma AnyShape(ps: seq<Pattern>, f: Pattern -> bool)
    ensures Any(ps, f) <==> exists p :: p in ps && f(p)
  {
    AnyIffExists(ps, f);
    if exists p :: p in ps && f(p) {
      var p :| p in ps && f(p);
      var i :| 0 <= i < |ps| && ps[i] == p;
    }
  }

  /** `|?` spelled out over the set of arms, type by type. */
  lemma ExhaustiveIff(ps: seq<Pattern>, t: Type)
    ensures (exists p :: p in ps && p.Var?) ==> Exhaustive(ps, t)
    ensures !(exists p :: p in ps && p.Var?) ==>
              (Exhaustive(ps, t) <==>
                 match t
                 case Bool => Pattern.True in ps && Pattern.False in ps
                 case Nat => Pattern.Int(0) in ps && exists p :: p in ps && p.Succ?
                 case Sum(_, _) => (exists p :: p in ps && p.Inl?) && (exists p :: p in ps && p.Inr?)
                 case List(_) => Pattern.List([]) in ps && exists p :: p in ps && p.Cons?
                 case Variant(tags) =>
                   forall k :: 0 <= k < |tags| ==> exists p :: p in ps && CoversTag(tags[k], p)
                 case _ => true)
  {
    AnyShape(ps, (p: Pattern) => p.Var?);
    AnyShape(ps, (p: Pattern) => p.Succ?);
    AnyShape(ps, (p: Pattern) => p.Inl?);
    AnyShape(ps, (p: Pattern) => p.Inr?);
    AnyShape(ps, (p: Pattern) => p.Cons?);
    if t.Variant? {
      AllTagsCoveredIff(ps, t.tags);
    }
  }

  /** Adding arms never makes a match non-exhaustive. */
  lemma ExhaustiveMonotone(ps: seq<Pattern>, qs: seq<Pattern>, t: Type)
    requires forall p :: p in ps ==> p in qs
    requires Exhaustive(ps, t)
    ensures Exhaustive(qs, t)
  {
    ExhaustiveIff(ps, t);
    ExhaustiveIff(qs, t);
    if !(exists p :: p in qs && p.Var?) && t.Variant? {
      assert !(exists p :: p in ps && p.Var?);
      forall k | 0 <= k < |t.tags|
        ensures exists p :: p in qs && CoversTag(t.tags[k], p)
      {
        var p :| p in ps && CoversTag(t.tags[k], p);
        assert p in qs;
      }
    }
  }

  /** Only which arms are present matters, not their order or repetition. */
  lemma ExhaustiveSameArms(ps: seq<Pattern>, qs: seq<Pattern>, t: Type)
    requires forall p :: p in ps <==> p in qs
    ensures Exhaustive(ps, t) == Exhaustive(qs, t)
  {
    if Exhaustive(ps, t) { ExhaustiveMonotone(ps, qs, t); }
    if Exhaustive(qs, t) { ExhaustiveMonotone(qs, ps, t); }
  }

  /** A match with no arms is exhaustive only at the types the test does not inspect. */
  lemma NoArms(t: Type)
    ensures Exhaustive([], t) <==> !(t.Bool? || t.Nat? || t.Sum? || t.List? || (t.Variant? && t.tags != []))
  {
  }

  /** Sub-patterns are not inspected: `succ(succ(n))` together with `0` covers Nat. */
  lemma ShallowNat(q: Pattern)
    ensures Exhaustive([Pattern.Int(0), Pattern.Succ(q)], Type.Nat)
  {
    ExhaustiveIff([Pattern.Int(0), Pattern.Succ(q)], Type.Nat);
    assert Pattern.Succ(q) in [Pattern.Int(0), Pattern.Succ(q)];
  }
}
