/** `Array.anySatisfy` (Sources/Stellance/Utils.swift) and the function that specifies it. */
module Utils {

  /** Some element satisfies `p`, examined front to back. */
  predicate Any<T>(xs: seq<T>, p: T -> bool)
  {
    xs != [] && (p(xs[0]) || Any(xs[1..], p))
  }

  /** `Any` holds exactly when some element satisfies `p`. */
  lemma {:induction false} AnyIffExists<T>(xs: seq<T>, p: T -> bool)
    ensures Any(xs, p) <==> exists i :: 0 <= i < |xs| && p(xs[i])
  {
    if xs != [] {
      AnyIffExists(xs[1..], p);
      if exists i :: 0 <= i < |xs| && p(xs[i]) {
        var i :| 0 <= i < |xs| && p(xs[i]);
        if i > 0 {
          assert xs[1..][i - 1] == xs[i];
        }
      }
    }
  }

  /** `anySatisfy` distributes over concatenation. */
  lemma {:induction false} AnyAppend<T>(xs: seq<T>, ys: seq<T>, p: T -> bool)
    ensures Any(xs + ys, p) == (Any(xs, p) || Any(ys, p))
  {
    if xs != [] {
      assert (xs + ys)[1..] == xs[1..] + ys;
      AnyAppend(xs[1..], ys, p);
    } else {
      assert xs + ys == ys;
    }
  }

  /** A weaker predicate is satisfied at least as often. */
  lemma AnyMonotone<T>(xs: seq<T>, p: T -> bool, q: T -> bool)
    requires forall x :: p(x) ==> q(x)
    ensures Any(xs, p) ==> Any(xs, q)
  {
    AnyIffExists(xs, p);
    AnyIffExists(xs, q);
  }

  /** Scans the elements in order and stops at the first one that satisfies `p`. */
  method AnySatisfy<T>(xs: seq<T>, p: T -> bool) returns (found: bool)
    ensures found <==> exists i :: 0 <= i < |xs| && p(xs[i])
    ensures found == Any(xs, p)
    ensures xs == [] ==> !found
  {
    var k := 0;
    while k < |xs|
      invariant 0 <= k <= |xs|
      invariant forall j :: 0 <= j < k ==> !p(xs[j])
    {
      if p(xs[k]) {
        AnyIffExists(xs, p);
        return true;
      }
      k := k + 1;
    }
    AnyIffExists(xs, p);
    return false;
  }
}
