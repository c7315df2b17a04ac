/** `Collection.any` and `Collection.all` (Collection+Functional.swift). `all`
    is deliberately false on an empty collection. */
module CollectionFunctional {

  /** Some element satisfies `p`. */
  ghost predicate SomeMatch<T>(xs: seq<T>, p: T -> bool) {
    exists i :: 0 <= i < |xs| && p(xs[i])
  }

  /** Every element satisfies `p` (vacuously so on the empty sequence). */
  ghost predicate EveryMatch<T>(xs: seq<T>, p: T -> bool) {
    forall i :: 0 <= i < |xs| ==> p(xs[i])
  }

  /** `any(_:)`: walks the elements in order and stops at the first match. */
  method Any<T>(xs: seq<T>, p: T -> bool) returns (r: bool)
    ensures r <==> SomeMatch(xs, p)
  {
    var i := 0;
    while i < |xs|
      invariant 0 <= i <= |xs|
      invariant forall j :: 0 <= j < i ==> !p(xs[j])
    {
      if p(xs[i]) {
        return true;
      }
      i := i + 1;
    }
    return false;
  }

  /** `all(_:)`: false on an empty collection, otherwise no element fails. */
  method All<T>(xs: seq<T>, p: T -> bool) returns (r: bool)
    ensures r <==> |xs| > 0 && EveryMatch(xs, p)
  {
    if |xs| == 0 {
      return false;
    }
    var anyFails := Any(xs, x => !p(x));
    r := !anyFails;
  }

  /** Because an empty collection fails `all`, `all` implies `any`. */
  lemma AllImpliesAny<T>(xs: seq<T>, p: T -> bool)
    requires |xs| > 0 && EveryMatch(xs, p)
    ensures SomeMatch(xs, p)
  {
    assert p(xs[0]);
  }

  /** On an empty collection both are false, whatever the predicate. */
  method EmptyCollection<T>(p: T -> bool) returns (any: bool, all: bool)
    ensures !any && !all
  {
    any := Any([], p);
    all := All([], p);
  }

  /** `[0, 1, 2, 3]` with `$0 > 0`: some element matches, not all do. */
  method AllButOneMatch() returns (any: bool, all: bool)
    ensures any && !all
  {
    var xs := [0, 1, 2, 3];
    var p := (x: int) => x > 0;
    assert p(xs[1]);
    assert !p(xs[0]);
    any := Any(xs, p);
    all := All(xs, p);
  }

  /** `[0, 1, 2, 3]` with `$0 == 0`: one element matches, so `any` holds and
      `all` does not. */
  method OneMatches() returns (any: bool, all: bool)
    ensures any && !all
  {
    var xs := [0, 1, 2, 3];
    var p := (x: int) => x == 0;
    assert p(xs[0]);
    assert !p(xs[1]);
    any := Any(xs, p);
    all := All(xs, p);
  }

  /** `[0, 1, 2, 3]` with a predicate that always holds: both are true. */
  method EveryElementMatches() returns (any: bool, all: bool)
    ensures any && all
  {
    var xs := [0, 1, 2, 3];
    var p := (x: int) => true;
    assert p(xs[0]);
    any := Any(xs, p);
    all := All(xs, p);
  }

  /** `[0, 1, 2, 3]` with a predicate that never holds: both are false. */
  method NoElementMatches() returns (any: bool, all: bool)
    ensures !any && !all
  {
    var xs := [0, 1, 2, 3];
    var p := (x: int) => false;
    assert !p(xs[0]);
    any := Any(xs, p);
    all := All(xs, p);
  }
}
