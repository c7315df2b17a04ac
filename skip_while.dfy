/** `Publisher.skip(while:)` (Publisher+skipWhile.swift) on a finite stream:
    a `scan` over a (skipping, output) state followed by `compactMap` of the
    outputs. */
module SkipWhile {
  import opened Wrappers
  import opened SequenceFunctional

  /** The accumulator of the `scan`. */
  datatype SkipState<T> = SkipState(skipping: bool, output: Option<T>)

  /** One step of the `scan`: while still skipping, an element that satisfies
      the predicate is swallowed; any other element is passed on and skipping
      stops. */
  function Step<T>(state: SkipState<T>, value: T, p: T -> bool): (next: SkipState<T>)
    ensures next.output.None? <==> state.skipping && p(value)
    ensures next.output.Some? ==> next == SkipState(false, Some(value))
    ensures next.skipping <==> next.output.None?
  {
    if state.skipping && p(value) then SkipState(true, None) else SkipState(false, Some(value))
  }

  /** The states `scan` emits, one per element, starting from `state`. */
  function Scan<T>(xs: seq<T>, p: T -> bool, state: SkipState<T>): (states: seq<SkipState<T>>)
    ensures |states| == |xs|
  {
    if xs == [] then []
    else
      var next := Step(state, xs[0], p);
      [next] + Scan(xs[1..], p, next)
  }

  /** `map { $0.output }` over the scanned states. */
  function Outputs<T>(states: seq<SkipState<T>>): (r: seq<Option<T>>)
    ensures |r| == |states|
  {
    seq(|states|, i requires 0 <= i < |states| => states[i].output)
  }

  /** `skip(while: p)`: the initial state is `(skipping: true, output: nil)`. */
  function SkipWhile<T>(xs: seq<T>, p: T -> bool): seq<T> {
    Compact(Outputs(Scan(xs, p, SkipState(true, None))))
  }

  /** The reference reading: the number of leading elements that satisfy
      the predicate. */
  function LeadingMatches<T>(xs: seq<T>, p: T -> bool): (k: nat)
    ensures k <= |xs|
    ensures forall i :: 0 <= i < k ==> p(xs[i])
    ensures k < |xs| ==> !p(xs[k])
  {
    if xs == [] || !p(xs[0]) then 0 else 1 + LeadingMatches(xs[1..], p)
  }

  /** Peeling the first step off the compacted outputs. */
  lemma EmittedCons<T>(xs: seq<T>, p: T -> bool, state: SkipState<T>)
    requires xs != []
    ensures var next := Step(state, xs[0], p);
      Compact(Outputs(Scan(xs, p, state)))
        == (if next.output.Some? then [xs[0]] else []) + Compact(Outputs(Scan(xs[1..], p, next)))
  {
    var next := Step(state, xs[0], p);
    var o := Outputs(Scan(xs, p, state));
    assert o[0] == next.output;
    assert o[1..] == Outputs(Scan(xs[1..], p, next));
  }

  /** Once skipping has stopped, every later element is emitted, including
      those that satisfy the predicate. */
  lemma {:induction false} EmitsAllOnceLatched<T>(xs: seq<T>, p: T -> bool, o: Option<T>)
    ensures Compact(Outputs(Scan(xs, p, SkipState(false, o)))) == xs
  {
    if xs != [] {
      EmittedCons(xs, p, SkipState(false, o));
      EmitsAllOnceLatched(xs[1..], p, Some(xs[0]));
      assert [xs[0]] + xs[1..] == xs;
    }
  }

  /** The output is the input with its leading run of matching elements
      removed: a suffix, in the same order; every dropped element satisfies
      the predicate and the first emitted one does not. */
  lemma {:induction false} SkipWhileDropsLeadingMatches<T>(xs: seq<T>, p: T -> bool)
    ensures SkipWhile(xs, p) == xs[LeadingMatches(xs, p)..]
  {
    if xs != [] {
      var start: SkipState<T> := SkipState(true, None);
      EmittedCons(xs, p, start);
      if p(xs[0]) {
        SkipWhileDropsLeadingMatches(xs[1..], p);
        assert xs[1..][LeadingMatches(xs[1..], p)..] == xs[LeadingMatches(xs, p)..];
      } else {
        EmitsAllOnceLatched(xs[1..], p, Some(xs[0]));
        assert [xs[0]] + xs[1..] == xs;
      }
    }
  }

  /** The corner cases: everything matching gives nothing; a first element
      that fails the predicate gives the input back. */
  lemma SkipWhileCorners<T>(xs: seq<T>, p: T -> bool)
    ensures (forall i :: 0 <= i < |xs| ==> p(xs[i])) ==> SkipWhile(xs, p) == []
    ensures xs != [] && !p(xs[0]) ==> SkipWhile(xs, p) == xs
  {
    SkipWhileDropsLeadingMatches(xs, p);
  }

  /** Latching, across a stream that goes on: once something has been
      emitted, everything that arrives later is emitted unchanged. */
  lemma SkipWhileLatches<T>(xs: seq<T>, ys: seq<T>, p: T -> bool)
    requires SkipWhile(xs, p) != []
    ensures SkipWhile(xs + ys, p) == SkipWhile(xs, p) + ys
  {
    SkipWhileDropsLeadingMatches(xs, p);
    SkipWhileDropsLeadingMatches(xs + ys, p);
    var k := LeadingMatches(xs, p);
    assert k < |xs|;
    LeadingMatchesPrefix(xs, ys, p);
    assert (xs + ys)[k..] == xs[k..] + ys;
  }

  /** A leading run that ends inside `xs` is not extended by what follows. */
  lemma {:induction false} LeadingMatchesPrefix<T>(xs: seq<T>, ys: seq<T>, p: T -> bool)
    requires LeadingMatches(xs, p) < |xs|
    ensures LeadingMatches(xs + ys, p) == LeadingMatches(xs, p)
  {
    if p(xs[0]) {
      assert (xs + ys)[1..] == xs[1..] + ys;
      LeadingMatchesPrefix(xs[1..], ys, p);
    }
  }

  /** `[1, 2, 0, 3]` skipping while positive: the first non-positive element
      and everything after it, the later positive 3 included. */
  lemma SkipWhileExample()
    ensures SkipWhile([1, 2, 0, 3], (x: int) => x > 0) == [0, 3]
  {
    var xs := [1, 2, 0, 3];
    var p := (x: int) => x > 0;
    SkipWhileDropsLeadingMatches(xs, p);
    assert xs[1..] == [2, 0, 3] && xs[1..][1..] == [0, 3];
    assert LeadingMatches(xs, p) == 2;
  }
}
