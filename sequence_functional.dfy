/** `compact()` and `flatten()` (Sequence+Functional.swift). */
module SequenceFunctional {
  import opened Wrappers

  /** `compact()`: the wrapped values of the non-nil elements, in order. */
  function Compact<T>(xs: seq<Option<T>>): (r: seq<T>)
    ensures |r| <= |xs|
    ensures forall k :: 0 <= k < |r| ==> Some(r[k]) in xs
    ensures forall i :: 0 <= i < |xs| && xs[i].Some? ==> xs[i].value in r
  {
    if xs == [] then []
    else (if xs[0].Some? then [xs[0].value] else []) + Compact(xs[1..])
  }

  /** The positions from `from` on that hold a value, in increasing order. */
  function SomePositions<T>(xs: seq<Option<T>>, from: nat): (r: seq<nat>)
    requires from <= |xs|
    ensures forall k :: 0 <= k < |r| ==> from <= r[k] < |xs| && xs[r[k]].Some?
    ensures forall k, l :: 0 <= k < l < |r| ==> r[k] < r[l]
    ensures forall i :: from <= i < |xs| && xs[i].Some? ==> i in r
    decreases |xs| - from
  {
    if from == |xs| then []
    else (if xs[from].Some? then [from] else []) + SomePositions(xs, from + 1)
  }

  /** `compact` keeps exactly the non-nil elements, unwrapped and in order:
      its k-th element is the value at the k-th non-nil position. */
  lemma {:induction false} CompactAtSomePositions<T>(xs: seq<Option<T>>, from: nat)
    requires from <= |xs|
    ensures |Compact(xs[from..])| == |SomePositions(xs, from)|
    ensures forall k :: 0 <= k < |SomePositions(xs, from)| ==>
      Compact(xs[from..])[k] == xs[SomePositions(xs, from)[k]].value
    decreases |xs| - from
  {
    if from < |xs| {
      assert xs[from..][1..] == xs[from + 1..];
      CompactAtSomePositions(xs, from + 1);
    }
  }

  /** The length of `compact(xs)` is the number of non-nil elements. */
  lemma {:induction false} CompactLength<T>(xs: seq<Option<T>>)
    ensures |Compact(xs)| == |xs| - multiset(xs)[None]
  {
    if xs != [] {
      assert xs == [xs[0]] + xs[1..];
      CompactLength(xs[1..]);
    }
  }

  /** `compact` distributes over concatenation. */
  lemma {:induction false} CompactAppend<T>(xs: seq<Option<T>>, ys: seq<Option<T>>)
    ensures Compact(xs + ys) == Compact(xs) + Compact(ys)
  {
    if xs != [] {
      assert (xs + ys)[1..] == xs[1..] + ys;
      CompactAppend(xs[1..], ys);
    } else {
      assert xs + ys == ys;
    }
  }

  /** Wrapping every element and compacting gives the elements back. */
  lemma {:induction false} CompactOfSomes<T>(ys: seq<T>)
    ensures Compact(seq(|ys|, i requires 0 <= i < |ys| => Some(ys[i]))) == ys
  {
    var w := seq(|ys|, i requires 0 <= i < |ys| => Some(ys[i]));
    if ys != [] {
      assert w[1..] == seq(|ys[1..]|, i requires 0 <= i < |ys[1..]| => Some(ys[1..][i]));
      CompactOfSomes(ys[1..]);
    }
  }

  /** A sequence of nils compacts to nothing. */
  lemma {:induction false} CompactOfNones<T>(xs: seq<Option<T>>)
    requires forall i :: 0 <= i < |xs| ==> xs[i] == None
    ensures Compact(xs) == []
  {
    if xs != [] {
      CompactOfNones(xs[1..]);
    }
  }

  /** `[0, 1, nil, nil, 2]` compacts to `[0, 1, 2]`. */
  lemma CompactExample()
    ensures Compact([Some(0), Some(1), None, None, Some(2)]) == [0, 1, 2]
  {
    var xs := [Some(0), Some(1), None, None, Some(2)];
    assert xs[1..] == [Some(1), None, None, Some(2)];
    assert xs[1..][1..] == [None, None, Some(2)];
    assert xs[1..][1..][1..] == [None, Some(2)];
    assert xs[1..][1..][1..][1..] == [Some(2)];
  }

  /** `flatten()`: the inner sequences, concatenated in order. */
  function Flatten<T>(xss: seq<seq<T>>): (r: seq<T>)
    ensures forall i, j :: 0 <= i < |xss| && 0 <= j < |xss[i]| ==> xss[i][j] in r
    ensures forall k :: 0 <= k < |r| ==> exists i :: 0 <= i < |xss| && r[k] in xss[i]
  {
    if xss == [] then []
    else
      var rest := Flatten(xss[1..]);
      assert forall i :: 1 <= i < |xss| ==> xss[i] == xss[1..][i - 1];
      xss[0] + rest
  }

  /** The sum of the inner lengths. */
  function TotalLength<T>(xss: seq<seq<T>>): nat {
    if xss == [] then 0 else |xss[0]| + TotalLength(xss[1..])
  }

  /** The flattened length is the sum of the inner lengths. */
  lemma {:induction false} FlattenLength<T>(xss: seq<seq<T>>)
    ensures |Flatten(xss)| == TotalLength(xss)
  {
    if xss != [] {
      FlattenLength(xss[1..]);
    }
  }

  /** A single inner sequence comes out as it is, in its own order. */
  lemma FlattenSingleton<T>(s: seq<T>)
    ensures Flatten([s]) == s
  {
    assert [s][1..] == [];
  }

  /** Element `j` of inner sequence `i` sits in the flattened sequence right
      after the elements of the inner sequences before `i`. */
  lemma {:induction false} FlattenAt<T>(xss: seq<seq<T>>, i: nat, j: nat)
    requires i < |xss| && j < |xss[i]|
    ensures TotalLength(xss[..i]) + j < |Flatten(xss)|
    ensures Flatten(xss)[TotalLength(xss[..i]) + j] == xss[i][j]
  {
    if i == 0 {
      assert xss[..0] == [];
    } else {
      FlattenAt(xss[1..], i - 1, j);
      assert xss[..i][1..] == xss[1..][..i - 1];
      assert xss[..i][0] == xss[0];
      assert TotalLength(xss[..i]) == |xss[0]| + TotalLength(xss[1..][..i - 1]);
    }
  }

  /** Flattening keeps the order of the inner sequences: it distributes over
      concatenation of the outer sequence. */
  lemma {:induction false} FlattenAppend<T>(xss: seq<seq<T>>, yss: seq<seq<T>>)
    ensures Flatten(xss + yss) == Flatten(xss) + Flatten(yss)
  {
    if xss != [] {
      assert (xss + yss)[1..] == xss[1..] + yss;
      FlattenAppend(xss[1..], yss);
    } else {
      assert xss + yss == yss;
    }
  }
}
