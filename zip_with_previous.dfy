/** `zipWithPrevious()` and `zipWithPreviousOptional()`
    (ObservableType+ZipWithPrevious.swift) on a finite stream: the stream
    zipped with its own concatenation with itself, shifted by a leading
    `nil`. */
module ZipWithPrevious {
  import opened Wrappers

  /** `Observable.zip` of two finite streams: pairs by position, ending with
      the shorter stream. */
  function Zip<A, B>(xs: seq<A>, ys: seq<B>): (r: seq<(A, B)>)
    ensures |r| == if |xs| <= |ys| then |xs| else |ys|
    ensures forall i :: 0 <= i < |r| ==> r[i] == (xs[i], ys[i])
  {
    if xs == [] || ys == [] then [] else [(xs[0], ys[0])] + Zip(xs[1..], ys[1..])
  }

  /** `map { $0 }` into an optional element type. */
  function MapSome<T>(xs: seq<T>): (r: seq<Option<T>>)
    ensures |r| == |xs|
    ensures forall i :: 0 <= i < |xs| ==> r[i] == Some(xs[i])
  {
    seq(|xs|, i requires 0 <= i < |xs| => Some(xs[i]))
  }

  /** `zip(self, concat(self).map { $0 }.startWith(nil))`. */
  function ZipWithPrevious<T>(xs: seq<T>): (r: seq<(T, Option<T>)>)
    ensures |r| == |xs|
    ensures forall i :: 0 <= i < |r| ==> r[i].0 == xs[i]
    ensures |r| > 0 ==> r[0].1 == None
    ensures forall i :: 0 < i < |r| ==> r[i].1 == Some(xs[i - 1])
  {
    Zip(xs, [None] + MapSome(xs + xs))
  }

  /** Each new element emits exactly one pair, with the element before it;
      completion emits nothing more. */
  lemma ZipWithPreviousStreams<T>(xs: seq<T>, x: T)
    ensures ZipWithPrevious(xs + [x]) == ZipWithPrevious(xs) + [(x, if xs == [] then None else Some(xs[|xs| - 1]))]
  {
    var ys := xs + [x];
    var r := ZipWithPrevious(ys);
    var a := ZipWithPrevious(xs);
    var last := (x, if xs == [] then None else Some(xs[|xs| - 1]));
    forall i | 0 <= i < |r|
      ensures r[i] == (a + [last])[i]
    {
      if i < |xs| {
        assert r[i].0 == ys[i] == xs[i] == a[i].0;
        if i > 0 {
          assert r[i].1 == Some(ys[i - 1]) == Some(xs[i - 1]) == a[i].1;
        }
      } else {
        assert r[i].0 == x;
      }
    }
  }

  /** 1 then 2 gives `(1, nil)` then `(2, 1)`. */
  lemma ZipWithPreviousExample()
    ensures ZipWithPrevious([1, 2]) == [(1, None), (2, Some(1))]
  {
    var r := ZipWithPrevious([1, 2]);
    assert r[0] == (1, None) && r[1] == (2, Some(1));
  }

  /** `Optional.flatMap { $0 }` on a double optional. */
  function Flattened<T>(o: Option<Option<T>>): (r: Option<T>)
    ensures r.Some? <==> o.Some? && o.value.Some?
    ensures r.Some? ==> o == Some(r)
  {
    if o.Some? then o.value else None
  }

  /** `zipWithPreviousOptional()`: both sides flattened, so a `nil` element
      and a missing previous one look the same. */
  function ZipWithPreviousOptional<T>(xs: seq<Option<T>>): (r: seq<(Option<T>, Option<T>)>)
    ensures |r| == |xs|
    ensures forall i :: 0 <= i < |r| ==> r[i].0 == xs[i]
    ensures |r| > 0 ==> r[0].1 == None
    ensures forall i :: 0 < i < |r| ==> r[i].1 == xs[i - 1]
  {
    Zip(xs, [None] + (xs + xs))
  }

  /** The optional variant is the plain one with its double optional
      flattened. */
  lemma OptionalFlattensPlain<T>(xs: seq<Option<T>>)
    ensures |ZipWithPreviousOptional(xs)| == |ZipWithPrevious(xs)|
    ensures forall i :: 0 <= i < |xs| ==>
      ZipWithPreviousOptional(xs)[i] == (ZipWithPrevious(xs)[i].0, Flattened(ZipWithPrevious(xs)[i].1))
  {
  }

  /** `[nil, 1, nil]` gives `(nil, nil)`, `(1, nil)`, `(nil, 1)`. */
  lemma ZipWithPreviousOptionalExample()
    ensures ZipWithPreviousOptional([None, Some(1), None]) == [(None, None), (Some(1), None), (None, Some(1))]
  {
    var r := ZipWithPreviousOptional([None, Some(1), None]);
    assert r[0] == (None, None) && r[1] == (Some(1), None) && r[2] == (None, Some(1));
  }
}
