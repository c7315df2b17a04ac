/** `dictionary()` and `dictionary(uniquingKeysWith:)` (Sequence+Dictionary.swift):
    a dictionary built from a sequence of key-value pairs by inserting the
    pairs in order. */
module SequenceDictionary {

  /** The keys of the pairs. */
  function KeysOf<K, V>(pairs: seq<(K, V)>): set<K> {
    set i | 0 <= i < |pairs| :: pairs[i].0
  }

  /** No key occurs twice: what `Dictionary(uniqueKeysWithValues:)` demands,
      trapping otherwise. */
  predicate DistinctKeys<K(==), V>(pairs: seq<(K, V)>) {
    forall i, j :: 0 <= i < j < |pairs| ==> pairs[i].0 != pairs[j].0
  }

  /** Dropping the last pair drops its key, and no other unless it repeats. */
  lemma KeysOfInit<K, V>(pairs: seq<(K, V)>)
    requires |pairs| > 0
    ensures KeysOf(pairs) == KeysOf(pairs[..|pairs| - 1]) + {pairs[|pairs| - 1].0}
    ensures DistinctKeys(pairs) ==>
      DistinctKeys(pairs[..|pairs| - 1]) && pairs[|pairs| - 1].0 !in KeysOf(pairs[..|pairs| - 1])
  {
    var init := pairs[..|pairs| - 1];
    assert forall i :: 0 <= i < |init| ==> init[i] == pairs[i];
  }

  /** Inserting a pair with a fresh key into the dictionary of `init` gives
      the dictionary of `init + [last]`. */
  lemma InsertFresh<K, V>(m: map<K, V>, init: seq<(K, V)>, last: (K, V))
    requires m.Keys == KeysOf(init) && |m| == |init|
    requires forall i :: 0 <= i < |init| ==> m[init[i].0] == init[i].1
    requires last.0 !in KeysOf(init)
    ensures m[last.0 := last.1].Keys == KeysOf(init + [last])
    ensures |m[last.0 := last.1]| == |init + [last]|
    ensures forall i :: 0 <= i < |init + [last]| ==> m[last.0 := last.1][(init + [last])[i].0] == (init + [last])[i].1
  {
    KeysOfInit(init + [last]);
    assert (init + [last])[..|init|] == init;
    forall i | 0 <= i < |init|
      ensures m[last.0 := last.1][init[i].0] == init[i].1
    {
      assert init[i].0 in KeysOf(init);
    }
  }

  /** `dictionary()`: one entry per pair. */
  function Dictionary<K(==), V>(pairs: seq<(K, V)>): (r: map<K, V>)
    requires DistinctKeys(pairs)
    ensures r.Keys == KeysOf(pairs)
    ensures forall i :: 0 <= i < |pairs| ==> r[pairs[i].0] == pairs[i].1
    ensures |r| == |pairs|
  {
    if pairs == [] then map[]
    else
      var init := pairs[..|pairs| - 1];
      var last := pairs[|pairs| - 1];
      KeysOfInit(pairs);
      var m := Dictionary(init);
      InsertFresh(m, init, last);
      assert init + [last] == pairs;
      m[last.0 := last.1]
  }

  /** `dictionary(uniquingKeysWith: combine)`: a later pair whose key is
      already present replaces the value by `combine(existing, new)`. */
  function DictionaryUniquing<K(==), V>(pairs: seq<(K, V)>, combine: (V, V) -> V): (r: map<K, V>)
    ensures r.Keys == KeysOf(pairs)
  {
    if pairs == [] then map[]
    else
      var init := pairs[..|pairs| - 1];
      var last := pairs[|pairs| - 1];
      var m := DictionaryUniquing(init, combine);
      assert KeysOf(pairs) == KeysOf(init) + {last.0} by {
        assert forall i :: 0 <= i < |init| ==> init[i] == pairs[i];
      }
      m[last.0 := if last.0 in m then combine(m[last.0], last.1) else last.1]
  }

  /** The values paired with `k`, in sequence order. */
  function ValuesOf<K(==), V>(pairs: seq<(K, V)>, k: K): (vs: seq<V>)
    ensures |vs| > 0 <==> k in KeysOf(pairs)
  {
    if pairs == [] then []
    else
      var init := pairs[..|pairs| - 1];
      var last := pairs[|pairs| - 1];
      assert KeysOf(pairs) == KeysOf(init) + {last.0} by {
        assert forall i :: 0 <= i < |init| ==> init[i] == pairs[i];
      }
      ValuesOf(init, k) + (if last.0 == k then [last.1] else [])
  }

  /** The left fold of `combine` over a non-empty sequence of values, starting
      from the first one. */
  function FoldValues<V>(vs: seq<V>, combine: (V, V) -> V): V
    requires |vs| > 0
  {
    if |vs| == 1 then vs[0]
    else combine(FoldValues(vs[..|vs| - 1], combine), vs[|vs| - 1])
  }

  /** Each key maps to the left fold of `combine` over its values in
      sequence order. */
  lemma {:induction false} DictionaryUniquingFolds<K, V>(pairs: seq<(K, V)>, combine: (V, V) -> V, k: K)
    requires k in KeysOf(pairs)
    ensures |ValuesOf(pairs, k)| > 0
    ensures DictionaryUniquing(pairs, combine)[k] == FoldValues(ValuesOf(pairs, k), combine)
  {
    var init := pairs[..|pairs| - 1];
    var last := pairs[|pairs| - 1];
    var vs := ValuesOf(pairs, k);
    if last.0 == k {
      if k in KeysOf(init) {
        DictionaryUniquingFolds(init, combine, k);
        assert vs[..|vs| - 1] == ValuesOf(init, k);
      } else {
        assert ValuesOf(init, k) == [];
      }
    } else {
      assert k in KeysOf(init);
      assert vs == ValuesOf(init, k);
      DictionaryUniquingFolds(init, combine, k);
    }
  }

  /** With distinct keys both overloads build the same dictionary, whatever
      `combine` is: it is never called. */
  lemma {:induction false} UniquingAgreesOnDistinctKeys<K, V>(pairs: seq<(K, V)>, combine: (V, V) -> V)
    requires DistinctKeys(pairs)
    ensures DictionaryUniquing(pairs, combine) == Dictionary(pairs)
  {
    if pairs != [] {
      var init := pairs[..|pairs| - 1];
      assert DistinctKeys(init);
      UniquingAgreesOnDistinctKeys(init, combine);
    }
  }
}
