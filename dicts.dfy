/**
 * Python's insertion-ordered `dict`, as a sequence of key/value pairs with distinct keys.
 * Assigning to a present key replaces its value where it stands; a new key goes at the end.
 */
module Dicts {
  import opened Wrappers

  type Dict<K, V> = seq<(K, V)>

  function Keys<K, V>(d: Dict<K, V>): seq<K> {
    seq(|d|, i requires 0 <= i < |d| => d[i].0)
  }

  /** `list(d.values())` */
  function Values<K, V>(d: Dict<K, V>): seq<V> {
    seq(|d|, i requires 0 <= i < |d| => d[i].1)
  }

  ghost predicate DistinctKeys<K, V>(d: Dict<K, V>) {
    forall i, j :: 0 <= i < j < |d| ==> d[i].0 != d[j].0
  }

  /** The position of `k` in `d`, or None. */
  function IndexOf<K(==), V>(d: Dict<K, V>, k: K): (r: Option<nat>)
    ensures r.Some? ==> r.value < |d| && d[r.value].0 == k
    ensures r.None? ==> forall i :: 0 <= i < |d| ==> d[i].0 != k
    ensures r.Some? && DistinctKeys(d) ==> forall i :: 0 <= i < |d| && i != r.value ==> d[i].0 != k
  {
    if |d| == 0 then None
    else if d[|d| - 1].0 == k then Some(|d| - 1)
    else IndexOf(d[..|d| - 1], k)
  }

  /** `d.get(k)` */
  function Get<K(==), V>(d: Dict<K, V>, k: K): Option<V> {
    match IndexOf(d, k)
    case Some(i) => Some(d[i].1)
    case None => None
  }

  /** `d[k] = v` */
  function Put<K(==), V>(d: Dict<K, V>, k: K, v: V): Dict<K, V> {
    match IndexOf(d, k)
    case Some(i) => d[i := (k, v)]
    case None => d + [(k, v)]
  }

  /** `zip(xs, ys)`: the pairs of equal positions, as many as the shorter sequence has. */
  function Zip<A, B>(xs: seq<A>, ys: seq<B>): (r: seq<(A, B)>)
    ensures |r| == if |xs| <= |ys| then |xs| else |ys|
    ensures forall i :: 0 <= i < |r| ==> r[i] == (xs[i], ys[i])
  {
    seq(if |xs| <= |ys| then |xs| else |ys|, i requires 0 <= i < |xs| && i < |ys| => (xs[i], ys[i]))
  }

  /** `dict(pairs)` or `{k: v for k, v in pairs}`: later pairs overwrite earlier ones with the same key. */
  function FromPairs<K(==), V>(pairs: seq<(K, V)>): Dict<K, V> {
    if pairs == [] then [] else Put(FromPairs(pairs[..|pairs| - 1]), pairs[|pairs| - 1].0, pairs[|pairs| - 1].1)
  }

  /** Reading a key just assigned gives the assigned value; every other key reads as before. */
  lemma PutGet<K, V>(d: Dict<K, V>, k: K, v: V, k': K)
    requires DistinctKeys(d)
    ensures Get(Put(d, k, v), k') == if k' == k then Some(v) else Get(d, k')
  {
    var d' := Put(d, k, v);
    PutKeeps(d, k, v);
    assert k in Keys(d') by { assert k in Keys(d) || Keys(d')[|d|] == k; }
    assert forall i :: 0 <= i < |d| ==> d'[i].0 == d[i].0 by {
      assert Keys(d')[..|d|] == Keys(d);
    }
    match IndexOf(d', k')
    case Some(i) =>
      if k' != k {
        assert d'[i] == d[i];
      }
    case None =>
      assert k' !in Keys(d');
  }

  /** In a dict with distinct keys, every entry's key reads back its own value. */
  lemma GetAt<K, V>(d: Dict<K, V>, i: nat)
    requires DistinctKeys(d) && i < |d|
    ensures Get(d, d[i].0) == Some(d[i].1)
  {
  }

  /** Assigning a key the dict lacks appends the pair. */
  lemma PutNew<K, V>(d: Dict<K, V>, k: K, v: V)
    requires k !in Keys(d)
    ensures Put(d, k, v) == d + [(k, v)]
    ensures Keys(Put(d, k, v)) == Keys(d) + [k]
    ensures Values(Put(d, k, v)) == Values(d) + [v]
  {
    assert forall i :: 0 <= i < |d| ==> Keys(d)[i] == d[i].0;
  }

  /** Assignment keeps keys distinct, keeps the order of present keys and appends a new one. */
  lemma PutKeeps<K, V>(d: Dict<K, V>, k: K, v: V)
    requires DistinctKeys(d)
    ensures DistinctKeys(Put(d, k, v))
    ensures Keys(Put(d, k, v)) == if k in Keys(d) then Keys(d) else Keys(d) + [k]
  {
    match IndexOf(d, k)
    case Some(i) =>
      assert k in Keys(d) by { assert Keys(d)[i] == k; }
    case None =>
  }

  /** A dict built from pairs has distinct keys, and exactly the keys of the pairs. */
  lemma {:induction false} FromPairsKeys<K, V>(pairs: seq<(K, V)>)
    ensures DistinctKeys(FromPairs(pairs))
    ensures forall k :: k in Keys(FromPairs(pairs)) <==> exists i :: 0 <= i < |pairs| && pairs[i].0 == k
  {
    if pairs != [] {
      var init := pairs[..|pairs| - 1];
      var last := pairs[|pairs| - 1];
      FromPairsKeys(init);
      PutKeeps(FromPairs(init), last.0, last.1);
      forall k | exists i :: 0 <= i < |pairs| && pairs[i].0 == k
        ensures k in Keys(FromPairs(pairs))
      {
        var i :| 0 <= i < |pairs| && pairs[i].0 == k;
        if i < |pairs| - 1 {
          assert init[i].0 == k;
        }
      }
      forall k | k in Keys(FromPairs(pairs))
        ensures exists i :: 0 <= i < |pairs| && pairs[i].0 == k
      {
        if k != last.0 {
          var i :| 0 <= i < |init| && init[i].0 == k;
          assert pairs[i].0 == k;
        }
      }
    }
  }

  /** With distinct keys in the pairs, nothing is overwritten: the dict is the pairs, in order. */
  lemma {:induction false} FromDistinctPairs<K, V>(pairs: seq<(K, V)>)
    requires DistinctKeys(pairs)
    ensures FromPairs(pairs) == pairs
  {
    if pairs != [] {
      var init := pairs[..|pairs| - 1];
      var last := pairs[|pairs| - 1];
      FromDistinctPairs(init);
      assert forall i :: 0 <= i < |init| ==> init[i].0 != last.0;
    }
  }
}
