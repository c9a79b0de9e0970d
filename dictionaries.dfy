/**
 * The name-keyed dictionaries of a Catalyst project. Entries are never removed,
 * so a .NET `Dictionary` enumerates them in insertion order; the model keeps that
 * order explicitly as a sequence of key/value pairs.
 */
module Dictionaries {
  import opened Wrappers

  type Dict<K, V> = seq<(K, V)>

  /** The keys, in enumeration order. */
  function Keys<K, V>(d: Dict<K, V>): (ks: seq<K>)
    ensures |ks| == |d|
    ensures forall i :: 0 <= i < |d| ==> ks[i] == d[i].0
  {
    seq(|d|, i requires 0 <= i < |d| => d[i].0)
  }

  /** What a .NET dictionary guarantees: no key occurs twice. */
  ghost predicate DistinctKeys<K, V>(d: Dict<K, V>)
  {
    forall i, j :: 0 <= i < j < |d| ==> d[i].0 != d[j].0
  }

  /** No key of `a` is a key of `b`: the two dictionaries share one namespace. */
  ghost predicate DisjointKeys<K, V, W>(a: Dict<K, V>, b: Dict<K, W>)
  {
    forall k :: k in Keys(a) ==> k !in Keys(b)
  }

  /** `TryGetValue`: the value stored under `k`, if any. */
  function Lookup<K(==), V>(d: Dict<K, V>, k: K): (r: Option<V>)
    ensures r.Some? <==> k in Keys(d)
    ensures r.Some? ==> (k, r.value) in d
    ensures DistinctKeys(d) ==> forall i :: 0 <= i < |d| && d[i].0 == k ==> r == Some(d[i].1)
  {
    if d == [] then None
    else if d[0].0 == k then Some(d[0].1)
    else Lookup(d[1..], k)
  }

  /** `Dictionary.Add`: `None` stands for the ArgumentException thrown on a duplicate key. */
  function Add<K(==,!new), V>(d: Dict<K, V>, k: K, v: V): (r: Option<Dict<K, V>>)
    ensures r.None? <==> k in Keys(d)
    ensures r.Some? ==> Keys(r.value) == Keys(d) + [k]
    ensures r.Some? ==> Lookup(r.value, k) == Some(v)
    ensures r.Some? ==> forall k' :: k' != k ==> Lookup(r.value, k') == Lookup(d, k')
    ensures r.Some? && DistinctKeys(d) ==> DistinctKeys(r.value)
  {
    if k in Keys(d) then None
    else
      var d' := d + [(k, v)];
      LookupAppend(d, k, v);
      Some(d')
  }

  /** The indexer `d[k] = v`: replaces the value where the key already is, or appends. */
  function Put<K(==), V>(d: Dict<K, V>, k: K, v: V): (r: Dict<K, V>)
    ensures Keys(r) == if k in Keys(d) then Keys(d) else Keys(d) + [k]
  {
    if d == [] then [(k, v)]
    else if d[0].0 == k then [(k, v)] + d[1..]
    else [d[0]] + Put(d[1..], k, v)
  }

  /** After `d[k] = v`, the value under `k` is `v`. */
  lemma {:induction false} PutLookup<K, V>(d: Dict<K, V>, k: K, v: V)
    ensures Lookup(Put(d, k, v), k) == Some(v)
  {
    if d != [] && d[0].0 != k {
      PutLookup(d[1..], k, v);
    }
  }

  lemma {:induction false} LookupAppend<K, V>(d: Dict<K, V>, k: K, v: V)
    requires k !in Keys(d)
    ensures Lookup(d + [(k, v)], k) == Some(v)
    ensures forall k' :: k' != k ==> Lookup(d + [(k, v)], k') == Lookup(d, k')
  {
    if d != [] {
      assert (d + [(k, v)])[1..] == d[1..] + [(k, v)];
      LookupAppend(d[1..], k, v);
    }
  }

  /** Putting a value under `k` leaves the value under every other key as it was. */
  lemma {:induction false} PutOthers<K, V>(d: Dict<K, V>, k: K, v: V, k': K)
    requires k' != k
    ensures Lookup(Put(d, k, v), k') == Lookup(d, k')
  {
    if d != [] && d[0].0 != k {
      PutOthers(d[1..], k, v, k');
    }
  }

  /** Replacing a value keeps every key unique. */
  lemma {:induction false} PutKeepsDistinct<K, V>(d: Dict<K, V>, k: K, v: V)
    requires DistinctKeys(d)
    ensures DistinctKeys(Put(d, k, v))
  {
    var r := Put(d, k, v);
    forall i, j | 0 <= i < j < |r| ensures r[i].0 != r[j].0 {
      assert Keys(r)[i] == r[i].0 && Keys(r)[j] == r[j].0;
      if k in Keys(d) {
        assert Keys(d)[i] == Keys(r)[i] && Keys(d)[j] == Keys(r)[j];
      } else {
        if j < |d| {
          assert Keys(d)[i] == Keys(r)[i] && Keys(d)[j] == Keys(r)[j];
        } else {
          assert Keys(d)[i] == Keys(r)[i];
        }
      }
    }
  }

  /** Replacing the value at one position keeps the keys. */
  lemma KeysUpdateValue<K, V>(d: Dict<K, V>, i: nat, v: V)
    requires i < |d|
    ensures Keys(d[i := (d[i].0, v)]) == Keys(d)
  {
  }

  /** Concatenation is associative (stated once, so that proofs with many sequence facts need not rediscover it). */
  lemma ConcatAssoc<T>(x: seq<T>, y: seq<T>, z: seq<T>)
    ensures (x + y) + z == x + (y + z)
  {
  }
}
