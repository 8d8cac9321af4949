/**
 * Insertion-ordered dictionaries, as Python keeps them: a sequence of
 * key/value pairs with distinct keys.
 */
module AssocLists {
  import opened Strings

  function Keys<K, V>(kvs: seq<(K, V)>): (ks: seq<K>)
    ensures |ks| == |kvs|
    ensures forall i :: 0 <= i < |kvs| ==> ks[i] == kvs[i].0
  {
    if |kvs| == 0 then [] else [kvs[0].0] + Keys(kvs[1..])
  }

  predicate DistinctKeys<K(==), V>(kvs: seq<(K, V)>) {
    forall i, j :: 0 <= i < j < |kvs| ==> kvs[i].0 != kvs[j].0
  }

  /** The value stored under a key, or None when the key is absent. */
  function Lookup<K(==), V>(kvs: seq<(K, V)>, k: K): (r: Option<V>)
    ensures r.None? <==> k !in Keys(kvs)
    ensures r.Some? ==> (k, r.value) in kvs
  {
    if |kvs| == 0 then None
    else if kvs[0].0 == k then Some(kvs[0].1)
    else
      assert Keys(kvs) == [kvs[0].0] + Keys(kvs[1..]);
      Lookup(kvs[1..], k)
  }

  /** With distinct keys, the pair at a position is what a lookup of its key finds. */
  lemma {:induction false} LookupAt<K, V>(kvs: seq<(K, V)>, i: nat)
    requires DistinctKeys(kvs) && i < |kvs|
    ensures Lookup(kvs, kvs[i].0) == Some(kvs[i].1)
  {
    if i > 0 {
      assert kvs[1..][i - 1] == kvs[i];
      LookupAt(kvs[1..], i - 1);
    }
  }
}
