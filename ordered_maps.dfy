/**
 * Insertion-ordered maps, as JavaScript's `Map` and plain-object records keep
 * them: iteration follows the order in which keys were first set, and setting
 * a key that is already present replaces its value in place.
 */
module OrderedMaps {
  import opened Js

  type OrderedMap<K, V> = seq<(K, V)>

  function Keys<K, V>(m: OrderedMap<K, V>): (ks: seq<K>)
    ensures |ks| == |m| && forall i :: 0 <= i < |m| ==> ks[i] == m[i].0
  {
    seq(|m|, i requires 0 <= i < |m| => m[i].0)
  }

  predicate DistinctKeys<K(==, !new), V>(m: OrderedMap<K, V>) {
    forall i, j :: 0 <= i < j < |m| ==> m[i].0 != m[j].0
  }

  /** `m.get(k)`: the value stored under `k`, if any. */
  function Get<K(==, !new), V>(m: OrderedMap<K, V>, k: K): (r: Option<V>)
    ensures r.None? <==> k !in Keys(m)
    ensures r.Some? ==> exists i :: 0 <= i < |m| && m[i] == (k, r.value)
  {
    if m == [] then None
    else if m[0].0 == k then Some(m[0].1)
    else
      var r := Get(m[1..], k);
      assert Keys(m) == [m[0].0] + Keys(m[1..]);
      assert r.Some? ==> exists i :: 0 <= i < |m[1..]| && m[1..][i] == (k, r.value);
      r
  }

  /** With distinct keys, the entry at position `i` is what `Get` finds under its key. */
  lemma {:induction false} GetAt<K(!new), V>(m: OrderedMap<K, V>, i: nat)
    requires DistinctKeys(m) && i < |m|
    ensures Get(m, m[i].0) == Some(m[i].1)
  {
    if i > 0 && m[0].0 != m[i].0 {
      GetAt(m[1..], i - 1);
    }
  }

  /** `m.set(k, v)` */
  function Set<K(==, !new), V>(m: OrderedMap<K, V>, k: K, v: V): OrderedMap<K, V> {
    if m == [] then [(k, v)]
    else if m[0].0 == k then [(k, v)] + m[1..]
    else [m[0]] + Set(m[1..], k, v)
  }

  /** Setting a present key keeps the order of keys; setting a new key appends it. */
  lemma {:induction false} SetKeys<K(!new), V>(m: OrderedMap<K, V>, k: K, v: V)
    ensures Keys(Set(m, k, v)) == if k in Keys(m) then Keys(m) else Keys(m) + [k]
  {
    if m != [] && m[0].0 != k {
      SetKeys(m[1..], k, v);
      assert Keys(m) == [m[0].0] + Keys(m[1..]);
      assert Keys(Set(m, k, v)) == [m[0].0] + Keys(Set(m[1..], k, v));
    }
  }

  /** After `m.set(k, v)`, `k` maps to `v` and every other key to what it mapped to before. */
  lemma {:induction false} SetGet<K(!new), V>(m: OrderedMap<K, V>, k: K, v: V, k': K)
    ensures Get(Set(m, k, v), k') == if k' == k then Some(v) else Get(m, k')
  {
    if m != [] && m[0].0 != k {
      SetGet(m[1..], k, v, k');
      assert Set(m, k, v)[1..] == Set(m[1..], k, v);
    } else if m != [] {
      assert Set(m, k, v)[1..] == m[1..];
    }
  }

  /** Setting a key that is not present appends it at the end. */
  lemma {:induction false} SetNew<K(!new), V>(m: OrderedMap<K, V>, k: K, v: V)
    requires k !in Keys(m)
    ensures Set(m, k, v) == m + [(k, v)]
  {
    if m != [] {
      assert Keys(m) == [m[0].0] + Keys(m[1..]);
      SetNew(m[1..], k, v);
      assert m == [m[0]] + m[1..];
    }
  }

  /** Setting keeps keys distinct. */
  lemma SetDistinct<K(!new), V>(m: OrderedMap<K, V>, k: K, v: V)
    requires DistinctKeys(m)
    ensures DistinctKeys(Set(m, k, v))
  {
    SetKeys(m, k, v);
    var r := Set(m, k, v);
    assert forall i :: 0 <= i < |r| ==> r[i].0 == Keys(r)[i];
  }
}
