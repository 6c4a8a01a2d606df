/**
 * A JavaScript `Map`: its entries together with the order in which the keys
 * were first inserted, which is the order `values()` iterates them in.
 */
module OrderedMap {
  import opened Wrappers
  import Seqs

  datatype OMap<K(==), V> = OMap(keys: seq<K>, entries: map<K, V>) {

    /** The order lists every key of the map exactly once. */
    ghost predicate Valid() {
      && Seqs.Distinct(keys)
      && (forall k :: k in entries ==> k in keys)
      && (forall i :: 0 <= i < |keys| ==> keys[i] in entries)
    }
  }

  /** `new Map()`. */
  function Empty<K(==), V>(): (m: OMap<K, V>)
    ensures m.Valid() && m.entries == map[]
  {
    OMap([], map[])
  }

  /** `m.get(k)`. */
  function Get<K(==), V>(m: OMap<K, V>, k: K): Option<V> {
    if k in m.entries then Some(m.entries[k]) else None
  }

  /** `m.get(k) || []` for a map whose values are lists. */
  function ListAt<K(==), T>(m: OMap<K, seq<T>>, k: K): seq<T> {
    if k in m.entries then m.entries[k] else []
  }

  /** `m.set(k, v)`: a new key goes to the end of the order, an existing key keeps its place. */
  function Put<K(==), V>(m: OMap<K, V>, k: K, v: V): (r: OMap<K, V>)
    requires m.Valid()
    ensures r.Valid()
    ensures r.entries == m.entries[k := v]
    ensures k in m.entries ==> r.keys == m.keys
    ensures k !in m.entries ==> r.keys == m.keys + [k]
  {
    if k in m.entries then OMap(m.keys, m.entries[k := v])
    else OMap(m.keys + [k], m.entries[k := v])
  }

  /** The order with `k` taken out and every other key left in place. */
  function Without<K(==)>(s: seq<K>, k: K): (r: seq<K>)
    ensures forall x :: x in r ==> x in s && x != k
    ensures forall x :: x in s && x != k ==> x in r
    ensures Seqs.IsSubsequence(r, s)
  {
    Seqs.Filter(s, x => x != k)
  }

  /** `m.delete(k)`. */
  function Remove<K(==), V>(m: OMap<K, V>, k: K): (r: OMap<K, V>)
    requires m.Valid()
    ensures r.Valid()
    ensures r.entries == m.entries - {k}
    ensures Seqs.IsSubsequence(r.keys, m.keys)
  {
    Seqs.FilterDistinct(m.keys, x => x != k);
    var keys := Without(m.keys, k);
    assert forall i :: 0 <= i < |keys| ==> keys[i] in keys;
    OMap(keys, m.entries - {k})
  }

  /** Deleting the keys `ks` one after another, first to last. */
  function RemoveAll<K(==), V>(m: OMap<K, V>, ks: seq<K>): (r: OMap<K, V>)
    requires m.Valid()
    ensures r.Valid()
    ensures forall k :: k in r.entries ==> k in m.entries && k !in ks && r.entries[k] == m.entries[k]
    ensures forall k :: k in m.entries && k !in ks ==> k in r.entries
    ensures Seqs.IsSubsequence(r.keys, m.keys)
    decreases |ks|
  {
    if ks == [] then
      Seqs.SubsequenceReflexive(m.keys);
      m
    else
      var init, last := ks[..|ks| - 1], ks[|ks| - 1];
      var p := RemoveAll(m, init);
      var r := Remove(p, last);
      Seqs.SubsequenceTransitive(r.keys, p.keys, m.keys);
      assert ks == init + [last];
      assert forall k :: k in ks ==> k in init || k == last;
      r
  }

  /** Deleting one more key after a run of deletions. */
  lemma RemoveAllSnoc<K, V>(m: OMap<K, V>, ks: seq<K>, k: K)
    requires m.Valid()
    ensures RemoveAll(m, ks + [k]) == Remove(RemoveAll(m, ks), k)
  {
    assert (ks + [k])[..|ks|] == ks;
  }

  /** `Array.from(m.values())`. */
  function Values<K(==), V>(m: OMap<K, V>): (vs: seq<V>)
    requires m.Valid()
    ensures |vs| == |m.keys|
    ensures forall i :: 0 <= i < |m.keys| ==> vs[i] == m.entries[m.keys[i]]
    ensures forall k :: k in m.entries ==> m.entries[k] in vs
    ensures forall v :: v in vs ==> exists k :: k in m.entries && m.entries[k] == v
  {
    seq(|m.keys|, i requires 0 <= i < |m.keys| => m.entries[m.keys[i]])
  }

  /** Setting a new key adds its value at the end of `values()`. */
  lemma ValuesAfterAdd<K, V>(m: OMap<K, V>, k: K, v: V)
    requires m.Valid() && k !in m.entries
    ensures Values(Put(m, k, v)) == Values(m) + [v]
  {
    var r := Put(m, k, v);
    assert forall i :: 0 <= i < |m.keys| ==> m.keys[i] != k;
    assert forall i :: 0 <= i < |m.keys| ==> Values(r)[i] == Values(m)[i];
  }

  /** Deleting a key that is not there changes nothing. */
  lemma RemoveAbsent<K, V>(m: OMap<K, V>, k: K)
    requires m.Valid() && k !in m.entries
    ensures Remove(m, k) == m
  {
    Seqs.FilterAll(m.keys, x => x != k);
  }

  /** Deleting a key twice is deleting it once. */
  lemma RemoveTwice<K, V>(m: OMap<K, V>, k: K)
    requires m.Valid()
    ensures Remove(Remove(m, k), k) == Remove(m, k)
  {
    RemoveAbsent(Remove(m, k), k);
  }
}
