/**
 * Qt's `QMap<uint, V>`: a dictionary whose iterators visit the keys in
 * ascending order. It is modelled by the sequence of its entries sorted by
 * key, so that walking an iterator is walking an index.
 */
module QMaps {
  import opened Base

  type QMap<V> = seq<(uint32, V)>

  /** Keys strictly ascending, so no key occurs twice. */
  predicate Sorted<V>(m: QMap<V>) {
    forall i, j :: 0 <= i < j < |m| ==> m[i].0 < m[j].0
  }

  /** Every key of `m` lies above `b`. */
  predicate Above<V>(m: QMap<V>, b: int) {
    forall i :: 0 <= i < |m| ==> b < m[i].0
  }

  /** The value stored under `k`, if any. */
  function Lookup<V>(m: QMap<V>, k: uint32): Option<V> {
    if m == [] then None
    else if m[0].0 == k then Some(m[0].1)
    else Lookup(m[1..], k)
  }

  /**
   * `m[k] = v` and `m.insert(k, v)`: a new entry in key order, or a new value
   * for a key already present.
   */
  function Insert<V>(m: QMap<V>, k: uint32, v: V): (r: QMap<V>)
    requires Sorted(m)
    ensures Sorted(r)
    ensures forall b :: Above(m, b) && b < k ==> Above(r, b)
  {
    if m == [] then [(k, v)]
    else if k < m[0].0 then [(k, v)] + m
    else if k == m[0].0 then [(k, v)] + m[1..]
    else
      var rest := Insert(m[1..], k, v);
      assert Above(m[1..], m[0].0);
      assert forall b :: Above(m, b) ==> Above(m[1..], b);
      [m[0]] + rest
  }

  /**
   * `m.find(k)`: the position of the entry with key exactly `k`, or the end
   * position `|m|` when there is none.
   */
  function Find<V>(m: QMap<V>, k: uint32): (i: nat)
    ensures i <= |m|
    ensures i < |m| ==> m[i].0 == k && Lookup(m, k) == Some(m[i].1)
    ensures i == |m| ==> Lookup(m, k) == None && forall j :: 0 <= j < |m| ==> m[j].0 != k
  {
    if m == [] then 0
    else if m[0].0 == k then 0
    else 1 + Find(m[1..], k)
  }

  /** After an insertion, `k` holds `v` and every other key holds what it held. */
  lemma {:induction false} InsertLookup<V>(m: QMap<V>, k: uint32, v: V, j: uint32)
    requires Sorted(m)
    ensures Lookup(Insert(m, k, v), j) == if j == k then Some(v) else Lookup(m, j)
  {
    if m != [] && k > m[0].0 {
      var r := Insert(m, k, v);
      assert r[1..] == Insert(m[1..], k, v);
      InsertLookup(m[1..], k, v, j);
    }
  }

  /** No key at or below a lower bound of all keys is present. */
  lemma {:induction false} LookupBelow<V>(m: QMap<V>, b: int, k: uint32)
    requires Above(m, b) && k <= b
    ensures Lookup(m, k) == None
  {
    if m != [] {
      LookupBelow(m[1..], b, k);
    }
  }

  /** In a sorted map, every entry is found under its own key. */
  lemma LookupAt<V>(m: QMap<V>, i: nat)
    requires Sorted(m) && i < |m|
    ensures Lookup(m, m[i].0) == Some(m[i].1)
  {
    var f := Find(m, m[i].0);
    assert f == i;
  }
}
