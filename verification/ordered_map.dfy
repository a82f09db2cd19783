/**
 * A JavaScript `Map<string, V>`: a finite map from string keys that also
 * remembers the order in which keys were first inserted, which is the order
 * `values()` visits them in. The adapter's sender pool, receiver pool and
 * subscription pool are all such maps.
 */
module JsMap {

  datatype OrderedMap<V> = OrderedMap(keys: seq<string>, entries: map<string, V>)
  {
    /** Keys are listed once each, and exactly the keys of `entries` are listed. */
    ghost predicate Valid()
    {
      && (forall i, j :: 0 <= i < j < |keys| ==> keys[i] != keys[j])
      && (forall k :: k in entries <==> k in keys)
    }
  }

  /** `new Map()`. */
  function Empty<V>(): (m: OrderedMap<V>)
    ensures m.Valid() && m.entries == map[] && m.keys == []
  {
    OrderedMap([], map[])
  }

  /**
   * `m.set(k, v)`: overwriting an existing key keeps its position, a new key
   * goes last; no other entry changes.
   */
  function Set<V>(m: OrderedMap<V>, k: string, v: V): (r: OrderedMap<V>)
    requires m.Valid()
    ensures r.Valid()
    ensures r.entries == m.entries[k := v]
    ensures k in m.entries ==> r.keys == m.keys
    ensures k !in m.entries ==> r.keys == m.keys + [k]
  {
    if k in m.entries then OrderedMap(m.keys, m.entries[k := v])
    else OrderedMap(m.keys + [k], m.entries[k := v])
  }

  /** `m.values()`, in insertion order. */
  function Values<V>(m: OrderedMap<V>): (vs: seq<V>)
    requires m.Valid()
    ensures |vs| == |m.keys|
    ensures forall i :: 0 <= i < |vs| ==> vs[i] == m.entries[m.keys[i]]
  {
    seq(|m.keys|, i requires 0 <= i < |m.keys| => m.entries[m.keys[i]])
  }
}
