/** A JavaScript `Map` as a value: the entries by (string) key and the keys in
    insertion order (`set` of a new key appends it, `set` of a known key
    keeps its place, `delete` removes it), as iteration with `keys()`,
    `values()` or `forEach` sees them. */
module OrderedMaps {
  import opened Seqs

  datatype OrderedMap<V> = OrderedMap(entries: map<string, V>, order: seq<string>)

  /** Every key is listed once. */
  ghost predicate Listed<V>(m: OrderedMap<V>)
  {
    (forall k :: k in m.entries <==> k in m.order) && Distinct(m.order)
  }

  function Empty<V>(): OrderedMap<V>
  {
    OrderedMap(map[], [])
  }

  /** `map.set(k, v)`. */
  function Put<V>(m: OrderedMap<V>, k: string, v: V): OrderedMap<V>
  {
    OrderedMap(m.entries[k := v], if k in m.entries then m.order else m.order + [k])
  }

  /** `map.delete(k)`. */
  function Drop<V>(m: OrderedMap<V>, k: string): OrderedMap<V>
  {
    OrderedMap(m.entries - {k}, RemoveFirst(m.order, k))
  }

  /** `Array.from(map.values())`. */
  function Values<V>(m: OrderedMap<V>): (vs: seq<V>)
    requires Listed(m)
    ensures |vs| == |m.order|
    ensures forall i :: 0 <= i < |vs| ==> vs[i] == m.entries[m.order[i]]
  {
    seq(|m.order|, i requires 0 <= i < |m.order| => m.entries[m.order[i]])
  }

  /** Setting a key keeps the map listed; a new key goes last and a known
      one keeps its place. */
  lemma PutListed<V>(m: OrderedMap<V>, k: string, v: V)
    requires Listed(m)
    ensures Listed(Put(m, k, v))
    ensures k in m.entries ==> Put(m, k, v).order == m.order
    ensures k !in m.entries ==> Put(m, k, v).order == m.order + [k]
  {
    if k !in m.entries {
      SnocDistinct(m.order, k);
    }
  }

  /** Deleting a key keeps the map listed and the other keys in order. */
  lemma DropListed<V>(m: OrderedMap<V>, k: string)
    requires Listed(m)
    ensures Listed(Drop(m, k))
    ensures Drop(m, k).order == Filter(m.order, Other(k))
  {
    RemoveFirstDistinct(m.order, k);
  }

  /** Deleting the first key leaves the rest of the order. */
  lemma DropFirst<V>(m: OrderedMap<V>)
    requires Listed(m) && m.order != []
    ensures Drop(m, m.order[0]).order == m.order[1..]
  {
    assert Find(m.order, m.order[0]) == 0;
  }

  /** A listed map with no keys listed is empty. */
  lemma NoOrderEmpty<V>(m: OrderedMap<V>)
    requires Listed(m) && m.order == []
    ensures m.entries == map[]
  {
    assert m.entries.Keys == {};
  }

  /** A value is among `values()` exactly when some key maps to it. */
  lemma ValuesMember<V>(m: OrderedMap<V>, v: V)
    requires Listed(m)
    ensures v in Values(m) <==> exists k :: k in m.entries && m.entries[k] == v
  {
    var vs := Values(m);
    if v in vs {
      var i :| 0 <= i < |vs| && vs[i] == v;
      assert m.order[i] in m.entries;
    }
    if exists k :: k in m.entries && m.entries[k] == v {
      var k :| k in m.entries && m.entries[k] == v;
      var i :| 0 <= i < |m.order| && m.order[i] == k;
      assert vs[i] == v;
    }
  }
}
