/** A JavaScript object used as a dictionary whose keys are `0x…` strings.
    Such keys are not array indices, so `Object.getOwnPropertyNames`
    returns them in insertion order; assigning an existing key keeps its
    place, assigning a new key appends it. The model is the key order plus
    the key-to-value map, kept in agreement by the subset type `OMap`. */
module OrderedMap {

  datatype Assoc<K, V> = Assoc(keys: seq<K>, values: map<K, V>)

  /** The keys are pairwise distinct and are exactly the map's domain. */
  predicate Wf<K, V>(m: Assoc<K, V>) {
    && (forall i, j :: 0 <= i < j < |m.keys| ==> m.keys[i] != m.keys[j])
    && (forall k :: k in m.values ==> k in m.keys)
    && (forall k :: k in m.keys ==> k in m.values)
  }

  type OMap<K, V> = m: Assoc<K, V> | Wf(m) witness Assoc([], map[])

  /** `{}` */
  function Empty<K, V>(): (r: OMap<K, V>)
    ensures r.keys == [] && r.values == map[]
  {
    Assoc([], map[])
  }

  /** Number of own property names. */
  function Size<K, V>(m: OMap<K, V>): (n: nat)
    ensures n == |m.values.Keys|
  {
    DistinctCard(m.keys, m.values.Keys);
    |m.keys|
  }

  /** `obj[k] = v` */
  function Put<K, V>(m: OMap<K, V>, k: K, v: V): (r: OMap<K, V>)
    ensures k in r.values && r.values[k] == v
    ensures forall k' :: k' in m.values ==> k' in r.values
    ensures forall k' :: k' in r.values && k' != k ==> k' in m.values
    ensures forall k' :: k' != k && k' in m.values ==> r.values[k'] == m.values[k']
    ensures k in m.values ==> r.keys == m.keys
    ensures k !in m.values ==> r.keys == m.keys + [k]
  {
    if k in m.values then Assoc(m.keys, m.values[k := v])
    else Assoc(m.keys + [k], m.values[k := v])
  }

  /** A sequence of distinct elements has as many elements as its set. */
  lemma {:induction false} DistinctCard<K>(s: seq<K>, ks: set<K>)
    requires forall i, j :: 0 <= i < j < |s| ==> s[i] != s[j]
    requires forall k :: k in ks <==> k in s
    ensures |ks| == |s|
  {
    if s != [] {
      var last := s[|s| - 1];
      var init := s[..|s| - 1];
      forall k ensures k in ks - {last} <==> k in init {
        if k in init {
          var i :| 0 <= i < |init| && init[i] == k;
          assert s[i] == k;
        }
        if k in s && k != last {
          var i :| 0 <= i < |s| && s[i] == k;
          assert i < |s| - 1;
          assert init[i] == k;
        }
      }
      DistinctCard(init, ks - {last});
    }
  }
}
