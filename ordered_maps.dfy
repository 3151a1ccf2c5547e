/** The JavaScript Map: keys kept in first-insertion order, `set` on a key
    already present replaces its value and keeps its position, `values()`
    lists the values in key order. */
module OrderedMaps {
  import opened Numeric

  datatype OMap<K, V> = OMap(keys: seq<K>, vals: map<K, V>)
  {
    /** Keys are distinct and are exactly the domain of vals. */
    predicate Valid()
    {
      && (forall i, j :: 0 <= i < j < |keys| ==> keys[i] != keys[j])
      && vals.Keys == set k | k in keys
    }

    /** Map.prototype.size */
    function Size(): nat
    {
      |keys|
    }
  }

  function Empty<K, V>(): (m: OMap<K, V>)
    ensures m.Valid() && m.Size() == 0 && m.vals == map[]
  {
    OMap([], map[])
  }

  /** Map.prototype.set */
  function Put<K, V>(m: OMap<K, V>, k: K, v: V): (r: OMap<K, V>)
    requires m.Valid()
    ensures r.Valid()
    ensures r.vals == m.vals[k := v]
    ensures k in m.vals ==> r.keys == m.keys
    ensures k !in m.vals ==> r.keys == m.keys + [k]
  {
    if k in m.vals then OMap(m.keys, m.vals[k := v])
    else OMap(m.keys + [k], m.vals[k := v])
  }

  /** Array.from(m.values()) */
  function Values<K, V>(m: OMap<K, V>): (vs: seq<V>)
    requires m.Valid()
    ensures |vs| == m.Size()
    ensures forall i :: 0 <= i < |vs| ==> m.keys[i] in m.vals && vs[i] == m.vals[m.keys[i]]
  {
    seq(|m.keys|, i requires 0 <= i < |m.keys| => assert m.keys[i] in m.keys; m.vals[m.keys[i]])
  }

  /** Every stored value is listed by Values, and Values lists only stored values. */
  lemma ValuesAreContents<K, V>(m: OMap<K, V>)
    requires m.Valid()
    ensures forall k :: k in m.vals ==> m.vals[k] in Values(m)
    ensures forall v :: v in Values(m) ==> exists k :: k in m.vals && m.vals[k] == v
  {
    forall k | k in m.vals ensures m.vals[k] in Values(m) {
      var i :| 0 <= i < |m.keys| && m.keys[i] == k;
      assert Values(m)[i] == m.vals[k];
    }
  }

  /** The last element of batch whose key is k. */
  function LastWithKey<K(==), V>(batch: seq<V>, key: V -> K, k: K): (r: Option<V>)
    ensures r.None? <==> forall i :: 0 <= i < |batch| ==> key(batch[i]) != k
    ensures r.Some? ==> exists i :: 0 <= i < |batch| && batch[i] == r.value && key(batch[i]) == k
                                 && forall j :: i < j < |batch| ==> key(batch[j]) != k
  {
    if batch == [] then None
    else if key(batch[|batch| - 1]) == k then Some(batch[|batch| - 1])
    else LastWithKey(batch[..|batch| - 1], key, k)
  }

  /** batch.forEach(x => m.set(key(x), x)) */
  function Upsert<K, V>(m: OMap<K, V>, batch: seq<V>, key: V -> K): (r: OMap<K, V>)
    requires m.Valid()
    ensures r.Valid()
  {
    if batch == [] then m
    else
      var last := batch[|batch| - 1];
      Put(Upsert(m, batch[..|batch| - 1], key), key(last), last)
  }

  /** After the upsert, a key of the batch holds the batch's last element with
      that key; any other key keeps its old value; no key is lost and the old
      keys keep their order at the front. */
  lemma {:induction false} UpsertContents<K, V>(m: OMap<K, V>, batch: seq<V>, key: V -> K, k: K)
    requires m.Valid()
    ensures var r := Upsert(m, batch, key);
      && (k in r.vals <==> k in m.vals || LastWithKey(batch, key, k).Some?)
      && (LastWithKey(batch, key, k).Some? ==> r.vals[k] == LastWithKey(batch, key, k).value)
      && (LastWithKey(batch, key, k).None? && k in m.vals ==> r.vals[k] == m.vals[k])
      && m.keys <= r.keys
  {
    if batch != [] {
      UpsertContents(m, batch[..|batch| - 1], key, k);
    }
  }

  /** The key set after an upsert is the old key set plus the batch's keys. */
  lemma {:induction false} UpsertKeySet<K, V>(m: OMap<K, V>, batch: seq<V>, key: V -> K)
    requires m.Valid()
    ensures Upsert(m, batch, key).vals.Keys == m.vals.Keys + set x | x in batch :: key(x)
  {
    if batch != [] {
      var init := batch[..|batch| - 1];
      UpsertKeySet(m, init, key);
      assert batch == init + [batch[|batch| - 1]];
      assert (set x | x in batch :: key(x)) == (set x | x in init :: key(x)) + {key(batch[|batch| - 1])};
    }
  }

  /** When no two elements of the batch share a key, every element ends up
      stored under its own key. */
  lemma UpsertDistinctKeys<K, V>(m: OMap<K, V>, batch: seq<V>, key: V -> K, i: nat)
    requires m.Valid() && i < |batch|
    requires forall a, b :: 0 <= a < b < |batch| ==> key(batch[a]) != key(batch[b])
    ensures var r := Upsert(m, batch, key);
      key(batch[i]) in r.vals && r.vals[key(batch[i])] == batch[i]
  {
    var k := key(batch[i]);
    UpsertContents(m, batch, key, k);
    var last := LastWithKey(batch, key, k);
    var j :| 0 <= j < |batch| && batch[j] == last.value && key(batch[j]) == k
             && forall l :: j < l < |batch| ==> key(batch[l]) != k;
    assert j == i;
  }

  /** Distinct keys: the size is the number of keys in the domain. */
  lemma SizeIsCardinality<K, V>(m: OMap<K, V>)
    requires m.Valid()
    ensures m.Size() == |m.vals.Keys|
  {
    DistinctSeqCard(m.keys);
    assert (set k | k in m.keys) == m.vals.Keys;
  }

  lemma {:induction false} DistinctSeqCard<K>(s: seq<K>)
    requires forall i, j :: 0 <= i < j < |s| ==> s[i] != s[j]
    ensures |set k | k in s| == |s|
  {
    if s != [] {
      var init := s[..|s| - 1];
      DistinctSeqCard(init);
      assert (set k | k in s) == (set k | k in init) + {s[|s| - 1]};
      assert s[|s| - 1] !in init;
    }
  }
}
