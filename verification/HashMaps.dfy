/**
 A hash map as its users see it: unique keys, and a stable order in which
 get_first/get_next walk the entries, as many as count reports.
 */
module HashMaps {
  datatype Entry<K, V> = Entry(key: K, value: V)

  /** Position of the first entry for the key, or |m|. */
  function Find<K(==), V>(m: seq<Entry<K, V>>, key: K): (p: nat)
    ensures p <= |m|
    ensures forall k | 0 <= k < p :: m[k].key != key
    ensures p < |m| ==> m[p].key == key
  {
    if |m| == 0 || m[0].key == key then 0 else 1 + Find(m[1..], key)
  }

  ghost predicate Unique<K, V>(m: seq<Entry<K, V>>) {
    forall i, j | 0 <= i < j < |m| :: m[i].key != m[j].key
  }

  /** The map as a mathematical map. */
  ghost function View<K, V>(m: seq<Entry<K, V>>): map<K, V> {
    var keys := set e | e in m :: e.key;
    map k | k in keys :: m[Find(m, k)].value
  }

  /** put: overwrites the value of a present key, adds an absent one. */
  function Put<K(==), V>(m: seq<Entry<K, V>>, key: K, value: V): seq<Entry<K, V>> {
    var p := Find(m, key);
    if p < |m| then m[p := Entry(key, value)] else m + [Entry(key, value)]
  }

  function Remove<K(==), V>(m: seq<Entry<K, V>>, key: K): seq<Entry<K, V>> {
    var p := Find(m, key);
    if p < |m| then seq(|m| - 1, i requires 0 <= i < |m| - 1 => if i < p then m[i] else m[i + 1]) else m
  }

  lemma InView<K, V>(m: seq<Entry<K, V>>, key: K)
    ensures key in View(m) <==> Find(m, key) < |m|
    ensures key in View(m) ==> View(m)[key] == m[Find(m, key)].value
  {
  }

  /** In a map with unique keys every entry is what its key looks up. */
  lemma EntryInView<K, V>(m: seq<Entry<K, V>>, p: nat)
    requires Unique(m) && p < |m|
    ensures Find(m, m[p].key) == p
    ensures m[p].key in View(m) && View(m)[m[p].key] == m[p].value
  {
  }

  lemma PutUnique<K, V>(m: seq<Entry<K, V>>, key: K, value: V)
    requires Unique(m)
    ensures Unique(Put(m, key, value))
  {
  }

  lemma PutView<K(!new), V>(m: seq<Entry<K, V>>, key: K, value: V)
    requires Unique(m)
    ensures View(Put(m, key, value)) == View(m)[key := value]
  {
    var v, w := View(Put(m, key, value)), View(m)[key := value];
    forall k
      ensures Agree(v, w, k)
    {
      PutViewAt(m, key, value, k);
    }
    Extensional(v, w);
  }

  ghost predicate Agree<K, V>(v: map<K, V>, w: map<K, V>, k: K) {
    (k in v <==> k in w) && (k in v && k in w ==> v[k] == w[k])
  }

  lemma Extensional<K(!new), V>(v: map<K, V>, w: map<K, V>)
    requires forall k :: Agree(v, w, k)
    ensures v == w
  {
    assert forall k :: (k in v <==> k in w) && (k in v && k in w ==> v[k] == w[k]) by {
      forall k
        ensures (k in v <==> k in w) && (k in v && k in w ==> v[k] == w[k])
      {
        assert Agree(v, w, k);
      }
    }
  }

  lemma PutViewAt<K, V>(m: seq<Entry<K, V>>, key: K, value: V, k: K)
    requires Unique(m)
    ensures Agree(View(Put(m, key, value)), View(m)[key := value], k)
  {
    InView(m, k);
    InView(Put(m, key, value), k);
    PutFind(m, key, value, k);
  }

  lemma PutFind<K, V>(m: seq<Entry<K, V>>, key: K, value: V, k: K)
    requires Unique(m)
    ensures var m' := Put(m, key, value);
            if k == key then Find(m', k) < |m'| && m'[Find(m', k)].value == value
            else (Find(m', k) < |m'| <==> Find(m, k) < |m|) && (Find(m, k) < |m| ==> Find(m', k) == Find(m, k))
  {
  }

  /** m' is m without the entry at position at. */
  ghost predicate Without<K, V>(m: seq<Entry<K, V>>, at: nat, m': seq<Entry<K, V>>) {
    && at < |m| == |m'| + 1
    && (forall p | 0 <= p < at :: m'[p] == m[p])
    && (forall p | at <= p < |m'| :: m'[p] == m[p + 1])
  }

  lemma RemoveUnique<K, V>(m: seq<Entry<K, V>>, key: K)
    requires Unique(m)
    ensures Unique(Remove(m, key))
    ensures Find(m, key) < |m| ==> Without(m, Find(m, key), Remove(m, key))
  {
  }

  lemma RemoveView<K, V>(m: seq<Entry<K, V>>, key: K)
    requires Unique(m)
    ensures View(Remove(m, key)) == View(m) - {key}
  {
    RemoveUnique(m, key);
    InView(m, key);
    if Find(m, key) < |m| {
      WithoutView(m, Find(m, key), Remove(m, key));
    } else {
      assert View(m) - {key} == View(m);
    }
  }

  lemma WithoutView<K, V>(m: seq<Entry<K, V>>, at: nat, m': seq<Entry<K, V>>)
    requires Unique(m) && Unique(m') && Without(m, at, m')
    ensures View(m') == View(m) - {m[at].key}
  {
    forall k
      ensures (k in View(m') <==> k in View(m) - {m[at].key}) && (k in View(m') ==> View(m')[k] == View(m)[k])
    {
      InView(m, k);
      InView(m', k);
      WithoutFind(m, at, m', k);
    }
  }

  lemma WithoutFind<K, V>(m: seq<Entry<K, V>>, at: nat, m': seq<Entry<K, V>>, k: K)
    requires Unique(m) && Unique(m') && Without(m, at, m')
    ensures Find(m', k) < |m'| <==> k != m[at].key && Find(m, k) < |m|
    ensures Find(m', k) < |m'| ==> m'[Find(m', k)] == m[Find(m, k)]
  {
    var p := Find(m', k);
    if p < |m'| {
      EntryInView(m, if p < at then p else p + 1);
    } else if Find(m, k) < |m| && k != m[at].key {
      var q := Find(m, k);
      EntryInView(m', if q < at then q else q - 1);
    }
  }
}
