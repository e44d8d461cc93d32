/** The ES `Map<string, V>` that the record store keeps its tables in: keyed
    entries that remember the order in which their keys were first inserted.
    `set` on a present key replaces the value in place, `set` on a new key
    appends it, `delete` removes the key and reports whether it was there,
    `size` counts the entries and `values()` lists them in insertion order. */
module JsMap {
  import opened Common

  predicate Distinct(keys: seq<string>) {
    forall i, j :: 0 <= i < j < |keys| ==> keys[i] != keys[j]
  }

  /** The test `delete` applies to each key: every key but `k` stays. */
  function Other(k: string): string -> bool {
    (x: string) => x != k
  }

  /** `keys` without `k`, order kept. */
  function RemoveKey(keys: seq<string>, k: string): (r: seq<string>)
    ensures forall x :: x in r <==> x in keys && x != k
  {
    Filter(keys, Other(k))
  }

  /** Removing a key that is not there keeps the list as it is. */
  lemma RemoveAbsentKey(keys: seq<string>, k: string)
    requires k !in keys
    ensures RemoveKey(keys, k) == keys
  {
    assert forall i :: 0 <= i < |keys| ==> Other(k)(keys[i]);
    FilterAll(keys, Other(k));
  }

  /** When `k` stands at position `p` only, removing it joins the keys before it to
      the keys after it. */
  lemma RemoveKeyAt(keys: seq<string>, k: string, p: nat)
    requires p < |keys| && keys[p] == k
    requires forall i :: 0 <= i < |keys| && i != p ==> keys[i] != k
    ensures RemoveKey(keys, k) == keys[..p] + keys[p + 1..]
  {
    forall i | 0 <= i < |keys| && i != p ensures Other(k)(keys[i]) {
    }
    FilterDropsOne(keys, Other(k), p);
  }

  /** Removing a key from a list without repeats leaves a list without repeats, one
      key shorter when the key was there. */
  lemma RemoveKeyDistinct(keys: seq<string>, k: string)
    requires Distinct(keys)
    ensures Distinct(RemoveKey(keys, k))
    ensures k in keys ==> |RemoveKey(keys, k)| == |keys| - 1
    ensures k !in keys ==> RemoveKey(keys, k) == keys
  {
    if k !in keys {
      RemoveAbsentKey(keys, k);
    } else {
      var p :| 0 <= p < |keys| && keys[p] == k;
      RemoveKeyAt(keys, k, p);
      var r := RemoveKey(keys, k);
      forall i, j | 0 <= i < j < |r| ensures r[i] != r[j] {
        var i', j' := if i < p then i else i + 1, if j < p then j else j + 1;
        assert r[i] == keys[i'] && r[j] == keys[j'];
      }
    }
  }

  datatype OrderedMap<V> = OrderedMap(keys: seq<string>, entries: map<string, V>) {

    /** The key list has no repeats and lists exactly the keys of the entries. */
    ghost predicate Valid() {
      Distinct(keys) && forall k :: k in entries <==> k in keys
    }

    /** `map.size` */
    function Size(): nat {
      |keys|
    }

    /** `map.has(k)` */
    predicate Has(k: string) {
      k in entries
    }

    /** `map.get(k)` */
    function Get(k: string): (r: Option<V>)
      ensures r.Some? <==> k in entries
      ensures r.Some? ==> r.value == entries[k]
    {
      if k in entries then Some(entries[k]) else None
    }

    /** `map.set(k, v)` */
    function Set(k: string, v: V): (m: OrderedMap<V>)
      requires Valid()
      ensures m.Valid()
      ensures m.Get(k) == Some(v)
      ensures forall j :: j != k ==> m.Get(j) == Get(j)
      ensures m.Size() == if Has(k) then Size() else Size() + 1
    {
      OrderedMap(if k in entries then keys else keys + [k], entries[k := v])
    }

    /** `map.delete(k)`; the returned flag is `map.delete`'s result. */
    function Delete(k: string): (m: OrderedMap<V>)
      requires Valid()
      ensures m.Valid()
      ensures m.Get(k) == None
      ensures forall j :: j != k ==> m.Get(j) == Get(j)
      ensures m.Size() == if Has(k) then Size() - 1 else Size()
    {
      RemoveKeyDistinct(keys, k);
      OrderedMap(RemoveKey(keys, k), entries - {k})
    }

    /** `Array.from(map.values())` */
    function Values(): (r: seq<V>)
      requires Valid()
      ensures |r| == Size()
    {
      seq(|keys|, i requires 0 <= i < |keys| && keys[i] in entries => entries[keys[i]])
    }
  }

  /** `new Map()` */
  function EmptyMap<V>(): (m: OrderedMap<V>)
    ensures m.Valid() && m.Size() == 0
    ensures forall k :: m.Get(k) == None
  {
    OrderedMap([], map[])
  }

  /** `values()` lists the entries in key order. */
  lemma ValuesAt<V>(m: OrderedMap<V>, i: nat)
    requires m.Valid() && i < m.Size()
    ensures m.keys[i] in m.entries && m.Values()[i] == m.entries[m.keys[i]]
  {
    assert m.keys[i] in m.keys;
  }

  /** Setting a new key appends its value at the end of `values()`. */
  lemma SetNewAppends<V>(m: OrderedMap<V>, k: string, v: V)
    requires m.Valid() && !m.Has(k)
    ensures m.Set(k, v).Values() == m.Values() + [v]
  {
    var r := m.Set(k, v);
    forall i | 0 <= i < |m.keys|
      ensures r.Values()[i] == m.Values()[i]
    {
      ValuesAt(m, i);
      ValuesAt(r, i);
    }
    ValuesAt(r, |m.keys|);
  }

  /** Setting a present key replaces its value where it stands and moves nothing. */
  lemma SetExistingInPlace<V>(m: OrderedMap<V>, k: string, v: V, i: nat)
    requires m.Valid() && m.Has(k) && i < m.Size()
    ensures m.Set(k, v).Size() == m.Size()
    ensures m.Set(k, v).Values()[i] == if m.keys[i] == k then v else m.Values()[i]
  {
    ValuesAt(m, i);
    ValuesAt(m.Set(k, v), i);
  }

  /** Deleting the key at position `p` drops its value from `values()` and keeps the
      others in order. */
  lemma DeleteValues<V>(m: OrderedMap<V>, k: string, p: nat)
    requires m.Valid() && p < m.Size() && m.keys[p] == k
    ensures m.Delete(k).Values() == m.Values()[..p] + m.Values()[p + 1..]
  {
    var r := m.Delete(k);
    assert forall i :: 0 <= i < |m.keys| && i != p ==> m.keys[i] != k;
    RemoveKeyAt(m.keys, k, p);
    var expected := m.Values()[..p] + m.Values()[p + 1..];
    forall i | 0 <= i < |r.keys| ensures r.Values()[i] == expected[i] {
      ValuesAt(r, i);
      if i < p {
        ValuesAt(m, i);
      } else {
        ValuesAt(m, i + 1);
      }
    }
  }

  /** Deleting a key that is not there leaves `values()` as it was. */
  lemma DeleteAbsentValues<V>(m: OrderedMap<V>, k: string)
    requires m.Valid() && !m.Has(k)
    ensures m.Delete(k).Values() == m.Values()
  {
    var r := m.Delete(k);
    assert k !in m.keys;
    RemoveAbsentKey(m.keys, k);
    forall i | 0 <= i < |r.keys| ensures r.Values()[i] == m.Values()[i] {
      ValuesAt(r, i);
      ValuesAt(m, i);
    }
  }

  /** A key list without repeats has as many keys as it has elements. */
  lemma {:induction false} DistinctKeyCount(keys: seq<string>)
    requires Distinct(keys)
    ensures |set x | x in keys| == |keys|
    decreases |keys|
  {
    if keys != [] {
      var rest := keys[1..];
      assert Distinct(rest) by {
        forall i, j | 0 <= i < j < |rest| ensures rest[i] != rest[j] {
          assert rest[i] == keys[i + 1] && rest[j] == keys[j + 1];
        }
      }
      DistinctKeyCount(rest);
      assert keys[0] !in rest by {
        forall j | 0 <= j < |rest| ensures rest[j] != keys[0] {
          assert rest[j] == keys[j + 1];
        }
      }
      assert (set x | x in keys) == (set x | x in rest) + {keys[0]} by {
        assert keys == [keys[0]] + rest;
      }
    }
  }

  /** For a valid map, `size` is the number of entries. */
  lemma SizeIsEntryCount<V>(m: OrderedMap<V>)
    requires m.Valid()
    ensures m.Size() == |m.entries.Keys|
  {
    DistinctKeyCount(m.keys);
    assert m.entries.Keys == set x | x in m.keys;
  }
}
