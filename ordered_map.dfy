/**
 * A JavaScript `Map`: a table from keys to values that iterates its keys in
 * the order they were first inserted. Overwriting a key keeps its position;
 * deleting it removes it from the order.
 */
module OrderedMaps {
  import opened Wrappers

  /** No element occurs twice. */
  ghost predicate Distinct<K>(s: seq<K>) {
    forall i, j :: 0 <= i < j < |s| ==> s[i] != s[j]
  }

  /** In a sequence without repeats no element occurs before its own position. */
  lemma DistinctNotBefore<K>(s: seq<K>, n: nat)
    requires Distinct(s) && n < |s|
    ensures s[n] !in s[..n]
  {
    forall j | 0 <= j < n
      ensures s[..n][j] != s[n]
    {
      assert s[..n][j] == s[j];
    }
  }

  /** A sequence without repeats has as many elements as the set of them. */
  lemma {:induction false} DistinctCard<K>(s: seq<K>)
    requires Distinct(s)
    ensures |set x | x in s| == |s|
  {
    if s != [] {
      var t, x := s[..|s| - 1], s[|s| - 1];
      assert Distinct(t) by {
        forall i, j | 0 <= i < j < |t|
          ensures t[i] != t[j]
        {
          assert t[i] == s[i] && t[j] == s[j];
        }
      }
      DistinctCard(t);
      DistinctNotBefore(s, |s| - 1);
      assert s == t + [x];
      assert (set y | y in s) == (set y | y in t) + {x};
    }
  }

  /** `s` without the occurrences of `k`, order kept. */
  function Without<K(==, !new)>(s: seq<K>, k: K): (r: seq<K>)
    ensures forall x :: x in r <==> x in s && x != k
    ensures k !in s ==> r == s
    ensures Distinct(s) ==> Distinct(r)
  {
    if s == [] then []
    else if s[0] == k then Without(s[1..], k)
    else
      var rest := Without(s[1..], k);
      assert Distinct(s) ==> s[0] !in s[1..] && Distinct(s[1..]) by {
        if Distinct(s) {
          forall j | 0 <= j < |s[1..]|
            ensures s[1..][j] != s[0]
          {
            assert s[1..][j] == s[j + 1];
          }
        }
      }
      [s[0]] + rest
  }

  datatype OMap<K(==, !new), V> = OMap(keys: seq<K>, values: map<K, V>) {

    /** The order lists each key of the table exactly once. */
    ghost predicate Valid() {
      Distinct(keys) && (forall k :: k in values <==> k in keys)
    }

    /** `map.size`. */
    function Size(): nat {
      |keys|
    }

    /** `map.size` counts the table's keys. */
    lemma SizeIsCard()
      requires Valid()
      ensures Size() == |values|
    {
      DistinctCard(keys);
      assert values.Keys == set x | x in keys;
    }

    /** `map.has(k)`. */
    predicate Has(k: K) {
      k in values
    }

    /** `map.get(k)`, with `undefined` as `None`. */
    function Get(k: K): (r: Option<V>)
      ensures r.Some? <==> k in values
      ensures r.Some? ==> r.value == values[k]
    {
      if k in values then Some(values[k]) else None
    }

    /** `map.set(k, v)`: a new key goes last, an existing one keeps its place. */
    function Set(k: K, v: V): (r: OMap<K, V>)
      ensures r.values == values[k := v]
      ensures k in values ==> r.keys == keys
      ensures k !in values ==> r.keys == keys + [k]
    {
      if k in values then OMap(keys, values[k := v]) else OMap(keys + [k], values[k := v])
    }

    /** Setting a key keeps the order a list of the table's keys without repeats. */
    lemma SetValid(k: K, v: V)
      requires Valid()
      ensures Set(k, v).Valid()
    {
      var r := Set(k, v);
      if k !in values {
        forall i, j | 0 <= i < j < |r.keys|
          ensures r.keys[i] != r.keys[j]
        {
          if j == |keys| {
            assert r.keys[i] == keys[i];
          }
        }
      }
    }

    /** `map.delete(k)`. */
    function Delete(k: K): (r: OMap<K, V>)
      requires Valid()
      ensures r.Valid()
      ensures r.values == values - {k}
      ensures r.keys == Without(keys, k)
    {
      OMap(Without(keys, k), values - {k})
    }

    /** `Array.from(map.values())`. */
    function ValueList(): (r: seq<V>)
      requires Valid()
      ensures |r| == |keys|
      ensures forall i :: 0 <= i < |keys| ==> r[i] == values[keys[i]]
    {
      seq(|keys|, i requires 0 <= i < |keys| => values[keys[i]])
    }
  }

  /** `new Map()`. */
  function Empty<K(==, !new), V>(): (m: OMap<K, V>)
    ensures m.Valid() && m.keys == [] && m.values == map[]
  {
    OMap([], map[])
  }
}
