/**
 * Python's `dict`, as the widget managers use it: a mapping that remembers
 * the order in which keys were first inserted. Assigning to a present key
 * keeps its place; deleting a key and inserting it again moves it to the end.
 */
module Dicts {

  datatype Dict<K(==), V> = Dict(keys: seq<K>, values: map<K, V>)
  {
    /** Every key appears once in the order, and the order holds exactly the mapped keys. */
    ghost predicate Valid() {
      && Distinct(keys)
      && (forall k | k in values :: k in keys)
      && (forall k | k in keys :: k in values)
    }
  }

  ghost predicate Distinct<K>(s: seq<K>) {
    forall i, j :: 0 <= i < j < |s| ==> s[i] != s[j]
  }

  function Empty<K(==), V>(): (d: Dict<K, V>)
    ensures d.Valid() && d.values == map[] && d.keys == []
  {
    Dict([], map[])
  }

  /** `d[k] = v` */
  function Put<K(==), V>(d: Dict<K, V>, k: K, v: V): (r: Dict<K, V>)
    requires d.Valid()
    ensures r.Valid()
    ensures k in r.values && r.values[k] == v
    ensures r.values.Keys == d.values.Keys + {k}
    ensures forall x :: x in d.values && x != k ==> r.values[x] == d.values[x]
    ensures k in d.values ==> r.keys == d.keys
    ensures k !in d.values ==> r.keys == d.keys + [k]
  {
    if k in d.values then Dict(d.keys, d.values[k := v])
    else Dict(d.keys + [k], d.values[k := v])
  }

  /** The insertion order after `d[k] = v`: unchanged for a present key, `k` last otherwise. */
  function Appended<K(==)>(s: seq<K>, k: K): seq<K>
  {
    if k in s then s else s + [k]
  }

  /** The order with every occurrence of `k` left out. */
  function Without<K(==)>(s: seq<K>, k: K): (r: seq<K>)
    ensures forall x | x in r :: x in s && x != k
    ensures forall x | x in s && x != k :: x in r
    ensures |r| <= |s|
  {
    if s == [] then []
    else if s[0] == k then Without(s[1..], k)
    else [s[0]] + Without(s[1..], k)
  }

  lemma {:induction false} WithoutKeepsDistinct<K>(s: seq<K>, k: K)
    requires Distinct(s)
    ensures Distinct(Without(s, k))
  {
    if s != [] {
      WithoutKeepsDistinct(s[1..], k);
      if s[0] != k {
        var r := Without(s, k);
        var t := Without(s[1..], k);
        assert r == [s[0]] + t;
        forall m | 0 <= m < |s| - 1 ensures s[1..][m] != s[0] {
          assert s[1..][m] == s[m + 1];
        }
        assert s[0] !in s[1..];
        assert s[0] !in t;
        forall i, j | 0 <= i < j < |r| ensures r[i] != r[j] {
          if i == 0 {
            assert r[j] == t[j - 1] && t[j - 1] in t;
          } else {
            assert r[i] == t[i - 1] && r[j] == t[j - 1];
          }
        }
      }
    }
  }

  lemma WithoutAbsent<K>(s: seq<K>, k: K)
    requires k !in s
    ensures Without(s, k) == s
  {
    if s != [] {
      WithoutAbsent(s[1..], k);
    }
  }

  /** `if k in d: del d[k]` */
  function Delete<K(==), V>(d: Dict<K, V>, k: K): (r: Dict<K, V>)
    requires d.Valid()
    ensures r.Valid()
    ensures r.values == d.values - {k}
    ensures r.keys == Without(d.keys, k)
    ensures k !in d.values ==> r == d
  {
    WithoutKeepsDistinct(d.keys, k);
    if k !in d.values then WithoutAbsent(d.keys, k); d
    else Dict(Without(d.keys, k), d.values - {k})
  }

  /** Deleting twice is deleting once; deleting an absent key changes nothing. */
  lemma DeleteIdempotent<K, V>(d: Dict<K, V>, k: K)
    requires d.Valid()
    ensures Delete(Delete(d, k), k) == Delete(d, k)
  {
  }

  /** Deleting one key leaves every other key's value where it was. */
  lemma DeleteKeepsOthers<K, V>(d: Dict<K, V>, k: K, x: K)
    requires d.Valid() && x != k
    ensures x in Delete(d, k).values <==> x in d.values
    ensures x in d.values ==> Delete(d, k).values[x] == d.values[x]
  {
  }
}
