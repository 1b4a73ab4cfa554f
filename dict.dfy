/**
 * A plain JavaScript object used as a dictionary (`acc[key] = ...`), as the
 * list of its entries in insertion order: the order `Object.entries` reports
 * for keys that are not integer-like.
 */
module Dict {
  import opened Wrappers

  datatype Entry<V> = Entry(key: string, value: V)

  type Dict<V> = seq<Entry<V>>

  function Keys<V>(d: Dict<V>): (ks: seq<string>)
    ensures |ks| == |d| && forall i :: 0 <= i < |d| ==> ks[i] == d[i].key
  {
    if d == [] then [] else Keys(d[..|d| - 1]) + [d[|d| - 1].key]
  }

  predicate Distinct(s: seq<string>) {
    forall i, j :: 0 <= i < j < |s| ==> s[i] != s[j]
  }

  /** Position of the entry for `k`, if any. */
  function Find<V>(d: Dict<V>, k: string): (r: Option<nat>)
    ensures r.Some? ==> r.value < |d| && d[r.value].key == k && forall j :: 0 <= j < r.value ==> d[j].key != k
    ensures r.None? ==> forall j :: 0 <= j < |d| ==> d[j].key != k
  {
    if d == [] then None
    else if d[0].key == k then Some(0)
    else match Find(d[1..], k)
      case Some(i) => Some(i + 1)
      case None => None
  }

  /** `d[k]`: None when it is undefined. */
  function Get<V>(d: Dict<V>, k: string): Option<V> {
    match Find(d, k)
    case Some(i) => Some(d[i].value)
    case None => None
  }

  /** A key is defined exactly when it is one of the keys. */
  lemma GetDefined<V>(d: Dict<V>, k: string)
    ensures Get(d, k).Some? <==> k in Keys(d)
  {
    if k in Keys(d) {
      var i :| 0 <= i < |d| && Keys(d)[i] == k;
      assert d[i].key == k;
    }
  }

  /** `d[k] || fallback`, for values that are never falsy or where a falsy value equals `fallback`. */
  function GetOr<V>(d: Dict<V>, k: string, fallback: V): V {
    Get(d, k).GetOr(fallback)
  }

  /** `d[k] = v`: an existing key keeps its place, a new key goes last. */
  function Put<V>(d: Dict<V>, k: string, v: V): Dict<V> {
    match Find(d, k)
    case Some(i) => d[i := Entry(k, v)]
    case None => d + [Entry(k, v)]
  }

  /**
   * After `d[k] = v` the keys keep their order, with `k` appended when it is
   * new, and stay distinct.
   */
  lemma PutKeys<V>(d: Dict<V>, k: string, v: V)
    ensures Keys(Put(d, k, v)) == if k in Keys(d) then Keys(d) else Keys(d) + [k]
    ensures Distinct(Keys(d)) ==> Distinct(Keys(Put(d, k, v)))
  {
    GetDefined(d, k);
    match Find(d, k)
    case Some(i) =>
      assert Keys(d[i := Entry(k, v)]) == Keys(d);
    case None =>
      assert Keys(d + [Entry(k, v)]) == Keys(d) + [k];
  }

  /** After `d[k] = v`, `k` reads `v` and every other key reads what it read before. */
  lemma PutGet<V>(d: Dict<V>, k: string, v: V)
    ensures Get(Put(d, k, v), k) == Some(v)
    ensures forall k' :: k' != k ==> Get(Put(d, k, v), k') == Get(d, k')
  {
    var r := Put(d, k, v);
    match Find(d, k)
    case Some(i) =>
      assert r == d[i := Entry(k, v)];
      FindUnchanged(d, r, k);
      forall k' | k' != k ensures Get(r, k') == Get(d, k') { FindUnchanged(d, r, k'); }
    case None =>
      assert r == d + [Entry(k, v)];
      FindAppended(d, k, v);
      forall k' | k' != k ensures Get(r, k') == Get(d, k') { FindUnchanged(d, r, k'); }
  }

  /** Lookups of `k` agree on two dictionaries that agree on where `k` is. */
  lemma {:induction false} FindUnchanged<V>(d: Dict<V>, r: Dict<V>, k: string)
    requires |d| <= |r|
    requires forall j :: 0 <= j < |d| ==> (d[j].key == k <==> r[j].key == k)
    requires forall j :: |d| <= j < |r| ==> r[j].key != k
    ensures Find(r, k) == Find(d, k)
    decreases |d|
  {
    if d != [] && d[0].key != k {
      FindUnchanged(d[1..], r[1..], k);
    }
  }

  /** Writing a key twice leaves what writing it once with the second value leaves. */
  lemma PutTwice<V>(d: Dict<V>, k: string, v: V, w: V)
    ensures Put(Put(d, k, v), k, w) == Put(d, k, w)
  {
    match Find(d, k)
    case Some(i) =>
      FindUnchanged(d, d[i := Entry(k, v)], k);
      assert d[i := Entry(k, v)][i := Entry(k, w)] == d[i := Entry(k, w)];
    case None =>
      FindAppended(d, k, v);
      assert (d + [Entry(k, v)])[|d| := Entry(k, w)] == d + [Entry(k, w)];
  }

  /** A key absent from `d` is found at the entry appended for it. */
  lemma {:induction false} FindAppended<V>(d: Dict<V>, k: string, v: V)
    requires Find(d, k).None?
    ensures Find(d + [Entry(k, v)], k) == Some(|d|)
    decreases |d|
  {
    if d != [] {
      assert (d + [Entry(k, v)])[1..] == d[1..] + [Entry(k, v)];
      FindAppended(d[1..], k, v);
    }
  }

  /** The sum of the values of a dictionary of numbers. */
  function SumValues(d: Dict<int>): int {
    if d == [] then 0 else SumValues(d[..|d| - 1]) + d[|d| - 1].value
  }

  lemma {:induction false} SumValuesUpdate(d: Dict<int>, i: nat, e: Entry<int>)
    requires i < |d|
    ensures SumValues(d[i := e]) == SumValues(d) - d[i].value + e.value
    decreases |d|
  {
    var r := d[i := e];
    if i < |d| - 1 {
      assert r[..|r| - 1] == d[..|d| - 1][i := e];
      SumValuesUpdate(d[..|d| - 1], i, e);
    } else {
      assert r[..|r| - 1] == d[..|d| - 1];
    }
  }

  /** `acc[k] = (acc[k] || 0) + a` adds exactly `a` to the sum of the values. */
  lemma SumValuesAdd(d: Dict<int>, k: string, a: int)
    ensures SumValues(Put(d, k, GetOr(d, k, 0) + a)) == SumValues(d) + a
  {
    var v := GetOr(d, k, 0) + a;
    GetOrShape(d, k, 0);
    PutShape(d, k, v);
    if Find(d, k).Some? {
      SumValuesUpdate(d, Find(d, k).value, Entry(k, v));
    } else {
      SumValuesSnoc(d, Entry(k, v));
    }
  }

  /** Where `Put` writes: over the old entry for `k`, or after the last entry. */
  lemma PutShape<V>(d: Dict<V>, k: string, v: V)
    ensures Find(d, k).Some? ==> Put(d, k, v) == d[Find(d, k).value := Entry(k, v)]
    ensures Find(d, k).None? ==> Put(d, k, v) == d + [Entry(k, v)]
  {
  }

  /** What `GetOr` reads: the entry for `k`, or the fallback. */
  lemma GetOrShape<V>(d: Dict<V>, k: string, fallback: V)
    ensures Find(d, k).Some? ==> GetOr(d, k, fallback) == d[Find(d, k).value].value
    ensures Find(d, k).None? ==> GetOr(d, k, fallback) == fallback
  {
  }

  lemma SumValuesSnoc(d: Dict<int>, e: Entry<int>)
    ensures SumValues(d + [e]) == SumValues(d) + e.value
  {
    assert (d + [e])[..|d|] == d;
  }

  /** The first occurrences of the strings of `s`, in order. */
  function Dedup(s: seq<string>): (r: seq<string>)
    ensures Distinct(r)
    ensures forall x :: x in r <==> x in s
  {
    if s == [] then []
    else
      var p := Dedup(s[..|s| - 1]);
      assert forall x :: x in s <==> x in s[..|s| - 1] || x == s[|s| - 1] by {
        assert s == s[..|s| - 1] + [s[|s| - 1]];
      }
      if s[|s| - 1] in p then p else p + [s[|s| - 1]]
  }
}
