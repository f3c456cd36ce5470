/**
 * Python's insertion-ordered `dict` (and `OrderedDict`) as an association list.
 * A dict built only through `Put` never holds a key twice (`UniqueKeys`);
 * `Put` overwrites an existing key in place and appends a new one at the end,
 * which is the order `items()` reports.
 */
module Dicts {
  import opened Wrappers

  type Dict<K, V> = seq<(K, V)>

  function Keys<K, V>(d: Dict<K, V>): (ks: seq<K>)
    ensures |ks| == |d|
    ensures forall i :: 0 <= i < |d| ==> ks[i] == d[i].0
  {
    seq(|d|, i requires 0 <= i < |d| => d[i].0)
  }

  predicate UniqueKeys<K(==), V>(d: Dict<K, V>) {
    forall i, j :: 0 <= i < j < |d| ==> d[i].0 != d[j].0
  }

  /** The position of `k` in `d`, if any (the first one). */
  function IndexOf<K(==), V>(d: Dict<K, V>, k: K): (r: Option<nat>)
    ensures r.Some? ==> r.value < |d| && d[r.value].0 == k
    ensures r.Some? ==> forall j :: 0 <= j < r.value ==> d[j].0 != k
    ensures r.None? ==> forall j :: 0 <= j < |d| ==> d[j].0 != k
    decreases |d|
  {
    if |d| == 0 then None
    else if d[0].0 == k then Some(0)
    else match IndexOf(d[1..], k)
      case None => None
      case Some(i) => Some(i + 1)
  }

  /** `d.get(k)`: the value stored under `k`, or None. */
  function Get<K(==), V>(d: Dict<K, V>, k: K): Option<V> {
    match IndexOf(d, k)
    case None => None
    case Some(i) => Some(d[i].1)
  }

  /** `d[k] = v`: overwrite in place, or append a new entry. */
  function Put<K(==), V>(d: Dict<K, V>, k: K, v: V): Dict<K, V> {
    match IndexOf(d, k)
    case None => d + [(k, v)]
    case Some(i) => d[i := (k, v)]
  }

  /** `OrderedDict(pairs)` / `dict(pairs)`: later pairs overwrite earlier ones in place. */
  function FromPairs<K(==), V>(ps: seq<(K, V)>): Dict<K, V>
    decreases |ps|
  {
    if |ps| == 0 then [] else Put(FromPairs(ps[..|ps| - 1]), ps[|ps| - 1].0, ps[|ps| - 1].1)
  }

  /** A key is found exactly when it is one of the keys. */
  lemma IndexOfKeys<K, V>(d: Dict<K, V>, k: K)
    ensures IndexOf(d, k).None? <==> k !in Keys(d)
  {
    if IndexOf(d, k).Some? {
      assert Keys(d)[IndexOf(d, k).value] == k;
    }
  }

  lemma GetSome<K, V>(d: Dict<K, V>, k: K)
    ensures Get(d, k).Some? <==> k in Keys(d)
  {
    IndexOfKeys(d, k);
  }

  lemma GetAt<K, V>(d: Dict<K, V>, i: nat)
    requires UniqueKeys(d) && i < |d|
    ensures Get(d, d[i].0) == Some(d[i].1)
  {
    var r := IndexOf(d, d[i].0);
    assert d[i].0 in Keys(d);
    assert r.value == i;
  }

  /** The first position holding `k` is the one IndexOf reports. */
  lemma IndexOfFirst<K, V>(d: Dict<K, V>, k: K, j: nat)
    requires j < |d| && d[j].0 == k
    requires forall i :: 0 <= i < j ==> d[i].0 != k
    ensures IndexOf(d, k) == Some(j)
  {
    assert Keys(d)[j] == k;
    var r := IndexOf(d, k);
    assert r.Some?;
    assert !(r.value < j) && !(j < r.value);
  }

  /** A dict without repeated keys is its last entry put after the others. */
  lemma UniqueSnoc<K, V>(d: Dict<K, V>)
    requires UniqueKeys(d) && |d| > 0
    ensures UniqueKeys(d[..|d| - 1])
    ensures Get(d[..|d| - 1], d[|d| - 1].0).None?
    ensures d == Put(d[..|d| - 1], d[|d| - 1].0, d[|d| - 1].1)
  {
    var init := d[..|d| - 1];
    var last := d[|d| - 1];
    assert last.0 !in Keys(init) by {
      forall j | 0 <= j < |init| ensures Keys(init)[j] != last.0 {
        assert init[j] == d[j];
      }
    }
    IndexOfKeys(init, last.0);
    assert d == init + [last];
  }

  lemma KeysSnoc<K, V>(d: Dict<K, V>)
    requires |d| > 0
    ensures Keys(d) == Keys(d[..|d| - 1]) + [d[|d| - 1].0]
  {
  }

  lemma PutKeepsKeys<K, V>(d: Dict<K, V>, k: K, v: V)
    ensures |d| <= |Put(d, k, v)|
    ensures forall i :: 0 <= i < |d| ==> Put(d, k, v)[i].0 == d[i].0
  {
  }

  /** Two dicts with the same keys in the same order find every key at the same place. */
  lemma SameKeysIndexOf<K, V, W>(a: Dict<K, V>, b: Dict<K, W>, k: K)
    requires |a| == |b| && forall i :: 0 <= i < |a| ==> a[i].0 == b[i].0
    ensures IndexOf(a, k) == IndexOf(b, k)
  {
    match IndexOf(a, k) {
      case None =>
        IndexOfKeys(b, k);
        IndexOfKeys(a, k);
      case Some(i) =>
        IndexOfFirst(b, k, i);
    }
  }

  /** Reading after writing: only the written key changes. */
  lemma GetPut<K, V>(d: Dict<K, V>, k: K, v: V, k': K)
    ensures Get(Put(d, k, v), k') == if k' == k then Some(v) else Get(d, k')
  {
    var p := Put(d, k, v);
    match IndexOf(d, k)
    case None =>
      assert p == d + [(k, v)];
      if k' == k {
        IndexOfFirst(p, k', |d|);
      } else {
        match IndexOf(d, k')
        case None =>
          assert k' !in Keys(p);
        case Some(j) =>
          IndexOfFirst(p, k', j);
      }
    case Some(i) =>
      if k' == k {
        IndexOfFirst(p, k', i);
      } else {
        match IndexOf(d, k')
        case None =>
          assert k' !in Keys(p);
        case Some(j) =>
          IndexOfFirst(p, k', j);
      }
  }

  lemma KeysPut<K, V>(d: Dict<K, V>, k: K, v: V)
    ensures k in Keys(d) ==> Keys(Put(d, k, v)) == Keys(d)
    ensures k !in Keys(d) ==> Keys(Put(d, k, v)) == Keys(d) + [k]
  {
  }

  lemma UniquePut<K, V>(d: Dict<K, V>, k: K, v: V)
    requires UniqueKeys(d)
    ensures UniqueKeys(Put(d, k, v))
  {
    KeysPut(d, k, v);
    var p := Put(d, k, v);
    forall i, j | 0 <= i < j < |p| ensures p[i].0 != p[j].0 {
      assert Keys(p)[i] == p[i].0 && Keys(p)[j] == p[j].0;
      if k !in Keys(d) && j == |d| {
        assert Keys(d)[i] == d[i].0;
      }
    }
  }

  /** Re-reading the pairs of a dict gives the same dict back. */
  lemma {:induction false} FromPairsOfDict<K, V>(d: Dict<K, V>)
    requires UniqueKeys(d)
    ensures FromPairs(d) == d
    decreases |d|
  {
    if |d| > 0 {
      UniqueSnoc(d);
      FromPairsOfDict(d[..|d| - 1]);
    }
  }
}
