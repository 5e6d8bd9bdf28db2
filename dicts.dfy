/**
 * Python dictionaries as association lists in insertion order: `d[k] = v` replaces the value of an
 * existing key in place and appends a new key at the end, which is also what `{**a, **b}` does.
 */
module Dicts {
  import opened Wrappers

  type Dict<K, V> = seq<(K, V)>

  function Keys<K, V>(d: Dict<K, V>): set<K> {
    if |d| == 0 then {} else {d[0].0} + Keys(d[1..])
  }

  /** Every key occurs once, as in a Python `dict`. */
  ghost predicate DistinctKeys<K, V>(d: Dict<K, V>) {
    forall i, j :: 0 <= i < j < |d| ==> d[i].0 != d[j].0
  }

  /** Python `d.get(k)`: `None` when the key is absent. A key listed twice is read from its first
      entry. */
  function Get<K(==), V>(d: Dict<K, V>, k: K): (r: Option<V>)
    ensures r.Some? <==> k in Keys(d)
  {
    if |d| == 0 then None else if d[0].0 == k then Some(d[0].1) else Get(d[1..], k)
  }

  /** Python `d.get(k, default)`. */
  function GetOr<K(==), V>(d: Dict<K, V>, k: K, default: V): V {
    Get(d, k).GetOr(default)
  }

  /** Python `d[k] = v`. */
  function Put<K(==,!new), V>(d: Dict<K, V>, k: K, v: V): (r: Dict<K, V>)
    ensures Get(r, k) == Some(v)
    ensures forall j :: j != k ==> Get(r, j) == Get(d, j)
    ensures Keys(r) == Keys(d) + {k}
    ensures DistinctKeys(d) ==> DistinctKeys(r)
    ensures k !in Keys(d) ==> r == d + [(k, v)]
  {
    if |d| == 0 then [(k, v)]
    else if d[0].0 == k then [(k, v)] + d[1..]
    else
      var rest := Put(d[1..], k, v);
      assert DistinctKeys(d) ==> DistinctKeys(d[1..]) && d[0].0 !in Keys(d[1..]) by {
        if DistinctKeys(d) { KeysIndex(d[1..], d[0].0); }
      }
      assert DistinctKeys(d) ==> DistinctKeys([d[0]] + rest) by {
        if DistinctKeys(d) {
          forall j | 0 <= j < |rest| ensures rest[j].0 != d[0].0 {
            KeysIndex(rest, rest[j].0);
          }
        }
      }
      [d[0]] + rest
  }

  /** Assigning a key that is already there keeps every key in its place. */
  lemma {:induction false} PutInPlace<K(!new), V>(d: Dict<K, V>, k: K, v: V)
    requires k in Keys(d)
    ensures |Put(d, k, v)| == |d| && forall i :: 0 <= i < |d| ==> Put(d, k, v)[i].0 == d[i].0
  {
    if d[0].0 != k {
      PutInPlace(d[1..], k, v);
      var r := Put(d, k, v);
      forall i | 0 < i < |d| ensures r[i].0 == d[i].0 {
        assert r[i] == Put(d[1..], k, v)[i - 1];
        assert d[i] == d[1..][i - 1];
      }
    }
  }

  /** In a dict whose keys are distinct, the entry at `i` is what `Get` finds for its key. */
  lemma {:induction false} DistinctGet<K, V>(d: Dict<K, V>, i: nat)
    requires DistinctKeys(d) && i < |d|
    ensures Get(d, d[i].0) == Some(d[i].1)
  {
    if i > 0 {
      assert DistinctKeys(d[1..]);
      assert d[1..][i - 1] == d[i];
      DistinctGet(d[1..], i - 1);
    }
  }

  /** A key is in `Keys(d)` exactly when some entry carries it. */
  lemma {:induction false} KeysIndex<K, V>(d: Dict<K, V>, k: K)
    ensures k in Keys(d) <==> exists i :: 0 <= i < |d| && d[i].0 == k
  {
    if |d| > 0 {
      KeysIndex(d[1..], k);
      if k in Keys(d[1..]) {
        var i :| 0 <= i < |d| - 1 && d[1..][i].0 == k;
        assert d[i + 1].0 == k;
      }
      if exists i :: 0 <= i < |d| && d[i].0 == k {
        var i :| 0 <= i < |d| && d[i].0 == k;
        if i > 0 { assert d[1..][i - 1].0 == k; }
      }
    }
  }

  /** Python `{**base, **extra}` (equivalently `base.update(extra)` on a copy). */
  function Merge<K(==,!new), V>(base: Dict<K, V>, extra: Dict<K, V>): (r: Dict<K, V>)
    ensures Keys(r) == Keys(base) + Keys(extra)
    ensures DistinctKeys(base) ==> DistinctKeys(r)
    decreases extra
  {
    if |extra| == 0 then base
    else
      var first := Put(base, extra[0].0, extra[0].1);
      Merge(first, extra[1..])
  }

  /** In a merge, entries of `extra` win over entries of `base` with the same key. */
  lemma {:induction false} MergeGet<K(!new), V>(base: Dict<K, V>, extra: Dict<K, V>, k: K)
    requires DistinctKeys(extra)
    ensures Get(Merge(base, extra), k) == if k in Keys(extra) then Get(extra, k) else Get(base, k)
    decreases extra
  {
    if |extra| > 0 {
      var first := Put(base, extra[0].0, extra[0].1);
      assert DistinctKeys(extra[1..]);
      MergeGet(first, extra[1..], k);
      if k == extra[0].0 {
        KeysIndex(extra[1..], k);
      }
    }
  }

  /** Python `del d[k]` (the key is removed; everything else keeps its place). */
  function Remove<K(==,!new), V>(d: Dict<K, V>, k: K): (r: Dict<K, V>)
    ensures Keys(r) == Keys(d) - {k}
    ensures Get(r, k).None?
    ensures forall j :: j != k ==> Get(r, j) == Get(d, j)
    ensures |r| <= |d|
    ensures DistinctKeys(d) ==> DistinctKeys(r)
    ensures k !in Keys(d) ==> r == d
  {
    if |d| == 0 then []
    else
      var rest := Remove(d[1..], k);
      if d[0].0 == k then rest
      else
        assert DistinctKeys(d) ==> DistinctKeys(d[1..]) && d[0].0 !in Keys(d[1..]) by {
          if DistinctKeys(d) { KeysIndex(d[1..], d[0].0); }
        }
        assert DistinctKeys(d) && DistinctKeys(rest) ==> DistinctKeys([d[0]] + rest) by {
          if DistinctKeys(d) && DistinctKeys(rest) {
            forall j | 0 <= j < |rest| ensures rest[j].0 != d[0].0 {
              KeysIndex(rest, rest[j].0);
            }
          }
        }
        [d[0]] + rest
  }

  /** Two dicts with the same keys in the same order. */
  ghost predicate SameKeys<K, V, W>(a: Dict<K, V>, b: Dict<K, W>) {
    |a| == |b| && forall i :: 0 <= i < |a| ==> a[i].0 == b[i].0
  }

  /** Assigning the same key in two dicts with the same keys keeps their keys the same. */
  lemma PutSameKeys<K(!new), V, W>(a: Dict<K, V>, b: Dict<K, W>, k: K, v: V, w: W)
    requires SameKeys(a, b)
    ensures SameKeys(Put(a, k, v), Put(b, k, w))
  {
    KeysIndex(a, k);
    KeysIndex(b, k);
    if k in Keys(a) {
      PutInPlace(a, k, v);
      PutInPlace(b, k, w);
    }
  }

  /** Deleting the same key from two dicts with the same keys keeps their keys the same. */
  lemma {:induction false} RemoveSameKeys<K(!new), V, W>(a: Dict<K, V>, b: Dict<K, W>, k: K)
    requires SameKeys(a, b)
    ensures SameKeys(Remove(a, k), Remove(b, k))
  {
    if |a| > 0 {
      RemoveSameKeys(a[1..], b[1..], k);
    }
  }

  /** The keys of a dict, in insertion order. */
  function KeyList<K(==,!new), V>(d: Dict<K, V>): (r: seq<K>)
    ensures |r| == |d|
    ensures forall k :: k in r <==> k in Keys(d)
    ensures forall i :: 0 <= i < |d| ==> r[i] == d[i].0
  {
    var r := seq(|d|, i requires 0 <= i < |d| => d[i].0);
    assert forall k :: k in r <==> k in Keys(d) by {
      forall k ensures k in r <==> k in Keys(d) {
        KeysIndex(d, k);
        if k in Keys(d) {
          var i :| 0 <= i < |d| && d[i].0 == k;
          assert r[i] == k;
        }
        if k in r {
          var i :| 0 <= i < |r| && r[i] == k;
          assert d[i].0 == k;
        }
      }
    }
    r
  }
}
