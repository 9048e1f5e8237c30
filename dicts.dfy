/**
 * Python dictionaries whose iteration order matters: the entries in insertion order, where
 * assigning to a key already present replaces its value in place and a new key goes last.
 */
module Dicts {
  import opened Wrappers

  type Dict<K, V> = seq<(K, V)>

  function Keys<K, V>(d: Dict<K, V>): (ks: seq<K>)
    ensures |ks| == |d| && forall i :: 0 <= i < |d| ==> ks[i] == d[i].0
  {
    seq(|d|, i requires 0 <= i < |d| => d[i].0)
  }

  /** No key is listed twice, as in every dictionary built with Put. */
  predicate UniqueKeys<K(==), V>(d: Dict<K, V>) {
    forall i, j :: 0 <= i < j < |d| ==> d[i].0 != d[j].0
  }

  /** The first place `k` occurs in `ks`. */
  function Find<K(==)>(ks: seq<K>, k: K): (r: Option<nat>)
    ensures r.Some? ==> r.value < |ks| && ks[r.value] == k
    ensures r.None? ==> k !in ks
  {
    if ks == [] then None
    else if ks[0] == k then Some(0)
    else
      var rest := Find(ks[1..], k);
      if rest.None? then None else Some(rest.value + 1)
  }

  /** What `Find` finds is the first occurrence. */
  lemma {:induction false} FindFirst<K>(ks: seq<K>, k: K, j: int)
    requires Find(ks, k).Some? && 0 <= j < Find(ks, k).value
    ensures ks[j] != k
  {
    if j > 0 {
      FindFirst(ks[1..], k, j - 1);
    }
  }

  /** `d[k]` when present. */
  function Get<K(==), V>(d: Dict<K, V>, k: K): (r: Option<V>)
    ensures r.Some? <==> k in Keys(d)
    ensures r.Some? ==> (k, r.value) in d
  {
    var i := Find(Keys(d), k);
    if i.Some? then Some(d[i.value].1) else None
  }

  /** `d[k] = v`. */
  function Put<K(==), V>(d: Dict<K, V>, k: K, v: V): (r: Dict<K, V>)
    ensures Keys(r) == if k in Keys(d) then Keys(d) else Keys(d) + [k]
    ensures (k, v) in r && forall e :: e in r ==> e == (k, v) || e in d
  {
    var i := Find(Keys(d), k);
    if i.Some? then d[i.value := (k, v)] else d + [(k, v)]
  }

  /** After `d[k] = v`, `k` reads `v` and every other key reads what it read before. */
  lemma PutGet<K, V>(d: Dict<K, V>, k: K, v: V, j: K)
    ensures Get(Put(d, k, v), j) == if j == k then Some(v) else Get(d, j)
  {
    var r := Put(d, k, v);
    var at := Find(Keys(d), j);
    if at.Some? && j != k {
      assert Keys(r)[..|d|] == Keys(d);
      assert Find(Keys(r), j) == at by {
        FindPrefix(Keys(d), Keys(r), j);
      }
    } else if at.None? && j != k {
      assert j !in Keys(r);
    } else if j == k && at.None? {
      assert Keys(r)[..|d|] == Keys(d);
      FindPrefix(Keys(d), Keys(r), j);
    }
  }

  /** Finding a key depends only on the prefix up to its first occurrence. */
  lemma {:induction false} FindPrefix<K>(ks: seq<K>, longer: seq<K>, k: K)
    requires |ks| <= |longer| && longer[..|ks|] == ks
    ensures Find(ks, k).Some? ==> Find(longer, k) == Find(ks, k)
    ensures Find(ks, k).None? && |ks| < |longer| && longer[|ks|] == k ==> Find(longer, k) == Some(|ks|)
  {
    if ks != [] {
      assert longer[0] == ks[0];
      if ks[0] != k {
        assert longer[1..][..|ks| - 1] == ks[1..];
        FindPrefix(ks[1..], longer[1..], k);
      }
    }
  }

  /** Assignment never lists a key twice. */
  lemma PutUnique<K, V>(d: Dict<K, V>, k: K, v: V)
    requires UniqueKeys(d)
    ensures UniqueKeys(Put(d, k, v))
  {
    var r := Put(d, k, v);
    forall i, j | 0 <= i < j < |r|
      ensures r[i].0 != r[j].0
    {
      assert Keys(r)[i] == r[i].0 && Keys(r)[j] == r[j].0;
    }
  }
}
