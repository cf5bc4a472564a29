/**
 * A Python `dict`: its entries keep the order in which their keys were first
 * inserted, and each key occurs once. Assigning to a key that is already
 * present replaces its value where it stands.
 */
module OrderedDicts {
  import opened Wrappers

  type Table<K, V> = seq<(K, V)>

  ghost predicate UniqueKeys<K, V>(t: Table<K, V>) {
    forall i, j :: 0 <= i < j < |t| ==> t[i].0 != t[j].0
  }

  ghost predicate HasKey<K, V>(t: Table<K, V>, k: K) {
    exists i :: 0 <= i < |t| && t[i].0 == k
  }

  /** `d.get(k)`: the value stored under `k`, if any. */
  function Get<K(==), V>(t: Table<K, V>, k: K): (r: Option<V>)
    ensures r.None? <==> !HasKey(t, k)
  {
    if t == [] then None
    else if t[0].0 == k then Some(t[0].1)
    else
      assert forall i :: 1 <= i < |t| ==> t[i] == t[1..][i - 1];
      Get(t[1..], k)
  }

  /** With each key once, `d.get(k)` is the value of the entry whose key is `k`. */
  lemma {:induction false} GetFindsEntry<K, V>(t: Table<K, V>, k: K, i: int)
    requires UniqueKeys(t)
    requires 0 <= i < |t| && t[i].0 == k
    ensures Get(t, k) == Some(t[i].1)
  {
    if i > 0 {
      assert t[0].0 != k;
      assert t[1..][i - 1] == t[i];
      GetFindsEntry(t[1..], k, i - 1);
    }
  }

  /** `d[k] = v`: an existing key keeps its place, a new key goes last; afterwards `d[k]` is `v`. */
  function Put<K(==), V>(t: Table<K, V>, k: K, v: V): (r: Table<K, V>)
    ensures Get(r, k) == Some(v)
  {
    if t == [] then [(k, v)]
    else if t[0].0 == k then [(k, v)] + t[1..]
    else [t[0]] + Put(t[1..], k, v)
  }

  /** Assigning to a present key leaves every key in its place; a new key is appended. */
  lemma {:induction false} PutKeepsPlaces<K, V>(t: Table<K, V>, k: K, v: V)
    ensures HasKey(t, k) ==> |Put(t, k, v)| == |t| && forall i :: 0 <= i < |t| ==> Put(t, k, v)[i].0 == t[i].0
    ensures !HasKey(t, k) ==> Put(t, k, v) == t + [(k, v)]
  {
    if t != [] && t[0].0 != k {
      PutKeepsPlaces(t[1..], k, v);
      var r := Put(t, k, v);
      assert r[1..] == Put(t[1..], k, v);
      assert HasKey(t, k) ==> HasKey(t[1..], k) by {
        if HasKey(t, k) {
          var i :| 0 <= i < |t| && t[i].0 == k;
          assert t[1..][i - 1] == t[i];
        }
      }
      if HasKey(t, k) {
        forall i | 0 < i < |t| ensures r[i].0 == t[i].0 {
          assert r[i] == r[1..][i - 1] && t[i] == t[1..][i - 1];
        }
      }
    }
  }

  /** After `d[k] = v`, every other key reads as before. */
  lemma {:induction false} PutThenGetOther<K, V>(t: Table<K, V>, k: K, v: V, k': K)
    requires k' != k
    ensures Get(Put(t, k, v), k') == Get(t, k')
  {
    if t != [] && t[0].0 != k {
      PutThenGetOther(t[1..], k, v, k');
      assert Put(t, k, v)[1..] == Put(t[1..], k, v);
    }
  }

  /** `d[k] = v` keeps each key once. */
  lemma PutKeepsKeysUnique<K, V>(t: Table<K, V>, k: K, v: V)
    requires UniqueKeys(t)
    ensures UniqueKeys(Put(t, k, v))
  {
    PutKeepsPlaces(t, k, v);
    var r := Put(t, k, v);
    if !HasKey(t, k) {
      forall i, j | 0 <= i < j < |r| ensures r[i].0 != r[j].0 {
        if j == |t| {
          assert r[i] == t[i];
        }
      }
    }
  }
}
