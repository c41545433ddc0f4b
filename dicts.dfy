/**
 * Python's insertion-ordered dict, as a sequence of (key, value) entries with
 * distinct keys: assigning an existing key replaces its value in place, a new
 * key is appended at the end.
 */
module Dicts {
  import opened Wrappers

  type Dict<K, V> = seq<(K, V)>

  predicate HasKey<K(==), V>(d: Dict<K, V>, k: K) {
    exists i :: 0 <= i < |d| && d[i].0 == k
  }

  predicate DistinctKeys<K(==), V>(d: Dict<K, V>) {
    forall i, j :: 0 <= i < j < |d| ==> d[i].0 != d[j].0
  }

  function Keys<K(==), V>(d: Dict<K, V>): (r: seq<K>)
    ensures |r| == |d| && forall i :: 0 <= i < |d| ==> r[i] == d[i].0
  {
    if d == [] then [] else [d[0].0] + Keys(d[1..])
  }

  function Values<K(==), V>(d: Dict<K, V>): (r: seq<V>)
    ensures |r| == |d| && forall i :: 0 <= i < |d| ==> r[i] == d[i].1
  {
    if d == [] then [] else [d[0].1] + Values(d[1..])
  }

  /** `d.get(k)`: the value of the first entry with key `k`. */
  function Get<K(==), V>(d: Dict<K, V>, k: K): (r: Option<V>)
    ensures r.Some? <==> HasKey(d, k)
    ensures r.Some? ==> exists i :: 0 <= i < |d| && d[i] == (k, r.value)
  {
    if d == [] then None
    else if d[0].0 == k then Some(d[0].1)
    else
      var r := Get(d[1..], k);
      assert r.Some? ==> exists i :: 0 <= i < |d[1..]| && d[1..][i] == (k, r.value);
      assert HasKey(d[1..], k) ==> HasKey(d, k);
      assert HasKey(d, k) ==> HasKey(d[1..], k) by {
        if HasKey(d, k) {
          var i :| 0 <= i < |d| && d[i].0 == k;
          assert d[1..][i - 1].0 == k;
        }
      }
      r
  }

  /** Index of key `k` in a dict that has it. */
  function IndexOf<K(==), V>(d: Dict<K, V>, k: K): (i: nat)
    requires HasKey(d, k)
    ensures i < |d| && d[i].0 == k
    ensures forall j :: 0 <= j < i ==> d[j].0 != k
  {
    if d[0].0 == k then 0
    else
      assert HasKey(d[1..], k) by {
        var i :| 0 <= i < |d| && d[i].0 == k;
        assert d[1..][i - 1].0 == k;
      }
      1 + IndexOf(d[1..], k)
  }

  /** `d[k] = v`. */
  function Put<K(==), V>(d: Dict<K, V>, k: K, v: V): (r: Dict<K, V>)
    ensures HasKey(d, k) ==> r == d[IndexOf(d, k) := (k, v)]
    ensures !HasKey(d, k) ==> r == d + [(k, v)]
  {
    if HasKey(d, k) then d[IndexOf(d, k) := (k, v)] else d + [(k, v)]
  }

  /** Assignment keeps keys distinct, and reads back the assigned value and nothing else changed. */
  lemma PutFacts<K, V>(d: Dict<K, V>, k: K, v: V)
    requires DistinctKeys(d)
    ensures DistinctKeys(Put(d, k, v))
    ensures Get(Put(d, k, v), k) == Some(v)
    ensures forall k' :: k' != k ==> Get(Put(d, k, v), k') == Get(d, k')
    ensures forall k' :: HasKey(Put(d, k, v), k') <==> HasKey(d, k') || k' == k
  {
    var r := Put(d, k, v);
    if HasKey(d, k) {
      var idx := IndexOf(d, k);
      assert forall i :: 0 <= i < |r| ==> r[i].0 == d[i].0;
      assert r[idx] == (k, v);
    } else {
      assert r[|d|] == (k, v);
    }
    assert DistinctKeys(r);
    forall k' ensures HasKey(r, k') <==> HasKey(d, k') || k' == k {
      if HasKey(d, k') {
        var i :| 0 <= i < |d| && d[i].0 == k';
        assert r[i].0 == k';
      }
      if HasKey(r, k') && k' != k {
        var i :| 0 <= i < |r| && r[i].0 == k';
        assert d[i].0 == k';
      }
    }
    forall k' | k' != k ensures Get(r, k') == Get(d, k') {
      GetUnique(d, k');
      GetUnique(r, k');
      if HasKey(d, k') {
        var i :| 0 <= i < |d| && d[i].0 == k';
        assert r[i] == d[i];
      }
    }
    GetUnique(r, k);
    if HasKey(d, k) {
      assert r[IndexOf(d, k)] == (k, v);
    } else {
      assert r[|d|] == (k, v);
    }
  }

  /** Assigning a key twice leaves the second value in the first one's place. */
  lemma PutPut<K, V>(d: Dict<K, V>, k: K, v: V, w: V)
    ensures Put(Put(d, k, v), k, w) == Put(d, k, w)
  {
    var once := Put(d, k, v);
    if HasKey(d, k) {
      assert once[IndexOf(d, k)].0 == k;
      assert IndexOf(once, k) == IndexOf(d, k);
    } else {
      assert once[|d|].0 == k;
      assert IndexOf(once, k) == |d| by {
        forall j | 0 <= j < |d| ensures once[j].0 != k {
          assert once[j] == d[j];
        }
      }
    }
  }

  /** In a dict with distinct keys, `Get` returns the value of the only entry with that key. */
  lemma GetUnique<K, V>(d: Dict<K, V>, k: K)
    requires DistinctKeys(d)
    ensures forall i :: 0 <= i < |d| && d[i].0 == k ==> Get(d, k) == Some(d[i].1)
  {
    forall i | 0 <= i < |d| && d[i].0 == k ensures Get(d, k) == Some(d[i].1) {
      var r := Get(d, k);
      var j :| 0 <= j < |d| && d[j] == (k, r.value);
      assert i == j;
    }
  }

  /** `{key(x): x for x in items}`: later entries with the same key win. */
  function FromItems<K(==), V>(items: seq<(K, V)>): (r: Dict<K, V>)
    ensures DistinctKeys(r)
  {
    if items == [] then []
    else
      var prev := FromItems(items[..|items| - 1]);
      PutFacts(prev, items[|items| - 1].0, items[|items| - 1].1);
      Put(prev, items[|items| - 1].0, items[|items| - 1].1)
  }

  /** Index of the last item whose key is `k`, if any. */
  function LastWith<K(==), V>(items: seq<(K, V)>, k: K): (r: Option<nat>)
    ensures r.Some? ==> r.value < |items| && items[r.value].0 == k
    ensures r.Some? ==> forall j :: r.value < j < |items| ==> items[j].0 != k
    ensures r.None? ==> forall j :: 0 <= j < |items| ==> items[j].0 != k
  {
    if items == [] then None
    else if items[|items| - 1].0 == k then Some(|items| - 1)
    else LastWith(items[..|items| - 1], k)
  }

  /** Building a dict from items maps each key to the value of its last item. */
  lemma {:induction false} FromItemsLastWins<K, V>(items: seq<(K, V)>, k: K)
    ensures Get(FromItems(items), k) ==
      match LastWith(items, k) case Some(i) => Some(items[i].1) case None => None
  {
    if items != [] {
      var prev := items[..|items| - 1];
      FromItemsLastWins(prev, k);
      PutFacts(FromItems(prev), items[|items| - 1].0, items[|items| - 1].1);
    }
  }

  /** A dict built from items has exactly the items' keys. */
  lemma FromItemsKeys<K, V>(items: seq<(K, V)>, k: K)
    ensures HasKey(FromItems(items), k) <==> exists i :: 0 <= i < |items| && items[i].0 == k
  {
    FromItemsLastWins(items, k);
  }

  /** The key of every item is a key of the dict built from them. */
  lemma FromItemsHasItemKey<K, V>(items: seq<(K, V)>, e: (K, V))
    requires e in items
    ensures HasKey(FromItems(items), e.0)
  {
    FromItemsKeys(items, e.0);
    var i :| 0 <= i < |items| && items[i] == e;
    assert items[i].0 == e.0;
  }

  /** Every entry of a dict built from items comes from one of the items. */
  lemma {:induction false} FromItemsEntries<K, V>(items: seq<(K, V)>)
    ensures forall e :: e in FromItems(items) ==> e in items
  {
    if items != [] {
      var prev := items[..|items| - 1];
      FromItemsEntries(prev);
      var last := items[|items| - 1];
      var d := FromItems(prev);
      forall e | e in FromItems(items) ensures e in items {
        if e != last {
          var i :| 0 <= i < |FromItems(items)| && FromItems(items)[i] == e;
          if HasKey(d, last.0) {
            assert d[i] == e;
          } else {
            assert i < |d| && d[i] == e;
          }
          assert e in prev;
        }
      }
    }
  }
}
