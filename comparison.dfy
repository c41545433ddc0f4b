/**
 * What the two comparison scripts (scripts/compare_assets.py and
 * scripts/compare_tvls.py) share: the relative-tolerance test, and the
 * walk over the entries of one address-keyed dict that are also in a
 * second one, sorting each into the "same", "close" or "different" list.
 */
module Comparison {
  import opened Wrappers
  import Dicts

  /** The default `percent_tolerance` of both scripts. */
  const DefaultTolerance: real := 0.1

  function Abs(x: real): real {
    if x < 0.0 then -x else x
  }

  function Larger(x: real, y: real): real {
    if x >= y then x else y
  }

  /**
   * `are_prices_close` / `are_tvls_close`: never close when either value is
   * 0; otherwise the difference relative to the larger value is at most the
   * tolerance.
   */
  function AreClose(v1: real, v2: real, tolerance: real): (r: bool)
    ensures v1 == 0.0 || v2 == 0.0 ==> !r
    ensures v1 > 0.0 && v2 > 0.0 ==> (r <==> Abs(v1 - v2) <= tolerance * Larger(v1, v2))
  {
    if v1 == 0.0 || v2 == 0.0 then false
    else
      var m := Larger(v1, v2);
      if m > 0.0 then QuotientAtMost(Abs(v1 - v2), m, tolerance); Abs(v1 - v2) / m <= tolerance
      else Abs(v1 - v2) / m <= tolerance
  }

  /** Clearing a positive denominator from `d / m <= t`. */
  lemma QuotientAtMost(d: real, m: real, t: real)
    requires m > 0.0
    ensures d / m <= t <==> d <= t * m
  {
    assert d == (d / m) * m;
    if d / m <= t {
      assert (d / m) * m <= t * m;
    } else {
      assert (d / m) * m > t * m;
    }
  }

  /** The order of the two values does not matter. */
  lemma AreCloseSymmetric(v1: real, v2: real, tolerance: real)
    ensures AreClose(v1, v2, tolerance) == AreClose(v2, v1, tolerance)
  {
    assert Abs(v1 - v2) == Abs(v2 - v1);
    assert Larger(v1, v2) == Larger(v2, v1);
  }

  /** A nonzero value is close to itself under any tolerance that is not negative. */
  lemma EqualNonzeroClose(v: real, tolerance: real)
    requires v != 0.0 && tolerance >= 0.0
    ensures AreClose(v, v, tolerance)
  {
    assert Abs(v - v) / Larger(v, v) == 0.0;
  }

  /** `transform_data`: `{x["address"]: x for x in data}`, later entries winning. */
  function ByAddress<V>(data: seq<V>, address: V -> string): (r: Dicts.Dict<string, V>)
    ensures Dicts.DistinctKeys(r)
  {
    Dicts.FromItems(Keyed(data, address))
  }

  function Keyed<V>(data: seq<V>, address: V -> string): (r: seq<(string, V)>)
    ensures |r| == |data| && forall i :: 0 <= i < |data| ==> r[i] == (address(data[i]), data[i])
  {
    seq(|data|, i requires 0 <= i < |data| => (address(data[i]), data[i]))
  }

  /** An address maps to the last entry of the data with that address, and is missing when none has it. */
  lemma ByAddressLastWins<V>(data: seq<V>, address: V -> string, a: string)
    ensures Dicts.Get(ByAddress(data, address), a) ==
      match Dicts.LastWith(Keyed(data, address), a) case Some(i) => Some(data[i]) case None => None
  {
    Dicts.FromItemsLastWins(Keyed(data, address), a);
  }

  /** Every entry is an entry of the data, filed under its own address. */
  lemma ByAddressEntries<V>(data: seq<V>, address: V -> string)
    ensures forall e :: e in ByAddress(data, address) ==> e.1 in data && address(e.1) == e.0
  {
    var items := Keyed(data, address);
    Dicts.FromItemsEntries(items);
    forall e | e in ByAddress(data, address) ensures e.1 in data && address(e.1) == e.0 {
      var i :| 0 <= i < |items| && items[i] == e;
    }
  }

  /** The bucket of one comparison. */
  datatype Kind = Same | Close | Different

  /** `if v1 != v2: if close: close else different; else: same`. */
  function Classify(v1: real, v2: real, tolerance: real): (r: Kind)
    ensures r == Same <==> v1 == v2
    ensures r == Close <==> v1 != v2 && AreClose(v1, v2, tolerance)
  {
    if v1 != v2 then (if AreClose(v1, v2, tolerance) then Close else Different)
    else Same
  }

  /** Values that both are nonzero, differ, and are within the tolerance of each other land in Close. */
  lemma ClassifyClose(v1: real, v2: real, tolerance: real)
    requires v1 > 0.0 && v2 > 0.0 && v1 != v2
    ensures Classify(v1, v2, tolerance) == Close <==> Abs(v1 - v2) <= tolerance * Larger(v1, v2)
  {
  }

  /**
   * `for address, x1 in d1.items(): x2 = d2.get(address); if x2: ...`: for
   * each entry of `d1` whose address `d2` also has, in `d1`'s order, what
   * `f` computes from the address and the two entries; None once `f` raises.
   * An entry of these dicts always holds its own address, so it is truthy.
   */
  function Matched<V, X>(d1: Dicts.Dict<string, V>, d2: Dicts.Dict<string, V>, f: (string, V, V) -> Option<X>): Option<seq<(string, X)>> {
    if d1 == [] then Some([])
    else
      match Matched(d1[..|d1| - 1], d2, f)
      case None => None
      case Some(ms) =>
        var (address, x1) := d1[|d1| - 1];
        match Dicts.Get(d2, address)
        case None => Some(ms)
        case Some(x2) =>
          match f(address, x1, x2)
          case None => None
          case Some(x) => Some(ms + [(address, x)])
  }

  /** One more entry of `d1`. */
  lemma MatchedStep<V, X>(d1: Dicts.Dict<string, V>, d2: Dicts.Dict<string, V>, f: (string, V, V) -> Option<X>, i: nat)
    requires i < |d1|
    ensures Matched(d1[..i + 1], d2, f) ==
      match Matched(d1[..i], d2, f)
      case None => None
      case Some(ms) =>
        match Dicts.Get(d2, d1[i].0)
        case None => Some(ms)
        case Some(x2) =>
          match f(d1[i].0, d1[i].1, x2)
          case None => None
          case Some(x) => Some(ms + [(d1[i].0, x)])
  {
    assert d1[..i + 1][..i] == d1[..i];
  }

  /** Once a prefix raises, the whole walk raises. */
  lemma {:induction false} MatchedFails<V, X>(d1: Dicts.Dict<string, V>, d2: Dicts.Dict<string, V>, f: (string, V, V) -> Option<X>, n: nat)
    requires n <= |d1| && Matched(d1[..n], d2, f).None?
    ensures Matched(d1, d2, f).None?
    decreases |d1| - n
  {
    if n < |d1| {
      MatchedStep(d1, d2, f, n);
      MatchedFails(d1, d2, f, n + 1);
    } else {
      assert d1[..n] == d1;
    }
  }

  /** An address of `d1` that `d2` also has, and on which `f` raises. */
  ghost predicate RaisesOnCommon<V, X>(d1: Dicts.Dict<string, V>, d2: Dicts.Dict<string, V>, f: (string, V, V) -> Option<X>) {
    exists i :: 0 <= i < |d1| && Dicts.HasKey(d2, d1[i].0) && f(d1[i].0, d1[i].1, Dicts.Get(d2, d1[i].0).value).None?
  }

  /** The walk raises exactly when `f` raises on some common entry. */
  lemma {:induction false} MatchedNoneIff<V, X>(d1: Dicts.Dict<string, V>, d2: Dicts.Dict<string, V>, f: (string, V, V) -> Option<X>)
    ensures Matched(d1, d2, f).None? <==> RaisesOnCommon(d1, d2, f)
  {
    if d1 != [] {
      var prev := d1[..|d1| - 1];
      var last := d1[|d1| - 1];
      MatchedNoneIff(prev, d2, f);
      assert forall i :: 0 <= i < |prev| ==> prev[i] == d1[i];
      if RaisesOnCommon(d1, d2, f) && !RaisesOnCommon(prev, d2, f) {
        var i :| 0 <= i < |d1| && Dicts.HasKey(d2, d1[i].0) && f(d1[i].0, d1[i].1, Dicts.Get(d2, d1[i].0).value).None?;
        assert i == |d1| - 1;
      }
    }
  }

  /** Each item of the walk is the result of `f` for an address of `d1` that `d2` also has. */
  lemma {:induction false} MatchedSound<V, X>(d1: Dicts.Dict<string, V>, d2: Dicts.Dict<string, V>, f: (string, V, V) -> Option<X>, ms: seq<(string, X)>)
    requires Matched(d1, d2, f) == Some(ms)
    ensures forall j :: 0 <= j < |ms| ==>
      exists i :: 0 <= i < |d1| && d1[i].0 == ms[j].0 && Dicts.HasKey(d2, ms[j].0) &&
        f(ms[j].0, d1[i].1, Dicts.Get(d2, ms[j].0).value) == Some(ms[j].1)
  {
    if d1 != [] {
      var prev := d1[..|d1| - 1];
      var pms := Matched(prev, d2, f).value;
      MatchedSound(prev, d2, f, pms);
      forall j | 0 <= j < |ms|
        ensures (exists i :: 0 <= i < |d1| && d1[i].0 == ms[j].0 && Dicts.HasKey(d2, ms[j].0) &&
                   f(ms[j].0, d1[i].1, Dicts.Get(d2, ms[j].0).value) == Some(ms[j].1))
      {
        if j < |pms| {
          assert ms[j] == pms[j];
          var i :| 0 <= i < |prev| && prev[i].0 == pms[j].0 && Dicts.HasKey(d2, pms[j].0) &&
            f(pms[j].0, prev[i].1, Dicts.Get(d2, pms[j].0).value) == Some(pms[j].1);
          assert d1[i] == prev[i];
        } else {
          assert d1[|d1| - 1].0 == ms[j].0;
        }
      }
    }
  }

  /** Every address of `d1` that `d2` also has gets an item in the walk. */
  lemma {:induction false} MatchedComplete<V, X>(d1: Dicts.Dict<string, V>, d2: Dicts.Dict<string, V>, f: (string, V, V) -> Option<X>, ms: seq<(string, X)>)
    requires Matched(d1, d2, f) == Some(ms)
    ensures forall i :: 0 <= i < |d1| && Dicts.HasKey(d2, d1[i].0) ==> exists j :: 0 <= j < |ms| && ms[j].0 == d1[i].0
  {
    if d1 != [] {
      var prev := d1[..|d1| - 1];
      var pms := Matched(prev, d2, f).value;
      MatchedComplete(prev, d2, f, pms);
      forall i | 0 <= i < |d1| && Dicts.HasKey(d2, d1[i].0) ensures exists j :: 0 <= j < |ms| && ms[j].0 == d1[i].0 {
        if i < |prev| {
          assert prev[i] == d1[i];
          var j :| 0 <= j < |pms| && pms[j].0 == prev[i].0;
          assert ms[j] == pms[j];
        } else {
          assert ms[|ms| - 1].0 == d1[i].0;
        }
      }
    }
  }

  /** The items of the walk whose result has kind `k`, in order. */
  function Bucket<X>(ms: seq<(string, X)>, kind: X -> Kind, k: Kind): (r: seq<(string, X)>)
    ensures forall e :: e in r ==> e in ms && kind(e.1) == k
  {
    if ms == [] then []
    else
      var prev := Bucket(ms[..|ms| - 1], kind, k);
      var last := ms[|ms| - 1];
      if kind(last.1) == k then prev + [last] else prev
  }

  /** One more item of the walk. */
  lemma BucketSnoc<X>(ms: seq<(string, X)>, e: (string, X), kind: X -> Kind, k: Kind)
    ensures Bucket(ms + [e], kind, k) == Bucket(ms, kind, k) + (if kind(e.1) == k then [e] else [])
  {
    assert (ms + [e])[..|ms|] == ms;
  }

  /** Every item of the walk is in the bucket of its kind. */
  lemma {:induction false} BucketComplete<X>(ms: seq<(string, X)>, kind: X -> Kind, j: nat)
    requires j < |ms|
    ensures ms[j] in Bucket(ms, kind, kind(ms[j].1))
  {
    if j < |ms| - 1 {
      BucketComplete(ms[..|ms| - 1], kind, j);
    }
  }

  /** The three buckets together hold each item of the walk exactly as often as the walk does. */
  lemma {:induction false} BucketPartition<X>(ms: seq<(string, X)>, kind: X -> Kind)
    ensures multiset(Bucket(ms, kind, Same)) + multiset(Bucket(ms, kind, Close)) + multiset(Bucket(ms, kind, Different)) == multiset(ms)
  {
    if ms != [] {
      var prev := ms[..|ms| - 1];
      BucketPartition(prev, kind);
      assert ms == prev + [ms[|ms| - 1]];
    }
  }

  /**
   * A common address lands in the bucket of the kind of its result, and in
   * no other bucket.
   */
  lemma OneBucket<V, X>(d1: Dicts.Dict<string, V>, d2: Dicts.Dict<string, V>, f: (string, V, V) -> Option<X>, kind: X -> Kind,
                        ms: seq<(string, X)>, i: nat)
    requires Dicts.DistinctKeys(d1) && Matched(d1, d2, f) == Some(ms)
    requires i < |d1| && Dicts.HasKey(d2, d1[i].0)
    ensures f(d1[i].0, d1[i].1, Dicts.Get(d2, d1[i].0).value).Some?
    ensures var k := kind(f(d1[i].0, d1[i].1, Dicts.Get(d2, d1[i].0).value).value);
      (exists e :: e in Bucket(ms, kind, k) && e.0 == d1[i].0) &&
      (forall k', e :: k' != k && e in Bucket(ms, kind, k') ==> e.0 != d1[i].0)
  {
    var a := d1[i].0;
    MatchedSound(d1, d2, f, ms);
    MatchedComplete(d1, d2, f, ms);
    var j :| 0 <= j < |ms| && ms[j].0 == a;
    var i' :| 0 <= i' < |d1| && d1[i'].0 == ms[j].0 && Dicts.HasKey(d2, ms[j].0) &&
      f(ms[j].0, d1[i'].1, Dicts.Get(d2, ms[j].0).value) == Some(ms[j].1);
    assert i' == i;
    var k := kind(ms[j].1);
    BucketComplete(ms, kind, j);
  }

  /** The rows a script prints for a bucket. */
  function Rows<X, R>(es: seq<(string, X)>, row: (string, X) -> R): (r: seq<R>)
    ensures |r| == |es| && forall j :: 0 <= j < |es| ==> r[j] == row(es[j].0, es[j].1)
  {
    if es == [] then [] else Rows(es[..|es| - 1], row) + [row(es[|es| - 1].0, es[|es| - 1].1)]
  }

  /** The three lists of one comparison. */
  datatype Buckets<R> = Buckets(same: seq<R>, close: seq<R>, different: seq<R>)

  /** The lists the loop fills for the items of a walk. */
  function Sorted<X, R>(ms: seq<(string, X)>, kind: X -> Kind, row: (string, X) -> R): Buckets<R> {
    Buckets(Rows(Bucket(ms, kind, Same), row), Rows(Bucket(ms, kind, Close), row), Rows(Bucket(ms, kind, Different), row))
  }

  /** The loop's append for one more item. */
  function Append<X, R>(b: Buckets<R>, e: (string, X), kind: X -> Kind, row: (string, X) -> R): Buckets<R> {
    match kind(e.1)
    case Same => b.(same := b.same + [row(e.0, e.1)])
    case Close => b.(close := b.close + [row(e.0, e.1)])
    case Different => b.(different := b.different + [row(e.0, e.1)])
  }

  /** Appending an item's row to its list is sorting the longer walk. */
  lemma SortedSnoc<X, R>(ms: seq<(string, X)>, e: (string, X), kind: X -> Kind, row: (string, X) -> R)
    ensures Sorted(ms + [e], kind, row) == Append(Sorted(ms, kind, row), e, kind, row)
  {
    BucketSnoc(ms, e, kind, Same);
    BucketSnoc(ms, e, kind, Close);
    BucketSnoc(ms, e, kind, Different);
  }

  /** The list of one kind. */
  function Of<R>(b: Buckets<R>, k: Kind): seq<R> {
    match k
    case Same => b.same
    case Close => b.close
    case Different => b.different
  }

  /** The list of kind `k` holds the rows of the bucket of `k`. */
  lemma OfSorted<X, R>(ms: seq<(string, X)>, kind: X -> Kind, row: (string, X) -> R, k: Kind)
    ensures Of(Sorted(ms, kind, row), k) == Rows(Bucket(ms, kind, k), row)
  {
  }

  /** A row names an address exactly when the item it prints does. */
  lemma RowsAddresses<X, R>(es: seq<(string, X)>, row: (string, X) -> R, rowAddress: R -> string, a: string)
    requires forall a, x :: rowAddress(row(a, x)) == a
    ensures (exists r :: r in Rows(es, row) && rowAddress(r) == a) <==> (exists e :: e in es && e.0 == a)
  {
    var rs := Rows(es, row);
    if e :| e in es && e.0 == a {
      var j :| 0 <= j < |es| && es[j] == e;
      assert rs[j] in rs;
    }
    if r :| r in rs && rowAddress(r) == a {
      var j :| 0 <= j < |rs| && rs[j] == r;
      assert es[j] in es;
    }
  }

  /**
   * In the printed lists, a common address has a row in the list of its
   * kind and none in the other two.
   */
  lemma SortedOneBucket<V, X, R>(d1: Dicts.Dict<string, V>, d2: Dicts.Dict<string, V>, f: (string, V, V) -> Option<X>, kind: X -> Kind,
                                 row: (string, X) -> R, rowAddress: R -> string, ms: seq<(string, X)>, i: nat)
    requires Dicts.DistinctKeys(d1) && Matched(d1, d2, f) == Some(ms)
    requires i < |d1| && Dicts.HasKey(d2, d1[i].0)
    requires forall a, x :: rowAddress(row(a, x)) == a
    ensures f(d1[i].0, d1[i].1, Dicts.Get(d2, d1[i].0).value).Some?
    ensures var k := kind(f(d1[i].0, d1[i].1, Dicts.Get(d2, d1[i].0).value).value);
      (exists r :: r in Of(Sorted(ms, kind, row), k) && rowAddress(r) == d1[i].0) &&
      (forall k', r :: k' != k && r in Of(Sorted(ms, kind, row), k') ==> rowAddress(r) != d1[i].0)
  {
    OneBucket(d1, d2, f, kind, ms, i);
    var a := d1[i].0;
    var k := kind(f(a, d1[i].1, Dicts.Get(d2, a).value).value);
    OfSorted(ms, kind, row, k);
    RowsAddresses(Bucket(ms, kind, k), row, rowAddress, a);
    forall k' | k' != k ensures forall r :: r in Of(Sorted(ms, kind, row), k') ==> rowAddress(r) != a {
      OfSorted(ms, kind, row, k');
      RowsAddresses(Bucket(ms, kind, k'), row, rowAddress, a);
    }
  }
}
