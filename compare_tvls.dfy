/**
 * scripts/compare_tvls.py: the pair lists of two deployments keyed by
 * address; for each pair both have, the old TVL against the new one and
 * the new one against dexscreener's liquidity, each sorted into same,
 * close or different.
 */
module CompareTvls {
  import opened Wrappers
  import Dicts
  import opened PyValues
  import opened Comparison

  /** One pair of a pairs reply: its address, and "symbol" and "tvl" where present. */
  datatype PairEntry = PairEntry(address: string, symbol: Option<string>, tvl: Option<real>)

  function AddressOf(p: PairEntry): string {
    p.address
  }

  /** `transform_data(data)`. */
  function TransformData(data: seq<PairEntry>): (r: Dicts.Dict<string, PairEntry>)
    ensures Dicts.DistinctKeys(r)
  {
    ByAddress(data, AddressOf)
  }

  /** `pair.get("tvl", 0)`. */
  function Tvl(p: PairEntry): real {
    p.tvl.GetOr(0.0)
  }

  /** `pair1.get("symbol", "N/A")`. */
  function Symbol(p: PairEntry): string {
    p.symbol.GetOr("N/A")
  }

  const DexscreenerPairsEndpoint: string := "https://api.dexscreener.com/latest/dex/pairs/core/"

  /** `reply["pairs"]`, when the reply is an object that has it; anything else raises. */
  function PairsField(reply: Option<Value>): Option<Value> {
    if reply.Some? && reply.value.DictVal? then GetKey(reply.value, "pairs") else None
  }

  /** `pairs[0]` when "pairs" is a non-empty list. */
  function FirstPair(reply: Option<Value>): Option<Value> {
    match PairsField(reply)
    case Some(ListVal(items)) => if items == [] then None else Some(items[0])
    case _ => None
  }

  /**
   * `dexscreener_request(address)` on the decoded reply (None: the request
   * or its decoding raised). Reading "pairs" from anything but an object
   * raises; no usable pairs list gives 0; otherwise the first pair's
   * `liquidity.usd` as a float when liquidity is truthy, else 0.
   */
  function DexscreenerRequest(reply: Option<Value>, parseFloat: string -> Option<real>): (r: Option<real>)
    ensures PairsField(reply).None? ==> r.None?
    ensures PairsField(reply).Some? && FirstPair(reply).None? ==> r == Some(0.0)
    ensures FirstPair(reply).Some? && !FirstPair(reply).value.DictVal? ==> r.None?
    ensures FirstPair(reply).Some? && FirstPair(reply).value.DictVal? ==>
      var liquidity := GetKeyOr(FirstPair(reply).value, "liquidity", NoneVal);
      if !Truthy(liquidity) then r == Some(0.0)
      else if liquidity.DictVal? then r == Float(GetKeyOr(liquidity, "usd", NoneVal), parseFloat)
      else r.None?
  {
    match reply
    case None => None
    case Some(json) =>
      if !json.DictVal? then None
      else match GetKey(json, "pairs")
        case None => None
        case Some(pairs) =>
          if !pairs.ListVal? || pairs.items == [] then Some(0.0)
          else
            var first := pairs.items[0];
            if !first.DictVal? then None
            else
              var liquidity := GetKeyOr(first, "liquidity", NoneVal);
              if !Truthy(liquidity) then Some(0.0)
              else if !liquidity.DictVal? then None
              else Float(GetKeyOr(liquidity, "usd", NoneVal), parseFloat)
  }

  /** A reply whose pairs list is empty or None counts as a TVL of 0. */
  lemma NoPairsZero(pairs: Value, parseFloat: string -> Option<real>)
    requires pairs == NoneVal || pairs == ListVal([])
    ensures DexscreenerRequest(Some(DictVal([("pairs", pairs)])), parseFloat) == Some(0.0)
  {
    assert GetKey(DictVal([("pairs", pairs)]), "pairs") == Some(pairs);
  }

  /** Both pairs of a common address and dexscreener's TVL for it. */
  datatype Measured = Measured(pair1: PairEntry, pair2: PairEntry, tvlDex: real)

  /** A printed row: `(address, symbol, tvl_a, tvl_b)`. */
  datatype TvlRow = TvlRow(address: string, symbol: string, first: real, second: real)

  /** The work on one common address; `fetch` answers the dexscreener request. */
  function Compare(fetch: string -> Option<Value>, parseFloat: string -> Option<real>): (string, PairEntry, PairEntry) -> Option<Measured> {
    (address: string, pair1: PairEntry, pair2: PairEntry) =>
      match DexscreenerRequest(fetch(DexscreenerPairsEndpoint + address), parseFloat)
      case None => None
      case Some(tvlDex) => Some(Measured(pair1, pair2, tvlDex))
  }

  /** Old TVL against new. */
  function OldNewKind(x: Measured): Kind {
    Classify(Tvl(x.pair1), Tvl(x.pair2), DefaultTolerance)
  }

  /** New TVL against dexscreener's. */
  function NewDexKind(x: Measured): Kind {
    Classify(Tvl(x.pair2), x.tvlDex, DefaultTolerance)
  }

  function OldNewRow(address: string, x: Measured): TvlRow {
    TvlRow(address, Symbol(x.pair1), Tvl(x.pair1), Tvl(x.pair2))
  }

  function NewDexRow(address: string, x: Measured): TvlRow {
    TvlRow(address, Symbol(x.pair1), Tvl(x.pair2), x.tvlDex)
  }

  function RowAddress(r: TvlRow): string {
    r.address
  }

  /** The six lists the script prints. */
  datatype TvlReport = TvlReport(oldNew: Buckets<TvlRow>, newDex: Buckets<TvlRow>)

  /** What the script prints; None where it raises first. */
  function Report(pairs1: Dicts.Dict<string, PairEntry>, pairs2: Dicts.Dict<string, PairEntry>,
                  fetch: string -> Option<Value>, parseFloat: string -> Option<real>): Option<TvlReport>
  {
    match Matched(pairs1, pairs2, Compare(fetch, parseFloat))
    case None => None
    case Some(ms) => Some(TvlReport(Sorted(ms, OldNewKind, OldNewRow), Sorted(ms, NewDexKind, NewDexRow)))
  }

  /** The comparison loop over `pairs1.items()`. */
  method CompareTvls(pairs1: Dicts.Dict<string, PairEntry>, pairs2: Dicts.Dict<string, PairEntry>,
                     fetch: string -> Option<Value>, parseFloat: string -> Option<real>)
    returns (r: Option<TvlReport>)
    ensures r == Report(pairs1, pairs2, fetch, parseFloat)
  {
    var diffTvls, sameTvls, closeTvls := [], [], [];
    var diffTvlsDex, sameTvlsDex, closeTvlsDex := [], [], [];
    ghost var ms := [];
    var i := 0;
    while i < |pairs1|
      invariant 0 <= i <= |pairs1|
      invariant Matched(pairs1[..i], pairs2, Compare(fetch, parseFloat)) == Some(ms)
      invariant Buckets(sameTvls, closeTvls, diffTvls) == Sorted(ms, OldNewKind, OldNewRow)
      invariant Buckets(sameTvlsDex, closeTvlsDex, diffTvlsDex) == Sorted(ms, NewDexKind, NewDexRow)
    {
      var (address, pair1) := pairs1[i];
      var pair2 := Dicts.Get(pairs2, address);
      MatchedStep(pairs1, pairs2, Compare(fetch, parseFloat), i);
      if pair2.Some? {
        var tvl1 := Tvl(pair1);
        var tvl2 := Tvl(pair2.value);
        var tvlDex := DexscreenerRequest(fetch(DexscreenerPairsEndpoint + address), parseFloat);
        if tvlDex.None? {
          MatchedFails(pairs1, pairs2, Compare(fetch, parseFloat), i + 1);
          return None;
        }
        var symbol := Symbol(pair1);
        var x := Measured(pair1, pair2.value, tvlDex.value);
        SortedSnoc(ms, (address, x), OldNewKind, OldNewRow);
        SortedSnoc(ms, (address, x), NewDexKind, NewDexRow);

        if tvl1 != tvl2 {
          if AreClose(tvl1, tvl2, DefaultTolerance) {
            closeTvls := closeTvls + [TvlRow(address, symbol, tvl1, tvl2)];
          } else {
            diffTvls := diffTvls + [TvlRow(address, symbol, tvl1, tvl2)];
          }
        } else {
          sameTvls := sameTvls + [TvlRow(address, symbol, tvl1, tvl2)];
        }

        if tvl2 != tvlDex.value {
          if AreClose(tvl2, tvlDex.value, DefaultTolerance) {
            closeTvlsDex := closeTvlsDex + [TvlRow(address, symbol, tvl2, tvlDex.value)];
          } else {
            diffTvlsDex := diffTvlsDex + [TvlRow(address, symbol, tvl2, tvlDex.value)];
          }
        } else {
          sameTvlsDex := sameTvlsDex + [TvlRow(address, symbol, tvl2, tvlDex.value)];
        }
        ms := ms + [(address, x)];
      }
      i := i + 1;
    }
    assert pairs1[..i] == pairs1;
    return Some(TvlReport(Buckets(sameTvls, closeTvls, diffTvls), Buckets(sameTvlsDex, closeTvlsDex, diffTvlsDex)));
  }

  /** The script stops exactly when the dexscreener request for some common address raises. */
  lemma ReportNoneIff(pairs1: Dicts.Dict<string, PairEntry>, pairs2: Dicts.Dict<string, PairEntry>,
                      fetch: string -> Option<Value>, parseFloat: string -> Option<real>)
    ensures Report(pairs1, pairs2, fetch, parseFloat).None? <==>
      exists i :: 0 <= i < |pairs1| && Dicts.HasKey(pairs2, pairs1[i].0) &&
        DexscreenerRequest(fetch(DexscreenerPairsEndpoint + pairs1[i].0), parseFloat).None?
  {
    MatchedNoneIff(pairs1, pairs2, Compare(fetch, parseFloat));
  }

  /** The old-against-new kind of the i-th pair and its namesake in `pairs2`. */
  function PairKind(pairs1: Dicts.Dict<string, PairEntry>, pairs2: Dicts.Dict<string, PairEntry>, i: nat): Kind
    requires i < |pairs1| && Dicts.HasKey(pairs2, pairs1[i].0)
  {
    Classify(Tvl(pairs1[i].1), Tvl(Dicts.Get(pairs2, pairs1[i].0).value), DefaultTolerance)
  }

  /** Every address in both pair lists lands in exactly one of the old-against-new lists. */
  lemma OldNewOneBucket(pairs1: Dicts.Dict<string, PairEntry>, pairs2: Dicts.Dict<string, PairEntry>,
                        fetch: string -> Option<Value>, parseFloat: string -> Option<real>, report: TvlReport, i: nat)
    requires Dicts.DistinctKeys(pairs1) && Report(pairs1, pairs2, fetch, parseFloat) == Some(report)
    requires i < |pairs1| && Dicts.HasKey(pairs2, pairs1[i].0)
    ensures (exists r :: r in Of(report.oldNew, PairKind(pairs1, pairs2, i)) && r.address == pairs1[i].0) &&
      (forall k', r :: k' != PairKind(pairs1, pairs2, i) && r in Of(report.oldNew, k') ==> r.address != pairs1[i].0)
  {
    var f := Compare(fetch, parseFloat);
    var ms := Matched(pairs1, pairs2, f).value;
    var a := pairs1[i].0;
    SortedOneBucket(pairs1, pairs2, f, OldNewKind, OldNewRow, RowAddress, ms, i);
    var x := f(a, pairs1[i].1, Dicts.Get(pairs2, a).value);
    assert x.value.pair1 == pairs1[i].1 && x.value.pair2 == Dicts.Get(pairs2, a).value;
    var k := OldNewKind(x.value);
    assert k == PairKind(pairs1, pairs2, i);
    assert report.oldNew == Sorted(ms, OldNewKind, OldNewRow);
    forall k', r | k' != k && r in Of(report.oldNew, k') ensures r.address != a {
      assert RowAddress(r) != a;
    }
  }

  /**
   * Every address in both pair lists lands in exactly one of the
   * new-against-dexscreener lists, the one for its new TVL and the
   * dexscreener reply for it.
   */
  lemma NewDexOneBucket(pairs1: Dicts.Dict<string, PairEntry>, pairs2: Dicts.Dict<string, PairEntry>,
                        fetch: string -> Option<Value>, parseFloat: string -> Option<real>, report: TvlReport, i: nat)
    requires Dicts.DistinctKeys(pairs1) && Report(pairs1, pairs2, fetch, parseFloat) == Some(report)
    requires i < |pairs1| && Dicts.HasKey(pairs2, pairs1[i].0)
    ensures DexscreenerRequest(fetch(DexscreenerPairsEndpoint + pairs1[i].0), parseFloat).Some?
    ensures var k := Classify(Tvl(Dicts.Get(pairs2, pairs1[i].0).value),
                              DexscreenerRequest(fetch(DexscreenerPairsEndpoint + pairs1[i].0), parseFloat).value, DefaultTolerance);
      (exists r :: r in Of(report.newDex, k) && r.address == pairs1[i].0) &&
      (forall k', r :: k' != k && r in Of(report.newDex, k') ==> r.address != pairs1[i].0)
  {
    var f := Compare(fetch, parseFloat);
    var ms := Matched(pairs1, pairs2, f).value;
    var a := pairs1[i].0;
    SortedOneBucket(pairs1, pairs2, f, NewDexKind, NewDexRow, RowAddress, ms, i);
    var x := f(a, pairs1[i].1, Dicts.Get(pairs2, a).value);
    var tvlDex := DexscreenerRequest(fetch(DexscreenerPairsEndpoint + a), parseFloat);
    assert x == Some(Measured(pairs1[i].1, Dicts.Get(pairs2, a).value, tvlDex.value));
    var k := NewDexKind(x.value);
    assert report.newDex == Sorted(ms, NewDexKind, NewDexRow);
    forall k', r | k' != k && r in Of(report.newDex, k') ensures r.address != a {
      assert RowAddress(r) != a;
    }
  }
}
