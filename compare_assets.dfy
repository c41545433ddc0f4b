/**
 * scripts/compare_assets.py: the token lists of two deployments keyed by
 * address, and each token both have sorted into same, close or different
 * price, with a third price from dexscreener alongside.
 */
module CompareAssets {
  import opened Wrappers
  import Dicts
  import opened Comparison

  /** One token of an assets reply: its address, and "symbol" and "price" where present. */
  datatype Asset = Asset(address: string, symbol: Option<string>, price: Option<real>)

  function AddressOf(t: Asset): string {
    t.address
  }

  /** `transform_data(data)`. */
  function TransformData(data: seq<Asset>): (r: Dicts.Dict<string, Asset>)
    ensures Dicts.DistinctKeys(r)
  {
    ByAddress(data, AddressOf)
  }

  /** Each token is filed under its own address, so the `if token2:` test passes for every token found. */
  lemma TransformDataFilesByAddress(data: seq<Asset>)
    ensures forall e :: e in TransformData(data) ==> e.1 in data && e.1.address == e.0
  {
    ByAddressEntries(data, AddressOf);
  }

  /** `token.get("price", 0)`. */
  function Price(t: Asset): real {
    t.price.GetOr(0.0)
  }

  /** `token1.get("symbol", "Unknown")`. */
  function Symbol(t: Asset): string {
    t.symbol.GetOr("Unknown")
  }

  /** Both tokens of a common address and the dexscreener price. */
  datatype Priced = Priced(token1: Asset, token2: Asset, price3: real)

  /** A printed row: `(symbol, address, price1, price2, price3)`. */
  datatype PriceRow = PriceRow(symbol: string, address: string, price1: real, price2: real, price3: real)

  /**
   * The work on one common address: `get_data_price_from_dexscreener`
   * is a parameter, None where it raises.
   */
  function Compare(dexPrice: string -> Option<real>): (string, Asset, Asset) -> Option<Priced> {
    (address: string, token1: Asset, token2: Asset) =>
      match dexPrice(address)
      case None => None
      case Some(price3) => Some(Priced(token1, token2, price3))
  }

  function PriceKind(x: Priced): Kind {
    Classify(Price(x.token1), Price(x.token2), DefaultTolerance)
  }

  function PriceRowOf(address: string, x: Priced): PriceRow {
    PriceRow(Symbol(x.token1), address, Price(x.token1), Price(x.token2), x.price3)
  }

  function RowAddress(r: PriceRow): string {
    r.address
  }

  /** The three lists the script prints; None where it raises first. */
  function Report(tokens1: Dicts.Dict<string, Asset>, tokens2: Dicts.Dict<string, Asset>, dexPrice: string -> Option<real>): Option<Buckets<PriceRow>> {
    match Matched(tokens1, tokens2, Compare(dexPrice))
    case None => None
    case Some(ms) => Some(Sorted(ms, PriceKind, PriceRowOf))
  }

  /** The comparison loop over `tokens1.items()`. */
  method ComparePrices(tokens1: Dicts.Dict<string, Asset>, tokens2: Dicts.Dict<string, Asset>, dexPrice: string -> Option<real>)
    returns (r: Option<Buckets<PriceRow>>)
    ensures r == Report(tokens1, tokens2, dexPrice)
  {
    var differentPrices, samePrices, closePrices := [], [], [];
    ghost var ms := [];
    var i := 0;
    while i < |tokens1|
      invariant 0 <= i <= |tokens1|
      invariant Matched(tokens1[..i], tokens2, Compare(dexPrice)) == Some(ms)
      invariant Buckets(samePrices, closePrices, differentPrices) == Sorted(ms, PriceKind, PriceRowOf)
    {
      var (address, token1) := tokens1[i];
      var token2 := Dicts.Get(tokens2, address);
      MatchedStep(tokens1, tokens2, Compare(dexPrice), i);
      if token2.Some? {
        var price1 := Price(token1);
        var price2 := Price(token2.value);
        var price3 := dexPrice(address);
        if price3.None? {
          MatchedFails(tokens1, tokens2, Compare(dexPrice), i + 1);
          return None;
        }
        var symbol := Symbol(token1);
        var row := PriceRow(symbol, address, price1, price2, price3.value);
        SortedSnoc(ms, (address, Priced(token1, token2.value, price3.value)), PriceKind, PriceRowOf);
        if price1 != price2 {
          if AreClose(price1, price2, DefaultTolerance) {
            closePrices := closePrices + [row];
          } else {
            differentPrices := differentPrices + [row];
          }
        } else {
          samePrices := samePrices + [row];
        }
        ms := ms + [(address, Priced(token1, token2.value, price3.value))];
      }
      i := i + 1;
    }
    assert tokens1[..i] == tokens1;
    return Some(Buckets(samePrices, closePrices, differentPrices));
  }

  /** The script stops exactly when the dexscreener price of some common address raises. */
  lemma ReportNoneIff(tokens1: Dicts.Dict<string, Asset>, tokens2: Dicts.Dict<string, Asset>, dexPrice: string -> Option<real>)
    ensures Report(tokens1, tokens2, dexPrice).None? <==>
      exists i :: 0 <= i < |tokens1| && Dicts.HasKey(tokens2, tokens1[i].0) && dexPrice(tokens1[i].0).None?
  {
    MatchedNoneIff(tokens1, tokens2, Compare(dexPrice));
  }

  /**
   * Every address in both token lists lands in exactly one of the three
   * lists, the one its two prices call for.
   */
  lemma CommonAddressOneBucket(tokens1: Dicts.Dict<string, Asset>, tokens2: Dicts.Dict<string, Asset>, dexPrice: string -> Option<real>,
                               b: Buckets<PriceRow>, i: nat)
    requires Dicts.DistinctKeys(tokens1) && Report(tokens1, tokens2, dexPrice) == Some(b)
    requires i < |tokens1| && Dicts.HasKey(tokens2, tokens1[i].0)
    ensures (exists r :: r in Of(b, TokenKind(tokens1, tokens2, i)) && r.address == tokens1[i].0) &&
      (forall k', r :: k' != TokenKind(tokens1, tokens2, i) && r in Of(b, k') ==> r.address != tokens1[i].0)
  {
    var ms := Matched(tokens1, tokens2, Compare(dexPrice)).value;
    var a := tokens1[i].0;
    var token2 := Dicts.Get(tokens2, a).value;
    SortedOneBucket(tokens1, tokens2, Compare(dexPrice), PriceKind, PriceRowOf, RowAddress, ms, i);
    var x := Compare(dexPrice)(a, tokens1[i].1, token2);
    assert x == Some(Priced(tokens1[i].1, token2, dexPrice(a).value));
    var k := PriceKind(x.value);
    assert k == TokenKind(tokens1, tokens2, i);
    assert b == Sorted(ms, PriceKind, PriceRowOf);
    forall k', r | k' != k && r in Of(b, k') ensures r.address != a {
      assert RowAddress(r) != a;
    }
  }

  /** The kind the prices of the i-th token and its namesake in `tokens2` call for. */
  function TokenKind(tokens1: Dicts.Dict<string, Asset>, tokens2: Dicts.Dict<string, Asset>, i: nat): Kind
    requires i < |tokens1| && Dicts.HasKey(tokens2, tokens1[i].0)
  {
    Classify(Price(tokens1[i].1), Price(Dicts.Get(tokens2, tokens1[i].0).value), DefaultTolerance)
  }
}
