/**
 * The four external price feeds of app/assets/model.py (lines 395-471): how a
 * price is read out of each service's response, with the HTTP exchange given
 * as an input.
 */
module Feeds {
  import opened Wrappers
  import opened Strings
  import opened PyValues

  /**
   * What `requests.get(url)`, `raise_for_status()` and `.json()` produce:
   * a request exception (connection failure or error status), a body that is
   * not JSON (a ValueError), or the decoded body.
   */
  datatype Reply = Failed | NotJson | Body(json: Value)

  /** The outcome of a price getter: it raised, or it returned a Python value. */
  datatype Attempt = Raised | Returned(value: Value)

  /** The integer 0 that every extractor returns on a handled failure. */
  const Zero: Attempt := Returned(IntVal(0))

  datatype ExternalFeed = Dexscreener | Debank | Defillama | Dexguru

  const DexscreenerEndpoint: string := "https://api.dexscreener.com/latest/dex/tokens/"
  const DefillamaEndpoint: string := "https://coins.llama.fi/prices/current/"
  const DexguruPrefix: string := "https://api.dev.dex.guru/v1/chain/10/tokens/"
  /** The DexGuru template as written: a bare `%` before `/market`. */
  const DexguruEndpoint: string := DexguruPrefix + "%/market"
  const DebankEndpoint: string := "https://api.debank.com/history/token_price?chain=op&"

  // ---------------------------------------------------------------- Dexscreener

  /** `float(str(v).replace(",", ""))` for the `priceUsd` field; a ValueError gives 0. */
  function PriceUsd(v: Value, parseFloat: string -> Option<real>): (r: Attempt)
    ensures r.Returned?
    ensures v.StrVal? && parseFloat(Strip(v.s, ',')).Some? ==>
      r == Returned(FloatVal(parseFloat(Strip(v.s, ',')).value))
    ensures v.StrVal? && parseFloat(Strip(v.s, ',')).None? ==> r == Zero
    ensures (v.IntVal? || v.FloatVal?) ==> r == Returned(FloatVal(AsNumber(v).value))
  {
    match v
    case StrVal(s) =>
      (match parseFloat(Strip(s, ','))
       case Some(x) => Returned(FloatVal(x))
       case None => Zero)
    case IntVal(i) => Returned(FloatVal(i as real))
    case FloatVal(x) => Returned(FloatVal(x))
    // str() of None, a bool, a list or an object is not a number: ValueError, caught.
    case _ => Zero
  }

  /** `_get_price_from_dexscreener` once the response is known. */
  function DexscreenerPrice(reply: Reply, parseFloat: string -> Option<real>): (r: Attempt)
    ensures !reply.Body? ==> r == Zero
    ensures reply.Body? && reply.json.DictVal? && !PairsListed(reply.json) ==> r == Zero
    ensures reply.Body? && reply.json.DictVal? && PairsListed(reply.json) ==>
      var first := GetKey(reply.json, "pairs").value.items[0];
      r == if !Truthy(first) then Zero
           else if first.DictVal? then PriceUsd(GetKeyOr(first, "priceUsd", IntVal(0)), parseFloat)
           else Raised
    ensures r.Raised? ==> reply.Body?
  {
    match reply
    case Failed => Zero
    case NotJson => Zero
    case Body(data) =>
      if !data.DictVal? then Raised  // `data.get` on a non-object: AttributeError, not caught
      else if !PairsListed(data) then Zero
      else
        var first := GetKey(data, "pairs").value.items[0];
        if !Truthy(first) then Zero
        else if !first.DictVal? then Raised
        else PriceUsd(GetKeyOr(first, "priceUsd", IntVal(0)), parseFloat)
  }

  /** `pairs` is present, a list, and not empty. */
  predicate PairsListed(data: Value)
    requires data.DictVal?
  {
    var pairs := GetKey(data, "pairs");
    pairs.Some? && pairs.value.ListVal? && pairs.value.items != []
  }

  // ------------------------------------------------------------------ DefiLlama

  /** A coin entry that is an object whose `price` (default 0) is falsy. */
  predicate FalsyCoin(coin: Value) {
    coin.DictVal? && !Truthy(GetKeyOr(coin, "price", IntVal(0)))
  }

  /** The loop over `coins.items()`: the first truthy price, else 0. */
  function FirstCoinPrice(coins: seq<(string, Value)>): (r: Attempt)
    ensures r.Returned? ==> r == Zero || Truthy(r.value)
  {
    if coins == [] then Zero
    else
      var coin := coins[0].1;
      if !coin.DictVal? then Raised
      else
        var price := GetKeyOr(coin, "price", IntVal(0));
        if Truthy(price) then Returned(price) else FirstCoinPrice(coins[1..])
  }

  /**
   * A truthy price is the price of the first coin whose price is truthy,
   * every coin before it being an object with a falsy price; when every coin
   * is such an object the result is 0; a raise comes from a coin that is
   * not an object.
   */
  lemma {:induction false} FirstCoinPriceFacts(coins: seq<(string, Value)>)
    ensures var r := FirstCoinPrice(coins);
      r.Returned? && Truthy(r.value) ==>
        exists i :: 0 <= i < |coins| && coins[i].1.DictVal? &&
          GetKeyOr(coins[i].1, "price", IntVal(0)) == r.value &&
          forall j :: 0 <= j < i ==> FalsyCoin(coins[j].1)
    ensures (forall i :: 0 <= i < |coins| ==> FalsyCoin(coins[i].1)) ==> FirstCoinPrice(coins) == Zero
    ensures FirstCoinPrice(coins).Raised? ==> exists i :: 0 <= i < |coins| && !coins[i].1.DictVal?
  {
    if coins != [] && coins[0].1.DictVal? && !Truthy(GetKeyOr(coins[0].1, "price", IntVal(0))) {
      var rest := coins[1..];
      FirstCoinPriceFacts(rest);
      var r := FirstCoinPrice(rest);
      if r.Returned? && Truthy(r.value) {
        var i :| 0 <= i < |rest| && rest[i].1.DictVal? &&
          GetKeyOr(rest[i].1, "price", IntVal(0)) == r.value &&
          forall j :: 0 <= j < i ==> FalsyCoin(rest[j].1);
        assert coins[i + 1] == rest[i];
        forall j | 0 <= j < i + 1 ensures FalsyCoin(coins[j].1) {
          if j > 0 {
            assert coins[j] == rest[j - 1];
          }
        }
      }
      if forall i :: 0 <= i < |coins| ==> FalsyCoin(coins[i].1) {
        forall i | 0 <= i < |rest| ensures FalsyCoin(rest[i].1) {
          assert rest[i] == coins[i + 1];
        }
      }
      if r.Raised? {
        var i :| 0 <= i < |rest| && !rest[i].1.DictVal?;
        assert coins[i + 1] == rest[i];
      }
    }
  }

  /** `_get_price_from_defillama` once the response is known. */
  function DefillamaPrice(reply: Reply): (r: Attempt)
    ensures !reply.Body? ==> r == Zero
    ensures reply.Body? && reply.json.DictVal? ==>
      var coins := GetKey(reply.json, "coins");
      r == if coins.Some? && coins.value.DictVal? then FirstCoinPrice(coins.value.entries) else Zero
    ensures r.Returned? ==> r == Zero || Truthy(r.value)
  {
    match reply
    case Failed => Zero
    case NotJson => Zero
    case Body(data) =>
      match data
      case DictVal(_) =>
        var coins := GetKey(data, "coins");
        if coins.Some? && coins.value.DictVal? then FirstCoinPrice(coins.value.entries) else Zero
      // `"coins" in data` then `data["coins"]`: a list or a string cannot be indexed by a string
      case ListVal(items) => if StrVal("coins") in items then Raised else Zero
      case StrVal(s) => if Contains(s, "coins") then Raised else Zero
      // `in` on a number, a bool or None: TypeError
      case _ => Raised
  }

  // --------------------------------------------------------------------- DeBank

  /** `_get_price_from_debank` once the response is known: `(data or {}).get("price") or 0`. */
  function DebankPrice(reply: Reply): (r: Attempt)
    ensures !reply.Body? ==> r == Zero
    ensures r.Returned? ==> r == Zero || Truthy(r.value)
    ensures reply.Body? && reply.json.DictVal? && !Truthy(GetKeyOr(reply.json, "data", NoneVal)) ==> r == Zero
    ensures r.Returned? && r != Zero ==>
      reply.Body? && reply.json.DictVal? &&
      var data := GetKeyOr(reply.json, "data", NoneVal);
      data.DictVal? && GetKey(data, "price") == Some(r.value)
  {
    match reply
    case Failed => Zero
    case NotJson => Zero
    case Body(body) =>
      if !body.DictVal? then Raised
      else
        var data := GetKeyOr(body, "data", NoneVal);
        var tokenData := if Truthy(data) then data else DictVal([]);
        if !tokenData.DictVal? then Raised
        else
          var price := GetKeyOr(tokenData, "price", NoneVal);
          if Truthy(price) then Returned(price) else Zero
  }

  // -------------------------------------------------------------------- DexGuru

  /**
   * Python's `template % arg` for one string argument, as far as the
   * conversions `%s` and `%%` go: a `%` before a character that starts no
   * conversion is a ValueError, an argument used twice or not at all is a
   * TypeError, and width, flags, mapping keys and other conversions are not
   * computed (`Unsupported`).
   */
  datatype FormatResult = Formatted(text: string) | FormatValueError | FormatTypeError | Unsupported

  function Prepend(p: string, r: FormatResult): (q: FormatResult)
    ensures r.Formatted? <==> q.Formatted?
    ensures r.Formatted? ==> q.text == p + r.text
    ensures !r.Formatted? ==> q == r
  {
    if r.Formatted? then Formatted(p + r.text) else r
  }

  /** Characters after `%` that begin a conversion this model does not compute. */
  const OtherConversionStart: string := "-+ #0123456789.*(rdiouxXeEfFgGca"

  function Format(t: string, arg: string, used: bool): FormatResult
    decreases |t|
  {
    if t == [] then (if used then Formatted([]) else FormatTypeError)
    else if t[0] != '%' then Prepend([t[0]], Format(t[1..], arg, used))
    else if |t| == 1 then FormatValueError
    else if t[1] == '%' then Prepend("%", Format(t[2..], arg, used))
    else if t[1] == 's' then (if used then FormatTypeError else Prepend(arg, Format(t[2..], arg, true)))
    else if t[1] in OtherConversionStart then Unsupported
    else FormatValueError
  }

  function PercentFormat(template: string, arg: string): FormatResult {
    Format(template, arg, false)
  }

  /** Text without `%` is copied through unchanged in front of whatever follows. */
  lemma {:induction false} FormatLiteral(p: string, t: string, arg: string, used: bool)
    requires '%' !in p
    ensures Format(p + t, arg, used) == Prepend(p, Format(t, arg, used))
  {
    if p != [] {
      assert (p + t)[0] == p[0];
      assert (p + t)[1..] == p[1..] + t;
      assert '%' !in p[1..];
      FormatLiteral(p[1..], t, arg, used);
      assert [p[0]] + p[1..] == p;
    } else {
      assert p + t == t;
    }
  }

  /** `r.json().get("price_usd", 0)` once a DexGuru request was made. */
  function DexguruReplyPrice(reply: Reply): (r: Attempt)
    ensures !reply.Body? ==> r == Zero
    ensures reply.Body? && reply.json.DictVal? ==> r == Returned(GetKeyOr(reply.json, "price_usd", IntVal(0)))
  {
    match reply
    case Failed => Zero
    case NotJson => Zero
    case Body(body) => if body.DictVal? then Returned(GetKeyOr(body, "price_usd", IntVal(0))) else Raised
  }

  /**
   * `_get_price_from_dexguru` as written: the URL is built with `%` from the
   * template above, and the response (if any request is made) is read as usual.
   */
  function DexguruAsWritten(address: string, http: string -> Reply): Attempt {
    match PercentFormat(DexguruEndpoint, Lower(address))
    case Formatted(url) => DexguruReplyPrice(http(url))
    case FormatValueError => Zero   // caught by `except (…, ValueError)`
    case FormatTypeError => Raised
    case Unsupported => Raised
  }

  /**
   * As written, `%/` is an unsupported format character: the ValueError is
   * raised before any request and caught, so DexGuru always yields 0.
   */
  lemma DexguruAsWrittenZero(address: string, http: string -> Reply)
    ensures DexguruAsWritten(address, http) == Zero
  {
    PrefixHasNoPercent();
    SlashIsNoConversion(Lower(address));
    FormatLiteral(DexguruPrefix, "%/market", Lower(address), false);
  }

  lemma PrefixHasNoPercent()
    ensures '%' !in DexguruPrefix
  {
  }

  /** `/` is not a conversion character, so `"%/market" % arg` raises a ValueError. */
  lemma SlashIsNoConversion(arg: string)
    ensures Format("%/market", arg, false) == FormatValueError
  {
    var t := "%/market";
    assert t[0] == '%' && t[1] == '/';
    assert '/' !in OtherConversionStart;
  }

  /** The intended DexGuru URL: the lower-cased address in the path segment before `/market`. */
  function DexguruUrl(address: string): (r: string)
    ensures PercentFormat(DexguruPrefix + "%s/market", Lower(address)) == Formatted(r)
    ensures r == DexguruPrefix + Lower(address) + "/market"
  {
    FormatLiteral(DexguruPrefix, "%s/market", Lower(address), false);
    ConversionThenLiteral(Lower(address));
    DexguruPrefix + Lower(address) + "/market"
  }

  /** `"%s/market" % arg` is the argument followed by "/market". */
  lemma ConversionThenLiteral(arg: string)
    ensures Format("%s/market", arg, false) == Formatted(arg + "/market")
  {
    var t := "%s/market";
    assert t[0] == '%' && t[1] == 's' && t[2..] == "/market";
    FormatLiteral("/market", [], arg, true);
    assert "/market" + [] == "/market";
    assert Format([], arg, true) == Formatted([]);
    assert Format("/market", arg, true) == Formatted("/market");
  }

  /** `_get_price_from_dexguru` with the URL it evidently means to request. */
  function DexguruPrice(address: string, http: string -> Reply): (r: Attempt)
    ensures r == DexguruReplyPrice(http(DexguruPrefix + Lower(address) + "/market"))
  {
    DexguruReplyPrice(http(DexguruUrl(address)))
  }

  // ----------------------------------------------------------------- dispatch

  /** The request each feed makes for a token address. */
  function FeedUrl(feed: ExternalFeed, address: string): string
    requires !feed.Dexguru?
  {
    match feed
    case Dexscreener => DexscreenerEndpoint + address
    case Debank => DebankEndpoint + "token_id=" + Lower(address)
    case Defillama => DefillamaEndpoint + "kava:" + Lower(address)
  }

  /** The outcome of calling the named feed's getter for a token. */
  function FeedAttempt(feed: ExternalFeed, address: string, http: string -> Reply,
                       parseFloat: string -> Option<real>): (r: Attempt)
    ensures feed.Dexguru? ==> r == DexguruPrice(address, http)
    ensures feed.Dexscreener? ==> r == DexscreenerPrice(http(DexscreenerEndpoint + address), parseFloat)
    ensures feed.Debank? ==> r == DebankPrice(http(DebankEndpoint + "token_id=" + Lower(address)))
    ensures feed.Defillama? ==> r == DefillamaPrice(http(DefillamaEndpoint + "kava:" + Lower(address)))
  {
    match feed
    case Dexscreener => DexscreenerPrice(http(FeedUrl(feed, address)), parseFloat)
    case Debank => DebankPrice(http(FeedUrl(feed, address)))
    case Defillama => DefillamaPrice(http(FeedUrl(feed, address)))
    case Dexguru => DexguruPrice(address, http)
  }
}
