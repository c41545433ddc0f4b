/**
 * app/misc.py: the process-wide registries of zero-priced tokens and of gauges
 * that are not alive, and the token field checks shared by the models.
 */
module Misc {
  import opened Wrappers
  import opened PyValues
  import opened Tokens

  /** An element of `not_alive_gauges`: the list holds gauge objects, which a string never equals. */
  datatype PyObj = GaugeObj(gaugeAddress: string) | Text(text: string)

  /** Missing name and symbol become 'UNKNOWN', missing decimals become 18; nothing else changes. */
  function Validated(d: TokenData): (r: TokenData)
    ensures r.name.Some? && r.symbol.Some? && r.decimals.Some?
    ensures d.name.Some? ==> r.name == d.name
    ensures d.symbol.Some? ==> r.symbol == d.symbol
    ensures d.decimals.Some? ==> r.decimals == d.decimals
    ensures d.name.None? ==> r.name == Some("UNKNOWN")
    ensures d.symbol.None? ==> r.symbol == Some("UNKNOWN")
    ensures d.decimals.None? ==> r.decimals == Some(18)
    ensures r.(name := d.name, symbol := d.symbol, decimals := d.decimals) == d
  {
    d.(name := Some(d.name.GetOr("UNKNOWN")),
       symbol := Some(d.symbol.GetOr("UNKNOWN")),
       decimals := Some(d.decimals.GetOr(18)))
  }

  /** Filling missing fields twice is the same as once. */
  lemma ValidatedIdempotent(d: TokenData)
    ensures Validated(Validated(d)) == Validated(d)
  {
  }

  /** Some entry of the list already has this address. */
  predicate HasAddress(tokens: seq<Token>, address: string) {
    exists i :: 0 <= i < |tokens| && tokens[i].address == address
  }

  predicate DistinctAddresses(tokens: seq<Token>) {
    forall i, j :: 0 <= i < j < |tokens| ==> tokens[i].address != tokens[j].address
  }

  /** The zero-price list after `add_zero_price_token(token)`: appended only when its address is new. */
  function WithZeroPrice(tokens: seq<Token>, token: Token): (r: seq<Token>)
    ensures HasAddress(r, token.address)
    ensures |tokens| <= |r| <= |tokens| + 1
    ensures r[..|tokens|] == tokens
    ensures |r| == |tokens| + 1 <==> !HasAddress(tokens, token.address)
  {
    if HasAddress(tokens, token.address) then tokens
    else
      assert (tokens + [token])[|tokens|].address == token.address;
      tokens + [token]
  }

  /** Adding keeps the addresses of the zero-price list distinct. */
  lemma WithZeroPriceDistinct(tokens: seq<Token>, token: Token)
    requires DistinctAddresses(tokens)
    ensures DistinctAddresses(WithZeroPrice(tokens, token))
  {
    if !HasAddress(tokens, token.address) {
      var r := tokens + [token];
      forall i, j | 0 <= i < j < |r| ensures r[i].address != r[j].address {
        if j == |tokens| {
          assert r[i] == tokens[i];
        }
      }
    }
  }

  /** A string is never equal to a stored gauge object. */
  predicate HasEqualElement(objs: seq<PyObj>, address: string) {
    exists i :: 0 <= i < |objs| && objs[i] == Text(address)
  }

  /** The not-alive list after `add_not_alive_gauge`: appended unless some element equals the address string. */
  function WithNotAliveGauge(objs: seq<PyObj>, gaugeAddress: string): (r: seq<PyObj>)
    ensures HasEqualElement(objs, gaugeAddress) ==> r == objs
    ensures !HasEqualElement(objs, gaugeAddress) ==> r == objs + [GaugeObj(gaugeAddress)]
  {
    if HasEqualElement(objs, gaugeAddress) then objs else objs + [GaugeObj(gaugeAddress)]
  }

  predicate AllGauges(objs: seq<PyObj>) {
    forall i :: 0 <= i < |objs| ==> objs[i].GaugeObj?
  }

  /**
   * As written the membership test compares stored gauge objects with an
   * address string, so on a list of gauges it never matches: the same gauge
   * is appended again on every call.
   */
  lemma {:induction false} NotAliveAlwaysAppends(objs: seq<PyObj>, gaugeAddress: string)
    requires AllGauges(objs)
    ensures WithNotAliveGauge(objs, gaugeAddress) == objs + [GaugeObj(gaugeAddress)]
    ensures AllGauges(WithNotAliveGauge(objs, gaugeAddress))
  {
    forall i | 0 <= i < |objs| ensures objs[i] != Text(gaugeAddress) {
      assert objs[i].GaugeObj?;
    }
  }

  /** `validate_token(decimals)`: not None and an int (a bool counts, as in Python). */
  function ValidateToken(decimals: Value): (r: bool)
    ensures r ==> decimals != NoneVal
    ensures r <==> AsPyInt(decimals).Some?
  {
    decimals.IntVal? || decimals.BoolVal?
  }

  /** ModelUteis: the class-level lists, held by one registry object. */
  class ModelUteis {
    var zeroPriceTokens: seq<Token>
    var notAliveGauges: seq<PyObj>

    constructor ()
      ensures zeroPriceTokens == [] && notAliveGauges == []
    {
      zeroPriceTokens, notAliveGauges := [], [];
    }

    /** `ensure_token_validity`: fill missing name, symbol and decimals, then save. */
    static method EnsureTokenValidity(token: Token)
      modifies token`name, token`symbol, token`decimals, token`stored
      ensures token.Data() == Validated(old(token.Data()))
      ensures token.stored == Some(token.Data())
    {
      if token.name.None? {
        token.name := Some("UNKNOWN");
      }
      if token.symbol.None? {
        token.symbol := Some("UNKNOWN");
      }
      if token.decimals.None? {
        token.decimals := Some(18);
      }
      token.Save();
    }

    /** `add_zero_price_token`: append unless a token with the same address is listed. */
    method AddZeroPriceToken(token: Token)
      modifies this`zeroPriceTokens
      ensures zeroPriceTokens == WithZeroPrice(old(zeroPriceTokens), token)
      ensures DistinctAddresses(old(zeroPriceTokens)) ==> DistinctAddresses(zeroPriceTokens)
    {
      if DistinctAddresses(zeroPriceTokens) {
        WithZeroPriceDistinct(zeroPriceTokens, token);
      }
      if !(exists i | 0 <= i < |zeroPriceTokens| :: zeroPriceTokens[i].address == token.address) {
        zeroPriceTokens := zeroPriceTokens + [token];
      }
    }

    /** `add_not_alive_gauge`, comparing stored entries with the address as written. */
    method AddNotAliveGauge(gaugeAddress: string)
      modifies this`notAliveGauges
      ensures notAliveGauges == WithNotAliveGauge(old(notAliveGauges), gaugeAddress)
    {
      if !(exists i | 0 <= i < |notAliveGauges| :: notAliveGauges[i] == Text(gaugeAddress)) {
        notAliveGauges := notAliveGauges + [GaugeObj(gaugeAddress)];
      }
    }
  }
}
