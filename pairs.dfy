/**
 * Pairs (app/pairs/model.py): a pool's record built from its chain state,
 * its total value locked, and the APR its gauge's emissions give it.
 */
module Pairs {
  import opened Wrappers
  import opened Strings
  import opened PyValues
  import opened Tokens
  import Assets
  import Gauges

  /** The pair multicall of `from_chain`; raw on-chain integers. */
  datatype PairCalls = PairCalls(
    reserve0: int,
    reserve1: int,
    token0Address: string,
    token1Address: string,
    totalSupply: int,
    symbol: string,
    decimals: nat,
    stable: bool,
    gaugeAddress: Option<string>)

  /** Chain reads: the pair multicall (None when it raises) and the gauge's reads. */
  datatype PairChain = PairChain(calls: string -> Option<PairCalls>, gauges: Gauges.GaugeChain)

  // ------------------------------------------------------------------- tvl

  /** What one side adds to the TVL: its reserve at its price, for a found token with a nonzero price. */
  function Side(reserve: real, token: Option<TokenData>): (r: real)
    ensures token.None? || token.value.price == 0.0 ==> r == 0.0
    ensures token.Some? && token.value.price != 0.0 ==> r == reserve * token.value.price
  {
    if token.Some? && token.value.price != 0.0 then reserve * token.value.price else 0.0
  }

  /** `_tvl`: both sides, doubled when both tokens are found and one of them is unpriced. */
  function Tvl(reserve0: real, reserve1: real, token0: Option<TokenData>, token1: Option<TokenData>): (r: real)
  {
    var tvl := Side(reserve0, token0) + Side(reserve1, token1);
    if token0.Some? && token1.Some? && tvl != 0.0 && (token0.value.price == 0.0 || token1.value.price == 0.0) then tvl * 2.0
    else tvl
  }

  /** The TVL is doubled exactly when both tokens are found, the sum is not 0 and one price is 0. */
  lemma TvlDoubling(reserve0: real, reserve1: real, token0: Option<TokenData>, token1: Option<TokenData>)
    ensures var sum := Side(reserve0, token0) + Side(reserve1, token1);
      var doubled := token0.Some? && token1.Some? && sum != 0.0 && (token0.value.price == 0.0 || token1.value.price == 0.0);
      (doubled ==> Tvl(reserve0, reserve1, token0, token1) == 2.0 * sum) &&
      (!doubled ==> Tvl(reserve0, reserve1, token0, token1) == sum)
  {
  }

  /** When both tokens are found and one is unpriced, the TVL is twice the priced side. */
  lemma TvlSingleSided(reserve0: real, reserve1: real, t0: TokenData, t1: TokenData)
    requires t1.price == 0.0
    ensures Tvl(reserve0, reserve1, Some(t0), Some(t1)) == 2.0 * reserve0 * t0.price
  {
  }

  /** A missing token is never compensated for: the TVL is the other side alone. */
  lemma TvlMissingToken(reserve0: real, reserve1: real, token0: Option<TokenData>, token1: Option<TokenData>)
    requires token0.None? || token1.None?
    ensures Tvl(reserve0, reserve1, token0, token1) == Side(reserve0, token0) + Side(reserve1, token1)
  {
  }

  /** With nonnegative reserves and prices the TVL is nonnegative. */
  lemma TvlNonNegative(reserve0: real, reserve1: real, token0: Option<TokenData>, token1: Option<TokenData>)
    requires reserve0 >= 0.0 && reserve1 >= 0.0
    requires token0.Some? ==> token0.value.price >= 0.0
    requires token1.Some? ==> token1.value.price >= 0.0
    ensures Tvl(reserve0, reserve1, token0, token1) >= 0.0
  {
  }

  /** 100 at 2 with 50 unpriced gives 400; 100 at 2 with 50 at 3 gives 350; two unpriced tokens give 0. */
  lemma TvlExamples(t: TokenData)
    ensures Tvl(100.0, 50.0, Some(t.(price := 2.0)), Some(t.(price := 0.0))) == 400.0
    ensures Tvl(100.0, 50.0, Some(t.(price := 2.0)), Some(t.(price := 3.0))) == 350.0
    ensures Tvl(100.0, 50.0, Some(t.(price := 0.0)), Some(t.(price := 0.0))) == 0.0
  {
  }

  // ------------------------------------------------------------------- apr

  /** `_update_apr`'s figure: the gauge's daily reward in dollars over the TVL, as a yearly percentage. */
  function PairApr(reward: real, price: real, tvl: real): (r: real)
    requires tvl != 0.0
    ensures r * tvl == reward * price * 100.0 * 365.0
  {
    var daily := ((reward * price) / tvl) * 100.0;
    assert daily * tvl == reward * price * 100.0;
    daily * 365.0
  }

  /** A reward of 10 at price 5 over a TVL of 1000 gives 1825. */
  lemma PairAprExample()
    ensures PairApr(10.0, 5.0, 1000.0) == 1825.0
  {
  }

  // ---------------------------------------------------------------- records

  datatype PairRecord = PairRecord(
    address: string,
    symbol: string,
    decimals: nat,
    stable: bool,
    totalSupply: real,
    reserve0: real,
    reserve1: real,
    token0Address: string,
    token1Address: string,
    gaugeAddress: Option<string>,
    tvl: real,
    apr: real,
    isStable: bool,
    totalSupplyCompat: real)

  /** The pair records in the cache, by address. */
  class PairStore {
    var records: map<string, PairRecord>

    constructor (records: map<string, PairRecord>)
      ensures this.records == records
    {
      this.records := records;
    }
  }

  class Pair {
    const address: string
    const symbol: string
    const decimals: nat
    const stable: bool
    const totalSupply: real
    const reserve0: real
    const reserve1: real
    const token0Address: string
    const token1Address: string
    const gaugeAddress: Option<string>
    const tvl: real
    var apr: real
    const isStable: bool
    const totalSupplyCompat: real

    function Record(): PairRecord
      reads this
    {
      PairRecord(address, symbol, decimals, stable, totalSupply, reserve0, reserve1,
                 token0Address, token1Address, gaugeAddress, tvl, apr, isStable, totalSupplyCompat)
    }

    /** An object holding a record's fields (`Pair.create(**data)`, `Pair.load(address)`). */
    constructor FromRecord(r: PairRecord)
      ensures Record() == r
    {
      address, symbol, decimals, stable := r.address, r.symbol, r.decimals, r.stable;
      totalSupply, reserve0, reserve1 := r.totalSupply, r.reserve0, r.reserve1;
      token0Address, token1Address, gaugeAddress := r.token0Address, r.token1Address, r.gaugeAddress;
      tvl, apr, isStable, totalSupplyCompat := r.tvl, r.apr, r.isStable, r.totalSupplyCompat;
    }

    method Save(store: PairStore)
      modifies store`records
      ensures store.records == old(store.records)[address := Record()]
    {
      store.records := store.records[address := Record()];
    }

    /**
     * `_update_apr`: nothing for a pair without TVL; otherwise the APR from
     * the gauge's reward and the default token's price when both exist,
     * then a save.
     */
    method UpdateApr(gaugeReward: Option<real>, token: Option<TokenData>, store: PairStore)
      modifies this`apr, store`records
      ensures tvl == 0.0 ==> apr == old(apr) && store.records == old(store.records)
      ensures tvl != 0.0 && gaugeReward.Some? && token.Some? ==> apr == PairApr(gaugeReward.value, token.value.price, tvl)
      ensures tvl != 0.0 && (gaugeReward.None? || token.None?) ==> apr == old(apr)
      ensures tvl != 0.0 ==> store.records == old(store.records)[address := Record()]
    {
      if tvl == 0.0 {
        return;
      }
      if token.Some? && gaugeReward.Some? {
        var daily := ((gaugeReward.value * token.value.price) / tvl) * 100.0;
        apr := daily * 365.0;
      }
      Save(store);
    }

    /**
     * `syncup_gauge`: no gauge, no fetch and no change; otherwise the gauge
     * is fetched for this pair and the APR updated from it.
     */
    method SyncupGauge(chain: PairChain, tokens: Assets.TokenCache, settings: Gauges.GaugeSettings, store: PairStore)
      returns (gauge: Option<Gauges.Gauge>)
      modifies this`apr, store`records
      ensures gaugeAddress.None? || gaugeAddress == Some(Gauges.AddressZero) ==>
        gauge.None? && apr == old(apr) && store.records == old(store.records)
      ensures gaugeAddress.Some? && gaugeAddress != Some(Gauges.AddressZero) ==>
        (gauge.Some? <==> Gauges.Prepare(gaugeAddress.value, chain.gauges, tokens, settings).Some? &&
                          Gauges.GaugeRewards(Gauges.Prepare(gaugeAddress.value, chain.gauges, tokens, settings).value,
                                              chain.gauges, Gauges.LookupIn(tokens, settings.defaultDecimal),
                                              Gauges.PairRef(address, token0Address, token1Address)).Some? &&
                          Gauges.RebaseApr(chain.gauges.growth, chain.gauges.circulatingSupply).Some?)
      ensures gaugeAddress.Some? && gaugeAddress != Some(Gauges.AddressZero) && tvl != 0.0 ==>
        store.records == old(store.records)[address := Record()] &&
        (gauge.Some? && Assets.Find(settings.defaultTokenAddress, tokens).Some? ==>
           apr == PairApr(gauge.value.reward, Assets.Find(settings.defaultTokenAddress, tokens).value.price, tvl)) &&
        (gauge.None? || Assets.Find(settings.defaultTokenAddress, tokens).None? ==> apr == old(apr))
      ensures tvl == 0.0 ==> apr == old(apr) && store.records == old(store.records)
      ensures gauge.Some? ==>
        gauge.value.reward == Gauges.Prepare(gaugeAddress.value, chain.gauges, tokens, settings).value.reward
    {
      if gaugeAddress.None? || gaugeAddress == Some(Gauges.AddressZero) {
        return None;
      }
      gauge := Gauges.FromChain(gaugeAddress.value, chain.gauges, tokens, settings,
                                Some(Gauges.PairRef(address, token0Address, token1Address)));
      var reward := if gauge.Some? then Some(gauge.value.reward) else None;
      UpdateApr(reward, Assets.Find(settings.defaultTokenAddress, tokens), store);
    }
  }

  // ---------------------------------------------------------- from_chain

  /** `data["gauge_address"]`: a zero or missing address becomes None, any other is lowercased. */
  function NormalGauge(gaugeAddress: Option<string>): (r: Option<string>)
    ensures r.Some? ==> gaugeAddress.Some? && r == Some(Lower(gaugeAddress.value)) && IsLower(r.value)
    ensures gaugeAddress.None? || gaugeAddress == Some(Gauges.AddressZero) ==> r.None?
  {
    if gaugeAddress.None? || gaugeAddress == Some(Gauges.AddressZero) then None
    else
      LowerIsLower(gaugeAddress.value);
      Some(Lower(gaugeAddress.value))
  }

  /**
   * The record `from_chain` creates, before its gauge is synced. None where
   * the code raises: a failed multicall, or a found token without decimals
   * when both tokens are found.
   */
  function Normalised(address: string, calls: PairCalls, token0: Option<TokenData>, token1: Option<TokenData>): (r: Option<PairRecord>)
    ensures r.None? <==> token0.Some? && token1.Some? && (token0.value.decimals.None? || token1.value.decimals.None?)
    ensures r.Some? ==> r.value == NewRecord(address, calls, token0, token1)
  {
    if token0.Some? && token1.Some? && (token0.value.decimals.None? || token1.value.decimals.None?) then None
    else Some(NewRecord(address, calls, token0, token1))
  }

  /**
   * The fields of a new record: the address lower-cased, the supply scaled
   * by the pair's decimals, the reserves by the tokens' decimals when both
   * tokens are found, and the APR 0.
   */
  function NewRecord(address: string, calls: PairCalls, token0: Option<TokenData>, token1: Option<TokenData>): (p: PairRecord)
    requires token0.Some? && token1.Some? ==> token0.value.decimals.Some? && token1.value.decimals.Some?
    ensures p.address == Lower(address) &&
      p.symbol == calls.symbol && p.decimals == calls.decimals && p.stable == p.isStable == calls.stable &&
      p.totalSupply == Scale(calls.totalSupply as real, calls.decimals) &&
      p.totalSupplyCompat == p.totalSupply &&
      p.token0Address == calls.token0Address && p.token1Address == calls.token1Address &&
      p.gaugeAddress == NormalGauge(calls.gaugeAddress)
    ensures (p.reserve0, p.reserve1) == Reserves(calls, token0, token1)
    ensures p.tvl == Tvl(p.reserve0, p.reserve1, token0, token1) && p.apr == 0.0
  {
    var reserves := Reserves(calls, token0, token1);
    var supply := Scale(calls.totalSupply as real, calls.decimals);
    PairRecord(Lower(address), calls.symbol, calls.decimals, calls.stable, supply, reserves.0, reserves.1,
               calls.token0Address, calls.token1Address, NormalGauge(calls.gaugeAddress),
               Tvl(reserves.0, reserves.1, token0, token1), 0.0, calls.stable, supply)
  }

  /** The reserves: scaled by each token's decimals only when both tokens are found. */
  function Reserves(calls: PairCalls, token0: Option<TokenData>, token1: Option<TokenData>): (r: (real, real))
    requires token0.Some? && token1.Some? ==> token0.value.decimals.Some? && token1.value.decimals.Some?
    ensures token0.Some? && token1.Some? ==>
      r.0 * Unit(token0.value.decimals.value) == calls.reserve0 as real &&
      r.1 * Unit(token1.value.decimals.value) == calls.reserve1 as real
    ensures token0.None? || token1.None? ==> r == (calls.reserve0 as real, calls.reserve1 as real)
  {
    if token0.Some? && token1.Some?
    then (Scale(calls.reserve0 as real, token0.value.decimals.value), Scale(calls.reserve1 as real, token1.value.decimals.value))
    else (calls.reserve0 as real, calls.reserve1 as real)
  }

  /** The record for a multicall result, with both tokens looked up in the token cache. */
  function Created(address: string, calls: PairCalls, tokens: Assets.TokenCache): Option<PairRecord> {
    Normalised(address, calls, Assets.Find(calls.token0Address, tokens), Assets.Find(calls.token1Address, tokens))
  }

  /**
   * The APR `syncup_gauge` leaves on a newly created record: the gauge's
   * daily reward priced in the default token over the TVL, when the record
   * has a gauge and TVL, the gauge builds and the default token is found;
   * otherwise the record's own APR.
   */
  ghost function SyncedApr(created: PairRecord, chain: PairChain, tokens: Assets.TokenCache, settings: Gauges.GaugeSettings): real {
    if created.gaugeAddress.None? || created.gaugeAddress == Some(Gauges.AddressZero) || created.tvl == 0.0 then created.apr
    else
      var p := Gauges.Prepare(created.gaugeAddress.value, chain.gauges, tokens, settings);
      var token := Assets.Find(settings.defaultTokenAddress, tokens);
      if p.Some? &&
         Gauges.GaugeRewards(p.value, chain.gauges, Gauges.LookupIn(tokens, settings.defaultDecimal),
                             Gauges.PairRef(created.address, created.token0Address, created.token1Address)).Some? &&
         Gauges.RebaseApr(chain.gauges.growth, chain.gauges.circulatingSupply).Some? &&
         token.Some?
      then PairApr(p.value.reward, token.value.price, created.tvl)
      else created.apr
  }

  /**
   * `Pair.from_chain`: the old record is deleted, the normalised one
   * created, and its gauge synced. None where the code raises.
   */
  method FromChain(address: string, chain: PairChain, tokens: Assets.TokenCache, settings: Gauges.GaugeSettings, store: PairStore)
    returns (r: Option<Pair>)
    modifies store`records
    ensures chain.calls(Lower(address)).None? ==> r.None? && store.records == old(store.records)
    ensures r.Some? <==>
      chain.calls(Lower(address)).Some? && Created(Lower(address), chain.calls(Lower(address)).value, tokens).Some?
    ensures r.Some? ==> fresh(r.value)
    ensures r.Some? ==>
      var created := Created(Lower(address), chain.calls(Lower(address)).value, tokens).value;
      r.value.Record() == created.(apr := SyncedApr(created, chain, tokens, settings)) &&
      Lower(address) in store.records && store.records[Lower(address)] == r.value.Record() &&
      (forall a :: a in old(store.records) && a != Lower(address) ==> a in store.records && store.records[a] == old(store.records)[a]) &&
      (forall a :: a in store.records && a != Lower(address) ==> a in old(store.records))
  {
    var lowered := Lower(address);
    LowerIsLower(address);
    var calls := chain.calls(lowered);
    if calls.None? {
      return None;
    }
    var token0 := Assets.Find(calls.value.token0Address, tokens);
    var token1 := Assets.Find(calls.value.token1Address, tokens);
    var data := Normalised(lowered, calls.value, token0, token1);
    if data.None? {
      return None;
    }
    store.records := store.records - {lowered};
    var pair := new Pair.FromRecord(data.value);
    pair.Save(store);
    var gauge := pair.SyncupGauge(chain, tokens, settings, store);
    return Some(pair);
  }

  /** `Pair.find`: no address, no pair; a cached record is loaded; otherwise the pair is fetched. */
  method Find(address: Option<string>, chain: PairChain, tokens: Assets.TokenCache, settings: Gauges.GaugeSettings, store: PairStore)
    returns (r: Option<Pair>)
    modifies store`records
    ensures address.None? ==> r.None? && store.records == old(store.records)
    ensures address.Some? && Lower(address.value) in old(store.records) ==>
      r.Some? && fresh(r.value) && r.value.Record() == old(store.records)[Lower(address.value)] &&
      store.records == old(store.records)
    ensures address.Some? && Lower(address.value) !in old(store.records) ==>
      (r.Some? <==> chain.calls(Lower(address.value)).Some? &&
                    Created(Lower(address.value), chain.calls(Lower(address.value)).value, tokens).Some?)
  {
    if address.None? {
      return None;
    }
    var key := Lower(address.value);
    if key in store.records {
      var pair := new Pair.FromRecord(store.records[key]);
      return Some(pair);
    }
    r := FromChain(key, chain, tokens, settings, store);
    LowerIsLower(address.value);
  }
}
