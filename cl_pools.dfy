/**
 * The concentrated-liquidity pool aggregation (app/cl/pools.py): the
 * subgraph tokens and pools reshaped into dicts, then pool by pool the tvl,
 * the fee APR over the last week, the contract reads, the vote bribes, the
 * gauge reward rates and the LP and vote APRs; `get_cl_pools` with its
 * fallback and the `get_mixed_pairs` merge.
 */
module ClPools {
  import opened Wrappers
  import opened Strings
  import opened PyValues
  import opened Multicall
  import Dicts

  // ------------------------------------------------------------------ clock

  const Week: int := 604800
  const Day: int := 86400

  /** `x // d * d` for a positive `d` lies in the `d`-wide step ending above `x`. */
  lemma FloorStep(x: real, d: int)
    requires d > 0
    ensures ((x / d as real).Floor * d) as real <= x < ((x / d as real).Floor * d + d) as real
  {
    var y := x / d as real;
    var q := y.Floor;
    var dr := d as real;
    assert y * dr == x;
    ScaledBounds(q as real, y, dr);
    calc {
      x;
    ==
      y * dr;
    <
      (q as real + 1.0) * dr;
    ==
      q as real * dr + dr;
    ==
      (q * d + d) as real;
    }
    assert (q * d) as real == q as real * dr;
  }

  /** Scaling by a positive factor keeps `q <= y < q + 1`. */
  lemma ScaledBounds(q: real, y: real, c: real)
    requires q <= y < q + 1.0 && c > 0.0
    ensures q * c <= y * c < (q + 1.0) * c
  {
    assert (y - q) * c >= 0.0;
    assert (q + 1.0 - y) * c > 0.0;
  }

  /** `int(now // week * week + week)`: the first week boundary strictly after `now`. */
  function Period(now: real): (r: int)
    ensures r % Week == 0
    ensures now < r as real <= now + Week as real
  {
    FloorStep(now, Week);
    (now / Week as real).Floor * Week + Week
  }

  /** `time.time() // 86400 * 86400`: the start of the current day. */
  function Today(clock: real): (r: int)
    ensures r % Day == 0
    ensures r as real <= clock < (r + Day) as real
  {
    FloorStep(clock, Day);
    (clock / Day as real).Floor * Day
  }

  /** The oldest day date the fee APR still counts: seven days before today. */
  function Cutoff(clock: real): (r: int)
    ensures r == Today(clock) - 7 * Day
  {
    Today(clock) - 7 * Day
  }

  // ----------------------------------------------------------------- tokens

  /** A subgraph token once `price` is a float and `decimals` an int; its `type` is dropped at the end. */
  datatype ClToken = ClToken(id: string, name: string, symbol: string, decimals: nat, price: real)

  type Tokens = Dicts.Dict<string, ClToken>

  /** The `(id, token)` pairs `tokens[token["id"]] = token` assigns, in list order. */
  function TokenItems(list: seq<ClToken>): (r: seq<(string, ClToken)>)
    ensures |r| == |list| && forall i :: 0 <= i < |list| ==> r[i] == (list[i].id, list[i])
  {
    seq(|list|, i requires 0 <= i < |list| => (list[i].id, list[i]))
  }

  /** The first loop of `_fetch_pools`: the tokens keyed by id, a later token with the same id winning. */
  method IndexTokens(list: seq<ClToken>) returns (tokens: Tokens)
    ensures tokens == Dicts.FromItems(TokenItems(list))
  {
    tokens := [];
    ghost var items := TokenItems(list);
    for i := 0 to |list|
      invariant tokens == Dicts.FromItems(items[..i])
    {
      assert items[..i + 1][..i] == items[..i];
      tokens := Dicts.Put(tokens, list[i].id, list[i]);
    }
    assert items[..|list|] == items;
  }

  /** A token is found by its id, and it is the last token of the list with that id. */
  lemma IndexTokensLastWins(list: seq<ClToken>, id: string)
    ensures var found := Dicts.Get(Dicts.FromItems(TokenItems(list)), id);
      (found.Some? <==> exists i :: 0 <= i < |list| && list[i].id == id) &&
      (found.Some? ==> exists i :: 0 <= i < |list| && found.value == list[i] && list[i].id == id &&
                         forall j :: i < j < |list| ==> list[j].id != id)
  {
    var items := TokenItems(list);
    Dicts.FromItemsLastWins(items, id);
    var last := Dicts.LastWith(items, id);
    if last.None? {
      assert forall i :: 0 <= i < |list| ==> items[i].0 == list[i].id;
    }
  }

  // ------------------------------------------------------------------ pools

  datatype PoolToken = PoolToken(id: string, symbol: string, decimals: nat)

  /** A gauge or fee distributor: its address and its reward tokens. */
  datatype Rewarded = Rewarded(id: string, rewardTokens: seq<string>)

  datatype DayData = DayData(date: int, feesUSD: real, tvlUSD: real, liquidity: int, volumeToken0: real, volumeToken1: real)

  /** A pool as the subgraph lists it; `gauge` is None when it is missing, null or empty. */
  datatype PoolInput = PoolInput(
    id: string, token0: PoolToken, token1: PoolToken, feeTier: nat, liquidity: int,
    totalValueLockedUSD: real, totalValueLockedToken0: real, totalValueLockedToken1: real,
    sqrtPrice: real, gauge: Option<Rewarded>, feeDistributor: Rewarded, poolDayData: seq<DayData>)

  /** `pool["projectedFees"]`: fees projected per token for the voters, the days counted and their APR. */
  datatype ProjectedFees = ProjectedFees(tokens: Dicts.Dict<string, int>, apr: real, days: nat)

  /** A kept pool as `_fetch_pools` reshapes and then fills it in. */
  datatype Pool = Pool(
    id: string, symbol: string, token0: PoolToken, token1: PoolToken, feeTier: nat,
    liquidity: int, totalSupply: int, isStable: bool, tvl: real, reserve0: real, reserve1: real,
    price: real, voteBribes: Dicts.Dict<string, nat>, totalVeShareByPeriod: nat,
    projectedFees: ProjectedFees, gauge: Rewarded, feeDistributor: Rewarded, poolDayData: seq<DayData>,
    feesUSD: real, averageUsdInRange: real, feeApr: real, initialFee: string,
    lpApr: real, lpAprOld: real, voteApr: real)

  type Pools = Dicts.Dict<string, Pool>

  /** `2 ** 96`, the fixed-point scale of `sqrtPrice`. */
  const Q96: real := 79228162514264337593543950336.0

  /** The pool symbol: "CL-", both token symbols and the fee tier in percent, joined by "-". */
  function Symbol(p: PoolInput, floatText: real -> string): string {
    "CL-" + p.token0.symbol + "-" + p.token1.symbol + "-" + floatText(p.feeTier as real / 10000.0) + "%"
  }

  /** When no part contains "-", the symbol splits back into "CL", the two symbols and the fee text. */
  lemma SymbolParts(p: PoolInput, floatText: real -> string)
    requires '-' !in p.token0.symbol && '-' !in p.token1.symbol
    requires '-' !in floatText(p.feeTier as real / 10000.0)
    ensures Split(Symbol(p, floatText), '-') ==
      ["CL", p.token0.symbol, p.token1.symbol, floatText(p.feeTier as real / 10000.0) + "%"]
  {
    var s0, s1 := p.token0.symbol, p.token1.symbol;
    var fee := floatText(p.feeTier as real / 10000.0) + "%";
    assert '-' !in fee;
    assert Symbol(p, floatText) == "CL" + ['-'] + (s0 + ['-'] + (s1 + ['-'] + fee));
    SplitCons("CL", s0 + ['-'] + (s1 + ['-'] + fee), '-');
    SplitCons(s0, s1 + ['-'] + fee, '-');
    SplitJoin(s1, fee, '-');
  }

  /** The reshaping of a pool that has a gauge; the fields set by later steps start at 0. */
  function Shape(p: PoolInput, gauge: Rewarded, floatText: real -> string): (r: Pool)
    ensures r.id == p.id && r.gauge == gauge && r.totalSupply == r.liquidity == p.liquidity && r.isStable
    ensures r.reserve0 == p.totalValueLockedToken0 * Unit(p.token0.decimals)
    ensures r.reserve1 == p.totalValueLockedToken1 * Unit(p.token1.decimals)
    ensures r.voteBribes == [] && r.totalVeShareByPeriod == 0 && r.projectedFees == ProjectedFees([], 0.0, 0)
  {
    var root := p.sqrtPrice / Q96;
    Pool(p.id, Symbol(p, floatText), p.token0, p.token1, p.feeTier, p.liquidity, p.liquidity, true,
         p.totalValueLockedUSD,
         p.totalValueLockedToken0 * Unit(p.token0.decimals),
         p.totalValueLockedToken1 * Unit(p.token1.decimals),
         root * root, [], 0, ProjectedFees([], 0.0, 0), gauge, p.feeDistributor, p.poolDayData,
         0.0, 0.0, 0.0, "", 0.0, 0.0, 0.0)
  }

  /** The `(id, pool)` assignments of the second loop: only pools with a truthy gauge, reshaped. */
  function Kept(list: seq<PoolInput>, floatText: real -> string): seq<(string, Pool)> {
    if list == [] then []
    else
      var last := list[|list| - 1];
      Kept(list[..|list| - 1], floatText) +
        if last.gauge.Some? then [(last.id, Shape(last, last.gauge.value, floatText))] else []
  }

  /** The assignments are exactly those of the pools that have a gauge. */
  lemma {:induction false} KeptSpec(list: seq<PoolInput>, floatText: real -> string)
    ensures forall e :: e in Kept(list, floatText) <==>
      exists i :: 0 <= i < |list| && list[i].gauge.Some? && e == (list[i].id, Shape(list[i], list[i].gauge.value, floatText))
  {
    if list != [] {
      var init := list[..|list| - 1];
      KeptSpec(init, floatText);
      assert forall i :: 0 <= i < |init| ==> init[i] == list[i];
    }
  }

  /** The second loop of `_fetch_pools`: the pools with a gauge, reshaped and keyed by id. */
  method ShapePools(list: seq<PoolInput>, floatText: real -> string) returns (pools: Pools)
    ensures pools == Dicts.FromItems(Kept(list, floatText))
  {
    pools := [];
    for i := 0 to |list|
      invariant pools == Dicts.FromItems(Kept(list[..i], floatText))
    {
      assert list[..i + 1][..i] == list[..i];
      var pool := list[i];
      if pool.gauge.Some? {
        ghost var items := Kept(list[..i], floatText);
        ghost var item := (pool.id, Shape(pool, pool.gauge.value, floatText));
        assert Kept(list[..i + 1], floatText) == items + [item];
        assert (items + [item])[..|items|] == items;
        assert Dicts.FromItems(items + [item]) == Dicts.Put(Dicts.FromItems(items), item.0, item.1);
        pools := Dicts.Put(pools, pool.id, Shape(pool, pool.gauge.value, floatText));
      } else {
        assert Kept(list[..i + 1], floatText) == Kept(list[..i], floatText) + [];
        assert Kept(list[..i], floatText) + [] == Kept(list[..i], floatText);
      }
    }
    assert list[..|list|] == list;
  }

  /** Every kept pool has a gauge, and a pool with a gauge is kept. */
  lemma ShapedPoolsHaveGauges(list: seq<PoolInput>, floatText: real -> string)
    ensures forall e :: e in Dicts.FromItems(Kept(list, floatText)) ==>
      exists i :: 0 <= i < |list| && list[i].gauge.Some? && e.0 == list[i].id && e.1.gauge == list[i].gauge.value
    ensures forall i :: 0 <= i < |list| && list[i].gauge.Some? ==> Dicts.HasKey(Dicts.FromItems(Kept(list, floatText)), list[i].id)
  {
    KeptSpec(list, floatText);
    Dicts.FromItemsEntries(Kept(list, floatText));
    forall i | 0 <= i < |list| && list[i].gauge.Some?
      ensures Dicts.HasKey(Dicts.FromItems(Kept(list, floatText)), list[i].id)
    {
      var items := Kept(list, floatText);
      assert (list[i].id, Shape(list[i], list[i].gauge.value, floatText)) in items;
      Dicts.FromItemsLastWins(items, list[i].id);
    }
  }

  // ------------------------------------------------------------- pool loops

  /** A loop over the pools that replaces each pool by `f` of it, raising where `f` fails. */
  function UpdateAll(pools: Pools, f: Pool -> Option<Pool>): (r: Option<Pools>)
    ensures r.Some? ==> |r.value| == |pools|
  {
    if pools == [] then Some([])
    else match UpdateAll(pools[..|pools| - 1], f)
      case None => None
      case Some(done) =>
        var last := pools[|pools| - 1];
        match f(last.1)
        case None => None
        case Some(p) => Some(done + [(last.0, p)])
  }

  /** The loop succeeds exactly when `f` succeeds on every pool, and then keeps the keys and replaces each pool. */
  lemma {:induction false} UpdateAllSpec(pools: Pools, f: Pool -> Option<Pool>)
    ensures var r := UpdateAll(pools, f);
      (r.Some? <==> forall i :: 0 <= i < |pools| ==> f(pools[i].1).Some?) &&
      (r.Some? ==> forall i :: 0 <= i < |pools| ==> r.value[i] == (pools[i].0, f(pools[i].1).value))
  {
    if pools != [] {
      var init := pools[..|pools| - 1];
      UpdateAllSpec(init, f);
      assert forall i :: 0 <= i < |init| ==> init[i] == pools[i];
    }
  }

  /** A pool `f` fails on fails the whole loop. */
  lemma UpdateAllFails(pools: Pools, i: nat, f: Pool -> Option<Pool>)
    requires i < |pools| && f(pools[i].1).None?
    ensures UpdateAll(pools, f).None?
  {
    UpdateAllSpec(pools, f);
  }

  /** One more pool done: the loop over a prefix grows by that pool. */
  lemma UpdateAllStep(pools: Pools, i: nat, f: Pool -> Option<Pool>, done: Pools)
    requires i < |pools| && UpdateAll(pools[..i], f) == Some(done) && f(pools[i].1).Some?
    ensures UpdateAll(pools[..i + 1], f) == Some(done + [(pools[i].0, f(pools[i].1).value)])
  {
    assert pools[..i + 1][..i] == pools[..i];
  }

  /** One pool of the loop replaced by its updated form: the invariant of the update loops, one index further. */
  lemma UpdateAllAssign(pools: Pools, i: nat, f: Pool -> Option<Pool>, updated: Pools, p: Pool)
    requires i < |pools| && |updated| == |pools| && updated[i..] == pools[i..]
    requires UpdateAll(pools[..i], f) == Some(updated[..i]) && f(pools[i].1) == Some(p)
    ensures var next := updated[i := (pools[i].0, p)];
      |next| == |pools| && next[i + 1..] == pools[i + 1..] && UpdateAll(pools[..i + 1], f) == Some(next[..i + 1])
  {
    UpdateAllStep(pools, i, f, updated[..i]);
    var next := updated[i := (pools[i].0, p)];
    assert next[..i + 1] == updated[..i] + [(pools[i].0, p)];
    assert updated[i + 1..] == updated[i..][1..];
    assert pools[i + 1..] == pools[i..][1..];
  }

  // -------------------------------------------------------------------- tvl

  /** `amount * price / 10 ** decimals`: a raw amount of a listed token in USD. */
  function Worth(amount: real, token: ClToken): real {
    amount * token.price / Unit(token.decimals)
  }

  /** An amount scaled up by the token's own decimals is worth the unscaled amount times the price. */
  lemma WorthScaled(amount: real, locked: real, token: ClToken)
    requires amount == locked * Unit(token.decimals)
    ensures Worth(amount, token) == locked * token.price
  {
    var scale := Unit(token.decimals);
    assert amount * token.price / scale == locked * token.price;
  }

  /** The worth of both reserves; None (KeyError) when either token is not listed. */
  function PoolTvl(pool: Pool, tokens: Tokens): (r: Option<real>)
    ensures r.Some? <==> Dicts.HasKey(tokens, pool.token0.id) && Dicts.HasKey(tokens, pool.token1.id)
  {
    var token0, token1 := Dicts.Get(tokens, pool.token0.id), Dicts.Get(tokens, pool.token1.id);
    if token0.None? || token1.None? then None
    else Some(Worth(pool.reserve0, token0.value) + Worth(pool.reserve1, token1.value))
  }

  /**
   * When the reserves are the locked amounts scaled by the listed decimals,
   * the scaling cancels: the tvl is each locked amount times its price.
   */
  lemma PoolTvlLocked(pool: Pool, tokens: Tokens, token0: ClToken, token1: ClToken, locked0: real, locked1: real)
    requires Dicts.Get(tokens, pool.token0.id) == Some(token0) && Dicts.Get(tokens, pool.token1.id) == Some(token1)
    requires pool.reserve0 == locked0 * Unit(token0.decimals)
    requires pool.reserve1 == locked1 * Unit(token1.decimals)
    ensures PoolTvl(pool, tokens) == Some(locked0 * token0.price + locked1 * token1.price)
  {
    WorthScaled(pool.reserve0, locked0, token0);
    WorthScaled(pool.reserve1, locked1, token1);
  }

  function TvlStep(tokens: Tokens): Pool -> Option<Pool> {
    pool => match PoolTvl(pool, tokens) case Some(tvl) => Some(pool.(tvl := tvl)) case None => None
  }

  /** The tvl loop: every pool's tvl recomputed from its reserves and the listed prices. */
  method ProcessTvl(pools: Pools, tokens: Tokens) returns (r: Option<Pools>)
    ensures r == UpdateAll(pools, TvlStep(tokens))
  {
    var updated := pools;
    for i := 0 to |pools|
      invariant |updated| == |pools| && updated[i..] == pools[i..]
      invariant UpdateAll(pools[..i], TvlStep(tokens)) == Some(updated[..i])
    {
      var tvl := PoolTvl(pools[i].1, tokens);
      if tvl.None? {
        UpdateAllFails(pools, i, TvlStep(tokens));
        return None;
      }
      UpdateAllAssign(pools, i, TvlStep(tokens), updated, pools[i].1.(tvl := tvl.value));
      updated := updated[i := (pools[i].0, pools[i].1.(tvl := tvl.value))];
    }
    assert pools[..|pools|] == pools && updated[..|pools|] == updated;
    return Some(updated);
  }

  // ---------------------------------------------------------------- fee apr

  /** `fee_distribution.json`: the shares of the fees that go to LPs and to veVARA voters. */
  datatype FeeDistribution = FeeDistribution(lp: real, veVara: real)

  /** `list(filter(lambda day: int(day["date"]) >= cutoff, days))`. */
  function ValidDays(days: seq<DayData>, cutoff: int): (r: seq<DayData>)
    ensures |r| <= |days|
    ensures forall d :: d in r <==> d in days && d.date >= cutoff
  {
    if days == [] then []
    else
      var last := days[|days| - 1];
      assert forall d :: d in days <==> d in days[..|days| - 1] || d == last;
      ValidDays(days[..|days| - 1], cutoff) + if last.date >= cutoff then [last] else []
  }

  /** `int(x)` of a float: truncation toward zero. */
  function Trunc(x: real): (r: int)
    ensures x >= 0.0 ==> 0 <= r && r as real <= x < r as real + 1.0
    ensures x < 0.0 ==> r <= 0 && r as real - 1.0 < x <= r as real
  {
    if x >= 0.0 then x.Floor else -((-x).Floor)
  }

  /** A day's usd in range: `range_tvl` for the day's liquidity, capped at the day's tvlUSD. */
  function InRange(pool: Pool, day: DayData, rangeTvl: (string, int) -> real): (r: real)
    ensures r <= day.tvlUSD
    ensures r == rangeTvl(pool.id, day.liquidity) || r == day.tvlUSD
    ensures rangeTvl(pool.id, day.liquidity) <= day.tvlUSD ==> r == rangeTvl(pool.id, day.liquidity)
  {
    var usd := rangeTvl(pool.id, day.liquidity);
    if usd > day.tvlUSD then day.tvlUSD else usd
  }

  /** The voters' share of a day's fees in one token, in raw units. */
  function ProjectedFee(volume: real, feeTier: nat, decimals: nat, veVara: real): int {
    Trunc(volume * feeTier as real / 1000000.0 * Unit(decimals) * veVara)
  }

  /** What the day loop accumulates: fees, usd in range, days, and the projected fees of each token. */
  datatype Totals = Totals(feesUSD: real, usdInRange: real, days: nat, fees0: int, fees1: int)

  function AddDay(t: Totals, pool: Pool, day: DayData, decimals0: nat, decimals1: nat,
                  rangeTvl: (string, int) -> real, veVara: real): Totals
  {
    Totals(t.feesUSD + day.feesUSD, t.usdInRange + InRange(pool, day, rangeTvl), t.days + 1,
           t.fees0 + ProjectedFee(day.volumeToken0, pool.feeTier, decimals0, veVara),
           t.fees1 + ProjectedFee(day.volumeToken1, pool.feeTier, decimals1, veVara))
  }

  /** The sum of the days' tvlUSD. */
  function TvlSum(days: seq<DayData>): real {
    if days == [] then 0.0 else TvlSum(days[..|days| - 1]) + days[|days| - 1].tvlUSD
  }

  /** The sum of the days' feesUSD. */
  function FeesSum(days: seq<DayData>): real {
    if days == [] then 0.0 else FeesSum(days[..|days| - 1]) + days[|days| - 1].feesUSD
  }

  /** The day loop: every day counted once, its fees summed, its usd in range never above its tvlUSD. */
  function DayTotals(days: seq<DayData>, pool: Pool, decimals0: nat, decimals1: nat,
                     rangeTvl: (string, int) -> real, veVara: real): (r: Totals)
    ensures r.days == |days|
    ensures r.feesUSD == FeesSum(days)
    ensures r.usdInRange <= TvlSum(days)
  {
    if days == [] then Totals(0.0, 0.0, 0, 0, 0)
    else AddDay(DayTotals(days[..|days| - 1], pool, decimals0, decimals1, rangeTvl, veVara),
                pool, days[|days| - 1], decimals0, decimals1, rangeTvl, veVara)
  }

  /** `usd_in_range / len(valid_days)`, or 1 without days. */
  function Average(sum: real, days: nat): (r: real)
    ensures days > 0 ==> r * days as real == sum
    ensures days == 0 ==> r == 1.0
  {
    if days > 0 then sum / days as real else 1.0
  }

  /** `fees / usd_in_range * 100 * lp * 365`, 0 where the division raises ZeroDivisionError. */
  function FeeApr(feesUSD: real, usdInRange: real, lp: real): (r: real)
    ensures usdInRange == 0.0 ==> r == 0.0
  {
    if usdInRange == 0.0 then 0.0 else feesUSD / usdInRange * 100.0 * lp * 365.0
  }

  /** Away from zero, the fee APR is the yearly fee return on the usd in range, in percent. */
  lemma FeeAprRatio(feesUSD: real, usdInRange: real, lp: real)
    requires usdInRange != 0.0
    ensures FeeApr(feesUSD, usdInRange, lp) * usdInRange == feesUSD * 36500.0 * lp
  {
    var q := feesUSD / usdInRange;
    assert q * usdInRange == feesUSD;
    calc {
      FeeApr(feesUSD, usdInRange, lp) * usdInRange;
      q * 100.0 * lp * 365.0 * usdInRange;
      (q * usdInRange) * 36500.0 * lp;
    }
  }

  /** The projected-fees dict: both tokens set to 0, then each day's fees added; one entry when both ids agree. */
  function ProjectedTokens(d: Dicts.Dict<string, int>, id0: string, id1: string, fees0: int, fees1: int): (r: Dicts.Dict<string, int>)
  {
    if id0 == id1 then Dicts.Put(d, id0, fees0 + fees1) else Dicts.Put(Dicts.Put(d, id0, fees0), id1, fees1)
  }

  /** On an empty dict, the projected fees read back per token, summed when both ids agree. */
  lemma ProjectedTokensRead(id0: string, id1: string, fees0: int, fees1: int)
    ensures id0 != id1 ==> Dicts.Get(ProjectedTokens([], id0, id1, fees0, fees1), id0) == Some(fees0) &&
                           Dicts.Get(ProjectedTokens([], id0, id1, fees0, fees1), id1) == Some(fees1)
    ensures id0 == id1 ==> ProjectedTokens([], id0, id1, fees0, fees1) == [(id0, fees0 + fees1)]
  {
    if id0 != id1 {
      Dicts.PutFacts([], id0, fees0);
      Dicts.PutFacts(Dicts.Put([], id0, fees0), id1, fees1);
    }
  }

  /** The fee APR step for one pool; None (KeyError) when either of its tokens is not listed. */
  function FeeOf(pool: Pool, tokens: Tokens, cutoff: int, rangeTvl: (string, int) -> real, dist: FeeDistribution): (r: Option<Pool>)
    ensures r.Some? <==> Dicts.HasKey(tokens, pool.token0.id) && Dicts.HasKey(tokens, pool.token1.id)
  {
    var token0, token1 := Dicts.Get(tokens, pool.token0.id), Dicts.Get(tokens, pool.token1.id);
    if token0.None? || token1.None? then None
    else
      var t := DayTotals(ValidDays(pool.poolDayData, cutoff), pool, token0.value.decimals, token1.value.decimals, rangeTvl, dist.veVara);
      Some(pool.(feesUSD := t.feesUSD,
                 projectedFees := pool.projectedFees.(
                   days := t.days,
                   tokens := ProjectedTokens(pool.projectedFees.tokens, pool.token0.id, pool.token1.id, t.fees0, t.fees1)),
                 averageUsdInRange := Average(t.usdInRange, t.days),
                 feeApr := FeeApr(t.feesUSD, t.usdInRange, dist.lp)))
  }

  /**
   * The fee step in figures: the fees and days are those of the valid days,
   * and without usd in range (in particular without valid days) the fee APR is 0.
   */
  lemma FeeOfFacts(pool: Pool, tokens: Tokens, cutoff: int, rangeTvl: (string, int) -> real, dist: FeeDistribution)
    requires FeeOf(pool, tokens, cutoff, rangeTvl, dist).Some?
    ensures var r := FeeOf(pool, tokens, cutoff, rangeTvl, dist).value;
      var valid := ValidDays(pool.poolDayData, cutoff);
      r.feesUSD == FeesSum(valid) && r.projectedFees.days == |valid| &&
      (valid == [] ==> r.feeApr == 0.0 && r.averageUsdInRange == 1.0) &&
      r.id == pool.id && r.tvl == pool.tvl
  {
  }

  method FeeAprOf(pool: Pool, tokens: Tokens, cutoff: int, rangeTvl: (string, int) -> real, dist: FeeDistribution)
    returns (r: Option<Pool>)
    ensures r == FeeOf(pool, tokens, cutoff, rangeTvl, dist)
  {
    var token0 := Dicts.Get(tokens, pool.token0.id);
    var token1 := Dicts.Get(tokens, pool.token1.id);
    if token0.None? || token1.None? {
      return None;
    }
    var valid := ValidDays(pool.poolDayData, cutoff);
    var totals := Totals(0.0, 0.0, 0, 0, 0);
    for i := 0 to |valid|
      invariant totals == DayTotals(valid[..i], pool, token0.value.decimals, token1.value.decimals, rangeTvl, dist.veVara)
    {
      assert valid[..i + 1][..i] == valid[..i];
      totals := AddDay(totals, pool, valid[i], token0.value.decimals, token1.value.decimals, rangeTvl, dist.veVara);
    }
    assert valid[..|valid|] == valid;
    var projected := ProjectedTokens(pool.projectedFees.tokens, pool.token0.id, pool.token1.id, totals.fees0, totals.fees1);
    return Some(pool.(feesUSD := totals.feesUSD,
                      projectedFees := pool.projectedFees.(days := totals.days, tokens := projected),
                      averageUsdInRange := Average(totals.usdInRange, totals.days),
                      feeApr := FeeApr(totals.feesUSD, totals.usdInRange, dist.lp)));
  }

  function FeeStep(tokens: Tokens, cutoff: int, rangeTvl: (string, int) -> real, dist: FeeDistribution): Pool -> Option<Pool> {
    pool => FeeOf(pool, tokens, cutoff, rangeTvl, dist)
  }

  /** The fee APR loop over the pools. */
  method ProcessFees(pools: Pools, tokens: Tokens, cutoff: int, rangeTvl: (string, int) -> real, dist: FeeDistribution)
    returns (r: Option<Pools>)
    ensures r == UpdateAll(pools, FeeStep(tokens, cutoff, rangeTvl, dist))
  {
    ghost var f := FeeStep(tokens, cutoff, rangeTvl, dist);
    var updated := pools;
    for i := 0 to |pools|
      invariant |updated| == |pools| && updated[i..] == pools[i..]
      invariant UpdateAll(pools[..i], f) == Some(updated[..i])
    {
      var pool := FeeAprOf(pools[i].1, tokens, cutoff, rangeTvl, dist);
      assert pool == f(pools[i].1);
      if pool.None? {
        UpdateAllFails(pools, i, f);
        return None;
      }
      UpdateAllAssign(pools, i, f, updated, pool.value);
      updated := updated[i := (pools[i].0, pool.value)];
    }
    assert pools[..|pools|] == pools && updated[..|pools|] == updated;
    return Some(updated);
  }

  // ---------------------------------------------------------- contract reads

  /** The contract reads of the aggregation, as functions of their arguments. */
  datatype ClChain = ClChain(
    veShare: (string, int) -> nat,               // totalVeShareByPeriod(period) of a fee distributor
    bribeSupply: (string, int, string) -> nat,   // tokenTotalSupplyByPeriod(period, token) of a fee distributor
    fee: string -> nat,                          // fee() of a pool
    rewardRate: (string, string) -> nat,         // rewardRate(token) of a gauge
    rangeTvl: (string, int) -> real)             // range_tvl of a pool at a liquidity

  /** The share and fee reads for one pool: the share added to the pool's, the fee as its decimal text. */
  function ReadsOf(pool: Pool, chain: ClChain, period: int): (r: Pool)
    ensures r.totalVeShareByPeriod == pool.totalVeShareByPeriod + chain.veShare(pool.feeDistributor.id, period)
    ensures AllDigits(r.initialFee) && DigitsValue(r.initialFee) == chain.fee(pool.id)
    ensures r.(totalVeShareByPeriod := pool.totalVeShareByPeriod, initialFee := pool.initialFee) == pool
  {
    NatToStringRoundTrip(chain.fee(pool.id));
    pool.(totalVeShareByPeriod := pool.totalVeShareByPeriod + chain.veShare(pool.feeDistributor.id, period),
          initialFee := NatToString(chain.fee(pool.id)))
  }

  function ReadsStep(chain: ClChain, period: int): Pool -> Option<Pool> {
    pool => Some(ReadsOf(pool, chain, period))
  }

  /** The two multicall loops that add each pool's vote share and set its initial fee. */
  method ProcessReads(pools: Pools, chain: ClChain, period: int) returns (r: Pools)
    ensures UpdateAll(pools, ReadsStep(chain, period)) == Some(r)
  {
    ghost var f := ReadsStep(chain, period);
    r := pools;
    for i := 0 to |pools|
      invariant |r| == |pools| && r[i..] == pools[i..]
      invariant UpdateAll(pools[..i], f) == Some(r[..i])
    {
      UpdateAllAssign(pools, i, f, r, ReadsOf(pools[i].1, chain, period));
      r := r[i := (pools[i].0, ReadsOf(pools[i].1, chain, period))];
    }
    assert pools[..|pools|] == pools && r[..|pools|] == r;
  }

  // ------------------------------------------------------------- vote bribes

  /** The bribe calls, pool by pool and token by token, each with the amount the distributor reports. */
  function BribeCalls(pools: Pools, chain: ClChain, period: int): seq<(string, nat)> {
    if pools == [] then []
    else
      var last := pools[|pools| - 1];
      var distributor := last.1.feeDistributor;
      BribeCalls(pools[..|pools| - 1], chain, period) +
        KeyedCalls(last.0, distributor.rewardTokens, token => chain.bribeSupply(distributor.id, period, token))
  }

  /**
   * One result of the bribe multicall: the key split into pool and token
   * (ValueError unless exactly two parts) and, for a positive amount only,
   * the amount recorded under the token in the pool's vote bribes (KeyError
   * for an unknown pool).
   */
  function BribeStep(pools: Pools, key: string, value: nat): Option<Pools> {
    var parts := Split(key, '-');
    if |parts| != 2 then None
    else if value > 0 then
      match Dicts.Get(pools, parts[0])
      case None => None
      case Some(pool) => Some(Dicts.Put(pools, parts[0], pool.(voteBribes := Dicts.Put(pool.voteBribes, parts[1], value))))
    else Some(pools)
  }

  /**
   * A zero amount records nothing; a positive amount is recorded under its
   * token in its pool's bribes, and every other pool and bribe is kept.
   */
  lemma BribeStepFacts(pools: Pools, pool: string, token: string, value: nat)
    requires Dicts.DistinctKeys(pools) && Dicts.HasKey(pools, pool)
    requires '-' !in pool && '-' !in token
    requires Dicts.DistinctKeys(Dicts.Get(pools, pool).value.voteBribes)
    ensures var r := BribeStep(pools, Key(pool, token), value);
      r.Some? &&
      (value == 0 ==> r.value == pools) &&
      (value > 0 ==>
         Dicts.HasKey(r.value, pool) &&
         Dicts.Get(Dicts.Get(r.value, pool).value.voteBribes, token) == Some(value) &&
         (forall t :: t != token ==> Dicts.Get(Dicts.Get(r.value, pool).value.voteBribes, t) ==
                                     Dicts.Get(Dicts.Get(pools, pool).value.voteBribes, t)) &&
         (forall p :: p != pool ==> Dicts.Get(r.value, p) == Dicts.Get(pools, p)))
  {
    KeySplit(pool, token);
    if value > 0 {
      var before := Dicts.Get(pools, pool).value;
      Dicts.PutFacts(before.voteBribes, token, value);
      Dicts.PutFacts(pools, pool, before.(voteBribes := Dicts.Put(before.voteBribes, token, value)));
    }
  }

  /** The loop over the bribe multicall's results. */
  method RecordBribes(pools: Pools, results: seq<(string, nat)>) returns (r: Option<Pools>)
    ensures r == ApplyAll(pools, results, BribeStep)
  {
    var current := pools;
    for i := 0 to |results|
      invariant ApplyAll(pools, results[..i], BribeStep) == Some(current)
    {
      assert results[..i + 1][..i] == results[..i];
      var (key, value) := results[i];
      var parts := Split(key, '-');
      if |parts| != 2 {
        ApplyAllFails(pools, results, i + 1, BribeStep);
        return None;
      }
      if value > 0 {
        var pool := Dicts.Get(current, parts[0]);
        if pool.None? {
          ApplyAllFails(pools, results, i + 1, BribeStep);
          return None;
        }
        current := Dicts.Put(current, parts[0], pool.value.(voteBribes := Dicts.Put(pool.value.voteBribes, parts[1], value)));
      }
    }
    assert results[..|results|] == results;
    return Some(current);
  }

  // ----------------------------------------------------------- reward rates

  /** An entry of `_reward_rates`: a pool's rates by reward token, or the 0 a reward token's address is set to. */
  datatype RateEntry = Table(rates: Dicts.Dict<string, nat>) | Zero

  type Rates = Dicts.Dict<string, RateEntry>

  /** `_reward_rates[token_address] = 0` for each reward token in order. */
  function MarkZero(d: Rates, rewardTokens: seq<string>): Rates {
    if rewardTokens == [] then d
    else Dicts.Put(MarkZero(d, rewardTokens[..|rewardTokens| - 1]), rewardTokens[|rewardTokens| - 1], Zero)
  }

  /** Every reward token now reads 0, and every other key is as before. */
  lemma {:induction false} MarkZeroFacts(d: Rates, rewardTokens: seq<string>)
    requires Dicts.DistinctKeys(d)
    ensures Dicts.DistinctKeys(MarkZero(d, rewardTokens))
    ensures forall k :: Dicts.Get(MarkZero(d, rewardTokens), k) == if k in rewardTokens then Some(Zero) else Dicts.Get(d, k)
  {
    if rewardTokens != [] {
      var init := rewardTokens[..|rewardTokens| - 1];
      MarkZeroFacts(d, init);
      Dicts.PutFacts(MarkZero(d, init), rewardTokens[|rewardTokens| - 1], Zero);
      assert forall k :: k in rewardTokens <==> k in init || k == rewardTokens[|rewardTokens| - 1];
    }
  }

  /** The first half of the reward-rate loop: per pool, its table emptied, then its gauge's reward tokens set to 0. */
  function InitRates(pools: Pools): (r: Rates)
    ensures Dicts.DistinctKeys(r)
  {
    if pools == [] then []
    else
      var last := pools[|pools| - 1];
      var prev := InitRates(pools[..|pools| - 1]);
      Dicts.PutFacts(prev, last.0, Table([]));
      MarkZeroFacts(Dicts.Put(prev, last.0, Table([])), last.1.gauge.rewardTokens);
      MarkZero(Dicts.Put(prev, last.0, Table([])), last.1.gauge.rewardTokens)
  }

  /** One pool of `InitRates`: its table emptied, then its reward tokens set to 0. */
  lemma InitRatesLast(pools: Pools, k: string)
    requires pools != []
    ensures var last := pools[|pools| - 1];
      Dicts.Get(InitRates(pools), k) ==
        if k in last.1.gauge.rewardTokens then Some(Zero)
        else if k == last.0 then Some(Table([]))
        else Dicts.Get(InitRates(pools[..|pools| - 1]), k)
  {
    var last := pools[|pools| - 1];
    var prev := InitRates(pools[..|pools| - 1]);
    Dicts.PutFacts(prev, last.0, Table([]));
    MarkZeroFacts(Dicts.Put(prev, last.0, Table([])), last.1.gauge.rewardTokens);
  }

  /** No pool's address is among the reward tokens of any pool. */
  ghost predicate NoAddressRewarded(pools: Pools) {
    forall i, j :: 0 <= i < |pools| && 0 <= j < |pools| ==> pools[i].0 !in pools[j].1.gauge.rewardTokens
  }

  lemma NoAddressRewardedPrefix(pools: Pools)
    requires pools != [] && NoAddressRewarded(pools)
    ensures NoAddressRewarded(pools[..|pools| - 1])
  {
    var init := pools[..|pools| - 1];
    forall i, j | 0 <= i < |init| && 0 <= j < |init| ensures init[i].0 !in init[j].1.gauge.rewardTokens {
      assert init[i] == pools[i] && init[j] == pools[j];
    }
  }

  /** With no reward token at a pool's address, every pool has an empty table and every reward token reads 0. */
  lemma {:induction false} InitRatesEntries(pools: Pools)
    requires forall i, j :: 0 <= i < |pools| && 0 <= j < |pools| ==> pools[i].0 !in pools[j].1.gauge.rewardTokens
    ensures forall i :: 0 <= i < |pools| ==> Dicts.Get(InitRates(pools), pools[i].0) == Some(Table([]))
    ensures forall i, t :: 0 <= i < |pools| && t in pools[i].1.gauge.rewardTokens ==> Dicts.Get(InitRates(pools), t) == Some(Zero)
  {
    forall i | 0 <= i < |pools| ensures Dicts.Get(InitRates(pools), pools[i].0) == Some(Table([])) {
      InitRatesTableAt(pools, i);
    }
    forall i: nat, t | i < |pools| && t in pools[i].1.gauge.rewardTokens
      ensures Dicts.Get(InitRates(pools), t) == Some(Zero)
    {
      InitRatesZeroAt(pools, i, t);
    }
  }

  lemma {:induction false} InitRatesTableAt(pools: Pools, i: nat)
    requires NoAddressRewarded(pools) && i < |pools|
    ensures Dicts.Get(InitRates(pools), pools[i].0) == Some(Table([]))
    decreases |pools|
  {
    var last := pools[|pools| - 1];
    InitRatesLast(pools, pools[i].0);
    assert pools[i].0 !in last.1.gauge.rewardTokens;
    if i < |pools| - 1 && pools[i].0 != last.0 {
      var init := pools[..|pools| - 1];
      NoAddressRewardedPrefix(pools);
      InitRatesTableAt(init, i);
      assert init[i] == pools[i];
    }
  }

  lemma {:induction false} InitRatesZeroAt(pools: Pools, i: nat, t: string)
    requires i < |pools| && t in pools[i].1.gauge.rewardTokens
    requires forall j :: 0 <= j < |pools| ==> pools[j].0 !in pools[i].1.gauge.rewardTokens
    ensures Dicts.Get(InitRates(pools), t) == Some(Zero)
    decreases |pools|
  {
    var last := pools[|pools| - 1];
    InitRatesLast(pools, t);
    if i < |pools| - 1 && t !in last.1.gauge.rewardTokens {
      assert t != last.0;
      var init := pools[..|pools| - 1];
      assert forall j :: 0 <= j < |init| ==> init[j] == pools[j];
      InitRatesZeroAt(init, i, t);
    }
  }

  /**
   * As written, a pool whose address a later pool (or the pool itself) lists
   * as a reward token loses its table: the top-level write sets its entry to 0.
   */
  lemma {:induction false} InitRatesClobbered(pools: Pools, i: nat, j: nat)
    requires i <= j < |pools| && pools[i].0 in pools[j].1.gauge.rewardTokens
    requires forall k :: j < k < |pools| ==> pools[k].0 != pools[i].0
    ensures Dicts.Get(InitRates(pools), pools[i].0) == Some(Zero)
  {
    InitRatesLast(pools, pools[i].0);
    if j < |pools| - 1 {
      var init := pools[..|pools| - 1];
      InitRatesClobbered(init, i, j);
    }
  }

  /** The calls of the reward-rate multicall: per pool and reward token, the rate its gauge reports. */
  function RateCalls(pools: Pools, chain: ClChain): seq<(string, nat)> {
    if pools == [] then []
    else
      var last := pools[|pools| - 1];
      var gauge := last.1.gauge;
      RateCalls(pools[..|pools| - 1], chain) + KeyedCalls(last.0, gauge.rewardTokens, token => chain.rewardRate(gauge.id, token))
  }

  /** Every call is keyed by a pool and one of its gauge's reward tokens. */
  lemma {:induction false} RateCallsKeys(pools: Pools, chain: ClChain)
    ensures forall e :: e in RateCalls(pools, chain) ==>
      exists i, t :: 0 <= i < |pools| && t in pools[i].1.gauge.rewardTokens && e.0 == Key(pools[i].0, t)
  {
    if pools != [] {
      var init := pools[..|pools| - 1];
      RateCallsKeys(init, chain);
      assert forall i :: 0 <= i < |init| ==> init[i] == pools[i];
      var last := pools[|pools| - 1];
      var gauge := last.1.gauge;
      var calls := KeyedCalls(last.0, gauge.rewardTokens, token => chain.rewardRate(gauge.id, token));
      forall e | e in calls
        ensures exists i, t :: 0 <= i < |pools| && t in pools[i].1.gauge.rewardTokens && e.0 == Key(pools[i].0, t)
      {
        var k :| 0 <= k < |calls| && calls[k] == e;
        assert gauge.rewardTokens[k] in pools[|pools| - 1].1.gauge.rewardTokens;
      }
    }
  }

  /** The second half of the reward-rate loop: per pool, its table emptied and its gauge's calls listed. */
  method InitRewardRates(pools: Pools, chain: ClChain) returns (rates: Rates, calls: seq<(string, nat)>)
    ensures rates == InitRates(pools) && calls == RateCalls(pools, chain)
  {
    rates, calls := [], [];
    for i := 0 to |pools|
      invariant rates == InitRates(pools[..i]) && calls == RateCalls(pools[..i], chain)
    {
      var (address, pool) := pools[i];
      rates, calls := InitPoolRates(Dicts.Put(rates, address, Table([])), calls, address, pool.gauge, chain);
      InitRewardRatesStep(pools, i, chain, rates, calls);
    }
    assert pools[..|pools|] == pools;
  }

  /** The inner loop over one gauge's reward tokens: each set to 0, each with its rate call. */
  method InitPoolRates(start: Rates, before: seq<(string, nat)>, address: string, gauge: Rewarded, chain: ClChain)
    returns (rates: Rates, calls: seq<(string, nat)>)
    ensures rates == MarkZero(start, gauge.rewardTokens)
    ensures calls == before + KeyedCalls(address, gauge.rewardTokens, token => chain.rewardRate(gauge.id, token))
  {
    rates, calls := start, before;
    for k := 0 to |gauge.rewardTokens|
      invariant rates == MarkZero(start, gauge.rewardTokens[..k])
      invariant calls == before + KeyedCalls(address, gauge.rewardTokens[..k], token => chain.rewardRate(gauge.id, token))
    {
      assert gauge.rewardTokens[..k + 1][..k] == gauge.rewardTokens[..k];
      var token := gauge.rewardTokens[k];
      rates := Dicts.Put(rates, token, Zero);
      calls := calls + [(Key(address, token), chain.rewardRate(gauge.id, token))];
    }
    assert gauge.rewardTokens[..|gauge.rewardTokens|] == gauge.rewardTokens;
  }

  /** One pool of the outer loop: its table and its calls extend those of the pools before it. */
  lemma InitRewardRatesStep(pools: Pools, i: nat, chain: ClChain, rates: Rates, calls: seq<(string, nat)>)
    requires i < |pools|
    requires rates == MarkZero(Dicts.Put(InitRates(pools[..i]), pools[i].0, Table([])), pools[i].1.gauge.rewardTokens)
    requires calls == RateCalls(pools[..i], chain) +
      KeyedCalls(pools[i].0, pools[i].1.gauge.rewardTokens, token => chain.rewardRate(pools[i].1.gauge.id, token))
    ensures rates == InitRates(pools[..i + 1]) && calls == RateCalls(pools[..i + 1], chain)
  {
    assert pools[..i + 1][..i] == pools[..i];
  }

  /**
   * One result of the reward-rate multicall: the key split into pool and
   * token (ValueError unless two parts), and the rate set in the pool's
   * table; KeyError for an unknown pool, TypeError where the entry is 0.
   */
  function FillStep(rates: Rates, key: string, value: nat): Option<Rates> {
    var parts := Split(key, '-');
    if |parts| != 2 then None
    else
      var entry := Dicts.Get(rates, parts[0]);
      if entry.Some? && entry.value.Table? then
        Some(Dicts.Put(rates, parts[0], Table(Dicts.Put(entry.value.rates, parts[1], value))))
      else None
  }

  /** The rate is set in the pool's table, and every other rate and entry is kept. */
  lemma FillStepFacts(rates: Rates, pool: string, token: string, value: nat)
    requires Dicts.DistinctKeys(rates) && '-' !in pool && '-' !in token
    requires Dicts.Get(rates, pool).Some? && Dicts.Get(rates, pool).value.Table?
    requires Dicts.DistinctKeys(Dicts.Get(rates, pool).value.rates)
    ensures var r := FillStep(rates, Key(pool, token), value);
      r.Some? && Dicts.DistinctKeys(r.value) &&
      Dicts.Get(r.value, pool).Some? && Dicts.Get(r.value, pool).value.Table? &&
      Dicts.Get(Dicts.Get(r.value, pool).value.rates, token) == Some(value) &&
      (forall t :: t != token ==> Dicts.Get(Dicts.Get(r.value, pool).value.rates, t) ==
                                  Dicts.Get(Dicts.Get(rates, pool).value.rates, t)) &&
      (forall p :: p != pool ==> Dicts.Get(r.value, p) == Dicts.Get(rates, p))
  {
    KeySplit(pool, token);
    var table := Dicts.Get(rates, pool).value.rates;
    Dicts.PutFacts(table, token, value);
    Dicts.PutFacts(rates, pool, Table(Dicts.Put(table, token, value)));
  }

  /** A key naming a pool that has a table. */
  predicate FillsTable(rates: Rates, key: string) {
    var parts := Split(key, '-');
    |parts| == 2 && Dicts.Get(rates, parts[0]).Some? && Dicts.Get(rates, parts[0]).value.Table?
  }

  /** Results whose keys all name pools with a table fill without raising, and tables stay tables. */
  lemma {:induction false} FillKeepsTables(rates: Rates, results: seq<(string, nat)>)
    requires Dicts.DistinctKeys(rates)
    requires forall k :: 0 <= k < |results| ==> FillsTable(rates, results[k].0)
    ensures var r := ApplyAll(rates, results, FillStep);
      r.Some? && Dicts.DistinctKeys(r.value) &&
      forall key :: FillsTable(rates, key) ==> FillsTable(r.value, key)
  {
    if results != [] {
      var init := results[..|results| - 1];
      assert forall k :: 0 <= k < |init| ==> init[k] == results[k];
      FillKeepsTables(rates, init);
      var done := ApplyAll(rates, init, FillStep).value;
      var (key, value) := results[|results| - 1];
      assert FillsTable(done, key);
      var parts := Split(key, '-');
      var table := Dicts.Get(done, parts[0]).value.rates;
      Dicts.PutFacts(done, parts[0], Table(Dicts.Put(table, parts[1], value)));
    }
  }

  /**
   * Without a reward token at a pool's address and without "-" in the
   * addresses, the reward-rate multicall's results fill without raising.
   */
  lemma RewardRatesFill(pools: Pools, chain: ClChain)
    requires forall i, j :: 0 <= i < |pools| && 0 <= j < |pools| ==> pools[i].0 !in pools[j].1.gauge.rewardTokens
    requires forall i :: 0 <= i < |pools| ==> '-' !in pools[i].0 && forall t :: t in pools[i].1.gauge.rewardTokens ==> '-' !in t
    ensures ApplyAll(InitRates(pools), Dicts.FromItems(RateCalls(pools, chain)), FillStep).Some?
  {
    var rates := InitRates(pools);
    var calls := RateCalls(pools, chain);
    var results := Dicts.FromItems(calls);
    InitRatesEntries(pools);
    RateCallsKeys(pools, chain);
    Dicts.FromItemsEntries(calls);
    forall k | 0 <= k < |results| ensures FillsTable(rates, results[k].0) {
      assert results[k] in calls;
      var i, t :| 0 <= i < |pools| && t in pools[i].1.gauge.rewardTokens && results[k].0 == Key(pools[i].0, t);
      KeySplit(pools[i].0, t);
    }
    FillKeepsTables(rates, results);
  }

  /** The loop over the reward-rate multicall's results. */
  method FillRates(rates: Rates, results: seq<(string, nat)>) returns (r: Option<Rates>)
    ensures r == ApplyAll(rates, results, FillStep)
  {
    var current := rates;
    for i := 0 to |results|
      invariant ApplyAll(rates, results[..i], FillStep) == Some(current)
    {
      assert results[..i + 1][..i] == results[..i];
      var (key, value) := results[i];
      var parts := Split(key, '-');
      if |parts| != 2 {
        ApplyAllFails(rates, results, i + 1, FillStep);
        return None;
      }
      var entry := Dicts.Get(current, parts[0]);
      if entry.None? || entry.value.Zero? {
        ApplyAllFails(rates, results, i + 1, FillStep);
        return None;
      }
      current := Dicts.Put(current, parts[0], Table(Dicts.Put(entry.value.rates, parts[1], value)));
    }
    assert results[..|results|] == results;
    return Some(current);
  }

  // ------------------------------------------------------------------- aprs

  /** A nonnegative amount of a token with a nonnegative price is worth a nonnegative sum. */
  lemma WorthNonNegative(amount: real, token: ClToken)
    requires amount >= 0.0 && token.price >= 0.0
    ensures Worth(amount, token) >= 0.0
  {
    var product := amount * token.price;
    assert product >= 0.0;
    assert Worth(amount, token) == product / Unit(token.decimals);
  }

  /**
   * The daily rewards of a pool's gauge in USD: `rate * 24 * 60 * 60 *
   * price / 10 ** decimals` over its reward tokens. The pool's rate entry is
   * read per token: KeyError when the entry, the rate or the token is
   * missing, TypeError when the entry is 0.
   */
  function RewardUsd(entry: Option<RateEntry>, rewardTokens: seq<string>, tokens: Tokens): Option<real> {
    if rewardTokens == [] then Some(0.0)
    else match RewardUsd(entry, rewardTokens[..|rewardTokens| - 1], tokens)
      case None => None
      case Some(sum) =>
        var t := rewardTokens[|rewardTokens| - 1];
        if entry.None? || entry.value.Zero? then None
        else
          var rate, token := Dicts.Get(entry.value.rates, t), Dicts.Get(tokens, t);
          if rate.None? || token.None? then None
          else Some(sum + Worth((rate.value * Day) as real, token.value))
  }

  /**
   * The rewards are defined exactly when there are no reward tokens, or the
   * entry is a table with a rate for each of them and each is listed; with
   * nonnegative prices they are nonnegative.
   */
  lemma {:induction false} RewardUsdSpec(entry: Option<RateEntry>, rewardTokens: seq<string>, tokens: Tokens)
    ensures var r := RewardUsd(entry, rewardTokens, tokens);
      (r.Some? <==> rewardTokens == [] ||
                    (entry.Some? && entry.value.Table? &&
                     forall t :: t in rewardTokens ==> Dicts.HasKey(entry.value.rates, t) && Dicts.HasKey(tokens, t))) &&
      (r.Some? && (forall i :: 0 <= i < |tokens| ==> tokens[i].1.price >= 0.0) ==> r.value >= 0.0)
  {
    RewardUsdDefined(entry, rewardTokens, tokens);
    if forall i :: 0 <= i < |tokens| ==> tokens[i].1.price >= 0.0 {
      RewardUsdNonNegative(entry, rewardTokens, tokens);
    }
  }

  lemma {:induction false} RewardUsdDefined(entry: Option<RateEntry>, rewardTokens: seq<string>, tokens: Tokens)
    ensures RewardUsd(entry, rewardTokens, tokens).Some? <==> (rewardTokens == [] || RatesListed(entry, rewardTokens, tokens))
  {
    if rewardTokens != [] {
      var init := rewardTokens[..|rewardTokens| - 1];
      var t := rewardTokens[|rewardTokens| - 1];
      RewardUsdDefined(entry, init, tokens);
      assert forall x :: x in rewardTokens <==> x in init || x == t;
      if entry.Some? && entry.value.Table? {
        var listed := Dicts.HasKey(entry.value.rates, t) && Dicts.HasKey(tokens, t);
        assert RewardUsd(entry, rewardTokens, tokens).Some? <==> RewardUsd(entry, init, tokens).Some? && listed;
        assert RatesListed(entry, rewardTokens, tokens) <==> RatesListed(entry, init, tokens) && listed;
      }
    }
  }

  /** The entry is a table holding a rate for every reward token, and every reward token is listed. */
  ghost predicate RatesListed(entry: Option<RateEntry>, rewardTokens: seq<string>, tokens: Tokens) {
    entry.Some? && entry.value.Table? &&
    forall t :: t in rewardTokens ==> Dicts.HasKey(entry.value.rates, t) && Dicts.HasKey(tokens, t)
  }

  lemma {:induction false} RewardUsdNonNegative(entry: Option<RateEntry>, rewardTokens: seq<string>, tokens: Tokens)
    requires forall i :: 0 <= i < |tokens| ==> tokens[i].1.price >= 0.0
    ensures RewardUsd(entry, rewardTokens, tokens).Some? ==> RewardUsd(entry, rewardTokens, tokens).value >= 0.0
  {
    if rewardTokens != [] && RewardUsd(entry, rewardTokens, tokens).Some? {
      var init := rewardTokens[..|rewardTokens| - 1];
      var t := rewardTokens[|rewardTokens| - 1];
      RewardUsdNonNegative(entry, init, tokens);
      var token := Dicts.Get(tokens, t).value;
      var i :| 0 <= i < |tokens| && tokens[i] == (t, token);
      WorthNonNegative((Dicts.Get(entry.value.rates, t).value * Day) as real, token);
    }
  }

  /** `sum(amount * price / 10 ** decimals)` over a dict of token amounts; KeyError for an unlisted token. */
  function WorthSum(amounts: seq<(string, int)>, tokens: Tokens): Option<real> {
    if amounts == [] then Some(0.0)
    else match WorthSum(amounts[..|amounts| - 1], tokens)
      case None => None
      case Some(sum) =>
        var (t, amount) := amounts[|amounts| - 1];
        match Dicts.Get(tokens, t)
        case None => None
        case Some(token) => Some(sum + Worth(amount as real, token))
  }

  /** The sum is defined exactly when every token is listed; nonnegative amounts at nonnegative prices sum to a nonnegative value. */
  lemma {:induction false} WorthSumSpec(amounts: seq<(string, int)>, tokens: Tokens)
    ensures var r := WorthSum(amounts, tokens);
      (r.Some? <==> forall i :: 0 <= i < |amounts| ==> Dicts.HasKey(tokens, amounts[i].0)) &&
      ((r.Some? && (forall i :: 0 <= i < |amounts| ==> amounts[i].1 >= 0) &&
        (forall i :: 0 <= i < |tokens| ==> tokens[i].1.price >= 0.0)) ==> r.value >= 0.0)
  {
    if amounts != [] {
      var init := amounts[..|amounts| - 1];
      WorthSumSpec(init, tokens);
      assert forall i :: 0 <= i < |init| ==> init[i] == amounts[i];
      var r := WorthSum(amounts, tokens);
      var (t, amount) := amounts[|amounts| - 1];
      if r.Some? && (forall i :: 0 <= i < |amounts| ==> amounts[i].1 >= 0) &&
         (forall i :: 0 <= i < |tokens| ==> tokens[i].1.price >= 0.0) {
        WorthNonNegative(amount as real, Dicts.Get(tokens, t).value);
      }
    }
  }

  /** The loop summing a dict of token amounts in USD. */
  method SumWorth(amounts: seq<(string, int)>, tokens: Tokens) returns (r: Option<real>)
    ensures r == WorthSum(amounts, tokens)
  {
    var sum := 0.0;
    for i := 0 to |amounts|
      invariant WorthSum(amounts[..i], tokens) == Some(sum)
    {
      assert amounts[..i + 1][..i] == amounts[..i];
      var (t, amount) := amounts[i];
      var token := Dicts.Get(tokens, t);
      if token.None? {
        WorthSumFails(amounts, tokens, i + 1);
        return None;
      }
      sum := sum + Worth(amount as real, token.value);
    }
    assert amounts[..|amounts|] == amounts;
    return Some(sum);
  }

  /** Once a prefix of the amounts has an unlisted token, so does the whole sum. */
  lemma {:induction false} WorthSumFails(amounts: seq<(string, int)>, tokens: Tokens, n: nat)
    requires n <= |amounts| && WorthSum(amounts[..n], tokens).None?
    ensures WorthSum(amounts, tokens).None?
    decreases |amounts| - n
  {
    if n < |amounts| {
      assert amounts[..n + 1][..n] == amounts[..n];
      WorthSumFails(amounts, tokens, n + 1);
    } else {
      assert amounts[..n] == amounts;
    }
  }

  /** The loop summing a pool's daily rewards. */
  method SumRewards(entry: Option<RateEntry>, rewardTokens: seq<string>, tokens: Tokens) returns (r: Option<real>)
    ensures r == RewardUsd(entry, rewardTokens, tokens)
  {
    var sum := 0.0;
    for i := 0 to |rewardTokens|
      invariant RewardUsd(entry, rewardTokens[..i], tokens) == Some(sum)
    {
      assert rewardTokens[..i + 1][..i] == rewardTokens[..i];
      var t := rewardTokens[i];
      if entry.None? || entry.value.Zero? {
        RewardUsdFails(entry, rewardTokens, tokens, i + 1);
        return None;
      }
      var rate, token := Dicts.Get(entry.value.rates, t), Dicts.Get(tokens, t);
      if rate.None? || token.None? {
        RewardUsdFails(entry, rewardTokens, tokens, i + 1);
        return None;
      }
      sum := sum + Worth((rate.value * Day) as real, token.value);
    }
    assert rewardTokens[..|rewardTokens|] == rewardTokens;
    return Some(sum);
  }

  /** Once a prefix of the reward tokens raises, so does the whole sum. */
  lemma {:induction false} RewardUsdFails(entry: Option<RateEntry>, rewardTokens: seq<string>, tokens: Tokens, n: nat)
    requires n <= |rewardTokens| && RewardUsd(entry, rewardTokens[..n], tokens).None?
    ensures RewardUsd(entry, rewardTokens, tokens).None?
    decreases |rewardTokens| - n
  {
    if n < |rewardTokens| {
      assert rewardTokens[..n + 1][..n] == rewardTokens[..n];
      RewardUsdFails(entry, rewardTokens, tokens, n + 1);
    } else {
      assert rewardTokens[..n] == rewardTokens;
    }
  }

  /** `usd * 36500 / (base if base > 0 else 1)`: a daily amount as a yearly percentage of a positive base. */
  function Annualised(usd: real, base: real): (r: real)
    ensures base > 0.0 ==> r * base == usd * 36500.0
    ensures base <= 0.0 ==> r == usd * 36500.0
  {
    usd * 36500.0 / if base > 0.0 then base else 1.0
  }

  /** The position the LP APR is based on: `range_tvl` at the pool's liquidity capped at its tvl, or 0 without a price. */
  function PositionUsd(pool: Pool, rangeTvl: (string, int) -> real): (r: real)
    ensures pool.price <= 0.0 ==> r == 0.0
    ensures pool.price > 0.0 ==> r <= pool.tvl && (r == rangeTvl(pool.id, pool.liquidity) || r == pool.tvl)
    ensures pool.price > 0.0 && rangeTvl(pool.id, pool.liquidity) <= pool.tvl ==> r == rangeTvl(pool.id, pool.liquidity)
  {
    if pool.price > 0.0 then
      var usd := rangeTvl(pool.id, pool.liquidity);
      if usd > pool.tvl then pool.tvl else usd
    else 0.0
  }

  /** The fee APR counted in the LP APR: only below 1000. */
  function FeeBonus(feeApr: real): real {
    if feeApr < 1000.0 then feeApr else 0.0
  }

  /**
   * The LP APR: the yearly return of the daily rewards on the position (on
   * 1 without a position), plus the fee APR when it is below 1000.
   */
  function LpApr(rewards: real, position: real, feeApr: real): (r: real)
    ensures position > 0.0 ==> (r - (if feeApr < 1000.0 then feeApr else 0.0)) * position == rewards * 36500.0
    ensures position <= 0.0 ==> r == rewards * 36500.0 + (if feeApr < 1000.0 then feeApr else 0.0)
  {
    var yearly := Annualised(rewards, position);
    assert yearly + FeeBonus(feeApr) - FeeBonus(feeApr) == yearly;
    yearly + FeeBonus(feeApr)
  }

  /** The old LP APR: four times the yearly return of the daily rewards on the tvl (on 1 without tvl). */
  function LpAprOld(rewards: real, tvl: real): (r: real)
    ensures tvl > 0.0 ==> r * tvl == 4.0 * rewards * 36500.0
    ensures tvl <= 0.0 ==> r == 4.0 * rewards * 36500.0
  {
    Annualised(4.0 * rewards, tvl)
  }

  /** `share * native price / 1e18`: the votes of a period in USD. */
  function VotesUsd(share: nat, nativePrice: real): real {
    share as real * nativePrice / 1000000000000000000.0
  }

  /** `usd / days * 36500 / votes`: a return over some days as a yearly percentage of the votes in USD. */
  function VoteApr(usd: real, days: real, votes: real): (r: real)
    requires days > 0.0 && votes != 0.0
    ensures r * days * votes == usd * 36500.0
  {
    var perDay := usd / days;
    var yearly := perDay * 36500.0 / votes;
    assert perDay * days == usd;
    assert yearly * votes == perDay * 36500.0;
    assert yearly * days * votes == yearly * votes * days;
    yearly
  }

  /**
   * The APR step for one pool: the LP APRs from the gauge's rewards, and,
   * with a vote share, the vote APR from the bribes and the projected-fees
   * APR; without a share the vote APR is 0.
   */
  function AprOf(pool: Pool, entry: Option<RateEntry>, tokens: Tokens, rangeTvl: (string, int) -> real, native: string): (r: Option<Pool>)
    ensures r.Some? <==>
      RewardUsd(entry, pool.gauge.rewardTokens, tokens).Some? &&
      (pool.totalVeShareByPeriod > 0 ==>
         WorthSum(pool.voteBribes, tokens).Some? && Dicts.HasKey(tokens, native) &&
         VotesUsd(pool.totalVeShareByPeriod, Dicts.Get(tokens, native).value.price) != 0.0 &&
         (pool.projectedFees.days > 0 ==> WorthSum(pool.projectedFees.tokens, tokens).Some?))
    ensures r.Some? ==>
      r.value.(lpApr := pool.lpApr, lpAprOld := pool.lpAprOld, voteApr := pool.voteApr,
               projectedFees := pool.projectedFees) == pool
    ensures r.Some? ==> r.value.projectedFees.(apr := pool.projectedFees.apr) == pool.projectedFees
    ensures r.Some? && pool.totalVeShareByPeriod == 0 ==> r.value.voteApr == 0.0 && r.value.projectedFees == pool.projectedFees
    ensures r.Some? && pool.projectedFees.days == 0 ==> r.value.projectedFees == pool.projectedFees
  {
    match RewardUsd(entry, pool.gauge.rewardTokens, tokens)
    case None => None
    case Some(rewards) =>
      var lp := pool.(lpApr := LpApr(rewards, PositionUsd(pool, rangeTvl), pool.feeApr),
                      lpAprOld := LpAprOld(rewards, pool.tvl));
      if pool.totalVeShareByPeriod == 0 then Some(lp.(voteApr := 0.0))
      else
        var bribes, nativeToken := WorthSum(pool.voteBribes, tokens), Dicts.Get(tokens, native);
        if bribes.None? || nativeToken.None? then None
        else
          var votes := VotesUsd(pool.totalVeShareByPeriod, nativeToken.value.price);
          if votes == 0.0 then None
          else
            var voted := lp.(voteApr := VoteApr(bribes.value, 7.0, votes));
            if pool.projectedFees.days == 0 then Some(voted)
            else match WorthSum(pool.projectedFees.tokens, tokens)
              case None => None
              case Some(fees) =>
                Some(voted.(projectedFees := voted.projectedFees.(apr := VoteApr(fees, pool.projectedFees.days as real, votes))))
  }

  /** The APR step for one pool, with its loops over the reward tokens, the bribes and the projected fees. */
  method AprOfPool(pool: Pool, entry: Option<RateEntry>, tokens: Tokens, rangeTvl: (string, int) -> real, native: string)
    returns (r: Option<Pool>)
    ensures r == AprOf(pool, entry, tokens, rangeTvl, native)
  {
    var rewards := SumRewards(entry, pool.gauge.rewardTokens, tokens);
    if rewards.None? {
      return None;
    }
    var position := PositionUsd(pool, rangeTvl);
    var lp := pool.(lpApr := LpApr(rewards.value, position, pool.feeApr),
                    lpAprOld := LpAprOld(rewards.value, pool.tvl));
    if pool.totalVeShareByPeriod == 0 {
      return Some(lp.(voteApr := 0.0));
    }
    var bribes := SumWorth(pool.voteBribes, tokens);
    var nativeToken := Dicts.Get(tokens, native);
    if bribes.None? || nativeToken.None? {
      return None;
    }
    var votes := VotesUsd(pool.totalVeShareByPeriod, nativeToken.value.price);
    if votes == 0.0 {
      return None;
    }
    var voted := lp.(voteApr := VoteApr(bribes.value, 7.0, votes));
    if pool.projectedFees.days == 0 {
      return Some(voted);
    }
    var fees := SumWorth(pool.projectedFees.tokens, tokens);
    if fees.None? {
      return None;
    }
    return Some(voted.(projectedFees := voted.projectedFees.(apr := VoteApr(fees.value, pool.projectedFees.days as real, votes))));
  }

  function AprStep(rates: Rates, tokens: Tokens, rangeTvl: (string, int) -> real, native: string): Pool -> Option<Pool> {
    (pool: Pool) => AprOf(pool, Dicts.Get(rates, pool.id), tokens, rangeTvl, native)
  }

  /** The APR loop over the pools. */
  method ProcessAprs(pools: Pools, rates: Rates, tokens: Tokens, rangeTvl: (string, int) -> real, native: string)
    returns (r: Option<Pools>)
    ensures r == UpdateAll(pools, AprStep(rates, tokens, rangeTvl, native))
  {
    ghost var f := AprStep(rates, tokens, rangeTvl, native);
    var updated := pools;
    for i := 0 to |pools|
      invariant |updated| == |pools| && updated[i..] == pools[i..]
      invariant UpdateAll(pools[..i], f) == Some(updated[..i])
    {
      var pool := AprOfPool(pools[i].1, Dicts.Get(rates, pools[i].1.id), tokens, rangeTvl, native);
      assert pool == f(pools[i].1);
      if pool.None? {
        UpdateAllFails(pools, i, f);
        return None;
      }
      UpdateAllAssign(pools, i, f, updated, pool.value);
      updated := updated[i := (pools[i].0, pool.value)];
    }
    assert pools[..|pools|] == pools && updated[..|pools|] == updated;
    return Some(updated);
  }

  // -------------------------------------------------------------- top level

  /** What `_fetch_pools` returns: the tokens, and the pools (absent in the `{"tokens": []}` fallback). */
  datatype ClReply = ClReply(tokens: seq<ClToken>, pools: Option<seq<Pool>>)

  /**
   * `_fetch_pools` with its reads as parameters: the tokens and the kept
   * pools indexed, then the tvl, fee, contract-read, bribe, reward-rate and
   * APR steps in turn; None where a step raises.
   */
  function FetchPoolsSpec(now: real, clock: real, tokenList: seq<ClToken>, poolList: seq<PoolInput>, chain: ClChain,
                          floatText: real -> string, dist: FeeDistribution, native: string): Option<ClReply>
  {
    var period := Period(now);
    var tokens := Dicts.FromItems(TokenItems(tokenList));
    var pools := Dicts.FromItems(Kept(poolList, floatText));
    match UpdateAll(pools, TvlStep(tokens))
    case None => None
    case Some(priced) =>
      match UpdateAll(priced, FeeStep(tokens, Cutoff(clock), chain.rangeTvl, dist))
      case None => None
      case Some(feed) =>
        match UpdateAll(feed, ReadsStep(chain, period))
        case None => None
        case Some(read) =>
          match ApplyAll(read, Dicts.FromItems(BribeCalls(read, chain, period)), BribeStep)
          case None => None
          case Some(bribed) =>
            match ApplyAll(InitRates(bribed), Dicts.FromItems(RateCalls(bribed, chain)), FillStep)
            case None => None
            case Some(rates) =>
              match UpdateAll(bribed, AprStep(rates, tokens, chain.rangeTvl, native))
              case None => None
              case Some(done) => Some(ClReply(Dicts.Values(tokens), Some(Dicts.Values(done))))
  }

  /** `_fetch_pools`, step by step. */
  method FetchPools(now: real, clock: real, tokenList: seq<ClToken>, poolList: seq<PoolInput>, chain: ClChain,
                    floatText: real -> string, dist: FeeDistribution, native: string) returns (r: Option<ClReply>)
    ensures r == FetchPoolsSpec(now, clock, tokenList, poolList, chain, floatText, dist, native)
  {
    var period := Period(now);
    var tokens := IndexTokens(tokenList);
    var pools := ShapePools(poolList, floatText);
    var priced := ProcessTvl(pools, tokens);
    if priced.None? {
      return None;
    }
    var feed := ProcessFees(priced.value, tokens, Cutoff(clock), chain.rangeTvl, dist);
    if feed.None? {
      return None;
    }
    var read := ProcessReads(feed.value, chain, period);
    var bribed := RecordBribes(read, Dicts.FromItems(BribeCalls(read, chain, period)));
    if bribed.None? {
      return None;
    }
    var initial, calls := InitRewardRates(bribed.value, chain);
    var rates := FillRates(initial, Dicts.FromItems(calls));
    if rates.None? {
      return None;
    }
    var done := ProcessAprs(bribed.value, rates.value, tokens, chain.rangeTvl, native);
    if done.None? {
      return None;
    }
    return Some(ClReply(Dicts.Values(tokens), Some(Dicts.Values(done.value))));
  }

  /** The `cl_pools` cache entry. */
  class ClCache {
    var clPools: Option<ClReply>

    constructor()
      ensures clPools == None
    {
      clPools := None;
    }
  }

  /** `get_cl_pools`: the fetched pools, or `{"tokens": []}` when fetching raises. */
  function ClPoolsOf(fetched: Option<ClReply>): (r: ClReply)
    ensures fetched.None? ==> r.tokens == [] && r.pools.None?
    ensures fetched.Some? ==> r == fetched.value
  {
    fetched.GetOr(ClReply([], None))
  }

  /** `get_cl_pools`: fetched pools are cached and returned; on failure the fallback is returned and the cache kept. */
  method GetClPools(cache: ClCache, now: real, clock: real, tokenList: seq<ClToken>, poolList: seq<PoolInput>, chain: ClChain,
                    floatText: real -> string, dist: FeeDistribution, native: string) returns (r: ClReply)
    modifies cache
    ensures var fetched := FetchPoolsSpec(now, clock, tokenList, poolList, chain, floatText, dist, native);
      r == ClPoolsOf(fetched) &&
      cache.clPools == if fetched.Some? then Some(r) else old(cache.clPools)
  {
    var fetched := FetchPools(now, clock, tokenList, poolList, chain, floatText, dist, native);
    if fetched.Some? {
      cache.clPools := fetched;
      return fetched.value;
    }
    return ClReply([], None);
  }

  // ------------------------------------------------------------ mixed pairs

  /** A token of the merged list: a concentrated-liquidity token, or a v2 token as cached. */
  datatype MixedToken = ClTok(token: ClToken) | V2Tok(value: Value)

  /** A pair of the merged list: a concentrated-liquidity pool, or a v2 pair as cached. */
  datatype MixedPair = ClPair(pool: Pool) | V2Pair(value: Value)

  datatype Mixed = Mixed(tokens: seq<MixedToken>, pairs: seq<MixedPair>)

  /** A value a Python set can hold. */
  predicate Hashable(v: Value) {
    !v.ListVal? && !v.DictVal?
  }

  /** `token["id"]` as a set member: None where the lookup or the hashing raises. */
  function TokenId(t: MixedToken): (r: Option<Value>)
    ensures r.Some? ==> Hashable(r.value)
    ensures t.ClTok? ==> r == Some(StrVal(t.token.id))
  {
    match t
    case ClTok(token) => Some(StrVal(token.id))
    case V2Tok(v) =>
      if !v.DictVal? then None
      else match GetKey(v, "id")
        case Some(id) => if Hashable(id) then Some(id) else None
        case None => None
  }

  /**
   * The de-duplication loop: each token whose id is not yet seen is kept and
   * its id added; the kept tokens and the seen ids, or None where an id
   * raises.
   */
  function Unique(items: seq<MixedToken>): Option<(seq<MixedToken>, set<Value>)> {
    if items == [] then Some(([], {}))
    else match Unique(items[..|items| - 1])
      case None => None
      case Some(state) =>
        var last := items[|items| - 1];
        match TokenId(last)
        case None => None
        case Some(id) =>
          if id in state.1 then Some(state) else Some((state.0 + [last], state.1 + {id}))
  }

  /** The id of the `i`-th token occurs at no earlier index. */
  predicate FirstWithId(items: seq<MixedToken>, i: int)
    requires 0 <= i < |items|
  {
    forall j :: 0 <= j < i ==> TokenId(items[j]) != TokenId(items[i])
  }

  /**
   * The de-duplication succeeds exactly when every id can be read; then the
   * seen ids are the ids of all tokens, each of them held by exactly one kept
   * token, and each kept token is the first token with its id.
   */
  lemma {:induction false} UniqueSpec(items: seq<MixedToken>)
    ensures Unique(items).Some? <==> forall i :: 0 <= i < |items| ==> TokenId(items[i]).Some?
    ensures Unique(items).Some? ==>
      var kept, seen := Unique(items).value.0, Unique(items).value.1;
      (forall i :: 0 <= i < |items| ==> TokenId(items[i]).value in seen) &&
      (forall k :: 0 <= k < |kept| ==> TokenId(kept[k]).Some? && TokenId(kept[k]).value in seen) &&
      (forall id :: id in seen ==> exists k :: 0 <= k < |kept| && TokenId(kept[k]) == Some(id)) &&
      (forall k, l :: 0 <= k < l < |kept| ==> TokenId(kept[k]) != TokenId(kept[l])) &&
      (forall k :: 0 <= k < |kept| ==> exists i :: 0 <= i < |items| && items[i] == kept[k] && FirstWithId(items, i))
  {
    UniqueDefined(items);
    if Unique(items).Some? {
      UniqueHolds(items);
    }
  }

  /** What `UniqueSpec` promises about a successful de-duplication. */
  ghost predicate UniqueFacts(items: seq<MixedToken>, kept: seq<MixedToken>, seen: set<Value>) {
    (forall i :: 0 <= i < |items| ==> TokenId(items[i]).Some? && TokenId(items[i]).value in seen) &&
    (forall k :: 0 <= k < |kept| ==> TokenId(kept[k]).Some? && TokenId(kept[k]).value in seen) &&
    (forall id :: id in seen ==> exists k :: 0 <= k < |kept| && TokenId(kept[k]) == Some(id)) &&
    (forall k, l :: 0 <= k < l < |kept| ==> TokenId(kept[k]) != TokenId(kept[l])) &&
    (forall k :: 0 <= k < |kept| ==> exists i :: 0 <= i < |items| && items[i] == kept[k] && FirstWithId(items, i))
  }

  lemma {:induction false} UniqueDefined(items: seq<MixedToken>)
    ensures Unique(items).Some? <==> forall i :: 0 <= i < |items| ==> TokenId(items[i]).Some?
  {
    if items != [] {
      var init := items[..|items| - 1];
      UniqueDefined(init);
      assert forall i :: 0 <= i < |init| ==> init[i] == items[i];
    }
  }

  lemma {:induction false} UniqueHolds(items: seq<MixedToken>)
    requires Unique(items).Some?
    ensures UniqueFacts(items, Unique(items).value.0, Unique(items).value.1)
  {
    if items != [] {
      var init := items[..|items| - 1];
      UniqueHolds(init);
      UniqueStep(items, Unique(init).value.0, Unique(init).value.1);
    }
  }

  /** One more token whose id can be read keeps the facts. */
  lemma UniqueStep(items: seq<MixedToken>, kept0: seq<MixedToken>, seen0: set<Value>)
    requires items != [] && UniqueFacts(items[..|items| - 1], kept0, seen0)
    requires TokenId(items[|items| - 1]).Some?
    ensures var last := items[|items| - 1];
      var id := TokenId(last).value;
      UniqueFacts(items, if id in seen0 then kept0 else kept0 + [last], if id in seen0 then seen0 else seen0 + {id})
  {
    KeptStillFirst(items, kept0, seen0);
    if TokenId(items[|items| - 1]).value in seen0 {
      UniqueStepSeen(items, kept0, seen0);
    } else {
      UniqueStepNew(items, kept0, seen0);
    }
  }

  /** A token whose id was seen already changes nothing. */
  lemma UniqueStepSeen(items: seq<MixedToken>, kept0: seq<MixedToken>, seen0: set<Value>)
    requires items != [] && UniqueFacts(items[..|items| - 1], kept0, seen0)
    requires TokenId(items[|items| - 1]).Some? && TokenId(items[|items| - 1]).value in seen0
    requires KeptFirst(items, kept0)
    ensures UniqueFacts(items, kept0, seen0)
  {
    var init := items[..|items| - 1];
    assert forall i :: 0 <= i < |init| ==> init[i] == items[i];
  }

  /** Each kept token is the first token of `items` with its id. */
  ghost predicate KeptFirst(items: seq<MixedToken>, kept: seq<MixedToken>) {
    forall k :: 0 <= k < |kept| ==> exists i :: 0 <= i < |items| && items[i] == kept[k] && FirstWithId(items, i)
  }

  /** The tokens kept from a prefix are still first with their ids in the longer list. */
  lemma KeptStillFirst(items: seq<MixedToken>, kept0: seq<MixedToken>, seen0: set<Value>)
    requires items != [] && UniqueFacts(items[..|items| - 1], kept0, seen0)
    ensures KeptFirst(items, kept0)
  {
    var init := items[..|items| - 1];
    forall k | 0 <= k < |kept0|
      ensures exists i :: 0 <= i < |items| && items[i] == kept0[k] && FirstWithId(items, i)
    {
      var i :| 0 <= i < |init| && init[i] == kept0[k] && FirstWithId(init, i);
      assert forall j :: 0 <= j <= i ==> init[j] == items[j];
      assert items[i] == kept0[k] && FirstWithId(items, i);
    }
  }

  /** A token with an unseen id is kept, and it is the first with that id. */
  lemma UniqueStepNew(items: seq<MixedToken>, kept0: seq<MixedToken>, seen0: set<Value>)
    requires items != [] && UniqueFacts(items[..|items| - 1], kept0, seen0)
    requires TokenId(items[|items| - 1]).Some? && TokenId(items[|items| - 1]).value !in seen0
    requires KeptFirst(items, kept0)
    ensures var last := items[|items| - 1];
      UniqueFacts(items, kept0 + [last], seen0 + {TokenId(last).value})
  {
    var init := items[..|items| - 1];
    var last := items[|items| - 1];
    assert forall i :: 0 <= i < |init| ==> init[i] == items[i];
    assert FirstWithId(items, |items| - 1);
    var kept := kept0 + [last];
    assert kept[|kept0|] == last;
    assert forall k :: 0 <= k < |kept0| ==> kept[k] == kept0[k];
  }

  /** The de-duplication loop, with its set of seen ids. */
  method DedupTokens(items: seq<MixedToken>) returns (r: Option<seq<MixedToken>>)
    ensures r.None? <==> Unique(items).None?
    ensures r.Some? ==> r.value == Unique(items).value.0
  {
    var kept: seq<MixedToken> := [];
    var seen: set<Value> := {};
    for i := 0 to |items|
      invariant Unique(items[..i]) == Some((kept, seen))
    {
      assert items[..i + 1][..i] == items[..i];
      var id := TokenId(items[i]);
      if id.None? {
        UniqueFails(items, i + 1);
        return None;
      }
      if id.value !in seen {
        seen := seen + {id.value};
        kept := kept + [items[i]];
      }
    }
    assert items[..|items|] == items;
    return Some(kept);
  }

  /** Once a prefix of the tokens raises, so does the whole loop. */
  lemma {:induction false} UniqueFails(items: seq<MixedToken>, n: nat)
    requires n <= |items| && Unique(items[..n]).None?
    ensures Unique(items).None?
    decreases |items| - n
  {
    if n < |items| {
      assert items[..n + 1][..n] == items[..n];
      UniqueFails(items, n + 1);
    } else {
      assert items[..n] == items;
    }
  }

  /**
   * `get_pairs_v2().get(key, [])` as a list: the cached value, or `{}` when
   * it is falsy; None where it is not a dict (AttributeError) or the entry
   * is not a list (TypeError in the `+` that follows).
   */
  function V2List(cached: Value, key: string): (r: Option<seq<Value>>)
    ensures !Truthy(cached) ==> r == Some([])
    ensures Truthy(cached) && !cached.DictVal? ==> r.None?
    ensures cached.DictVal? && !Dicts.HasKey(cached.entries, key) ==> r == Some([])
  {
    var v2 := if Truthy(cached) then cached else DictVal([]);
    if !v2.DictVal? then None
    else match GetKeyOr(v2, key, ListVal([]))
      case ListVal(items) => Some(items)
      case _ => None
  }

  function ClTokens(tokens: seq<ClToken>): (r: seq<MixedToken>)
    ensures |r| == |tokens| && forall i :: 0 <= i < |tokens| ==> r[i] == ClTok(tokens[i])
  {
    seq(|tokens|, i requires 0 <= i < |tokens| => ClTok(tokens[i]))
  }

  function V2Tokens(values: seq<Value>): (r: seq<MixedToken>)
    ensures |r| == |values| && forall i :: 0 <= i < |values| ==> r[i] == V2Tok(values[i])
  {
    seq(|values|, i requires 0 <= i < |values| => V2Tok(values[i]))
  }

  function ClPairs(pools: seq<Pool>): (r: seq<MixedPair>)
    ensures |r| == |pools| && forall i :: 0 <= i < |pools| ==> r[i] == ClPair(pools[i])
  {
    seq(|pools|, i requires 0 <= i < |pools| => ClPair(pools[i]))
  }

  function V2Pairs(values: seq<Value>): (r: seq<MixedPair>)
    ensures |r| == |values| && forall i :: 0 <= i < |values| ==> r[i] == V2Pair(values[i])
  {
    seq(|values|, i requires 0 <= i < |values| => V2Pair(values[i]))
  }

  /**
   * The merge of `get_mixed_pairs`: the CL tokens then the v2 tokens,
   * de-duplicated by id; the CL pools followed by the v2 pairs.
   */
  function MixedOf(cl: ClReply, cached: Value): Option<Mixed> {
    match V2List(cached, "tokens")
    case None => None
    case Some(v2Tokens) =>
      match Unique(ClTokens(cl.tokens) + V2Tokens(v2Tokens))
      case None => None
      case Some(state) =>
        match V2List(cached, "pairs")
        case None => None
        case Some(v2Pairs) => Some(Mixed(state.0, ClPairs(cl.pools.GetOr([])) + V2Pairs(v2Pairs)))
  }

  /**
   * The merged tokens have distinct ids, cover every id, and a CL token is
   * kept before a v2 token with the same id: every kept token is the first
   * with its id, and the CL tokens come first. The pairs are the CL pools
   * followed by the v2 pairs.
   */
  lemma MixedOfFacts(cl: ClReply, cached: Value)
    requires MixedOf(cl, cached).Some?
    ensures var m := MixedOf(cl, cached).value;
      var all := ClTokens(cl.tokens) + V2Tokens(V2List(cached, "tokens").value);
      (forall k, l :: 0 <= k < l < |m.tokens| ==> TokenId(m.tokens[k]) != TokenId(m.tokens[l])) &&
      (forall i :: 0 <= i < |all| ==> exists k :: 0 <= k < |m.tokens| && TokenId(m.tokens[k]) == TokenId(all[i])) &&
      (forall k :: 0 <= k < |m.tokens| ==> exists i :: 0 <= i < |all| && all[i] == m.tokens[k] && FirstWithId(all, i)) &&
      m.pairs[..|cl.pools.GetOr([])|] == ClPairs(cl.pools.GetOr([])) &&
      m.pairs[|cl.pools.GetOr([])|..] == V2Pairs(V2List(cached, "pairs").value)
  {
    var all := ClTokens(cl.tokens) + V2Tokens(V2List(cached, "tokens").value);
    UniqueSpec(all);
    var m := MixedOf(cl, cached).value;
    forall i | 0 <= i < |all| ensures exists k :: 0 <= k < |m.tokens| && TokenId(m.tokens[k]) == TokenId(all[i]) {
      assert TokenId(all[i]).value in Unique(all).value.1;
    }
  }

  /** `get_mixed_pairs`: `get_cl_pools` (with its cache write), the cached v2 pairs, and the merge. */
  method GetMixedPairs(cache: ClCache, cached: Value, now: real, clock: real, tokenList: seq<ClToken>, poolList: seq<PoolInput>,
                       chain: ClChain, floatText: real -> string, dist: FeeDistribution, native: string) returns (r: Option<Mixed>)
    modifies cache
    ensures var fetched := FetchPoolsSpec(now, clock, tokenList, poolList, chain, floatText, dist, native);
      r == MixedOf(ClPoolsOf(fetched), cached) &&
      cache.clPools == if fetched.Some? then Some(ClPoolsOf(fetched)) else old(cache.clPools)
  {
    var cl := GetClPools(cache, now, clock, tokenList, poolList, chain, floatText, dist, native);
    var v2Tokens := V2List(cached, "tokens");
    if v2Tokens.None? {
      return None;
    }
    var unique := DedupTokens(ClTokens(cl.tokens) + V2Tokens(v2Tokens.value));
    if unique.None? {
      return None;
    }
    var v2Pairs := V2List(cached, "pairs");
    if v2Pairs.None? {
      return None;
    }
    return Some(Mixed(unique.value, ClPairs(cl.pools.GetOr([])) + V2Pairs(v2Pairs.value)));
  }
}
