/**
 * Gauges (app/gauges/model.py): the record built from a gauge's chain
 * state, its reward map and total bribe value, and its APR.
 */
module Gauges {
  import opened Wrappers
  import opened Strings
  import opened PyValues
  import opened Dicts
  import opened Tokens
  import opened Assets

  const AddressZero: string := "0x0000000000000000000000000000000000000000"
  const DefaultDecimals: nat := 18
  const DayInSeconds: nat := 24 * 60 * 60

  /** The settings the gauge code reads: the reward token and the fallback decimals. */
  datatype GaugeSettings = GaugeSettings(defaultTokenAddress: string, defaultDecimal: nat)

  /** The first multicall of `from_chain`. */
  datatype GaugeCalls = GaugeCalls(
    totalSupply: int,
    rewardRate: int,
    bribeAddress: Option<string>,
    feesAddress: Option<string>,
    isAlive: bool)

  /** Chain reads, as functions of their arguments. */
  datatype GaugeChain = GaugeChain(
    calls: string -> Option<GaugeCalls>,   // None: the multicall raised
    oldBribeToNew: string -> string,
    rewardTokens: string -> seq<string>,   // `rewards(i)` for each i below `rewardsListLength()`
    left: (string, string) -> int,         // `left(token)` on a bribe or fees contract
    weights: string -> int,                // the voter's `weights(pair)`
    growth: int,                           // the minter's `calculate_growth(weekly_emission())`
    circulatingSupply: int)

  /** The pair a gauge belongs to (`Pair.get(Pair.gauge_address == gauge.address)`). */
  datatype PairRef = PairRef(address: string, token0Address: string, token1Address: string)

  /**
   * `_validate_token_decimals` on the result of `Token.find`: missing
   * decimals become the default; a missing token raises (None).
   */
  function ValidateTokenDecimals(token: Option<TokenData>, defaultDecimal: nat): (r: Option<TokenData>)
    ensures r.Some? <==> token.Some?
    ensures r.Some? ==> r.value.decimals.Some?
    ensures token.Some? && token.value.decimals.Some? ==> r == token
    ensures token.Some? && token.value.decimals.None? ==> r == Some(token.value.(decimals := Some(defaultDecimal)))
  {
    match token
    case None => None
    case Some(t) => if t.decimals.None? then Some(t.(decimals := Some(defaultDecimal))) else Some(t)
  }

  /** `rebase_apr`: weekly growth over 52 weeks as a percentage of circulating supply; 0 supply raises. */
  function RebaseApr(growth: int, supply: int): (r: Option<real>)
    ensures r.None? <==> supply == 0
    ensures r.Some? ==> r.value * supply as real == (growth * 52 * 100) as real
  {
    if supply == 0 then None
    else
      var apr := ((growth * 52) as real / supply as real) * 100.0;
      assert apr * supply as real == (growth * 52) as real * 100.0;
      Some(apr)
  }

  datatype GaugeRecord = GaugeRecord(
    address: string,
    decimals: nat,
    totalSupply: real,
    bribeAddress: Option<string>,
    feesAddress: Option<string>,
    wrappedBribeAddress: Option<string>,
    reward: real,
    rewards: map<string, real>,
    tbv: real,
    votes: real,
    apr: real,
    bribeAddressCompat: Option<string>,
    feesAddressCompat: Option<string>,
    totalSupplyCompat: real)

  class Gauge {
    const address: string
    var decimals: nat
    var totalSupply: real
    var bribeAddress: Option<string>
    var feesAddress: Option<string>
    var wrappedBribeAddress: Option<string>
    var reward: real
    /** Reward per token address (a hash the store keeps as text). */
    var rewards: map<string, real>
    var tbv: real
    var votes: real
    var apr: real
    var bribeAddressCompat: Option<string>
    var feesAddressCompat: Option<string>
    var totalSupplyCompat: real
    /** The record last persisted under this gauge's key, if any. */
    var stored: Option<GaugeRecord>

    function Record(): GaugeRecord
      reads this
    {
      GaugeRecord(address, decimals, totalSupply, bribeAddress, feesAddress, wrappedBribeAddress,
                  reward, rewards, tbv, votes, apr, bribeAddressCompat, feesAddressCompat, totalSupplyCompat)
    }

    /** `Gauge.create(address=…, **data)`: the compat fields mirror the originals; rewards, tbv, votes and apr start empty. */
    constructor Create(address: string, totalSupply: real, bribeAddress: Option<string>, feesAddress: Option<string>,
                       wrappedBribeAddress: Option<string>, reward: real)
      ensures Record() == GaugeRecord(address, DefaultDecimals, totalSupply, bribeAddress, feesAddress,
                                      wrappedBribeAddress, reward, map[], 0.0, 0.0, 0.0,
                                      bribeAddress, feesAddress, totalSupply)
      ensures stored == Some(Record())
    {
      this.address := address;
      this.decimals := DefaultDecimals;
      this.totalSupply := totalSupply;
      this.bribeAddress := bribeAddress;
      this.feesAddress := feesAddress;
      this.wrappedBribeAddress := wrappedBribeAddress;
      this.reward := reward;
      rewards, tbv, votes, apr := map[], 0.0, 0.0, 0.0;
      bribeAddressCompat, feesAddressCompat, totalSupplyCompat := bribeAddress, feesAddress, totalSupply;
      new;
      stored := Some(Record());
    }

    method Save()
      modifies this`stored
      ensures stored == Some(Record())
    {
      stored := Some(Record());
    }
  }

  // ------------------------------------------------------------ rewards and tbv

  datatype RewardState = RewardState(rewards: map<string, real>, tbv: real)

  /**
   * `_validate_token_decimals(Token.find(address))`: the token a reward
   * entry is priced with; None when the lookup fails and the access raises.
   */
  function LookupIn(tokens: TokenCache, defaultDecimal: nat): string -> Option<TokenData> {
    a => ValidateTokenDecimals(Find(a, tokens), defaultDecimal)
  }

  /** Every token a lookup returns has its decimals. */
  ghost predicate ValidLookup(lookup: string -> Option<TokenData>) {
    forall a :: lookup(a).Some? ==> lookup(a).value.decimals.Some?
  }

  lemma LookupInValid(tokens: TokenCache, defaultDecimal: nat)
    ensures ValidLookup(LookupIn(tokens, defaultDecimal))
  {
  }

  /** A token's amount in whole units, and what it adds to tbv: nothing for an unpriced token. */
  function Worth(amt: real, token: TokenData): real {
    if token.price != 0.0 then amt * token.price else 0.0
  }

  /**
   * One pass of `_fetch_external_rewards`' loop: the reward of the found
   * token is overwritten with the scaled amount, and tbv grows by its value.
   */
  function ExternalStep(s: RewardState, token: Option<TokenData>, amount: int): (r: Option<RewardState>)
    requires token.Some? ==> token.value.decimals.Some?
  {
    match token
    case None => None
    case Some(t) =>
      var amt := Scale(amount as real, t.decimals.value);
      Some(RewardState(s.rewards[t.address := amt], s.tbv + Worth(amt, t)))
  }

  /** The whole loop over the multicall result, entry by entry. */
  function ExternalRewards(s: RewardState, entries: seq<(string, int)>, lookup: string -> Option<TokenData>): Option<RewardState>
    requires ValidLookup(lookup)
  {
    if entries == [] then Some(s)
    else
      match ExternalRewards(s, entries[..|entries| - 1], lookup)
      case None => None
      case Some(prev) => ExternalStep(prev, lookup(entries[|entries| - 1].0), entries[|entries| - 1].1)
  }

  /** The loop fails exactly when some entry's token lookup fails. */
  lemma {:induction false} ExternalRewardsFails(s: RewardState, entries: seq<(string, int)>, lookup: string -> Option<TokenData>)
    requires ValidLookup(lookup)
    ensures ExternalRewards(s, entries, lookup).None? <==>
      exists j :: 0 <= j < |entries| && lookup(entries[j].0).None?
  {
    if entries != [] {
      var init := entries[..|entries| - 1];
      ExternalRewardsFails(s, init, lookup);
      if exists j :: 0 <= j < |init| && lookup(init[j].0).None? {
        var j :| 0 <= j < |init| && lookup(init[j].0).None?;
        assert entries[j] == init[j];
      }
      if exists j :: 0 <= j < |entries| && lookup(entries[j].0).None? {
        var j :| 0 <= j < |entries| && lookup(entries[j].0).None?;
        if j < |init| {
          assert entries[j] == init[j];
        }
      }
    }
  }

  /** Once a prefix of the entries fails, the whole loop fails. */
  lemma {:induction false} ExternalRewardsPrefix(s: RewardState, entries: seq<(string, int)>, lookup: string -> Option<TokenData>, i: nat)
    requires ValidLookup(lookup)
    requires i <= |entries|
    requires ExternalRewards(s, entries[..i], lookup).None?
    ensures ExternalRewards(s, entries, lookup).None?
  {
    if i < |entries| {
      assert entries[..|entries| - 1][..i] == entries[..i];
      ExternalRewardsPrefix(s, entries[..|entries| - 1], lookup, i);
    } else {
      assert entries[..i] == entries;
    }
  }

  /** The address a bribe token's reward is stored under: the found token's own address. */
  function RewardKey(bribeToken: string, lookup: string -> Option<TokenData>): string
    requires lookup(bribeToken).Some?
  {
    lookup(bribeToken).value.address
  }

  /**
   * After the loop, each bribe token's reward is its own scaled amount,
   * unless a later entry's token is stored under the same address; the
   * other entries of the map are untouched.
   */
  lemma {:induction false} ExternalRewardsOverwrite(s: RewardState, entries: seq<(string, int)>, lookup: string -> Option<TokenData>, i: nat)
    requires ValidLookup(lookup)
    requires i < |entries|
    requires ExternalRewards(s, entries, lookup).Some?
    requires forall j :: 0 <= j < |entries| ==> lookup(entries[j].0).Some?
    requires forall j :: i < j < |entries| ==>
      RewardKey(entries[j].0, lookup) != RewardKey(entries[i].0, lookup)
    ensures var r := ExternalRewards(s, entries, lookup).value;
      var t := lookup(entries[i].0).value;
      t.address in r.rewards && r.rewards[t.address] == Scale(entries[i].1 as real, t.decimals.value)
  {
    var init := entries[..|entries| - 1];
    if i < |entries| - 1 {
      assert forall j :: 0 <= j < |init| ==> init[j] == entries[j];
      ExternalRewardsOverwrite(s, init, lookup, i);
    }
  }

  /** With no priced token among the entries, the total bribe value does not change. */
  lemma {:induction false} ExternalRewardsUnpriced(s: RewardState, entries: seq<(string, int)>, lookup: string -> Option<TokenData>)
    requires ValidLookup(lookup)
    requires forall j :: 0 <= j < |entries| ==>
      lookup(entries[j].0).Some? && lookup(entries[j].0).value.price == 0.0
    ensures ExternalRewards(s, entries, lookup).Some?
    ensures ExternalRewards(s, entries, lookup).value.tbv == s.tbv
  {
    if entries != [] {
      ExternalRewardsUnpriced(s, entries[..|entries| - 1], lookup);
    }
  }

  /**
   * One pass of `_fetch_internal_rewards`' loop. Stored rewards read back
   * as text, so an existing entry is always truthy and the fee is added to
   * it; otherwise an entry is created for a fee above 0. The reward hash
   * answers a missing field with None (an HGET), so with no entry and no
   * fee the pass writes nothing and the debug line reads None. Only a
   * failed token lookup raises (None).
   */
  function InternalStep(s: RewardState, tokenAddress: string, token: Option<TokenData>, fee: int): (r: Option<RewardState>)
    requires token.Some? ==> token.value.decimals.Some?
  {
    match token
    case None => None
    case Some(t) =>
      var amt := Scale(fee as real, t.decimals.value);
      var rewards :=
        if tokenAddress in s.rewards then s.rewards[tokenAddress := s.rewards[tokenAddress] + amt]
        else if fee > 0 then s.rewards[tokenAddress := amt]
        else s.rewards;
      Some(RewardState(rewards, s.tbv + Worth(amt, t)))
  }

  /**
   * A step fails exactly on a failed lookup. Otherwise the fee is added to
   * an existing entry, a new entry holds the scaled fee and is created only
   * for a positive fee, no other entry changes, and tbv moves only for a
   * priced token.
   */
  lemma InternalStepFacts(s: RewardState, tokenAddress: string, token: Option<TokenData>, fee: int)
    requires token.Some? ==> token.value.decimals.Some?
    ensures var r := InternalStep(s, tokenAddress, token, fee);
      (r.None? <==> token.None?) &&
      (r.Some? ==> (tokenAddress in r.value.rewards <==> tokenAddress in s.rewards || fee > 0)) &&
      (r.Some? && tokenAddress in s.rewards ==>
        r.value.rewards[tokenAddress] == s.rewards[tokenAddress] + Scale(fee as real, token.value.decimals.value)) &&
      (r.Some? && tokenAddress !in s.rewards && fee > 0 ==>
        r.value.rewards[tokenAddress] == Scale(fee as real, token.value.decimals.value)) &&
      (r.Some? ==> forall k :: k != tokenAddress ==> (k in r.value.rewards <==> k in s.rewards)) &&
      (r.Some? ==> forall k :: k != tokenAddress && k in s.rewards ==> r.value.rewards[k] == s.rewards[k]) &&
      (r.Some? && token.value.price == 0.0 ==> r.value.tbv == s.tbv)
  {
  }

  /** The internal loop over `[(token0, fees0), (token1, fees1)]`, entry by entry. */
  function InternalRewards(s: RewardState, fees: seq<(string, int)>, lookup: string -> Option<TokenData>): Option<RewardState>
    requires ValidLookup(lookup)
  {
    if fees == [] then Some(s)
    else
      match InternalRewards(s, fees[..|fees| - 1], lookup)
      case None => None
      case Some(prev) =>
        var (tokenAddress, fee) := fees[|fees| - 1];
        InternalStep(prev, tokenAddress, lookup(tokenAddress), fee)
  }

  /** Once a prefix of the fee entries fails, the whole loop fails. */
  lemma {:induction false} InternalRewardsPrefix(s: RewardState, fees: seq<(string, int)>, lookup: string -> Option<TokenData>, i: nat)
    requires ValidLookup(lookup)
    requires i <= |fees|
    requires InternalRewards(s, fees[..i], lookup).None?
    ensures InternalRewards(s, fees, lookup).None?
  {
    if i < |fees| {
      assert fees[..|fees| - 1][..i] == fees[..i];
      InternalRewardsPrefix(s, fees[..|fees| - 1], lookup, i);
    } else {
      assert fees[..i] == fees;
    }
  }

  /** The token addresses of the fee entries, the keys the internal loop writes. */
  function FeeTokens(fees: seq<(string, int)>): (r: set<string>)
    ensures forall j :: 0 <= j < |fees| ==> fees[j].0 in r
    ensures forall k :: k in r ==> exists j :: 0 <= j < |fees| && fees[j].0 == k
  {
    set j | 0 <= j < |fees| :: fees[j].0
  }

  /** The token addresses of the fee entries with a fee above 0, the keys the internal loop may create. */
  function PaidTokens(fees: seq<(string, int)>): (r: set<string>)
    ensures forall j :: 0 <= j < |fees| && fees[j].1 > 0 ==> fees[j].0 in r
    ensures forall k :: k in r ==> exists j :: 0 <= j < |fees| && fees[j].0 == k && fees[j].1 > 0
  {
    set j | 0 <= j < |fees| && fees[j].1 > 0 :: fees[j].0
  }

  /** The internal loop fails exactly when some fee token's lookup fails. */
  lemma {:induction false} InternalRewardsFails(s: RewardState, fees: seq<(string, int)>, lookup: string -> Option<TokenData>)
    requires ValidLookup(lookup)
    ensures InternalRewards(s, fees, lookup).None? <==>
      exists j :: 0 <= j < |fees| && lookup(fees[j].0).None?
  {
    if fees != [] {
      var init := fees[..|fees| - 1];
      InternalRewardsFails(s, init, lookup);
      var (tokenAddress, fee) := fees[|fees| - 1];
      if InternalRewards(s, init, lookup).Some? {
        InternalStepFacts(InternalRewards(s, init, lookup).value, tokenAddress, lookup(tokenAddress), fee);
      }
      if exists j :: 0 <= j < |init| && lookup(init[j].0).None? {
        var j :| 0 <= j < |init| && lookup(init[j].0).None?;
        assert fees[j] == init[j];
      }
      if exists j :: 0 <= j < |fees| && lookup(fees[j].0).None? {
        var j :| 0 <= j < |fees| && lookup(fees[j].0).None?;
        if j < |init| {
          assert fees[j] == init[j];
        }
      }
    }
  }

  /**
   * The internal loop keeps every key, adds a key for each fee token paid a
   * positive fee and no other, and changes no reward of a token without a fee entry.
   */
  lemma {:induction false} InternalRewardsKeys(s: RewardState, fees: seq<(string, int)>, lookup: string -> Option<TokenData>)
    requires ValidLookup(lookup)
    requires InternalRewards(s, fees, lookup).Some?
    ensures InternalRewards(s, fees, lookup).value.rewards.Keys == s.rewards.Keys + PaidTokens(fees)
    ensures forall k :: k in s.rewards && k !in FeeTokens(fees) ==>
      InternalRewards(s, fees, lookup).value.rewards[k] == s.rewards[k]
  {
    if fees != [] {
      var init := fees[..|fees| - 1];
      InternalRewardsKeys(s, init, lookup);
      var (tokenAddress, fee) := fees[|fees| - 1];
      InternalStepFacts(InternalRewards(s, init, lookup).value, tokenAddress,
                        lookup(tokenAddress), fee);
      FeeTokensSnoc(fees);
    }
  }

  /** The fee tokens of a list are those of its prefix and its last entry's token; the paid ones likewise. */
  lemma FeeTokensSnoc(fees: seq<(string, int)>)
    requires fees != []
    ensures var init := fees[..|fees| - 1];
      var (tokenAddress, fee) := fees[|fees| - 1];
      FeeTokens(fees) == FeeTokens(init) + {tokenAddress} &&
      PaidTokens(fees) == PaidTokens(init) + (if fee > 0 then {tokenAddress} else {})
  {
    var init := fees[..|fees| - 1];
    forall k | k in FeeTokens(fees) ensures k in FeeTokens(init) + {fees[|fees| - 1].0} {
      var j :| 0 <= j < |fees| && fees[j].0 == k;
      if j < |fees| - 1 {
        assert init[j] == fees[j];
      }
    }
    forall k | k in FeeTokens(init) ensures k in FeeTokens(fees) {
      var j :| 0 <= j < |init| && init[j].0 == k;
      assert fees[j] == init[j];
    }
    forall k | k in PaidTokens(fees) ensures k in PaidTokens(init) + (if fees[|fees| - 1].1 > 0 then {fees[|fees| - 1].0} else {}) {
      var j :| 0 <= j < |fees| && fees[j].0 == k && fees[j].1 > 0;
      if j < |fees| - 1 {
        assert init[j] == fees[j];
      }
    }
    forall k | k in PaidTokens(init) ensures k in PaidTokens(fees) {
      var j :| 0 <= j < |init| && init[j].0 == k && init[j].1 > 0;
      assert fees[j] == init[j];
    }
  }

  /**
   * A gauge with no rewards yet whose pair paid fees on its second token
   * only: the loop succeeds, and the rewards hold just that token's fee.
   */
  lemma InternalRewardsOneSided(s: RewardState, token0: string, token1: string, fee1: int,
                                lookup: string -> Option<TokenData>)
    requires ValidLookup(lookup)
    requires lookup(token0).Some? && lookup(token1).Some?
    requires s.rewards == map[] && fee1 > 0
    ensures var r := InternalRewards(s, [(token0, 0), (token1, fee1)], lookup);
      r.Some? && r.value.rewards == map[token1 := Scale(fee1 as real, lookup(token1).value.decimals.value)]
  {
    var fees := [(token0, 0), (token1, fee1)];
    assert fees[..1] == [(token0, 0)];
    assert fees[..1][..0] == [];
    assert InternalRewards(s, fees[..1][..0], lookup) == Some(s);
    var first := InternalRewards(s, fees[..1], lookup);
    assert first == InternalStep(s, token0, lookup(token0), 0);
    assert InternalRewards(s, fees, lookup) == InternalStep(first.value, token1, lookup(token1), fee1);
  }

  // --------------------------------------------------------------------- apr

  /** The APR `_update_apr` leaves: the rebase APR, plus the bribe APR when votes are worth something. */
  datatype AprUpdate = AprUpdate(apr: real, votes: Option<real>)

  function GaugeApr(rebase: real, tbv: real, votes: real, price: real): (r: AprUpdate)
    ensures price == 0.0 || votes * price <= 0.0 ==> r == AprUpdate(rebase, None)
    ensures price != 0.0 && votes * price > 0.0 ==>
      r.votes == Some(votes) && (r.apr - rebase) * (votes * price) == tbv * 52.0 * 100.0
  {
    if price != 0.0 && votes * price > 0.0 then
      var extra := ((tbv * 52.0) / (votes * price)) * 100.0;
      assert extra * (votes * price) == tbv * 52.0 * 100.0;
      AprUpdate(rebase + extra, Some(votes))
    else AprUpdate(rebase, None)
  }

  // -------------------------------------------------------------- the methods

  /** `_fetch_external_rewards`: the loop over the bribe tokens' amounts, then a save. */
  method FetchExternalRewards(gauge: Gauge, chain: GaugeChain, lookup: string -> Option<TokenData>) returns (ok: bool)
    requires ValidLookup(lookup)
    requires gauge.wrappedBribeAddress.Some?
    modifies gauge`rewards, gauge`tbv, gauge`stored
    ensures var bribe := gauge.wrappedBribeAddress.value;
      var entries := RewardEntries(chain, bribe);
      var r := ExternalRewards(RewardState(old(gauge.rewards), old(gauge.tbv)), entries, lookup);
      ok <==> r.Some?
    ensures ok ==>
      var r := ExternalRewards(RewardState(old(gauge.rewards), old(gauge.tbv)),
                               RewardEntries(chain, gauge.wrappedBribeAddress.value), lookup);
      gauge.rewards == r.value.rewards && gauge.tbv == r.value.tbv && gauge.stored == Some(gauge.Record())
  {
    var bribe := gauge.wrappedBribeAddress.value;
    var entries := RewardEntries(chain, bribe);
    ghost var s0 := RewardState(gauge.rewards, gauge.tbv);
    for i := 0 to |entries|
      invariant ExternalRewards(s0, entries[..i], lookup) == Some(RewardState(gauge.rewards, gauge.tbv))
    {
      assert entries[..i + 1][..i] == entries[..i];
      var token := lookup(entries[i].0);
      if token.None? {
        ExternalRewardsPrefix(s0, entries, lookup, i + 1);
        return false;
      }
      AddExternalReward(gauge, token.value, entries[i].1);
    }
    assert entries[..|entries|] == entries;
    gauge.Save();
    ok := true;
  }

  /** The body of `_fetch_external_rewards`' loop for a found token. */
  method AddExternalReward(gauge: Gauge, token: TokenData, amount: int)
    requires token.decimals.Some?
    modifies gauge`rewards, gauge`tbv
    ensures ExternalStep(RewardState(old(gauge.rewards), old(gauge.tbv)), Some(token), amount) ==
            Some(RewardState(gauge.rewards, gauge.tbv))
  {
    var amt := Scale(amount as real, token.decimals.value);
    gauge.rewards := gauge.rewards[token.address := amt];
    if token.price != 0.0 {
      gauge.tbv := gauge.tbv + amt * token.price;
    }
  }

  /** `Multicall(left(token) for each listed bribe token)()`: one entry per token, later duplicates winning. */
  function RewardEntries(chain: GaugeChain, bribe: string): (r: seq<(string, int)>)
    ensures DistinctKeys(r)
  {
    var listed := chain.rewardTokens(bribe);
    FromItems(seq(|listed|, i requires 0 <= i < |listed| => (listed[i], chain.left(bribe, listed[i]))))
  }

  /** `_fetch_internal_rewards`: the fees of the pair's two tokens, then a save. */
  method FetchInternalRewards(gauge: Gauge, pair: PairRef, chain: GaugeChain, lookup: string -> Option<TokenData>)
    returns (ok: bool)
    requires ValidLookup(lookup)
    requires gauge.feesAddress.Some?
    modifies gauge`rewards, gauge`tbv, gauge`stored
    ensures var r := InternalRewards(RewardState(old(gauge.rewards), old(gauge.tbv)),
                                     FeeEntries(chain, gauge.feesAddress.value, pair), lookup);
      (ok <==> r.Some?) &&
      (ok ==> gauge.rewards == r.value.rewards && gauge.tbv == r.value.tbv && gauge.stored == Some(gauge.Record()))
  {
    var fees := FeeEntries(chain, gauge.feesAddress.value, pair);
    ghost var s0 := RewardState(gauge.rewards, gauge.tbv);
    for i := 0 to |fees|
      invariant InternalRewards(s0, fees[..i], lookup) == Some(RewardState(gauge.rewards, gauge.tbv))
    {
      assert fees[..i + 1][..i] == fees[..i];
      var (tokenAddress, fee) := fees[i];
      var token := lookup(tokenAddress);
      if token.None? {
        InternalRewardsPrefix(s0, fees, lookup, i + 1);
        return false;
      }
      AddInternalReward(gauge, tokenAddress, token.value, fee);
    }
    assert fees[..|fees|] == fees;
    gauge.Save();
    ok := true;
  }

  /** The body of `_fetch_internal_rewards`' loop for a found token. */
  method AddInternalReward(gauge: Gauge, tokenAddress: string, token: TokenData, fee: int)
    requires token.decimals.Some?
    modifies gauge`rewards, gauge`tbv
    ensures InternalStep(RewardState(old(gauge.rewards), old(gauge.tbv)), tokenAddress, Some(token), fee) ==
            Some(RewardState(gauge.rewards, gauge.tbv))
  {
    var amt := Scale(fee as real, token.decimals.value);
    if tokenAddress in gauge.rewards {
      gauge.rewards := gauge.rewards[tokenAddress := gauge.rewards[tokenAddress] + amt];
    } else if fee > 0 {
      gauge.rewards := gauge.rewards[tokenAddress := amt];
    }
    if token.price != 0.0 {
      gauge.tbv := gauge.tbv + amt * token.price;
    }
  }

  function FeeEntries(chain: GaugeChain, fees: string, pair: PairRef): seq<(string, int)> {
    [(pair.token0Address, chain.left(fees, pair.token0Address)),
     (pair.token1Address, chain.left(fees, pair.token1Address))]
  }

  /** `_update_apr`: the rebase APR, plus the bribe APR and a save when the votes are worth something. */
  method UpdateApr(gauge: Gauge, votesRaw: int, token: TokenData, rebase: real)
    requires token.decimals.Some?
    modifies gauge`votes, gauge`apr, gauge`stored
    ensures var u := GaugeApr(rebase, gauge.tbv, Scale(votesRaw as real, token.decimals.value), token.price);
      gauge.apr == u.apr &&
      gauge.votes == (if u.votes.Some? then u.votes.value else old(gauge.votes)) &&
      gauge.stored == (if u.votes.Some? then Some(gauge.Record()) else old(gauge.stored))
  {
    var votes := Scale(votesRaw as real, token.decimals.value);
    gauge.apr := rebase;
    if token.price != 0.0 && votes * token.price > 0.0 {
      gauge.votes := votes;
      gauge.apr := gauge.apr + ((gauge.tbv * 52.0) / (votes * token.price)) * 100.0;
      gauge.Save();
    }
  }

  /** `data.get("wrapped_bribe_address")` after the lookup and the removal of a zero or empty address. */
  function WrappedBribe(calls: GaugeCalls, chain: GaugeChain): (r: Option<string>)
    ensures r.Some? ==> r.value != AddressZero && r.value != []
    ensures calls.bribeAddress.None? || calls.bribeAddress == Some(AddressZero) ==> r.None?
  {
    if calls.bribeAddress.None? || calls.bribeAddress == Some(AddressZero) then None
    else
      var wrapped := chain.oldBribeToNew(calls.bribeAddress.value);
      if wrapped == AddressZero || wrapped == [] then None else Some(wrapped)
  }

  /** What `from_chain` computes before it creates the gauge. */
  datatype Prepared = Prepared(
    address: string,
    totalSupply: real,
    reward: real,
    bribeAddress: Option<string>,
    feesAddress: Option<string>,
    wrappedBribeAddress: Option<string>,
    token: TokenData)

  /** `reward_rate / 10 ** decimals * DAY_IN_SECONDS`: a day's emissions in whole tokens. */
  function DailyReward(rewardRate: int, decimals: nat): (r: real)
    ensures r * Unit(decimals) == rewardRate as real * DayInSeconds as real
  {
    var rate := Scale(rewardRate as real, decimals);
    assert (rate * DayInSeconds as real) * Unit(decimals) == (rate * Unit(decimals)) * DayInSeconds as real;
    rate * DayInSeconds as real
  }

  /**
   * The first half of `from_chain`: None for a failed multicall, a gauge
   * that is not alive, or a reward token that cannot be found. The reward is
   * the reward rate in whole tokens per day.
   */
  function Prepare(gaugeAddress: string, chain: GaugeChain, tokens: TokenCache, settings: GaugeSettings): (r: Option<Prepared>)
    ensures r.None? <==>
      chain.calls(Lower(gaugeAddress)).None? || !chain.calls(Lower(gaugeAddress)).value.isAlive ||
      Find(settings.defaultTokenAddress, tokens).None?
    ensures r.Some? ==>
      var calls := chain.calls(Lower(gaugeAddress)).value;
      var p := r.value;
      p.address == Lower(gaugeAddress) &&
      p.totalSupply * DefaultDecimals as real == calls.totalSupply as real &&
      p.token.decimals.Some? &&
      Some(p.token) == ValidateTokenDecimals(Find(settings.defaultTokenAddress, tokens), settings.defaultDecimal) &&
      p.reward == DailyReward(calls.rewardRate, p.token.decimals.value) &&
      p.bribeAddress == calls.bribeAddress && p.feesAddress == calls.feesAddress &&
      p.wrappedBribeAddress == WrappedBribe(calls, chain)
  {
    var address := Lower(gaugeAddress);
    match chain.calls(address)
    case None => None
    case Some(calls) =>
      if !calls.isAlive then None
      else match ValidateTokenDecimals(Find(settings.defaultTokenAddress, tokens), settings.defaultDecimal)
      case None => None
      case Some(token) =>
        Some(Prepared(address, calls.totalSupply as real / DefaultDecimals as real,
                      DailyReward(calls.rewardRate, token.decimals.value),
                      calls.bribeAddress, calls.feesAddress, WrappedBribe(calls, chain), token))
  }

  /** The rewards and tbv a fresh gauge ends with: the bribe entries first, then the pair's fees. */
  ghost function GaugeRewards(p: Prepared, chain: GaugeChain, lookup: string -> Option<TokenData>, pair: PairRef): Option<RewardState>
    requires ValidLookup(lookup)
  {
    var start := RewardState(map[], 0.0);
    var afterBribes :=
      if p.wrappedBribeAddress.Some? then ExternalRewards(start, RewardEntries(chain, p.wrappedBribeAddress.value), lookup)
      else Some(start);
    if afterBribes.None? || p.feesAddress.None? then None
    else InternalRewards(afterBribes.value, FeeEntries(chain, p.feesAddress.value, pair), lookup)
  }

  /** The bribe rewards, then the fee rewards, of a gauge just created from `p`; false when a step raises. */
  method CollectRewards(gauge: Gauge, p: Prepared, chain: GaugeChain, lookup: string -> Option<TokenData>, pair: Option<PairRef>)
    returns (ok: bool)
    requires ValidLookup(lookup)
    requires gauge.wrappedBribeAddress == p.wrappedBribeAddress && gauge.feesAddress == p.feesAddress
    requires gauge.rewards == map[] && gauge.tbv == 0.0
    modifies gauge`rewards, gauge`tbv, gauge`stored
    ensures ok <==> pair.Some? && GaugeRewards(p, chain, lookup, pair.value).Some?
    ensures ok ==> Some(RewardState(gauge.rewards, gauge.tbv)) == GaugeRewards(p, chain, lookup, pair.value) &&
                   gauge.stored == Some(gauge.Record())
  {
    if p.wrappedBribeAddress.Some? {
      ok := FetchExternalRewards(gauge, chain, lookup);
      if !ok {
        return;
      }
    }
    if pair.None? || p.feesAddress.None? {
      return false;  // no pair with this gauge, or `left` called on a None address
    }
    ok := FetchInternalRewards(gauge, pair.value, chain, lookup);
  }

  /**
   * The second half of `from_chain`: create the gauge, collect its rewards
   * and set its APR. None when a step raises. The store holds every field;
   * the APR only when `_update_apr` saved it.
   */
  method Build(p: Prepared, chain: GaugeChain, lookup: string -> Option<TokenData>, pair: Option<PairRef>)
    returns (r: Option<Gauge>)
    requires ValidLookup(lookup)
    requires p.token.decimals.Some?
    ensures r.Some? <==>
      pair.Some? && GaugeRewards(p, chain, lookup, pair.value).Some? && RebaseApr(chain.growth, chain.circulatingSupply).Some?
    ensures r.Some? ==> fresh(r.value)
    ensures r.Some? ==>
      var g := r.value;
      g.address == p.address && g.decimals == DefaultDecimals &&
      g.totalSupply == g.totalSupplyCompat == p.totalSupply && g.reward == p.reward &&
      g.bribeAddress == g.bribeAddressCompat == p.bribeAddress &&
      g.feesAddress == g.feesAddressCompat == p.feesAddress &&
      g.wrappedBribeAddress == p.wrappedBribeAddress
    ensures r.Some? ==>
      var g := r.value;
      var u := GaugeApr(RebaseApr(chain.growth, chain.circulatingSupply).value, g.tbv,
                        Scale(chain.weights(pair.value.address) as real, p.token.decimals.value), p.token.price);
      Some(RewardState(g.rewards, g.tbv)) == GaugeRewards(p, chain, lookup, pair.value) &&
      g.apr == u.apr && g.votes == (if u.votes.Some? then u.votes.value else 0.0) &&
      g.stored.Some? && g.stored.value.(apr := g.apr) == g.Record()
  {
    var gauge := new Gauge.Create(p.address, p.totalSupply, p.bribeAddress, p.feesAddress, p.wrappedBribeAddress, p.reward);
    var ok := CollectRewards(gauge, p, chain, lookup, pair);
    if !ok {
      return None;
    }
    var rebase := RebaseApr(chain.growth, chain.circulatingSupply);
    if rebase.None? {
      return None;
    }
    UpdateApr(gauge, chain.weights(pair.value.address), p.token, rebase.value);
    return Some(gauge);
  }

  /** `Gauge.from_chain`: None for a gauge that is not alive and for any exception. */
  method FromChain(gaugeAddress: string, chain: GaugeChain, tokens: TokenCache, settings: GaugeSettings, pair: Option<PairRef>)
    returns (r: Option<Gauge>)
    ensures var p := Prepare(gaugeAddress, chain, tokens, settings);
      r.Some? <==>
        p.Some? && pair.Some? &&
        GaugeRewards(p.value, chain, LookupIn(tokens, settings.defaultDecimal), pair.value).Some? &&
        RebaseApr(chain.growth, chain.circulatingSupply).Some?
    ensures r.Some? ==> fresh(r.value)
    ensures r.Some? ==>
      var g := r.value;
      var p := Prepare(gaugeAddress, chain, tokens, settings).value;
      var u := GaugeApr(RebaseApr(chain.growth, chain.circulatingSupply).value, g.tbv,
                        Scale(chain.weights(pair.value.address) as real, p.token.decimals.value), p.token.price);
      g.address == p.address && g.decimals == DefaultDecimals &&
      g.totalSupply == g.totalSupplyCompat == p.totalSupply && g.reward == p.reward &&
      g.bribeAddress == g.bribeAddressCompat == p.bribeAddress &&
      g.feesAddress == g.feesAddressCompat == p.feesAddress &&
      g.wrappedBribeAddress == p.wrappedBribeAddress &&
      Some(RewardState(g.rewards, g.tbv)) == GaugeRewards(p, chain, LookupIn(tokens, settings.defaultDecimal), pair.value) &&
      g.apr == u.apr && g.votes == (if u.votes.Some? then u.votes.value else 0.0) &&
      g.stored.Some? && g.stored.value.(apr := g.apr) == g.Record()
  {
    var prepared := Prepare(gaugeAddress, chain, tokens, settings);
    if prepared.None? {
      return None;
    }
    LookupInValid(tokens, settings.defaultDecimal);
    r := Build(prepared.value, chain, LookupIn(tokens, settings.defaultDecimal), pair);
  }
}
