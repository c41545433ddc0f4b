# Price and metrics pipeline of the exchange API, in Dafny

This project models the price-and-metrics core of the exchange API, with the
network taken out. Each HTTP request, contract call, multicall and cache read
becomes an input to the model: a function parameter or a value. What is left
to model is ordered fallback, filtering, accumulation and guarded arithmetic.
The model proves properties about each of these.

It covers four groups.

- **Token price resolution** (`assets.dfy`, `feeds.dfy`, `misc.dfy`, `tokens.dfy`).
  - The two price families each walk a configured list of strategies and accept the first strictly positive price.
  - The two-leg routes through intermediate tokens are summed.
  - `_update_price` picks which family runs first.
  - The four external feed extractors, the cached `find`, and token-list validation and creation are also modelled.
  - The zero-price and not-alive-gauge registries of `ModelUteis` are included.
- **Pool, gauge and reward aggregation** (`pairs.dfy`, `gauges.dfy`, `cl_pools.dfy`, `supply.dfy`, `claimable_rewards.dfy`, `voter.dfy`, `multicall.dfy`).
  - Pair TVL with single-sided doubling, and the pair APR.
  - Gauge rewards, total bribe value (tbv) and APR bookkeeping.
  - The concentrated-liquidity aggregation `_fetch_pools` step by step, and the `get_mixed_pairs` merge.
  - The supply figures.
  - The claimable-reward map.
  - The vote total.
- **Subgraph paging and token classification** (`subgraph.dfy`, `token_type.dfy`).
- **Small decision helpers**:
  - volume-request chunking and the `on_get` aggregates (`configuration.dfy`);
  - the cache-expiry rule of the syncer (`syncer.dfy`);
  - the tolerance comparisons and bucketing of the two comparison scripts (`comparison.dfy`, `compare_assets.dfy`, `compare_tvls.dfy`).

The model takes each source file's own form:
- Objects whose fields the code updates are classes:
  - `Tokens.Token`, `Gauges.Gauge`, `Pairs.Pair`, `Pairs.PairStore`, `Misc.ModelUteis`;
  - the caches `Subgraph.SubgraphCache`, `ClPools.ClCache` and `Syncer.Cache`.
- Loops that update state are methods with loop invariants. Each method's postcondition ties its result to a recursive specification function, and lemmas state what the code promises about that function.
- Pure code is functions.

Other modelling choices:
- Persistence (`save`, `create`, `query_delete`) is a `stored` snapshot field or a `PairStore` map.
- A Python exception is the `None` of an `Option` or an explicit `Raised` outcome.
- Python dicts are insertion-ordered sequences of pairs (`Dicts`).
- JSON is the `PyValues.Value` datatype.
- USD amounts and prices are `real`; raw on-chain amounts and decimals are `nat` or `int`.

`wrappers.dfy`, `strings.dfy`, `pyvalues.dfy` and `dicts.dfy` hold the shared vocabulary: `Option` and `Result`, ASCII lower-casing and splitting, Python truthiness and `int`/`float` readings, and the ordered dict.

## Model

| member | source | states |
|---|---|---|
| Assets.FindIn | app/assets/model.py:502-504 | the first cached entry whose address equals the argument exactly is decoded; no match gives None |
| Assets.Find | app/assets/model.py:490-513 | an empty address or a missing cache gives None; otherwise the lookup is the first exact match in the cached "data" list |
| Assets.Accepted | app/assets/model.py:106 | a strategy result is accepted exactly when it is a number strictly above 0, and then it is that number |
| Assets.Planned | app/assets/model.py:101-103 | the strategies a plan can run are at most the names configured; names without a getter are skipped |
| Assets.RunFamily | app/assets/model.py:101-114 | a family's price is never negative |
| Assets.RunFamilyFirstAccepted | app/assets/model.py:101-114 | the strategies run are a prefix of the configured known ones; all but the last are rejected; a positive price is the last strategy's accepted result; a price of 0 means every strategy ran and none was accepted |
| Assets.RunFamilyStep | app/assets/model.py:153-166 | an unknown name is skipped; an accepted strategy ends the family with its price; a rejected one falls through to the rest |
| Assets.ExternalGetterNames | app/assets/model.py:94-99 | exactly the four `_get_price_from_*` names are known external getters |
| Assets.InternalGetterNames | app/assets/model.py:140-151 | exactly "direct", "axelar_bluechips", "bluechip_tokens" and "native_token" are known routes |
| Assets.ExternalPlan | app/assets/model.py:101-103 | the configured order, name by name, resolved to known getters or to nothing |
| Assets.InternalPlan | app/assets/model.py:153-154 | the configured route order, name by name, resolved to known routes or to nothing |
| Assets.DirectAttempt | app/assets/model.py:170-201 | missing decimals raise; a contract logic error gives 0; any other nonzero result is the router's amount scaled by the stable token's decimals |
| Assets.LegPrice | app/assets/model.py:230-290 | one intermediate's leg is never negative, and it is positive exactly when the address is valid and both legs quote a positive amount |
| Assets.NonEmpty | app/assets/model.py:222 | the filtered addresses are all non-empty |
| Assets.SumLegs | app/assets/model.py:228-292 | the running total of the legs is never negative |
| Assets.SumLegsAppend | app/assets/model.py:280-281 | one more intermediate adds exactly its leg's price |
| Assets.ThroughTokensIgnoresEmpty | app/assets/model.py:222-238 | dropping the empty addresses first changes nothing, since an empty address never qualifies |
| Assets.SumLegsPositive | app/assets/model.py:280-292 | the total is positive exactly when some intermediate qualifies |
| Assets.GetPriceThroughTokens | app/assets/model.py:204-292 | the loop's total is the specification's sum over the qualifying intermediates, and it is not negative |
| Assets.InternalPrice | app/assets/model.py:134-138 | the internal family's price is not negative, and it is 0 when the stable token cannot be found |
| Assets.GetPriceExternalSource | app/assets/model.py:74-114 | the price and the strategies invoked are those of the external family; the token is validated and saved, and takes the price only when it is positive |
| Assets.TryFeeds | app/assets/model.py:101-114 | the loop returns the external family's price and invokes its strategies; the token takes the price only when it is positive |
| Assets.GetPriceInternalSource | app/assets/model.py:116-168 | without a stable token no route runs and the price is 0; otherwise price and routes invoked are the internal family's; the token takes a positive price |
| Assets.Order | app/assets/model.py:319-329 | the two families, each once, internal first exactly when the flag says so |
| Assets.ResolutionFacts | app/assets/model.py:313-340 | an ignored symbol runs nothing and prices 0; otherwise the first family with a positive price wins, the second runs only when the first gives 0, and only a final 0 lists the token as zero-priced |
| Assets.FinalizeUpdate | app/assets/model.py:473-486 | the token's price becomes the given price, it is saved, and that price is returned |
| Assets.RunFamilyOf | app/assets/model.py:331-337 | one pass returns the price of its family; the validated token is left as it was except for a positive price |
| Assets.ResolvedAt | app/assets/model.py:331-340 | the first family in order with a positive price settles the price, and only the families up to it have run |
| Assets.ResolvedNone | app/assets/model.py:331-340 | when neither family finds a positive price both have run, the price is 0 and the token is listed |
| Assets.RunFamilies | app/assets/model.py:331-340 | the loop's price and the families it ran are the resolution of the two family prices; the token changes only by a positive price |
| Assets.UpdatePrice | app/assets/model.py:294-340 | the returned price is the resolution's; the token is validated, saved with that price, and added to the zero-price registry exactly when the resolution says so |
| Assets.IsValidToken | app/assets/model.py:562-574 | raises on a non-dict entry or a non-string address; otherwise truthy exactly when chainId matches and the lower-cased address is non-empty and not ignored, and then it is that address |
| Assets.StableTag | app/assets/model.py:597 | stable exactly when "stablecoin" is a substring of the first tag; no first tag raises |
| Assets.TaxedTag | app/assets/model.py:598 | taxed exactly when a second tag exists, is a string and contains "taxed" |
| Assets.TokenFromEntry | app/assets/model.py:577-598 | a token is created exactly when the entry is well formed, and then it is fresh and holds the entry's fields: both addresses lower-cased, symbol, name, logo, the stable and taxed flags of its tags, and the tax |
| Assets.CreateAndUpdateToken | app/assets/model.py:577-601 | a token is created exactly when the entry is well formed; it holds the entry's validated fields with the resolved price, is saved, and joins the zero-price registry exactly when the resolution lists it; a raise leaves the registry alone |
| Assets.Addresses | app/assets/model.py:553-556 | one address per created token, each the token's own, in order |
| Assets.FetchEntry | app/assets/model.py:554-556 | raises exactly when `_is_valid_token` raises or a valid entry is not well formed; otherwise yields a token exactly when `_is_valid_token` is truthy, a new one carrying the validated address |
| Assets.FetchTokenlist | app/assets/model.py:546-559 | a failed request gives no tokens; a body raises exactly when it is not an object with iterable tokens or some entry raises; otherwise the created tokens carry exactly the lower-cased addresses of the valid entries, in list order, each a fresh object |
| Assets.ListEntries | app/assets/model.py:552-553 | the entries are read only from an object body |
| Assets.FetchEntries | app/assets/model.py:553-556 | the loop raises exactly when some entry does; otherwise the tokens carry the valid entries' addresses in order, each fresh |
| Assets.FetchNext | app/assets/model.py:553-556 | one pass extends the prefix's tokens by at most one fresh token, raising exactly when the entry does, with the valid addresses of the longer prefix |
| Assets.SomeEntryRaisesExists | app/assets/model.py:553-556 | the loop's failure condition holds exactly when one entry raises |
| Assets.SomeEntryRaisesPrefix | app/assets/model.py:553-556 | once a prefix of the entries raises, the loop raises |
| Feeds.PriceUsd | app/assets/model.py:411-416 | `priceUsd` is read as a float after removing commas; text that does not parse gives 0 |
| Feeds.DexscreenerPrice | app/assets/model.py:395-416 | a failed request or no non-empty `pairs` list gives 0; otherwise the first pair's `priceUsd`, with 0 for a falsy pair |
| Feeds.FirstCoinPrice | app/assets/model.py:434-441 | a returned price is 0 or truthy |
| Feeds.FirstCoinPriceFacts | app/assets/model.py:434-441 | a truthy result is the price of the first coin with a truthy price, every earlier coin an object with a falsy price; 0 when every coin is such; a raise comes from a coin that is not an object |
| Feeds.DefillamaPrice | app/assets/model.py:418-448 | 0 on a failed request or when `coins` is missing or not an object; otherwise the first truthy coin price |
| Feeds.DebankPrice | app/assets/model.py:450-461 | 0 on a failed request or falsy data; a nonzero result is `data.price` |
| Feeds.Prepend | app/assets/model.py:466 | literal text in front of a format result is kept in front, and errors pass through |
| Feeds.FormatLiteral | app/assets/model.py:466 | `%`-formatting copies text without `%` unchanged |
| Feeds.DexguruReplyPrice | app/assets/model.py:467-471 | 0 on a failed request; otherwise `price_usd`, 0 by default |
| Feeds.DexguruAsWrittenZero | app/assets/model.py:30 | as written, the DexGuru template raises in `%` before any request, so the feed always yields 0 |
| Feeds.DexguruUrl | app/assets/model.py:466 | the intended URL is what the corrected template formats to: the lower-cased address before "/market" |
| Feeds.DexguruPrice | app/assets/model.py:463-471 | the corrected feed reads `price_usd` from the reply to the intended URL |
| Feeds.FeedAttempt | app/assets/model.py:94-99 | each feed name calls its own extractor on the URL that extractor builds |
| Misc.Validated | app/misc.py:17-25 | missing name and symbol become "UNKNOWN" and missing decimals 18; present fields and all other fields are untouched |
| Misc.ValidatedIdempotent | app/misc.py:18-23 | validating twice is validating once |
| Misc.WithZeroPrice | app/misc.py:28-30 | the token's address is listed afterwards; the list grows by one exactly when no entry had that address, keeping the old entries in order |
| Misc.WithZeroPriceDistinct | app/misc.py:28-31 | a registry with distinct addresses keeps distinct addresses |
| Misc.WithNotAliveGauge | app/misc.py:37-40 | the gauge is appended unless some stored element equals its address |
| Misc.NotAliveAlwaysAppends | app/misc.py:39-40 | since stored elements are gauges and never equal an address string, every call appends |
| Misc.ValidateToken | app/misc.py:47-48 | true exactly when the value is a Python int (bools included), hence not None |
| Misc.ModelUteis.constructor | app/misc.py:13-14 | both class-level lists start empty |
| Misc.ModelUteis.AddZeroPriceToken | app/misc.py:28-30 | the registry becomes `WithZeroPrice` of the old one, keeping addresses distinct |
| Misc.ModelUteis.AddNotAliveGauge | app/misc.py:37-40 | the registry becomes `WithNotAliveGauge` of the old one |
| Tokens.Token.Create | app/assets/model.py:56-66 | a created token has the given address, liquid-staked address and symbol, the declared defaults elsewhere, and is saved |
| Tokens.Token.Save | app/assets/model.py:478 | the stored snapshot becomes the token's current fields |
| Pairs.Side | app/pairs/model.py:178-182 | a side contributes reserve times price only for a present token with a nonzero price |
| Pairs.TvlDoubling | app/pairs/model.py:184-190 | TVL is doubled exactly when both tokens are present, the sum is nonzero and one price is 0 |
| Pairs.TvlSingleSided | app/pairs/model.py:184-190 | with the second price 0, TVL is twice the first side |
| Pairs.TvlMissingToken | app/pairs/model.py:184 | with a token missing there is no doubling |
| Pairs.TvlNonNegative | app/pairs/model.py:176-195 | nonnegative reserves and prices give a nonnegative TVL |
| Pairs.TvlExamples | app/pairs/model.py:176-195 | 100@2 with 50@0 gives 400, 100@2 with 50@3 gives 350, both prices 0 give 0 |
| Pairs.PairApr | app/pairs/model.py:65-68 | APR times TVL is reward times price times 100 times 365 |
| Pairs.PairAprExample | app/pairs/model.py:67-68 | reward 10, price 5 and TVL 1000 give 1825 |
| Pairs.PairStore.constructor | app/pairs/model.py:26-41 | the store holds the given records |
| Pairs.Pair.FromRecord | app/pairs/model.py:26-41 | a pair built from a record reads back as that record |
| Pairs.Pair.Save | app/pairs/model.py:70 | the store maps the pair's address to its current record, other records untouched |
| Pairs.Pair.UpdateApr | app/pairs/model.py:56-70 | zero TVL changes and saves nothing; otherwise the APR is `PairApr` when gauge and token are present, else unchanged, and the pair is saved |
| Pairs.Pair.SyncupGauge | app/pairs/model.py:44-54 | a zero or missing gauge address fetches nothing and changes nothing; otherwise the gauge exists exactly when the gauge build succeeds, carries the prepared daily reward, and the APR update follows |
| Pairs.NormalGauge | app/pairs/model.py:149-152 | the zero address and None become None; any other gauge address is lower-cased |
| Pairs.Normalised | app/pairs/model.py:138-159 | no record exactly when both tokens are found and one of them has no decimals (the division raises); otherwise the new record |
| Pairs.NewRecord | app/pairs/model.py:138-159 | the new record: lower-cased address, supply scaled by its decimals, reserves by `Reserves`, compat fields equal to the originals, gauge address normalised, TVL by `_tvl`, APR 0 |
| Pairs.Reserves | app/pairs/model.py:144-146 | with both tokens found, each reserve times ten to its token's decimals is the raw reserve; otherwise the raw reserves unchanged |
| Pairs.FromChain | app/pairs/model.py:106-169 | a pair is created exactly when its chain reads exist and normalise; its record is the normalised one with the APR `syncup_gauge` leaves (`PairApr` of the gauge reward, the default token's price and the TVL when the gauge builds and the TVL is not 0, else 0), stored wholesale under its address, other records untouched |
| Pairs.Find | app/pairs/model.py:72-83 | None gives None; a cached address loads its record without changing the store; otherwise the pair comes from the chain |
| Gauges.ValidateTokenDecimals | app/gauges/model.py:39-43 | missing decimals become the default and present ones are kept; a found token stays found |
| Gauges.RebaseApr | app/gauges/model.py:109-116 | rebase APR times supply is growth times 52 times 100; a zero supply raises |
| Gauges.Gauge.Create | app/gauges/model.py:92 | a created gauge holds the shaped data, empty rewards and zero tbv, votes and APR, and is saved |
| Gauges.Gauge.Save | app/gauges/model.py:156 | the stored snapshot becomes the gauge's current fields |
| Gauges.LookupInValid | app/gauges/model.py:148 | every token lookup yields a token with decimals after validation |
| Gauges.ExternalRewardsFails | app/gauges/model.py:147-154 | the external rewards raise exactly when some reward token cannot be found |
| Gauges.ExternalRewardsPrefix | app/gauges/model.py:147-154 | once a prefix of the results raises, so does the whole loop |
| Gauges.ExternalRewardsOverwrite | app/gauges/model.py:149 | a token's reward is overwritten with its last amount scaled by its decimals |
| Gauges.ExternalRewardsUnpriced | app/gauges/model.py:151-152 | tokens without a price leave tbv unchanged |
| Gauges.InternalStepFacts | app/gauges/model.py:174-185 | a pass raises exactly when the token lookup fails; a fee adds to an existing entry, creates a new one holding the scaled fee exactly when positive, and otherwise writes nothing; other entries are kept; unpriced tokens leave tbv unchanged |
| Gauges.InternalRewardsPrefix | app/gauges/model.py:174-185 | once a prefix of the fees raises, so does the whole loop |
| Gauges.FeeTokens | app/gauges/model.py:169-172 | exactly the token addresses of the fee list |
| Gauges.PaidTokens | app/gauges/model.py:174-181 | exactly the token addresses of the fee list with a fee above 0 |
| Gauges.InternalRewardsFails | app/gauges/model.py:174-185 | the loop raises exactly when some fee token's lookup fails |
| Gauges.InternalRewardsKeys | app/gauges/model.py:174-187 | the reward keys afterwards are the old keys plus the tokens paid a positive fee, and the entries of tokens without a fee entry are unchanged |
| Gauges.InternalRewardsOneSided | app/gauges/model.py:174-187 | with no rewards yet and a fee on the second token only, the loop succeeds and the rewards hold just that token's scaled fee |
| Gauges.GaugeApr | app/gauges/model.py:129-133 | the APR is the rebase APR; only with a nonzero price and positive `votes * price` are the votes stored and the tbv return added |
| Gauges.FetchExternalRewards | app/gauges/model.py:136-156 | succeeds exactly when every reward token is found, and then rewards and tbv are the specification's and the gauge is saved |
| Gauges.AddExternalReward | app/gauges/model.py:148-152 | one loop pass is the specification's external step |
| Gauges.RewardEntries | app/gauges/model.py:141-145 | the multicall results are keyed by distinct token addresses |
| Gauges.FetchInternalRewards | app/gauges/model.py:159-187 | succeeds exactly when the specification does, and then rewards and tbv are the specification's and the gauge is saved |
| Gauges.AddInternalReward | app/gauges/model.py:175-183 | one loop pass for a found token is the specification's internal step, including the pass with no entry and no fee that writes no reward |
| Gauges.UpdateApr | app/gauges/model.py:119-133 | the APR is `GaugeApr`'s; votes are stored and the gauge saved only when `GaugeApr` stores votes |
| Gauges.WrappedBribe | app/gauges/model.py:84-88 | the wrapped bribe is never the zero address or ""; a missing or zero bribe address gives none |
| Gauges.DailyReward | app/gauges/model.py:78 | the daily reward times 10 ** decimals is the raw reward rate times the seconds of a day |
| Gauges.Prepare | app/gauges/model.py:57-88 | fails exactly for a missing or dead gauge or a missing default token; otherwise supply is raw divided by 18, the daily reward is `DailyReward` of the raw rate and the token's decimals, and the compat addresses mirror the originals |
| Gauges.CollectRewards | app/gauges/model.py:90-101 | the bribe rewards then the fee rewards succeed exactly when a pair exists and the specification's rewards do, and then the gauge holds them and is saved |
| Gauges.Build | app/gauges/model.py:90-101 | a fresh gauge is returned exactly when a pair exists and the rewards and rebase APR succeed; it carries the prepared fields, the rewards and the `GaugeApr` result |
| Gauges.FromChain | app/gauges/model.py:57-105 | the whole `from_chain`: a gauge exactly when preparation, rewards and rebase APR succeed, with every field as the steps define it |
| ClPools.Period | app/cl/pools.py:33-35 | the smallest multiple of a week strictly after now |
| ClPools.Today | app/cl/pools.py:76 | the start of the current day, at most the clock and less than a day before it |
| ClPools.Cutoff | app/cl/pools.py:77 | exactly seven days before today |
| ClPools.TokenItems | app/cl/pools.py:44-47 | each token is filed under its id, in list order |
| ClPools.IndexTokens | app/cl/pools.py:43-47 | the token index is the list keyed by id |
| ClPools.IndexTokensLastWins | app/cl/pools.py:47 | an id finds the last token of the list with that id |
| ClPools.SymbolParts | app/cl/pools.py:51-59 | the pool symbol splits back into "CL", both token symbols and the fee text |
| ClPools.Shape | app/cl/pools.py:50-74 | a reshaped pool keeps its id, tokens and gauge; supply equals liquidity; reserves are scaled up by each token's decimals; the later fields start at 0 |
| ClPools.KeptSpec | app/cl/pools.py:49-50 | the kept pools are exactly those with a gauge |
| ClPools.ShapePools | app/cl/pools.py:48-74 | the pool index is the kept, reshaped pools keyed by id |
| ClPools.ShapedPoolsHaveGauges | app/cl/pools.py:50 | every indexed pool has a gauge, and every pool with a gauge is indexed |
| ClPools.UpdateAll | app/cl/pools.py:80-88 | a successful loop over the pools keeps their number |
| ClPools.UpdateAllSpec | app/cl/pools.py:80-88 | the loop succeeds exactly when every pool's step does, and then replaces each pool by its step |
| ClPools.UpdateAllFails | app/cl/pools.py:80-84 | one failing pool fails the loop |
| ClPools.UpdateAllStep | app/cl/pools.py:80-88 | the loop over one more pool extends the loop over the prefix |
| ClPools.WorthScaled | app/cl/pools.py:85-88 | an amount scaled up by a token's decimals is worth the unscaled amount times its price |
| ClPools.PoolTvl | app/cl/pools.py:80-88 | the TVL is the worth of both reserves; an unlisted token raises |
| ClPools.PoolTvlLocked | app/cl/pools.py:66-71 | the decimal scaling cancels, so TVL is each locked amount times its price |
| ClPools.ProcessTvl | app/cl/pools.py:79-88 | the TVL loop is the specification's update of every pool |
| ClPools.ValidDays | app/cl/pools.py:94-96 | exactly the days dated at or after the cutoff, and no more of them |
| ClPools.Trunc | app/cl/pools.py:122-135 | `int()` truncates toward zero |
| ClPools.InRange | app/cl/pools.py:110-113 | a day's USD in range is capped at its tvlUSD |
| ClPools.DayTotals | app/cl/pools.py:108-136 | every valid day is counted once, fees are summed, and the USD in range never exceeds the summed tvlUSD |
| ClPools.Average | app/cl/pools.py:138-140 | the sum over the days divided by their count, or 1 without days |
| ClPools.FeeApr | app/cl/pools.py:144-160 | 0 when there is no USD in range; otherwise the yearly fee return on it |
| ClPools.FeeAprRatio | app/cl/pools.py:146-152 | fee APR times USD in range is fees times 100 times the LP share times 365 |
| ClPools.ProjectedTokensRead | app/cl/pools.py:102-104 | both tokens start at 0 and read back their own fees, summed when the two ids agree |
| ClPools.FeeOf | app/cl/pools.py:93-160 | one pool's fee step; an unlisted token raises |
| ClPools.FeeOfFacts | app/cl/pools.py:93-160 | fees and day count are those of the valid days, and without USD in range the fee APR is 0 |
| ClPools.FeeAprOf | app/cl/pools.py:93-160 | the day loop of one pool computes the specification's fee step |
| ClPools.ProcessFees | app/cl/pools.py:93-160 | the fee loop is the specification's update of every pool |
| ClPools.ReadsOf | app/cl/pools.py:162-206 | the vote share is added to the pool's and the initial fee recorded |
| ClPools.ProcessReads | app/cl/pools.py:162-206 | the two read loops update every pool as the specification says |
| ClPools.BribeStepFacts | app/cl/pools.py:193-196 | a zero amount records nothing; a positive amount is recorded under its token in its pool, everything else kept |
| ClPools.RecordBribes | app/cl/pools.py:176-196 | the bribe loop applies the specification's step to every result |
| ClPools.MarkZeroFacts | app/cl/pools.py:215-216 | every reward token reads 0 afterwards and every other key is unchanged |
| ClPools.InitRates | app/cl/pools.py:212-216 | each pool's table is emptied, then its reward tokens are set to 0 |
| ClPools.InitRatesLast | app/cl/pools.py:212-216 | one pool's step empties its table and then marks its reward tokens |
| ClPools.InitRatesEntries | app/cl/pools.py:209-216 | without a reward token at a pool's address, every pool has an empty table and every reward token reads 0 |
| ClPools.InitRatesClobbered | app/cl/pools.py:216 | as written, a pool whose address is listed as a reward token loses its table to the top-level 0 |
| ClPools.RateCallsKeys | app/cl/pools.py:217-225 | every rate call is keyed by a pool and one of its gauge's reward tokens |
| ClPools.InitRewardRates | app/cl/pools.py:209-225 | the rate tables and the calls are those of the specification |
| ClPools.FillStepFacts | app/cl/pools.py:227-229 | a rate is set in its pool's table and nothing else changes |
| ClPools.FillKeepsTables | app/cl/pools.py:227-229 | results naming pools with tables fill without raising, and tables stay tables |
| ClPools.RewardRatesFill | app/cl/pools.py:209-229 | without clobbered pools and "-" in addresses, every rate result is filled |
| ClPools.FillRates | app/cl/pools.py:227-229 | the fill loop applies the specification's step to every result |
| ClPools.WorthNonNegative | app/cl/pools.py:239-246 | nonnegative amounts at nonnegative prices are worth a nonnegative sum |
| ClPools.RewardUsdSpec | app/cl/pools.py:235-246 | the daily rewards are defined exactly when there are no reward tokens or every one has a rate and is listed, and are then nonnegative for nonnegative prices |
| ClPools.WorthSumSpec | app/cl/pools.py:268-273 | the bribe sum is defined exactly when every token is listed, and is then nonnegative for nonnegative amounts and prices |
| ClPools.SumWorth | app/cl/pools.py:268-273 | the summing loop computes the specification's sum |
| ClPools.WorthSumFails | app/cl/pools.py:268-273 | an unlisted token in a prefix fails the whole sum |
| ClPools.SumRewards | app/cl/pools.py:235-246 | the reward loop computes the specification's daily USD |
| ClPools.RewardUsdFails | app/cl/pools.py:235-246 | a failing prefix of reward tokens fails the whole sum |
| ClPools.Annualised | app/cl/pools.py:257 | a daily amount as a yearly percentage of a positive base, or of 1 |
| ClPools.PositionUsd | app/cl/pools.py:249-254 | the position is 0 without a price, otherwise the range value capped at TVL |
| ClPools.LpApr | app/cl/pools.py:256-258 | the yearly reward return on the position, plus the fee APR only when it is below 1000 |
| ClPools.LpAprOld | app/cl/pools.py:259-261 | four times the yearly reward return on the TVL, or on 1 without TVL |
| ClPools.VoteApr | app/cl/pools.py:274-283 | the yearly bribe return per day relative to the votes in USD |
| ClPools.AprOf | app/cl/pools.py:232-305 | the APR step: LP APRs from rewards, and vote and projected-fee APRs only with a positive vote share, else a vote APR of 0 |
| ClPools.AprOfPool | app/cl/pools.py:232-305 | one pool's APR loops compute the specification's APR step |
| ClPools.ProcessAprs | app/cl/pools.py:231-305 | the APR loop is the specification's update of every pool |
| ClPools.FetchPools | app/cl/pools.py:31-334 | `_fetch_pools` returns the specification's result, the pipeline of all steps |
| ClPools.ClCache.constructor | app/cl/pools.py:340 | the cache starts empty |
| ClPools.ClPoolsOf | app/cl/pools.py:337-348 | the fetched pools, or only the empty token list when fetching raises |
| ClPools.GetClPools | app/cl/pools.py:337-348 | fetched pools are cached and returned; on failure the fallback is returned and the cache kept |
| ClPools.TokenId | app/cl/pools.py:370 | an id read from a token is hashable, and a CL token's id is its own |
| ClPools.UniqueSpec | app/cl/pools.py:367-372 | dedup succeeds exactly when every id can be read; then every id is kept once, by the first token with it |
| ClPools.DedupTokens | app/cl/pools.py:367-372 | the dedup loop computes the specification's result |
| ClPools.UniqueFails | app/cl/pools.py:369-372 | a failing prefix fails the dedup |
| ClPools.V2List | app/cl/pools.py:26-28 | an empty list for a falsy cache or a missing key; a truthy cache that is not an object raises |
| ClPools.ClTokens | app/cl/pools.py:363 | the CL tokens, in order |
| ClPools.V2Tokens | app/cl/pools.py:364 | the v2 tokens, in order |
| ClPools.ClPairs | app/cl/pools.py:375 | the CL pools, in order |
| ClPools.V2Pairs | app/cl/pools.py:375 | the v2 pairs, in order |
| ClPools.MixedOfFacts | app/cl/pools.py:359-378 | merged tokens have distinct ids, cover every id, keep a CL token before a v2 token with the same id; pairs are the CL pools followed by the v2 pairs |
| ClPools.GetMixedPairs | app/cl/pools.py:351-378 | `get_mixed_pairs` returns the merge of `get_cl_pools` and the cached v2 pairs |
| Subgraph.SubgraphCache.constructor | app/cl/subgraph.py:21-22 | the cache holds the given entries |
| Subgraph.Classify | app/cl/subgraph.py:32-40 | the type is always one of the seven codes |
| Subgraph.ClassifyListed | app/cl/subgraph.py:32 | a listed symbol keeps its listed type, whatever its id |
| Subgraph.ClassifyUnlisted | app/cl/subgraph.py:33-39 | an unlisted symbol: "USD" gives LOOSE_STABLE, then the WETH id WETH, then the default id VARA, else OTHERS |
| Subgraph.Prices | app/cl/subgraph.py:17-22 | the cached price entry as stored (text when set, on which the lookup raises), or {} when missing or falsy |
| Subgraph.ProcessToken | app/cl/subgraph.py:30-40 | a processed token is an object with a string symbol |
| Subgraph.ProcessTokenFacts | app/cl/subgraph.py:31-40 | a processed token reads back its symbol's price (0 when unpriced) and its type, every other key unchanged |
| Subgraph.Processor | app/cl/subgraph.py:30-40 | the per-token processing as a function value |
| Subgraph.MapAll | app/cl/subgraph.py:30 | a loop over a list keeps its length |
| Subgraph.MapAllSpec | app/cl/subgraph.py:30-41 | the loop succeeds exactly when every element does, and then element by element |
| Subgraph.MapAllFails | app/cl/subgraph.py:30 | a failing element fails the loop |
| Subgraph.ProcessTokens | app/cl/subgraph.py:25-41 | the array is updated in place to the processed tokens exactly when processing succeeds |
| Subgraph.FirstOk | app/cl/subgraph.py:48-55 | the answer, if any, has status 200 |
| Subgraph.FirstOkSpec | app/cl/subgraph.py:48-55 | the first URL in order that answers 200 is returned; None means none did |
| Subgraph.TrySubgraph | app/cl/subgraph.py:44-55 | the loop returns the specification's first answer |
| Subgraph.PagedQueryInjective | app/cl/subgraph.py:68-71 | different skips give different query texts |
| Subgraph.TokenQueryInjective | app/cl/subgraph.py:68-71 | different token pages are asked with different queries |
| Subgraph.PoolQueryInjective | app/cl/subgraph.py:171-177 | different pool pages are asked with different queries |
| Subgraph.PageItems | app/cl/subgraph.py:76 | items come only from an object body |
| Subgraph.PagingFuel | app/cl/subgraph.py:67-84 | once paging has ended, more requests change nothing |
| Subgraph.FetchPages | app/cl/subgraph.py:128-152 | the paging loop yields the specification's pages, concatenated in order |
| Subgraph.LoadCached | app/cl/subgraph.py:96-102 | the cached JSON, or [] without it |
| Subgraph.GetClSubgraphTokens | app/cl/subgraph.py:58-93 | complete paging gives the processed tokens, also cached; a failed page gives the cached tokens unprocessed; a processing error raises |
| Subgraph.GetClSubgraphPools | app/cl/subgraph.py:105-157 | pages fetched before the first failure are returned and cached; with none, the cached pools or [] |
| TokenType.CodesDistinct | app/cl/constants/tokenType.py:2-10 | the seven codes are pairwise distinct and OTHERS is 0 |
| TokenType.DictValues | app/cl/constants/tokenType.py:12-34 | every listed symbol is LOOSE_STABLE, STABLE or LSD |
| TokenType.StableSymbols | app/cl/constants/tokenType.py:23-27 | the five dollar stablecoins are STABLE |
| TokenType.AddressesLower | app/cl/constants/tokenType.py:36-37 | both reference addresses are lower-case, 42-character strings |
| Voter.ContributionOf | app/voter/model.py:26-29 | a pair adds its gauge's votes exactly when it has a gauge with votes; lacking either it adds nothing |
| Voter.IntendedTotal | app/voter/model.py:29 | the total raises exactly when some pair raises |
| Voter.CalcTotalVotes | app/voter/model.py:29-34 | any raising pair gives the fallback 10; otherwise the intended total |
| Voter.CalcTotalVotesAsWritten | app/voter/model.py:22-34 | as written, the fallback 10 always |
| Voter.AsWrittenIgnoresVotes | app/voter/model.py:22-24 | one pair with 5 votes: intended 5, shipped 10 |
| Voter.IntendedTotalAppend | app/voter/model.py:29 | the total over two runs of pairs is the sum of their totals |
| Voter.SkippedPairAddsNothing | app/voter/model.py:26-29 | a pair lacking a gauge or votes adds nothing |
| Voter.IntendedTotalNonNegative | app/voter/model.py:29 | nonnegative votes give a nonnegative total |
| Supply.Recache | app/supply/__init__.py:58-70 | a zero total supply raises; otherwise total is raw over its decimals, locked is LockedSupply, circulating plus locked is total, the total is positive, and locked supply and its percentage are not negative |
| Supply.LockedSupply | app/supply/__init__.py:62-65 | the locked supply is not negative and, cleared of both denominators, is the lock's and the treasury's raw balances cross-scaled |
| Supply.PercentageLocked | app/supply/__init__.py:69-70 | percentage locked times total is locked times 100 |
| Supply.PercentageOfTotal | app/supply/__init__.py:69-70 | a percentage of a positive total is at most 100 exactly when the part is at most the total |
| Supply.PercentageBound | app/supply/__init__.py:66-70 | at most 100 percent is locked exactly when the circulating supply is not negative |
| ClaimableRewards.Unclaimed | app/rewards/claimable_rewards.py:20-25 | an entry starts with the token's symbol and price, nothing earned and worth nothing |
| ClaimableRewards.TokenItems | app/rewards/claimable_rewards.py:18-25 | one unclaimed entry per token, in order |
| ClaimableRewards.PairTable | app/rewards/claimable_rewards.py:16-25 | a pair's table has exactly its tokens' addresses as keys |
| ClaimableRewards.PairItems | app/rewards/claimable_rewards.py:13-16 | one table per pair, under its distributor, in order |
| ClaimableRewards.Initial | app/rewards/claimable_rewards.py:10-25 | the map's distributors are exactly those of the pairs |
| ClaimableRewards.LastPairWith | app/rewards/claimable_rewards.py:16 | the last pair naming a distributor, if any |
| ClaimableRewards.InitialLastPairWins | app/rewards/claimable_rewards.py:16 | a distributor holds the table of the last pair naming it; the reset discards earlier ones |
| ClaimableRewards.PairTableEntries | app/rewards/claimable_rewards.py:18-25 | every token has an unclaimed entry holding the last same-address token's symbol and price; no other address has one |
| ClaimableRewards.Addresses | app/rewards/claimable_rewards.py:19 | the pair's token addresses, in order |
| ClaimableRewards.CallsEntries | app/rewards/claimable_rewards.py:27-34 | every call is the key of some pair's distributor and token, with what is earned there |
| ClaimableRewards.CallsCover | app/rewards/claimable_rewards.py:27-34 | every token of every pair has a call |
| ClaimableRewards.Claimed | app/rewards/claimable_rewards.py:38-40 | earned becomes the value and totalUSD the value times the price over 1e18 |
| ClaimableRewards.ClaimedTwice | app/rewards/claimable_rewards.py:38-40 | claiming again with the same value changes nothing |
| ClaimableRewards.Entry | app/rewards/claimable_rewards.py:38 | an entry exists exactly when both lookups succeed |
| ClaimableRewards.UpdateStepFacts | app/rewards/claimable_rewards.py:36-40 | a result succeeds exactly when its entry exists, claims that entry and changes no other |
| ClaimableRewards.GetVoterClaimableRewards | app/rewards/claimable_rewards.py:7-42 | the map is built pair by pair and every result applied in order |
| ClaimableRewards.BuildRewards | app/rewards/claimable_rewards.py:13-34 | the first loop yields the initial map and the calls |
| ClaimableRewards.AddPair | app/rewards/claimable_rewards.py:14-34 | one pair resets its distributor's table to its tokens and appends its calls |
| ClaimableRewards.AddTokenStep | app/rewards/claimable_rewards.py:18-25 | one more token's entry, as the inner loop adds it |
| ClaimableRewards.AddCallStep | app/rewards/claimable_rewards.py:27-34 | one more token's call, as the inner loop appends it |
| ClaimableRewards.ApplyResults | app/rewards/claimable_rewards.py:36-40 | the second loop applies every result, raising on a bad key or missing entry |
| ClaimableRewards.ClaimedAll | app/rewards/claimable_rewards.py:38-40 | an entry once its distributor's report is applied |
| ClaimableRewards.TracksStep | app/rewards/claimable_rewards.py:36-40 | a listed result claims its entry and keeps the others |
| ClaimableRewards.UnlistedFails | app/rewards/claimable_rewards.py:38 | an unlisted result raises KeyError |
| ClaimableRewards.ApplyTracks | app/rewards/claimable_rewards.py:36-40 | while every result is listed, the loop tracks exactly the claims made |
| ClaimableRewards.FailsSomewhere | app/rewards/claimable_rewards.py:36-40 | when every result is listed or unlisted and one is unlisted, the loop raises |
| ClaimableRewards.FailsAt | app/rewards/claimable_rewards.py:36-40 | when every result before an unlisted one is listed, the loop raises at that one |
| ClaimableRewards.FirstSet | app/rewards/claimable_rewards.py:36-40 | where some flag is set there is a first set one, every flag before it clear: the first unlisted result the loop reaches |
| ClaimableRewards.InitialEntries | app/rewards/claimable_rewards.py:16-25 | initial entries are exactly the tokens of the last pair naming each distributor |
| ClaimableRewards.InitialWellFormed | app/rewards/claimable_rewards.py:10-25 | the initial map has distinct keys, and plain entries for plain pairs |
| ClaimableRewards.ResultsClassified | app/rewards/claimable_rewards.py:36-38 | every result is listed or unlisted |
| ClaimableRewards.EntriesHaveResults | app/rewards/claimable_rewards.py:27-40 | when every call is listed, every entry has a result |
| ClaimableRewards.AllListedClaimsAll | app/rewards/claimable_rewards.py:36-42 | when every call is listed, every entry is claimed |
| ClaimableRewards.UnlistedRaises | app/rewards/claimable_rewards.py:16-38 | a token missing under its distributor makes the loop raise |
| ClaimableRewards.ClaimableRewardsOutcome | app/rewards/claimable_rewards.py:7-42 | with plain addresses, the map is returned exactly when every token has an entry, and then every entry holds its report |
| ClaimableRewards.DistinctDistributorsListed | app/rewards/claimable_rewards.py:13-34 | distinct distributors make every call listed |
| ClaimableRewards.SharedDistributorRaises | app/rewards/claimable_rewards.py:16 | a later pair sharing a distributor but lacking an earlier token makes its result raise |
| Multicall.KeySplit | app/rewards/claimable_rewards.py:27-37 | a key splits back into owner and token when neither contains "-" |
| Multicall.KeyInjective | app/cl/pools.py:181-194 | keys of "-"-free names are equal only for the same owner and token |
| Multicall.KeyedCalls | app/cl/pools.py:178-192 | one call per token, keyed and valued in order |
| Multicall.ApplyAllFails | app/cl/pools.py:193-196 | a failing prefix of results fails the whole loop |
| Configuration.SubgroupSize | app/configuration/__init__.py:42 | the smallest group size, at least 1, that splits n addresses into at most 30 groups |
| Configuration.Chunks | app/configuration/__init__.py:45-47 | the chunks concatenate back to the list, each non-empty and at most the size |
| Configuration.ChunkCount | app/configuration/__init__.py:45-47 | the number of chunks is the length divided by the size, rounded up |
| Configuration.ChunkSlices | app/configuration/__init__.py:46 | chunk k is the slice from `k * size` of at most `size` addresses |
| Configuration.AtMostThirtyGroups | app/configuration/__init__.py:42-47 | the addresses are requested in at most 30 groups |
| Configuration.PairVolume | app/configuration/__init__.py:61-64 | a pair's volume window is read from its "volume" object, 0 when missing |
| Configuration.WindowSumRaises | app/configuration/__init__.py:61-64 | the sum raises exactly when some pair does |
| Configuration.WindowSumAppend | app/configuration/__init__.py:61-64 | the sum over two runs of pairs is the sum of their sums |
| Configuration.GroupOutcome | app/configuration/__init__.py:51-66 | a failed request or missing or None "pairs" is skipped; otherwise the four window sums |
| Configuration.VolumeSpecAppend | app/configuration/__init__.py:49-64 | the volumes over two runs of groups add up |
| Configuration.SkippedGroupAddsNothing | app/configuration/__init__.py:56-58 | a skipped group adds nothing |
| Configuration.DexscreenerVolumeData | app/configuration/__init__.py:30-76 | no addresses gives the four fields as None; otherwise the totals of the groups' volumes |
| Configuration.SumGroups | app/configuration/__init__.py:49-64 | the loop's four running totals are the specification's volumes |
| Configuration.TotalStep | app/configuration/__init__.py:50-66 | one more group adds its volumes, nothing if skipped, or raises |
| Configuration.TotalAppend | app/configuration/__init__.py:50-66 | the totals over two runs of outcomes add up, and fail when either fails |
| Configuration.FetchGroup | app/configuration/__init__.py:51-58 | the request for group i gives the specification's outcome of that group |
| Configuration.VolumeSpecFails | app/configuration/__init__.py:50-66 | a raising prefix of groups fails the loop |
| Configuration.TruthyTvlSumIsTotal | app/configuration/__init__.py:97 | leaving out falsy TVLs does not change the sum |
| Configuration.Tvl | app/configuration/__init__.py:97 | None without pairs, otherwise the total TVL |
| Configuration.TruthyAprs | app/configuration/__init__.py:98 | exactly the truthy APRs |
| Configuration.Max | app/configuration/__init__.py:98 | an element of the list at least every other |
| Configuration.MaxApr | app/configuration/__init__.py:98 | None without pairs; ValueError when pairs exist but none has a truthy APR; otherwise the largest truthy APR |
| Syncer.Cache.constructor | app/syncer.py:15 | the cache holds the given values and ttls |
| Syncer.Cache.Get | app/syncer.py:21 | the cached value of a key, None without one |
| Syncer.Cache.Ttl | app/syncer.py:15 | the ttl of a key, None without one |
| Syncer.LiveIffPositiveTtl | app/syncer.py:14-16 | a key is not expired exactly when it has a positive ttl |
| Syncer.SkipIffFresh | app/syncer.py:22-23 | a sync is skipped exactly when the cached value is present and non-empty and the ttl positive |
| Syncer.SyncLog.constructor | app/syncer.py:19 | no sync function has run |
| Syncer.SyncLog.Invoke | app/syncer.py:26 | a call appends the function and its arguments |
| Syncer.SyncWithCache | app/syncer.py:19-26 | the sync function runs exactly once with the arguments when the value is falsy or the key expired, and otherwise nothing runs |
| Comparison.AreClose | scripts/compare_assets.py:13-19 | never close when either value is 0; for positive values, close exactly when the difference is within the tolerance times the larger value |
| Comparison.AreCloseSymmetric | scripts/compare_assets.py:17-19 | the order of the two values does not matter |
| Comparison.EqualNonzeroClose | scripts/compare_assets.py:17-19 | a nonzero value is close to itself |
| Comparison.ByAddress | scripts/compare_assets.py:8-10 | the entries are keyed by distinct addresses |
| Comparison.Keyed | scripts/compare_assets.py:10 | each entry under its own address, in order |
| Comparison.ByAddressLastWins | scripts/compare_assets.py:10 | an address maps to the last entry with it, and is missing when none has it |
| Comparison.ByAddressEntries | scripts/compare_assets.py:10 | every entry is one of the data, filed under its own address |
| Comparison.Classify | scripts/compare_assets.py:92-103 | Same exactly for equal values, Close exactly for different but close ones |
| Comparison.ClassifyClose | scripts/compare_assets.py:92-94 | differing nonzero values within the tolerance are Close |
| Comparison.MatchedStep | scripts/compare_assets.py:85-87 | one more entry of the first dict extends the walk |
| Comparison.MatchedFails | scripts/compare_assets.py:85-90 | a raising prefix fails the walk |
| Comparison.MatchedNoneIff | scripts/compare_assets.py:85-90 | the walk raises exactly when the work on some common address raises |
| Comparison.MatchedSound | scripts/compare_assets.py:85-87 | each item of the walk is computed for a common address |
| Comparison.MatchedComplete | scripts/compare_assets.py:85-87 | every common address has an item |
| Comparison.Bucket | scripts/compare_assets.py:92-103 | a bucket holds items of the walk with its kind |
| Comparison.BucketSnoc | scripts/compare_assets.py:92-103 | one more item joins only its own bucket |
| Comparison.BucketComplete | scripts/compare_assets.py:92-103 | every item is in the bucket of its kind |
| Comparison.BucketPartition | scripts/compare_assets.py:92-103 | the three buckets together hold the walk's items exactly once each |
| Comparison.OneBucket | scripts/compare_assets.py:85-103 | a common address lands in its kind's bucket and in no other |
| Comparison.Rows | scripts/compare_assets.py:94-103 | one row per item, in order |
| Comparison.SortedSnoc | scripts/compare_assets.py:92-103 | appending an item's row to its list is sorting the longer walk |
| Comparison.RowsAddresses | scripts/compare_assets.py:94-103 | a printed row names an address exactly when an item of its bucket has it |
| Comparison.SortedOneBucket | scripts/compare_assets.py:85-103 | in the printed lists a common address has a row in its kind's list and none in the other two |
| CompareAssets.TransformData | scripts/compare_assets.py:8-10 | tokens are keyed by distinct addresses |
| CompareAssets.TransformDataFilesByAddress | scripts/compare_assets.py:8-10 | each token is filed under its own address |
| CompareAssets.ComparePrices | scripts/compare_assets.py:85-103 | the loop's three lists are the specification's report |
| CompareAssets.ReportNoneIff | scripts/compare_assets.py:85-90 | the script stops exactly when the dexscreener price of a common address raises |
| CompareAssets.CommonAddressOneBucket | scripts/compare_assets.py:85-103 | every common token lands in exactly one list, the one its two prices call for |
| CompareTvls.TransformData | scripts/compare_tvls.py:5-7 | pairs are keyed by distinct addresses |
| CompareTvls.DexscreenerRequest | scripts/compare_tvls.py:19-30 | no usable pairs list gives 0; otherwise the first pair's liquidity.usd, or 0 for falsy liquidity; bad shapes raise |
| CompareTvls.NoPairsZero | scripts/compare_tvls.py:22-23 | an empty or None pairs list gives 0 |
| CompareTvls.CompareTvls | scripts/compare_tvls.py:55-77 | the loop's six lists are the specification's report |
| CompareTvls.ReportNoneIff | scripts/compare_tvls.py:55-60 | the script stops exactly when the dexscreener request of a common address raises |
| CompareTvls.OldNewOneBucket | scripts/compare_tvls.py:63-69 | every common pair lands in exactly one old-against-new list |
| CompareTvls.NewDexOneBucket | scripts/compare_tvls.py:71-77 | every common pair lands in exactly one new-against-dexscreener list |

## Left out

- Network I/O is not modelled. This covers HTTP feeds and token lists, subgraph POSTs, web3 reads and multicall execution. Each read is a function parameter: `http`, `post`, `router`, `chain`, `fetch`, `dexPrice`, `earned` and the `ClChain` reads.
- Multicall decoding is taken as already done. The reads return the decoded integers, so the `lambda v: v[0]` handlers are not modelled.
- Concurrency is not modelled:
  - the thread pool of `_fetch_all_tokens` (app/assets/model.py:526-543), so `FetchTokenlist` models one list;
  - the thread pools of app/syncer.py and app/pairs;
  - the process loop of app/pairs/syncer.py.
- The `sync_*` wrappers, `sync_pairs_data` and `sync` of app/syncer.py are not modelled. They only call `sync_with_cache` with fixed keys, or use threads.
- Logging and timing are not modelled: every `LOGGER` call, `time.time()` for the elapsed time, and the printing and pandas tables of the two scripts.
- Python floats are modelled as `real`. Rounding, the `"{:.18f}"` text of the pools and their field deletion (app/cl/pools.py:307-333) are not modelled. The `Decimal` comparisons and the squaring of `sqrtPrice` are kept in reals.
- ClPools.Trunc: the `int()` truncation of projected fees is modelled on reals, with no float rounding before it.
- The text of the fee tier (`str(float(feeTier) / 1e4)`) is the parameter `floatText`. Python's `float()` of a string is the parameter `parseFloat`.
- `range_tvl`, `fee_distribution.json` and `get_apr` are not part of this model. They are the parameter `rangeTvl`, the `FeeDistribution` value and the list of `AprPair`s.
- ClPools.ProcessReads: the `fee()` read and the vote-share read are one pass over the pools, not two multicalls. The keys are the pool ids, so the order of the updates does not matter.
- ClPools.FetchPools: the pools' `Shape` price sign and the `feeTier` decoding are taken as typed inputs. Subgraph JSON that does not decode to these types is not modelled.
- The dexscreener price pick of scripts/compare_assets.py:22-67 (mean, stdev and nearest price) is not modelled. Its result is the parameter `dexPrice`, None where it raises.
- CompareAssets.ComparePrices and CompareTvls.CompareTvls: prices and TVLs are reals present or absent. A JSON `null` or a non-number price is not modelled.
- `get_unlimited_lge_chart` (app/cl/pools.py:381-405) is not modelled. It is a paging loop over a different subgraph and is not used by the pools.
- `Gauge.find` (app/gauges/model.py:46-54) is not modelled. `Pair.syncup_gauge` calls `from_chain` directly, and `find` only adds a cache load.
- `Pair.chain_addresses` is not modelled. It is a multicall over the factory and has no logic.
- The first, shadowed `from_tokenlists` (app/assets/model.py:343-392) is dead code and is not modelled.
- Walrus field coercions are not modelled. Saving and loading are snapshots of the typed fields.
- Feeds.FeedAttempt: the price resolver runs the corrected DexGuru feed, `DexguruPrice` (the corrected member of the first Findings row). The shipped feed always gives 0 without a request (`DexguruAsWrittenZero`), so when DexGuru is configured and its intended URL answers a positive price, the source goes on to the next feed where the model takes DexGuru's price.
- Assets.TryFeeds: its loop result is the external family's price with the corrected DexGuru feed (see Feeds.FeedAttempt), not the shipped feed's constant 0.
- Assets.GetPriceExternalSource: the price it returns uses the corrected DexGuru feed (see Feeds.FeedAttempt).
- Assets.UpdatePrice: the external price inside `ResolutionFor` uses the corrected DexGuru feed (see Feeds.FeedAttempt), so the resolved price and the zero-price listing differ from the source's when DexGuru is configured and answers.
- Assets.CreateAndUpdateToken: the resolved price it states comes from `UpdatePrice` and inherits the corrected DexGuru feed (see Feeds.FeedAttempt).
- Gauges.FromChain: a gauge created before a later step raises stays persisted in the source. The model returns None and does not track that partial record.
- Gauges.FetchInternalRewards: the two fee reads are taken before the loop, so a missing token is detected before any write. In the source the first fee may already have been written.
- Subgraph.FetchPages: the paging loops have no bound, so the model runs them with a `fuel` request budget. `Ends` requires the subgraph to finish within it, and `PagingFuel` shows more fuel changes nothing.
- The whitespace layout of the GraphQL pool query is not reproduced. `PoolQuery` keeps its skip/limit splice, which is what the injectivity lemma relies on.
- Voter.ContributionOf: a pair or gauge that is not an object is treated as raising. For a string, Python's `in` would test for a substring instead.
- The first loop of `calc_total_votes`, which only logs, is not modelled.
- Configuration: the cache write and the HTTP parts of `on_get` are not modelled. `Pair.all()` addresses are an input.
- Python's `1 == True == 1.0` in token ids is not modelled: ids compare as JSON values.

## Findings

| source | as written | input that shows it | evidently intended | confidence | as-written member | corrected member |
|---|---|---|---|---|---|---|
| app/assets/model.py:30 | `DEXGURU_ENDPOINT % address` with a template containing `%/market` | any token address: `%/` is an unsupported format character, so `%` raises ValueError before any request, and the handler returns 0 | `.../tokens/%s/market` formatted with the lower-cased address | high (not executed) | Feeds.DexguruAsWrittenZero | Feeds.DexguruPrice |
| app/voter/model.py:22-29 | `pairs_data: Pairs.serialize()` is only an annotation, and the loops read the unbound names `pairs` and `pairs.data` | one pair whose gauge has 5 votes: NameError is caught and 10 is returned instead of 5 | `pairs = Pairs.serialize()`, summing the votes | high (not executed) | Voter.AsWrittenIgnoresVotes | Voter.CalcTotalVotes |
