/**
 * The claimable voter rewards of one veNFT (app/rewards/claimable_rewards.py):
 * a table per fee distributor of the tokens its pair pays out, filled with
 * what the distributor reports as earned and its USD value.
 */
module ClaimableRewards {
  import opened Wrappers
  import opened Strings
  import opened Multicall
  import Dicts

  /** Token amounts are reported in 18-decimal units. */
  const Wei: real := 1000000000000000000.0

  /** A token of a pair as `get_apr` lists it. */
  datatype RewardToken = RewardToken(address: string, symbol: string, price: real)

  /** A pair as `get_apr` lists it: its fee distributor and its tokens. */
  datatype AprPair = AprPair(feeDistributor: string, tokens: seq<RewardToken>)

  /** One entry of the result. */
  datatype Reward = Reward(symbol: string, earned: nat, price: real, totalUsd: real)

  /** The tokens of one distributor. */
  type Table = Dicts.Dict<string, Reward>

  /** The result: a table per distributor. */
  type Rewards = Dicts.Dict<string, Table>

  // ------------------------------------------------------- building the map

  /** The entry a token starts with: nothing earned, worth nothing. */
  function Unclaimed(t: RewardToken): (r: Reward)
    ensures r.earned == 0 && r.totalUsd == 0.0
    ensures r.symbol == t.symbol && r.price == t.price
  {
    Reward(t.symbol, 0, t.price, 0.0)
  }

  /** The assignments `rewards[distributor][token_address] = {...}` of one pair, in order. */
  function TokenItems(tokens: seq<RewardToken>): (r: seq<(string, Reward)>)
    ensures |r| == |tokens|
    ensures forall k :: 0 <= k < |tokens| ==> r[k] == (tokens[k].address, Unclaimed(tokens[k]))
  {
    if tokens == [] then []
    else TokenItems(tokens[..|tokens| - 1]) + [(tokens[|tokens| - 1].address, Unclaimed(tokens[|tokens| - 1]))]
  }

  /** A distributor's table as one pair leaves it: a later token with the same address wins. */
  function PairTable(tokens: seq<RewardToken>): (r: Table)
    ensures Dicts.DistinctKeys(r)
  {
    Dicts.FromItems(TokenItems(tokens))
  }

  /** The tables the pairs assign, one per pair, in order. */
  function PairItems(pairs: seq<AprPair>): (r: seq<(string, Table)>)
    ensures |r| == |pairs|
    ensures forall i :: 0 <= i < |pairs| ==> r[i] == (pairs[i].feeDistributor, PairTable(pairs[i].tokens))
  {
    if pairs == [] then []
    else PairItems(pairs[..|pairs| - 1]) + [(pairs[|pairs| - 1].feeDistributor, PairTable(pairs[|pairs| - 1].tokens))]
  }

  /**
   * The map before the multicall: `rewards[distributor] = {}` starts each
   * pair afresh, so a distributor holds the table of the last pair that
   * names it.
   */
  function Initial(pairs: seq<AprPair>): (r: Rewards)
    ensures Dicts.DistinctKeys(r)
  {
    Dicts.FromItems(PairItems(pairs))
  }

  /** Index of the last pair with a given distributor, if any. */
  function LastPairWith(pairs: seq<AprPair>, distributor: string): (r: Option<nat>)
    ensures r.Some? ==> r.value < |pairs| && pairs[r.value].feeDistributor == distributor
    ensures r.Some? ==> forall j :: r.value < j < |pairs| ==> pairs[j].feeDistributor != distributor
    ensures r.None? ==> forall j :: 0 <= j < |pairs| ==> pairs[j].feeDistributor != distributor
  {
    Dicts.LastWith(PairItems(pairs), distributor)
  }

  /** A distributor's table is the table of the last pair naming it; unnamed distributors have none. */
  lemma InitialLastPairWins(pairs: seq<AprPair>, distributor: string)
    ensures Dicts.Get(Initial(pairs), distributor) ==
      match LastPairWith(pairs, distributor)
      case Some(i) => Some(PairTable(pairs[i].tokens))
      case None => None
  {
    Dicts.FromItemsLastWins(PairItems(pairs), distributor);
  }

  /**
   * Every token of a pair has an entry in its table, holding the symbol and
   * price of the last token with that address, nothing earned and worth
   * nothing; no other address has one.
   */
  lemma PairTableEntries(tokens: seq<RewardToken>, address: string)
    ensures Dicts.HasKey(PairTable(tokens), address) <==> exists k :: 0 <= k < |tokens| && tokens[k].address == address
    ensures Dicts.HasKey(PairTable(tokens), address) ==>
      exists k :: 0 <= k < |tokens| && tokens[k].address == address &&
        Dicts.Get(PairTable(tokens), address) == Some(Unclaimed(tokens[k])) &&
        forall j :: k < j < |tokens| ==> tokens[j].address != address
  {
    var items := TokenItems(tokens);
    Dicts.FromItemsLastWins(items, address);
    Dicts.FromItemsKeys(items, address);
    if Dicts.HasKey(PairTable(tokens), address) {
      var k := Dicts.LastWith(items, address).value;
      assert tokens[k].address == address;
    }
  }

  /** The addresses of a pair's tokens, in order. */
  function Addresses(tokens: seq<RewardToken>): (r: seq<string>)
    ensures |r| == |tokens|
    ensures forall k :: 0 <= k < |tokens| ==> r[k] == tokens[k].address
  {
    seq(|tokens|, k requires 0 <= k < |tokens| => tokens[k].address)
  }

  /**
   * The multicall: for each pair and each of its tokens, the key
   * `"<distributor>-<token>"` and what the distributor reports as earned
   * (`earned(token, token_id)` on the distributor).
   */
  function Calls(pairs: seq<AprPair>, earned: (string, string) -> nat): seq<(string, nat)> {
    if pairs == [] then []
    else
      var last := pairs[|pairs| - 1];
      Calls(pairs[..|pairs| - 1], earned) +
        KeyedCalls(last.feeDistributor, Addresses(last.tokens), token => earned(last.feeDistributor, token))
  }

  /** Every call is the key of some pair's distributor and token, with what is earned there. */
  lemma {:induction false} CallsEntries(pairs: seq<AprPair>, earned: (string, string) -> nat)
    ensures forall e :: e in Calls(pairs, earned) ==>
      exists i, k :: 0 <= i < |pairs| && 0 <= k < |pairs[i].tokens| &&
        e == (Key(pairs[i].feeDistributor, pairs[i].tokens[k].address),
              earned(pairs[i].feeDistributor, pairs[i].tokens[k].address))
  {
    if pairs != [] {
      var prev := pairs[..|pairs| - 1];
      var last := pairs[|pairs| - 1];
      CallsEntries(prev, earned);
      var mine := KeyedCalls(last.feeDistributor, Addresses(last.tokens), token => earned(last.feeDistributor, token));
      forall e | e in Calls(pairs, earned)
        ensures (exists i, k :: 0 <= i < |pairs| && 0 <= k < |pairs[i].tokens| &&
                   e == (Key(pairs[i].feeDistributor, pairs[i].tokens[k].address),
                         earned(pairs[i].feeDistributor, pairs[i].tokens[k].address)))
      {
        if e in Calls(prev, earned) {
          var i, k :| 0 <= i < |prev| && 0 <= k < |prev[i].tokens| &&
            e == (Key(prev[i].feeDistributor, prev[i].tokens[k].address),
                  earned(prev[i].feeDistributor, prev[i].tokens[k].address));
          assert pairs[i] == prev[i];
        } else {
          assert e in mine;
          var k :| 0 <= k < |mine| && mine[k] == e;
          assert pairs[|pairs| - 1] == last;
        }
      }
    }
  }

  /** Every token of every pair has a call. */
  lemma {:induction false} CallsCover(pairs: seq<AprPair>, earned: (string, string) -> nat, i: nat, k: nat)
    requires i < |pairs| && k < |pairs[i].tokens|
    ensures (Key(pairs[i].feeDistributor, pairs[i].tokens[k].address),
             earned(pairs[i].feeDistributor, pairs[i].tokens[k].address)) in Calls(pairs, earned)
  {
    var prev := pairs[..|pairs| - 1];
    var last := pairs[|pairs| - 1];
    if i < |prev| {
      assert prev[i] == pairs[i];
      CallsCover(prev, earned, i, k);
    } else {
      var mine := KeyedCalls(last.feeDistributor, Addresses(last.tokens), token => earned(last.feeDistributor, token));
      assert mine[k] in mine;
    }
  }

  // ------------------------------------------------------- using the results

  /** An entry with what the distributor reports: earned is the amount, `totalUSD` its value at the token's price. */
  function Claimed(r: Reward, value: nat): (u: Reward)
    ensures u.earned == value && u.totalUsd * Wei == value as real * r.price
    ensures u.symbol == r.symbol && u.price == r.price
  {
    r.(earned := value, totalUsd := value as real * r.price / Wei)
  }

  /** Claiming an entry again with the same value changes nothing. */
  lemma ClaimedTwice(r: Reward, value: nat)
    ensures Claimed(Claimed(r, value), value) == Claimed(r, value)
  {
  }

  /**
   * One result of the multicall: the key split at "-" (ValueError unless
   * exactly two parts), the entry looked up (KeyError for an unknown
   * distributor or token) and updated in place.
   */
  function UpdateStep(rewards: Rewards, key: string, value: nat): Option<Rewards> {
    var parts := Split(key, '-');
    if |parts| != 2 then None
    else match Dicts.Get(rewards, parts[0])
      case None => None
      case Some(table) =>
        match Dicts.Get(table, parts[1])
        case None => None
        case Some(reward) => Some(Dicts.Put(rewards, parts[0], Dicts.Put(table, parts[1], Claimed(reward, value))))
  }

  /** `rewards[distributor][token]`, or None where either lookup raises KeyError. */
  function Entry(rewards: Rewards, distributor: string, token: string): (r: Option<Reward>)
    ensures r.Some? ==> Dicts.HasKey(rewards, distributor) && Dicts.HasKey(Dicts.Get(rewards, distributor).value, token)
    ensures Dicts.HasKey(rewards, distributor) && Dicts.HasKey(Dicts.Get(rewards, distributor).value, token) ==> r.Some?
  {
    match Dicts.Get(rewards, distributor)
    case None => None
    case Some(table) => Dicts.Get(table, token)
  }

  /** Distributors and each distributor's tokens are distinct keys. */
  ghost predicate WellFormed(rewards: Rewards) {
    Dicts.DistinctKeys(rewards) &&
    forall d :: Dicts.HasKey(rewards, d) ==> Dicts.DistinctKeys(Dicts.Get(rewards, d).value)
  }

  /**
   * A result for a distributor and token without "-" succeeds exactly when
   * their entry exists; it claims that entry with the reported value and
   * changes no other entry.
   */
  lemma UpdateStepFacts(rewards: Rewards, distributor: string, token: string, value: nat)
    requires WellFormed(rewards)
    requires '-' !in distributor && '-' !in token
    ensures var r := UpdateStep(rewards, Key(distributor, token), value);
      (r.Some? <==> Entry(rewards, distributor, token).Some?) &&
      (r.Some? ==>
         WellFormed(r.value) &&
         (forall d :: Dicts.HasKey(r.value, d) <==> Dicts.HasKey(rewards, d)) &&
         Entry(r.value, distributor, token) == Some(Claimed(Entry(rewards, distributor, token).value, value)) &&
         (forall d, t :: (d, t) != (distributor, token) ==> Entry(r.value, d, t) == Entry(rewards, d, t)))
  {
    KeySplit(distributor, token);
    var r := UpdateStep(rewards, Key(distributor, token), value);
    if r.Some? {
      var table := Dicts.Get(rewards, distributor).value;
      var updated := Dicts.Put(table, token, Claimed(Dicts.Get(table, token).value, value));
      Dicts.PutFacts(table, token, Claimed(Dicts.Get(table, token).value, value));
      Dicts.PutFacts(rewards, distributor, updated);
      assert r.value == Dicts.Put(rewards, distributor, updated);
    }
  }

  /**
   * `get_voter_claimable_rewards`: the map built pair by pair, then every
   * result of the multicall applied to it in order.
   */
  method GetVoterClaimableRewards(pairs: seq<AprPair>, earned: (string, string) -> nat) returns (r: Option<Rewards>)
    ensures r == ApplyAll(Initial(pairs), Dicts.FromItems(Calls(pairs, earned)), UpdateStep)
  {
    var rewards, calls := BuildRewards(pairs, earned);
    r := ApplyResults(rewards, Dicts.FromItems(calls));
  }

  /** The first loop: the map with an unclaimed entry per token, and the calls. */
  method BuildRewards(pairs: seq<AprPair>, earned: (string, string) -> nat) returns (rewards: Rewards, calls: seq<(string, nat)>)
    ensures rewards == Initial(pairs) && calls == Calls(pairs, earned)
  {
    rewards := [];
    calls := [];
    var i := 0;
    while i < |pairs|
      invariant 0 <= i <= |pairs|
      invariant rewards == Initial(pairs[..i])
      invariant calls == Calls(pairs[..i], earned)
    {
      rewards, calls := AddPair(rewards, calls, pairs[i], earned);
      assert pairs[..i + 1][..i] == pairs[..i];
      i := i + 1;
    }
    assert pairs[..i] == pairs;
  }

  /** One pass of the first loop: the pair's distributor gets a fresh table of its tokens, and their calls follow. */
  method AddPair(before: Rewards, callsBefore: seq<(string, nat)>, pair: AprPair, earned: (string, string) -> nat)
    returns (rewards: Rewards, calls: seq<(string, nat)>)
    requires Dicts.DistinctKeys(before)
    ensures rewards == Dicts.Put(before, pair.feeDistributor, PairTable(pair.tokens))
    ensures calls == callsBefore + KeyedCalls(pair.feeDistributor, Addresses(pair.tokens), token => earned(pair.feeDistributor, token))
  {
    var distributor := pair.feeDistributor;
    var tokens := pair.tokens;
    rewards := Dicts.Put(before, distributor, []);
    calls := callsBefore;
    var k := 0;
    while k < |tokens|
      invariant 0 <= k <= |tokens|
      invariant rewards == Dicts.Put(before, distributor, PairTable(tokens[..k]))
      invariant calls == callsBefore + KeyedCalls(distributor, Addresses(tokens[..k]), token => earned(distributor, token))
    {
      var token := tokens[k];
      AddTokenStep(before, distributor, tokens, k);
      AddCallStep(distributor, tokens, k, token => earned(distributor, token));
      rewards := Dicts.Put(rewards, distributor, Dicts.Put(Dicts.Get(rewards, distributor).value, token.address, Unclaimed(token)));
      calls := calls + [(Key(distributor, token.address), earned(distributor, token.address))];
      k := k + 1;
    }
    assert tokens[..k] == tokens;
  }

  /** Adding the next token's entry to the table being built, as the inner loop does. */
  lemma AddTokenStep(before: Rewards, distributor: string, tokens: seq<RewardToken>, k: nat)
    requires Dicts.DistinctKeys(before) && k < |tokens|
    ensures var rewards := Dicts.Put(before, distributor, PairTable(tokens[..k]));
      Dicts.Get(rewards, distributor).Some? &&
      Dicts.Put(rewards, distributor, Dicts.Put(Dicts.Get(rewards, distributor).value, tokens[k].address, Unclaimed(tokens[k]))) ==
        Dicts.Put(before, distributor, PairTable(tokens[..k + 1]))
  {
    Dicts.PutFacts(before, distributor, PairTable(tokens[..k]));
    assert tokens[..k + 1][..k] == tokens[..k];
    Dicts.PutPut(before, distributor, PairTable(tokens[..k]), PairTable(tokens[..k + 1]));
  }

  /** Appending the next token's call, as the inner loop does. */
  lemma AddCallStep(distributor: string, tokens: seq<RewardToken>, k: nat, read: string -> nat)
    requires k < |tokens|
    ensures KeyedCalls(distributor, Addresses(tokens[..k + 1]), read) ==
      KeyedCalls(distributor, Addresses(tokens[..k]), read) + [(Key(distributor, tokens[k].address), read(tokens[k].address))]
  {
  }

  /** The second loop: each result updates its entry in place; a bad key or a missing entry raises. */
  method ApplyResults(initial: Rewards, results: seq<(string, nat)>) returns (r: Option<Rewards>)
    ensures r == ApplyAll(initial, results, UpdateStep)
  {
    var rewards := initial;
    var j := 0;
    while j < |results|
      invariant 0 <= j <= |results|
      invariant ApplyAll(initial, results[..j], UpdateStep) == Some(rewards)
    {
      assert results[..j + 1][..j] == results[..j];
      var key, value := results[j].0, results[j].1;
      var parts := Split(key, '-');
      if |parts| != 2 {
        ApplyAllFails(initial, results, j + 1, UpdateStep);
        return None;
      }
      var table := Dicts.Get(rewards, parts[0]);
      if table.None? {
        ApplyAllFails(initial, results, j + 1, UpdateStep);
        return None;
      }
      var reward := Dicts.Get(table.value, parts[1]);
      if reward.None? {
        ApplyAllFails(initial, results, j + 1, UpdateStep);
        return None;
      }
      rewards := Dicts.Put(rewards, parts[0], Dicts.Put(table.value, parts[1], Claimed(reward.value, value)));
      j := j + 1;
    }
    assert results[..j] == results;
    return Some(rewards);
  }

  // ----------------------------------------------------- what the result holds

  /** An entry as it stands once the results `done` are handled: claimed when its key is among them. */
  function ClaimedBy(entry: Option<Reward>, done: seq<(string, nat)>, distributor: string, token: string,
                     earned: (string, string) -> nat): Option<Reward>
  {
    match entry
    case None => None
    case Some(x) => Some(if Dicts.HasKey(done, Key(distributor, token)) then Claimed(x, earned(distributor, token)) else x)
  }

  /** An entry once its result is handled: claimed with what its distributor reports. */
  function ClaimedAll(entry: Option<Reward>, distributor: string, token: string, earned: (string, string) -> nat): (r: Option<Reward>)
    ensures r.Some? <==> entry.Some?
    ensures r.Some? ==> r.value.earned == earned(distributor, token) && r.value.symbol == entry.value.symbol &&
                        r.value.price == entry.value.price &&
                        r.value.totalUsd * Wei == earned(distributor, token) as real * entry.value.price
  {
    match entry
    case None => None
    case Some(x) => Some(Claimed(x, earned(distributor, token)))
  }

  /** Every entry of the map has a distributor and a token address without "-". */
  ghost predicate PlainEntries(rewards: Rewards) {
    forall d, t :: Entry(rewards, d, t).Some? ==> '-' !in d && '-' !in t
  }

  /** `s` is `init` with the entries named by the handled results claimed, and nothing else changed. */
  ghost predicate Tracks(s: Rewards, init: Rewards, done: seq<(string, nat)>, earned: (string, string) -> nat) {
    WellFormed(s) &&
    (forall d :: Dicts.HasKey(s, d) <==> Dicts.HasKey(init, d)) &&
    forall d, t :: Entry(s, d, t) == ClaimedBy(Entry(init, d, t), done, d, t, earned)
  }

  /** A result naming an existing entry, with the amount its distributor reports for it. */
  ghost predicate Listed(init: Rewards, e: (string, nat), earned: (string, string) -> nat) {
    exists d, t :: e == (Key(d, t), earned(d, t)) && Entry(init, d, t).Some?
  }

  /** A result naming, without "-", an entry that does not exist. */
  ghost predicate Unlisted(init: Rewards, e: (string, nat)) {
    exists d, t :: e.0 == Key(d, t) && '-' !in d && '-' !in t && Entry(init, d, t).None?
  }

  /** Handling a listed result claims its entry, keeping the others. */
  lemma TracksStep(s: Rewards, init: Rewards, done: seq<(string, nat)>, earned: (string, string) -> nat,
                   distributor: string, token: string)
    requires Tracks(s, init, done, earned) && PlainEntries(init)
    requires Entry(init, distributor, token).Some?
    ensures var r := UpdateStep(s, Key(distributor, token), earned(distributor, token));
      r.Some? && Tracks(r.value, init, done + [(Key(distributor, token), earned(distributor, token))], earned)
  {
    var value := earned(distributor, token);
    var e := (Key(distributor, token), value);
    UpdateStepFacts(s, distributor, token, value);
    var r := UpdateStep(s, Key(distributor, token), value).value;
    var done' := done + [e];
    assert forall k :: Dicts.HasKey(done', k) <==> Dicts.HasKey(done, k) || k == e.0 by {
      forall k ensures Dicts.HasKey(done', k) <==> Dicts.HasKey(done, k) || k == e.0 {
        if Dicts.HasKey(done, k) {
          var j :| 0 <= j < |done| && done[j].0 == k;
          assert done'[j].0 == k;
        }
        if k == e.0 {
          assert done'[|done|].0 == k;
        }
      }
    }
    forall d, t ensures Entry(r, d, t) == ClaimedBy(Entry(init, d, t), done', d, t, earned) {
      if (d, t) == (distributor, token) {
        ClaimedTwice(Entry(init, d, t).value, value);
        assert Dicts.HasKey(done', Key(d, t));
      } else if Entry(init, d, t).Some? {
        KeyInjective(d, t, distributor, token);
        assert Dicts.HasKey(done', Key(d, t)) == Dicts.HasKey(done, Key(d, t));
      }
    }
  }

  /** Handling an unlisted result raises. */
  lemma UnlistedFails(s: Rewards, init: Rewards, done: seq<(string, nat)>, earned: (string, string) -> nat, e: (string, nat))
    requires Tracks(s, init, done, earned) && Unlisted(init, e)
    ensures UpdateStep(s, e.0, e.1).None?
  {
    var d, t :| e.0 == Key(d, t) && '-' !in d && '-' !in t && Entry(init, d, t).None?;
    UpdateStepFacts(s, d, t, e.1);
  }

  /** While every result handled is listed, the loop keeps going and tracks the claims. */
  lemma {:induction false} ApplyTracks(init: Rewards, results: seq<(string, nat)>, earned: (string, string) -> nat, n: nat)
    requires n <= |results| && WellFormed(init) && PlainEntries(init)
    requires forall j :: 0 <= j < n ==> Listed(init, results[j], earned)
    ensures ApplyAll(init, results[..n], UpdateStep).Some?
    ensures Tracks(ApplyAll(init, results[..n], UpdateStep).value, init, results[..n], earned)
  {
    if n > 0 {
      ApplyTracks(init, results, earned, n - 1);
      assert results[..n][..n - 1] == results[..n - 1];
      var s := ApplyAll(init, results[..n - 1], UpdateStep).value;
      var d, t :| results[n - 1] == (Key(d, t), earned(d, t)) && Entry(init, d, t).Some?;
      TracksStep(s, init, results[..n - 1], earned, d, t);
      PrefixSnoc(results, n);
    }
  }

  /** A prefix is the shorter prefix and its last element. */
  lemma PrefixSnoc<T>(xs: seq<T>, n: nat)
    requires 0 < n <= |xs|
    ensures xs[..n] == xs[..n - 1] + [xs[n - 1]]
  {
  }

  /** The first index at or after n where a flag is set, when one is. */
  lemma {:induction false} FirstSet(flags: seq<bool>, n: nat) returns (j: nat)
    requires n <= |flags| && exists i :: n <= i < |flags| && flags[i]
    ensures n <= j < |flags| && flags[j]
    ensures forall i :: n <= i < j ==> !flags[i]
    decreases |flags| - n
  {
    if flags[n] {
      j := n;
    } else {
      var w :| n <= w < |flags| && flags[w];
      assert n + 1 <= w;
      j := FirstSet(flags, n + 1);
    }
  }

  /** With every result listed or unlisted, one unlisted result makes the loop raise. */
  lemma FailsSomewhere(init: Rewards, results: seq<(string, nat)>, earned: (string, string) -> nat, j: nat)
    requires j < |results| && WellFormed(init) && PlainEntries(init)
    requires forall i :: 0 <= i < |results| ==> Listed(init, results[i], earned) || Unlisted(init, results[i])
    requires Unlisted(init, results[j])
    ensures ApplyAll(init, results, UpdateStep).None?
  {
    ghost var unlisted := seq(|results|, i requires 0 <= i < |results| => Unlisted(init, results[i]));
    assert unlisted[j];
    var first := FirstSet(unlisted, 0);
    forall i | 0 <= i < first ensures Listed(init, results[i], earned) {
      assert !unlisted[i];
    }
    FailsAt(init, results, earned, first);
  }

  /** Once a result is unlisted, the loop raises when it reaches it. */
  lemma FailsAt(init: Rewards, results: seq<(string, nat)>, earned: (string, string) -> nat, j: nat)
    requires j < |results| && WellFormed(init) && PlainEntries(init)
    requires forall i :: 0 <= i < j ==> Listed(init, results[i], earned)
    requires Unlisted(init, results[j])
    ensures ApplyAll(init, results, UpdateStep).None?
  {
    ApplyTracks(init, results, earned, j);
    assert results[..j + 1][..j] == results[..j];
    UnlistedFails(ApplyAll(init, results[..j], UpdateStep).value, init, results[..j], earned, results[j]);
    ApplyAllFails(init, results, j + 1, UpdateStep);
  }

  /** No distributor or token address of the pairs contains "-". */
  predicate PlainPairs(pairs: seq<AprPair>) {
    forall i :: 0 <= i < |pairs| ==>
      '-' !in pairs[i].feeDistributor && forall k :: 0 <= k < |pairs[i].tokens| ==> '-' !in pairs[i].tokens[k].address
  }

  /** Every token of every pair has an entry in the map its distributor ends up with. */
  predicate AllListed(pairs: seq<AprPair>) {
    forall i, k :: 0 <= i < |pairs| && 0 <= k < |pairs[i].tokens| ==>
      Entry(Initial(pairs), pairs[i].feeDistributor, pairs[i].tokens[k].address).Some?
  }

  /** The initial map's entries are exactly the tokens of the last pair naming each distributor. */
  lemma InitialEntries(pairs: seq<AprPair>, d: string, t: string)
    ensures Entry(Initial(pairs), d, t).Some? <==>
      exists i, k :: 0 <= i < |pairs| && 0 <= k < |pairs[i].tokens| && LastPairWith(pairs, d) == Some(i) &&
                     pairs[i].tokens[k].address == t
  {
    InitialLastPairWins(pairs, d);
    match LastPairWith(pairs, d)
    case None =>
    case Some(i) =>
      PairTableEntries(pairs[i].tokens, t);
  }

  /** The map built from the pairs is well formed and, for plain pairs, has plain entries. */
  lemma InitialWellFormed(pairs: seq<AprPair>)
    ensures WellFormed(Initial(pairs))
    ensures PlainPairs(pairs) ==> PlainEntries(Initial(pairs))
  {
    forall d | Dicts.HasKey(Initial(pairs), d) ensures Dicts.DistinctKeys(Dicts.Get(Initial(pairs), d).value) {
      InitialLastPairWins(pairs, d);
    }
    if PlainPairs(pairs) {
      forall d, t | Entry(Initial(pairs), d, t).Some? ensures '-' !in d && '-' !in t {
        InitialEntries(pairs, d, t);
      }
    }
  }

  /** Every result of the multicall is a listed or an unlisted call. */
  lemma ResultsClassified(pairs: seq<AprPair>, earned: (string, string) -> nat, init: Rewards, results: seq<(string, nat)>)
    requires PlainPairs(pairs) && init == Initial(pairs) && results == Dicts.FromItems(Calls(pairs, earned))
    ensures forall j :: 0 <= j < |results| ==> Listed(init, results[j], earned) || Unlisted(init, results[j])
    ensures AllListed(pairs) ==> forall j :: 0 <= j < |results| ==> Listed(init, results[j], earned)
  {
    var calls := Calls(pairs, earned);
    CallsEntries(pairs, earned);
    Dicts.FromItemsEntries(calls);
    forall j | 0 <= j < |results|
      ensures Listed(init, results[j], earned) || Unlisted(init, results[j])
      ensures AllListed(pairs) ==> Listed(init, results[j], earned)
    {
      assert results[j] in results;
      var i, k :| 0 <= i < |pairs| && 0 <= k < |pairs[i].tokens| &&
        results[j] == (Key(pairs[i].feeDistributor, pairs[i].tokens[k].address),
                       earned(pairs[i].feeDistributor, pairs[i].tokens[k].address));
      if Entry(init, pairs[i].feeDistributor, pairs[i].tokens[k].address).None? {
        assert Unlisted(init, results[j]);
      } else {
        assert Listed(init, results[j], earned);
      }
    }
  }

  /** When every call is listed, every entry of the initial map is named by some result. */
  lemma EntriesHaveResults(pairs: seq<AprPair>, earned: (string, string) -> nat, d: string, t: string)
    requires Entry(Initial(pairs), d, t).Some?
    ensures Dicts.HasKey(Dicts.FromItems(Calls(pairs, earned)), Key(d, t))
  {
    InitialEntries(pairs, d, t);
    var i, k :| 0 <= i < |pairs| && 0 <= k < |pairs[i].tokens| && LastPairWith(pairs, d) == Some(i) &&
                pairs[i].tokens[k].address == t;
    CallsCover(pairs, earned, i, k);
    Dicts.FromItemsHasItemKey(Calls(pairs, earned), (Key(d, t), earned(d, t)));
  }

  /** When every call is listed, the loop claims every entry. */
  lemma AllListedClaimsAll(pairs: seq<AprPair>, earned: (string, string) -> nat)
    requires PlainPairs(pairs) && AllListed(pairs)
    ensures var r := ApplyAll(Initial(pairs), Dicts.FromItems(Calls(pairs, earned)), UpdateStep);
      r.Some? && forall d, t :: Entry(r.value, d, t) == ClaimedAll(Entry(Initial(pairs), d, t), d, t, earned)
  {
    var init := Initial(pairs);
    var results := Dicts.FromItems(Calls(pairs, earned));
    InitialWellFormed(pairs);
    ResultsClassified(pairs, earned, init, results);
    ApplyTracks(init, results, earned, |results|);
    assert results[..|results|] == results;
    var r := ApplyAll(init, results, UpdateStep).value;
    forall d, t ensures Entry(r, d, t) == ClaimedAll(Entry(init, d, t), d, t, earned) {
      if Entry(init, d, t).Some? {
        EntriesHaveResults(pairs, earned, d, t);
      }
    }
  }

  /** When some token has no entry under its distributor, the loop raises. */
  lemma UnlistedRaises(pairs: seq<AprPair>, earned: (string, string) -> nat)
    requires PlainPairs(pairs) && !AllListed(pairs)
    ensures ApplyAll(Initial(pairs), Dicts.FromItems(Calls(pairs, earned)), UpdateStep).None?
  {
    var init := Initial(pairs);
    var calls := Calls(pairs, earned);
    var results := Dicts.FromItems(calls);
    InitialWellFormed(pairs);
    ResultsClassified(pairs, earned, init, results);
    var i, k :| 0 <= i < |pairs| && 0 <= k < |pairs[i].tokens| &&
      Entry(init, pairs[i].feeDistributor, pairs[i].tokens[k].address).None?;
    var d, t := pairs[i].feeDistributor, pairs[i].tokens[k].address;
    CallsCover(pairs, earned, i, k);
    Dicts.FromItemsHasItemKey(calls, (Key(d, t), earned(d, t)));
    var j :| 0 <= j < |results| && results[j].0 == Key(d, t);
    assert Unlisted(init, results[j]);
    FailsSomewhere(init, results, earned, j);
  }

  /**
   * With no "-" in any address, the reward map is returned exactly when
   * every token of every pair has an entry under its distributor, and then
   * every entry holds what its distributor reports as earned and its USD
   * value; otherwise a lookup raises KeyError.
   */
  lemma ClaimableRewardsOutcome(pairs: seq<AprPair>, earned: (string, string) -> nat)
    requires PlainPairs(pairs)
    ensures var r := ApplyAll(Initial(pairs), Dicts.FromItems(Calls(pairs, earned)), UpdateStep);
      (r.Some? <==> AllListed(pairs)) &&
      (r.Some? ==> forall d, t :: Entry(r.value, d, t) == ClaimedAll(Entry(Initial(pairs), d, t), d, t, earned))
  {
    if AllListed(pairs) {
      AllListedClaimsAll(pairs, earned);
    } else {
      UnlistedRaises(pairs, earned);
    }
  }

  /** With distinct distributors every call names an entry, so the map is returned in full. */
  lemma DistinctDistributorsListed(pairs: seq<AprPair>)
    requires forall i, j :: 0 <= i < j < |pairs| ==> pairs[i].feeDistributor != pairs[j].feeDistributor
    ensures AllListed(pairs)
  {
    forall i, k | 0 <= i < |pairs| && 0 <= k < |pairs[i].tokens|
      ensures Entry(Initial(pairs), pairs[i].feeDistributor, pairs[i].tokens[k].address).Some?
    {
      InitialEntries(pairs, pairs[i].feeDistributor, pairs[i].tokens[k].address);
    }
  }

  /**
   * When a later pair names the same distributor without one of an earlier
   * pair's tokens, the reset discards that token's entry and its result
   * raises KeyError.
   */
  lemma SharedDistributorRaises(pairs: seq<AprPair>, earned: (string, string) -> nat, i: nat, k: nat, j: nat)
    requires PlainPairs(pairs)
    requires i < j < |pairs| && k < |pairs[i].tokens| && pairs[j].feeDistributor == pairs[i].feeDistributor
    requires forall j', k' :: i < j' < |pairs| && pairs[j'].feeDistributor == pairs[i].feeDistributor && 0 <= k' < |pairs[j'].tokens| ==>
      pairs[j'].tokens[k'].address != pairs[i].tokens[k].address
    ensures ApplyAll(Initial(pairs), Dicts.FromItems(Calls(pairs, earned)), UpdateStep).None?
  {
    InitialEntries(pairs, pairs[i].feeDistributor, pairs[i].tokens[k].address);
    ClaimableRewardsOutcome(pairs, earned);
  }
}
