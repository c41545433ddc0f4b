/**
 * Token price resolution (app/assets/model.py): two families of price
 * strategies, each tried in a configured order until one yields a strictly
 * positive price; the cached token lookup; and token-list loading.
 */
module Assets {
  import opened Wrappers
  import opened Strings
  import opened PyValues
  import opened Tokens
  import opened Misc
  import opened Feeds

  // ------------------------------------------------------------------ inputs

  /** The internal routes: a direct quote, or two-leg quotes through intermediate tokens. */
  datatype InternalRoute = Direct | AxelarBluechips | BluechipTokens | NativeToken

  /** The settings the resolver reads. */
  datatype Settings = Settings(
    externalOrder: seq<string>,
    internalOrder: seq<string>,
    internalFirst: bool,
    ignored: seq<string>,
    stableAddress: string,
    axelarBluechips: seq<string>,
    bluechips: seq<string>,
    nativeAddress: string)

  /**
   * A router `getAmountOut` call: a ContractLogicError, another exception, a
   * result that is not a pair, or the pair (amount, stable).
   */
  datatype RouterReply = LogicError | OtherError | NotAPair | Quote(amount: Value, stable: bool)

  /**
   * The token cache `find` reads: the decoded `assets:json` entry (None when
   * it is missing, empty or not JSON) and the ORM's `create(**entry)` on a
   * cached entry (None when it raises).
   */
  datatype TokenCache = TokenCache(doc: Option<Value>, decode: Value -> Option<TokenData>)

  /** Everything outside the process: HTTP exchanges, Python's `float()` on text, router calls, the token cache. */
  datatype Env = Env(
    settings: Settings,
    http: string -> Reply,
    parseFloat: string -> Option<real>,
    router: (Value, string, string) -> RouterReply,
    tokens: TokenCache)

  // --------------------------------------------------------------- find

  /** A cached entry that is an object whose `address` equals the argument exactly. */
  predicate Matches(entry: Value, address: string) {
    entry.DictVal? && GetKey(entry, "address") == Some(StrVal(address))
  }

  /** Entry `i` is the first match, and every entry before it is an object that does not match. */
  predicate FirstHit(entries: seq<Value>, address: string, i: int) {
    0 <= i < |entries| && Matches(entries[i], address) &&
    forall j :: 0 <= j < i ==> entries[j].DictVal? && !Matches(entries[j], address)
  }

  /** The loop over the cached entries: a non-object entry raises, which `find` turns into None. */
  function FindIn(entries: seq<Value>, address: string, decode: Value -> Option<TokenData>): (r: Option<TokenData>)
    ensures forall i :: FirstHit(entries, address, i) ==> r == decode(entries[i])
    ensures r.Some? ==> exists i :: FirstHit(entries, address, i)
    ensures (forall i :: 0 <= i < |entries| ==> !Matches(entries[i], address)) ==> r.None?
  {
    if entries == [] then None
    else if !entries[0].DictVal? then None
    else if Matches(entries[0], address) then
      assert FirstHit(entries, address, 0);
      decode(entries[0])
    else
      var r := FindIn(entries[1..], address, decode);
      forall i | FirstHit(entries, address, i) ensures r == decode(entries[i]) {
        assert FirstHit(entries[1..], address, i - 1);
      }
      if r.Some? then
        var i :| FirstHit(entries[1..], address, i);
        assert FirstHit(entries, address, i + 1);
        r
      else r
  }

  /** `Token.find(address)`: None for an empty address or an absent cache, else the first exact match. */
  function Find(address: string, cache: TokenCache): (r: Option<TokenData>)
    ensures address == [] || cache.doc.None? ==> r.None?
    ensures address != [] && cache.doc.Some? && cache.doc.value.DictVal? &&
            GetKeyOr(cache.doc.value, "data", ListVal([])).ListVal? ==>
            r == FindIn(GetKeyOr(cache.doc.value, "data", ListVal([])).items, address, cache.decode)
    ensures r.Some? ==> cache.doc.Some? && cache.doc.value.DictVal?
  {
    if address == [] then None
    else match cache.doc
      case None => None
      case Some(doc) =>
        if !doc.DictVal? then None
        else
          // iterating a non-list `data` yields strings (or raises): no entry can match
          var data := GetKeyOr(doc, "data", ListVal([]));
          if data.ListVal? then FindIn(data.items, address, cache.decode) else None
  }

  // ------------------------------------------------------- the strategy families

  /** The outcome of a family: the price it returns and the strategies it invoked, in order. */
  datatype FamilyOutcome<S> = FamilyOutcome(price: real, invoked: seq<S>)

  /** `price > 0` on a getter's result: only a strictly positive number is accepted. */
  function Accepted(a: Attempt): (r: Option<real>)
    ensures r.Some? ==> r.value > 0.0
    ensures r.Some? <==> a.Returned? && AsNumber(a.value).Some? && AsNumber(a.value).value > 0.0
    ensures r.Some? ==> r.value == AsNumber(a.value).value
  {
    if a.Returned? && AsNumber(a.value).Some? && AsNumber(a.value).value > 0.0
    then Some(AsNumber(a.value).value) else None
  }

  /** The strategies a plan names, in order; names without a getter are skipped. */
  function Planned<S>(plan: seq<Option<S>>): (r: seq<S>)
    ensures |r| <= |plan|
  {
    if plan == [] then []
    else (if plan[0].Some? then [plan[0].value] else []) + Planned(plan[1..])
  }

  /** A family's loop: walk the plan, invoke each strategy, return the first strictly positive result. */
  function RunFamily<S>(plan: seq<Option<S>>, outcome: S -> Attempt): (r: FamilyOutcome<S>)
    ensures r.price >= 0.0
  {
    if plan == [] then FamilyOutcome(0.0, [])
    else
      var rest := RunFamily(plan[1..], outcome);
      match plan[0]
      case None => rest
      case Some(s) =>
        match Accepted(outcome(s))
        case Some(p) => FamilyOutcome(p, [s])
        case None => FamilyOutcome(rest.price, [s] + rest.invoked)
  }

  /**
   * The invoked strategies are a prefix of the plan, in order; all but the
   * last were rejected, and the last was accepted when the price is
   * positive, so no strategy after the accepted one runs. A price of 0 means
   * every planned strategy ran and none was accepted.
   */
  lemma {:induction false} RunFamilyFirstAccepted<S>(plan: seq<Option<S>>, outcome: S -> Attempt)
    ensures var r := RunFamily(plan, outcome);
      |r.invoked| <= |Planned(plan)| && r.invoked == Planned(plan)[..|r.invoked|]
    ensures var r := RunFamily(plan, outcome);
      forall k :: 0 <= k < |r.invoked| - 1 ==> Accepted(outcome(r.invoked[k])).None?
    ensures var r := RunFamily(plan, outcome);
      r.price > 0.0 ==> r.invoked != [] && Accepted(outcome(r.invoked[|r.invoked| - 1])) == Some(r.price)
    ensures var r := RunFamily(plan, outcome);
      r.price == 0.0 ==> r.invoked == Planned(plan) && forall k :: 0 <= k < |r.invoked| ==> Accepted(outcome(r.invoked[k])).None?
  {
    RunFamilyFacts(plan, outcome);
  }

  /** The four facts above, about a planned sequence and an outcome. */
  ghost predicate FirstAcceptedFacts<S>(planned: seq<S>, r: FamilyOutcome<S>, outcome: S -> Attempt) {
    |r.invoked| <= |planned| && r.invoked == planned[..|r.invoked|] &&
    (forall k :: 0 <= k < |r.invoked| - 1 ==> Accepted(outcome(r.invoked[k])).None?) &&
    (r.price > 0.0 ==> r.invoked != [] && Accepted(outcome(r.invoked[|r.invoked| - 1])) == Some(r.price)) &&
    (r.price == 0.0 ==> r.invoked == planned && forall k :: 0 <= k < |r.invoked| ==> Accepted(outcome(r.invoked[k])).None?)
  }

  lemma {:induction false} RunFamilyFacts<S>(plan: seq<Option<S>>, outcome: S -> Attempt)
    ensures FirstAcceptedFacts(Planned(plan), RunFamily(plan, outcome), outcome)
  {
    if plan != [] {
      RunFamilyFacts(plan[1..], outcome);
      if plan[0].Some? {
        var s := plan[0].value;
        assert Planned(plan) == [s] + Planned(plan[1..]);
        if Accepted(outcome(s)).None? {
          RejectedHead(s, Planned(plan[1..]), RunFamily(plan[1..], outcome), outcome);
        }
      } else {
        assert Planned(plan) == Planned(plan[1..]);
      }
    }
  }

  /** A rejected strategy in front keeps the facts, with itself invoked first. */
  lemma RejectedHead<S>(s: S, planned: seq<S>, rest: FamilyOutcome<S>, outcome: S -> Attempt)
    requires FirstAcceptedFacts(planned, rest, outcome) && Accepted(outcome(s)).None?
    ensures FirstAcceptedFacts([s] + planned, After([s], rest), outcome)
  {
    var r := After([s], rest);
    assert r.invoked == [s] + rest.invoked;
    assert r.invoked == ([s] + planned)[..|r.invoked|];
    forall k | 0 <= k < |r.invoked| && k > 0 ensures r.invoked[k] == rest.invoked[k - 1] {
    }
    if r.price > 0.0 {
      assert r.invoked[|r.invoked| - 1] == rest.invoked[|rest.invoked| - 1];
    }
  }

  /** The family's outcome after `log` was invoked and rejected, followed by `rest`. */
  function After<S>(log: seq<S>, rest: FamilyOutcome<S>): FamilyOutcome<S> {
    FamilyOutcome(rest.price, log + rest.invoked)
  }

  /** One step of the family loop, as the imperative methods take it. */
  lemma RunFamilyStep<S>(plan: seq<Option<S>>, i: nat, outcome: S -> Attempt)
    requires i < |plan|
    ensures plan[i].None? ==> RunFamily(plan[i..], outcome) == RunFamily(plan[i + 1..], outcome)
    ensures plan[i].Some? && Accepted(outcome(plan[i].value)).Some? ==>
      RunFamily(plan[i..], outcome) == FamilyOutcome(Accepted(outcome(plan[i].value)).value, [plan[i].value])
    ensures plan[i].Some? && Accepted(outcome(plan[i].value)).None? ==>
      RunFamily(plan[i..], outcome) == After([plan[i].value], RunFamily(plan[i + 1..], outcome))
  {
    assert plan[i..][0] == plan[i];
    assert plan[i..][1..] == plan[i + 1..];
  }

  /** The family loop's invariant carried past a strategy that is skipped or does not find a price. */
  lemma FamilyContinues<S>(plan: seq<Option<S>>, i: nat, outcome: S -> Attempt, whole: FamilyOutcome<S>, log: seq<S>)
    requires i < |plan| && whole == After(log, RunFamily(plan[i..], outcome))
    requires plan[i].Some? ==> Accepted(outcome(plan[i].value)).None?
    ensures plan[i].None? ==> whole == After(log, RunFamily(plan[i + 1..], outcome))
    ensures plan[i].Some? ==> whole == After(log + [plan[i].value], RunFamily(plan[i + 1..], outcome))
  {
    RunFamilyStep(plan, i, outcome);
    if plan[i].Some? {
      assert log + ([plan[i].value] + RunFamily(plan[i + 1..], outcome).invoked)
          == (log + [plan[i].value]) + RunFamily(plan[i + 1..], outcome).invoked;
    }
  }

  /** The family loop's invariant at a strategy that finds a price: the family ends there. */
  lemma FamilyEnds<S>(plan: seq<Option<S>>, i: nat, outcome: S -> Attempt, whole: FamilyOutcome<S>, log: seq<S>)
    requires i < |plan| && whole == After(log, RunFamily(plan[i..], outcome))
    requires plan[i].Some? && Accepted(outcome(plan[i].value)).Some?
    ensures whole == FamilyOutcome(Accepted(outcome(plan[i].value)).value, log + [plan[i].value])
  {
    RunFamilyStep(plan, i, outcome);
  }

  /** The external getters by name; an unknown name has none. */
  function ExternalGetter(name: string): Option<ExternalFeed> {
    if name == "_get_price_from_dexscreener" then Some(Dexscreener)
    else if name == "_get_price_from_debank" then Some(Debank)
    else if name == "_get_price_from_defillama" then Some(Defillama)
    else if name == "_get_price_from_dexguru" then Some(Dexguru)
    else None
  }

  /** The internal routes by name; an unknown route type has none. */
  function InternalGetter(name: string): Option<InternalRoute> {
    if name == "direct" then Some(Direct)
    else if name == "axelar_bluechips" then Some(AxelarBluechips)
    else if name == "bluechip_tokens" then Some(BluechipTokens)
    else if name == "native_token" then Some(NativeToken)
    else None
  }

  /** Exactly the four `_get_price_from_*` names have a getter, each a different feed. */
  lemma ExternalGetterNames(name: string)
    ensures ExternalGetter(name).Some? <==>
      name in ["_get_price_from_dexscreener", "_get_price_from_debank", "_get_price_from_defillama", "_get_price_from_dexguru"]
    ensures ExternalGetter("_get_price_from_dexscreener") == Some(Dexscreener)
    ensures ExternalGetter("_get_price_from_debank") == Some(Debank)
    ensures ExternalGetter("_get_price_from_defillama") == Some(Defillama)
    ensures ExternalGetter("_get_price_from_dexguru") == Some(Dexguru)
  {
  }

  /** Exactly the four route types have a route, each a different one. */
  lemma InternalGetterNames(name: string)
    ensures InternalGetter(name).Some? <==> name in ["direct", "axelar_bluechips", "bluechip_tokens", "native_token"]
    ensures InternalGetter("direct") == Some(Direct)
    ensures InternalGetter("axelar_bluechips") == Some(AxelarBluechips)
    ensures InternalGetter("bluechip_tokens") == Some(BluechipTokens)
    ensures InternalGetter("native_token") == Some(NativeToken)
  {
  }

  function ExternalPlan(order: seq<string>): (r: seq<Option<ExternalFeed>>)
    ensures |r| == |order| && forall i :: 0 <= i < |order| ==> r[i] == ExternalGetter(order[i])
  {
    seq(|order|, i requires 0 <= i < |order| => ExternalGetter(order[i]))
  }

  function InternalPlan(order: seq<string>): (r: seq<Option<InternalRoute>>)
    ensures |r| == |order| && forall i :: 0 <= i < |order| ==> r[i] == InternalGetter(order[i])
  {
    seq(|order|, i requires 0 <= i < |order| => InternalGetter(order[i]))
  }

  function ExternalOutcome(address: string, env: Env): ExternalFeed -> Attempt {
    feed => FeedAttempt(feed, address, env.http, env.parseFloat)
  }

  /** What the external family returns for a token, from the specification above. */
  function ExternalPrice(address: string, env: Env): real {
    RunFamily(ExternalPlan(env.settings.externalOrder), ExternalOutcome(address, env)).price
  }

  // --------------------------------------------------------- internal routes

  /** The quoted token and the stable token it is priced against. */
  datatype Quoting = Quoting(
    address: string,
    decimals: Option<nat>,
    stable: TokenData,
    router: (Value, string, string) -> RouterReply)

  /** `_get_direct_price`: one quote of a whole token in the stable token. */
  function DirectAttempt(q: Quoting): (r: Attempt)
    ensures q.decimals.None? ==> r.Raised?
    ensures q.decimals.Some? && q.router(IntVal(Pow10(q.decimals.value)), q.address, q.stable.address).LogicError? ==> r == Zero
    ensures r.Returned? && r != Zero ==>
      q.decimals.Some? && q.stable.decimals.Some? &&
      var reply := q.router(IntVal(Pow10(q.decimals.value)), q.address, q.stable.address);
      reply.Quote? && AsNumber(reply.amount).Some? &&
      r.value == FloatVal(Scale(AsNumber(reply.amount).value, q.stable.decimals.value))
  {
    if q.decimals.None? then Raised  // `10 ** None`: TypeError, not a ContractLogicError
    else
      match q.router(IntVal(Pow10(q.decimals.value)), q.address, q.stable.address)
      case LogicError => Zero
      case OtherError => Raised
      case NotAPair => Raised
      case Quote(amount, _) =>
        if q.stable.decimals.None? || AsNumber(amount).None? then Raised
        else
          var price := Scale(AsNumber(amount).value, q.stable.decimals.value);
          if price == 0.0 then Zero else Returned(FloatVal(price))
  }

  /** An intermediate address the loop accepts: non-empty, starting with "0x", 42 characters. */
  predicate ValidAddress(a: string) {
    a != [] && StartsWith(a, "0x") && |a| == 42
  }

  /**
   * What one intermediate adds to the total: token → intermediate →
   * stable, counted only when both calls return pairs and the second amount
   * is an int above 0. Every failure is caught and adds nothing.
   */
  function LegPrice(a: string, q: Quoting): (r: real)
    ensures r >= 0.0
    ensures r > 0.0 ==> ValidAddress(a) && q.decimals.Some? && q.stable.decimals.Some?
    ensures r > 0.0 <==> Qualifies(a, q)
  {
    if !ValidAddress(a) || q.decimals.None? then 0.0
    else match q.router(IntVal(Pow10(q.decimals.value)), q.address, a)
      case Quote(amountA, _) =>
        (match q.router(amountA, a, q.stable.address)
         case Quote(amountB, _) =>
           if IsPyInt(amountB) && AsPyInt(amountB).value > 0 && q.stable.decimals.Some?
           then Scale(AsPyInt(amountB).value as real, q.stable.decimals.value)
           else 0.0
         case _ => 0.0)
      case _ => 0.0
  }

  /** The intermediate yields a quote: a valid address whose two-leg route returns an int above 0. */
  predicate Qualifies(a: string, q: Quoting) {
    ValidAddress(a) && q.decimals.Some? && q.stable.decimals.Some? &&
    var first := q.router(IntVal(Pow10(q.decimals.value)), q.address, a);
    first.Quote? &&
    var second := q.router(first.amount, a, q.stable.address);
    second.Quote? && IsPyInt(second.amount) && AsPyInt(second.amount).value > 0
  }

  /** `[address for address in token_addresses if address]`. */
  function NonEmpty(addrs: seq<string>): (r: seq<string>)
    ensures forall k :: 0 <= k < |r| ==> r[k] != []
  {
    if addrs == [] then []
    else NonEmpty(addrs[..|addrs| - 1]) + (if addrs[|addrs| - 1] != [] then [addrs[|addrs| - 1]] else [])
  }

  /** The running total of the loop over `addrs`. */
  function SumLegs(addrs: seq<string>, q: Quoting): (r: real)
    ensures r >= 0.0
  {
    if addrs == [] then 0.0
    else SumLegs(addrs[..|addrs| - 1], q) + LegPrice(addrs[|addrs| - 1], q)
  }

  /** `_get_price_through_tokens`: the sum over the non-empty intermediates. */
  function ThroughTokens(addrs: seq<string>, q: Quoting): real {
    SumLegs(NonEmpty(addrs), q)
  }

  lemma SumLegsAppend(xs: seq<string>, a: string, q: Quoting)
    ensures SumLegs(xs + [a], q) == SumLegs(xs, q) + LegPrice(a, q)
  {
    assert (xs + [a])[..|xs|] == xs;
  }

  /** Dropping the empty addresses first changes nothing: they are invalid and add 0. */
  lemma {:induction false} ThroughTokensIgnoresEmpty(addrs: seq<string>, q: Quoting)
    ensures ThroughTokens(addrs, q) == SumLegs(addrs, q)
  {
    if addrs != [] {
      var init := addrs[..|addrs| - 1];
      var last := addrs[|addrs| - 1];
      ThroughTokensIgnoresEmpty(init, q);
      if last != [] {
        SumLegsAppend(NonEmpty(init), last, q);
      } else {
        assert !ValidAddress(last) && LegPrice(last, q) == 0.0;
        assert NonEmpty(addrs) == NonEmpty(init) + [] == NonEmpty(init);
      }
      assert addrs[..|addrs| - 1] == init;
    }
  }

  /** The total is positive exactly when some intermediate qualifies. */
  lemma {:induction false} SumLegsPositive(addrs: seq<string>, q: Quoting)
    ensures SumLegs(addrs, q) > 0.0 <==> exists k :: 0 <= k < |addrs| && Qualifies(addrs[k], q)
  {
    if addrs != [] {
      var init := addrs[..|addrs| - 1];
      SumLegsPositive(init, q);
      if exists k :: 0 <= k < |init| && Qualifies(init[k], q) {
        var k :| 0 <= k < |init| && Qualifies(init[k], q);
        assert addrs[k] == init[k];
      }
      if exists k :: 0 <= k < |addrs| && Qualifies(addrs[k], q) {
        var k :| 0 <= k < |addrs| && Qualifies(addrs[k], q);
        if k < |init| {
          assert init[k] == addrs[k];
        }
      }
    }
  }

  /** `_get_price_through_tokens`, looping over the intermediates and summing the routes that quote. */
  method GetPriceThroughTokens(tokenAddresses: seq<string>, q: Quoting) returns (total: real)
    ensures total == ThroughTokens(tokenAddresses, q)
    ensures total >= 0.0
  {
    var addrs := NonEmpty(tokenAddresses);
    total := 0.0;
    for i := 0 to |addrs|
      invariant total == SumLegs(addrs[..i], q)
    {
      var a := addrs[i];
      SumLegsAppend(addrs[..i], a, q);
      assert addrs[..i + 1] == addrs[..i] + [a];
      if a != [] && StartsWith(a, "0x") && |a| == 42 && q.decimals.Some? {
        var resultA := q.router(IntVal(Pow10(q.decimals.value)), q.address, a);
        if resultA.Quote? {
          var resultB := q.router(resultA.amount, a, q.stable.address);
          if resultB.Quote? {
            var amountB := resultB.amount;
            if IsPyInt(amountB) && AsPyInt(amountB).value > 0 && q.stable.decimals.Some? {
              total := total + Scale(AsPyInt(amountB).value as real, q.stable.decimals.value);
            }
          }
        }
      }
    }
    assert addrs[..|addrs|] == addrs;
  }

  function RouteAttempt(route: InternalRoute, q: Quoting, s: Settings): Attempt {
    match route
    case Direct => DirectAttempt(q)
    case AxelarBluechips => Returned(FloatVal(ThroughTokens(s.axelarBluechips, q)))
    case BluechipTokens => Returned(FloatVal(ThroughTokens(s.bluechips, q)))
    case NativeToken => Returned(FloatVal(ThroughTokens([s.nativeAddress], q)))
  }

  function InternalOutcome(q: Quoting, s: Settings): InternalRoute -> Attempt {
    route => RouteAttempt(route, q, s)
  }

  /** What the internal family returns for a token: 0 when the stable token is not cached. */
  function InternalPrice(address: string, decimals: Option<nat>, env: Env): (r: real)
    ensures r >= 0.0
    ensures Find(env.settings.stableAddress, env.tokens).None? ==> r == 0.0
  {
    match Find(env.settings.stableAddress, env.tokens)
    case None => 0.0
    case Some(stable) =>
      RunFamily(InternalPlan(env.settings.internalOrder),
                InternalOutcome(Quoting(address, decimals, stable, env.router), env.settings)).price
  }

  // -------------------------------------------------------- the family methods

  /** `get_price_external_source`: validate the token, then try the feeds in configured order. */
  method GetPriceExternalSource(token: Token, env: Env) returns (price: real, ghost invoked: seq<ExternalFeed>)
    modifies token`name, token`symbol, token`decimals, token`stored, token`price
    ensures var o := RunFamily(ExternalPlan(env.settings.externalOrder), ExternalOutcome(token.address, env));
            price == o.price && invoked == o.invoked
    ensures token.Data() == Validated(old(token.Data())).(price := if price > 0.0 then price else old(token.price))
    ensures token.stored == Some(Validated(old(token.Data())))
  {
    ModelUteis.EnsureTokenValidity(token);
    price, invoked := TryFeeds(token, env);
  }

  /** The loop of `get_price_external_source` over the feeds: the first positive price becomes the token's. */
  method TryFeeds(token: Token, env: Env) returns (price: real, ghost invoked: seq<ExternalFeed>)
    modifies token`price
    ensures var o := RunFamily(ExternalPlan(env.settings.externalOrder), ExternalOutcome(token.address, env));
            price == o.price && invoked == o.invoked
    ensures token.price == if price > 0.0 then price else old(token.price)
  {
    var order := env.settings.externalOrder;
    ghost var plan := ExternalPlan(order);
    ghost var outcome := ExternalOutcome(token.address, env);
    ghost var whole := RunFamily(plan, outcome);
    invoked := [];
    var i := 0;
    while i < |order|
      invariant 0 <= i <= |order|
      invariant whole == After(invoked, RunFamily(plan[i..], outcome))
      invariant token.price == old(token.price)
    {
      var getter := ExternalGetter(order[i]);
      assert plan[i] == getter;
      ghost var log := invoked;
      if getter.Some? {
        var attempt := FeedAttempt(getter.value, token.address, env.http, env.parseFloat);
        assert attempt == outcome(getter.value);
        invoked := invoked + [getter.value];
        var accepted := Accepted(attempt);
        if accepted.Some? {
          FamilyEnds(plan, i, outcome, whole, log);
          token.price := accepted.value;
          price := accepted.value;
          return;
        }
      }
      FamilyContinues(plan, i, outcome, whole, log);
      i := i + 1;
    }
    assert plan[i..] == [];
    price := 0.0;
    assert whole == FamilyOutcome(price, invoked);
  }

  /** One internal getter called on the token: the direct quote, or the sum through a list of tokens. */
  method InvokeRoute(route: InternalRoute, q: Quoting, s: Settings) returns (attempt: Attempt)
    ensures attempt == RouteAttempt(route, q, s)
  {
    match route {
      case Direct =>
        attempt := DirectAttempt(q);
      case AxelarBluechips =>
        var total := GetPriceThroughTokens(s.axelarBluechips, q);
        attempt := Returned(FloatVal(total));
      case BluechipTokens =>
        var total := GetPriceThroughTokens(s.bluechips, q);
        attempt := Returned(FloatVal(total));
      case NativeToken =>
        var total := GetPriceThroughTokens([s.nativeAddress], q);
        attempt := Returned(FloatVal(total));
    }
  }

  /** `get_price_internal_source`: look up the stable token, then try the routes in configured order. */
  method GetPriceInternalSource(token: Token, env: Env) returns (price: real, ghost invoked: seq<InternalRoute>)
    modifies token`price
    ensures var stable := Find(env.settings.stableAddress, env.tokens);
            stable.None? ==> price == 0.0 && invoked == []
    ensures var stable := Find(env.settings.stableAddress, env.tokens);
            stable.Some? ==>
              var o := RunFamily(InternalPlan(env.settings.internalOrder),
                                 InternalOutcome(Quoting(token.address, token.decimals, stable.value, env.router), env.settings));
              price == o.price && invoked == o.invoked
    ensures price == InternalPrice(token.address, token.decimals, env)
    ensures token.price == if price > 0.0 then price else old(token.price)
  {
    invoked := [];
    var stable := Find(env.settings.stableAddress, env.tokens);
    if stable.None? {
      return 0.0, [];
    }
    var q := Quoting(token.address, token.decimals, stable.value, env.router);
    var s := env.settings;
    var order := s.internalOrder;
    ghost var plan := InternalPlan(order);
    ghost var outcome := InternalOutcome(q, s);
    ghost var whole := RunFamily(plan, outcome);
    assert InternalPrice(token.address, token.decimals, env) == whole.price;
    var i := 0;
    while i < |order|
      invariant 0 <= i <= |order|
      invariant whole == After(invoked, RunFamily(plan[i..], outcome))
      invariant token.price == old(token.price) && q.decimals == token.decimals
    {
      var route := InternalGetter(order[i]);
      assert plan[i] == route;
      ghost var log := invoked;
      if route.Some? {
        var attempt := InvokeRoute(route.value, q, s);
        assert attempt == outcome(route.value);
        invoked := invoked + [route.value];
        var accepted := Accepted(attempt);
        if accepted.Some? {
          FamilyEnds(plan, i, outcome, whole, log);
          token.price := accepted.value;
          price := accepted.value;
          return;
        }
      }
      FamilyContinues(plan, i, outcome, whole, log);
      i := i + 1;
    }
    assert plan[i..] == [];
    price := 0.0;
    assert whole == FamilyOutcome(price, invoked);
  }

  // ------------------------------------------------------------ _update_price

  datatype Family = InternalFamily | ExternalFamily

  /** How `_update_price` ends: the price, the families it ran, and whether the token was listed as zero-priced. */
  datatype Resolved = Resolved(price: real, familiesRun: seq<Family>, zeroListed: bool)

  /** The order in which `_update_price` runs the families. */
  function Order(internalFirst: bool): (r: seq<Family>)
    ensures |r| == 2 && r[0] != r[1]
    ensures r[0].InternalFamily? <==> internalFirst
  {
    if internalFirst then [InternalFamily, ExternalFamily] else [ExternalFamily, InternalFamily]
  }

  function PriceOf(f: Family, internal: real, external: real): real {
    if f.InternalFamily? then internal else external
  }

  /**
   * `_update_price` over the two families' results: an ignored token gets 0
   * with nothing run; otherwise the families run in order until one is
   * positive; when neither is, the price is 0 and the token is listed.
   */
  function Resolution(ignored: bool, internalFirst: bool, internal: real, external: real): (r: Resolved)
  {
    if ignored then Resolved(0.0, [], false)
    else
      var fs := Order(internalFirst);
      if PriceOf(fs[0], internal, external) > 0.0 then Resolved(PriceOf(fs[0], internal, external), fs[..1], false)
      else if PriceOf(fs[1], internal, external) > 0.0 then Resolved(PriceOf(fs[1], internal, external), fs, false)
      else Resolved(0.0, fs, true)
  }

  /**
   * The resolved price is positive exactly when the token is not ignored and
   * some family found a price; the family that runs first wins when it finds
   * one, and the second never runs then; a token is listed as zero-priced
   * exactly when it is not ignored and no price was found.
   */
  lemma ResolutionFacts(ignored: bool, internalFirst: bool, internal: real, external: real)
    requires internal >= 0.0 && external >= 0.0
    ensures var r := Resolution(ignored, internalFirst, internal, external);
      r.price >= 0.0 &&
      (r.price > 0.0 <==> !ignored && (internal > 0.0 || external > 0.0)) &&
      (r.zeroListed <==> !ignored && r.price == 0.0) &&
      (ignored ==> r.familiesRun == [])
    ensures var r := Resolution(ignored, internalFirst, internal, external);
      (!ignored && internalFirst && internal > 0.0 ==> r.price == internal && r.familiesRun == [InternalFamily]) &&
      (!ignored && !internalFirst && external > 0.0 ==> r.price == external && r.familiesRun == [ExternalFamily]) &&
      (!ignored && internalFirst && internal == 0.0 ==> r.price == external && |r.familiesRun| == 2) &&
      (!ignored && !internalFirst && external == 0.0 ==> r.price == internal && |r.familiesRun| == 2)
  {
    var fs := Order(internalFirst);
    assert fs[..1] == [fs[0]];
  }

  /** `_finalize_update`: set the price, save, and return it. */
  method FinalizeUpdate(token: Token, price: real) returns (r: real)
    modifies token`price, token`stored
    ensures r == price && token.price == price
    ensures token.stored == Some(token.Data())
  {
    token.price := price;
    token.Save();
    r := token.price;
  }

  /** The price family `f` finds for a validated token whose fields are `v`. */
  ghost function FamilyPrice(f: Family, v: TokenData, env: Env): real {
    PriceOf(f, InternalPrice(v.address, v.decimals, env), ExternalPrice(v.address, env))
  }

  /** `internal` and `external` are the prices the two families find for `v`. */
  ghost predicate PricedAs(v: TokenData, env: Env, internal: real, external: real) {
    forall f {:trigger FamilyPrice(f, v, env)} :: FamilyPrice(f, v, env) == PriceOf(f, internal, external)
  }

  /**
   * One pass of `_update_price`'s loop on a validated token whose fields are
   * `v`: the family's price; on no price the token is as it was.
   */
  method RunFamilyOf(token: Token, env: Env, f: Family, ghost v: TokenData, ghost internal: real, ghost external: real)
      returns (p: real)
    requires token.Data() == v && Validated(v) == v && token.stored == Some(v)
    requires PricedAs(v, env, internal, external)
    modifies token`name, token`symbol, token`decimals, token`stored, token`price
    ensures p == PriceOf(f, internal, external)
    ensures p > 0.0 ==> token.Data() == v.(price := p)
    ensures p <= 0.0 ==> token.Data() == v
    ensures token.stored == Some(v)
  {
    assert FamilyPrice(f, v, env) == PriceOf(f, internal, external);
    ghost var routes, feeds;
    if f.InternalFamily? {
      p, routes := GetPriceInternalSource(token, env);
    } else {
      p, feeds := GetPriceExternalSource(token, env);
    }
  }

  /** The resolution of a token whose fields, once validated, are `v`. */
  function ResolutionFor(v: TokenData, env: Env): Resolved
    requires v.symbol.Some?
  {
    Resolution(v.symbol.value in env.settings.ignored, env.settings.internalFirst,
               InternalPrice(v.address, v.decimals, env), ExternalPrice(v.address, env))
  }

  /** The first family, in order, that finds a positive price settles the resolution. */
  lemma ResolvedAt(internalFirst: bool, internal: real, external: real, i: nat)
    requires i < 2
    requires PriceOf(Order(internalFirst)[i], internal, external) > 0.0
    requires i > 0 ==> PriceOf(Order(internalFirst)[0], internal, external) <= 0.0
    ensures var r := Resolution(false, internalFirst, internal, external);
      r.price == PriceOf(Order(internalFirst)[i], internal, external) &&
      r.familiesRun == Order(internalFirst)[..i + 1] && !r.zeroListed
  {
    var fs := Order(internalFirst);
    assert fs[..1] == [fs[0]];
    assert fs[..2] == fs;
  }

  /** When neither family finds a positive price, both ran and the price is 0. */
  lemma ResolvedNone(internalFirst: bool, internal: real, external: real)
    requires PriceOf(Order(internalFirst)[0], internal, external) <= 0.0
    requires PriceOf(Order(internalFirst)[1], internal, external) <= 0.0
    ensures Resolution(false, internalFirst, internal, external) == Resolved(0.0, Order(internalFirst), true)
  {
  }

  /**
   * The loop of `_update_price` over the families in order: the first
   * positive price, or 0 when neither finds one. Only the price of the
   * validated token changes, and only to a positive price.
   */
  method RunFamilies(token: Token, env: Env, ghost v: TokenData, ghost internal: real, ghost external: real)
      returns (p: real, ghost run: seq<Family>)
    requires token.Data() == v && Validated(v) == v && token.stored == Some(v)
    requires PricedAs(v, env, internal, external)
    modifies token`name, token`symbol, token`decimals, token`stored, token`price
    ensures var r := Resolution(false, env.settings.internalFirst, internal, external);
            p == r.price && run == r.familiesRun && (p <= 0.0 <==> r.zeroListed)
    ensures p > 0.0 ==> token.Data() == v.(price := p)
    ensures p <= 0.0 ==> token.Data() == v
    ensures token.stored == Some(v)
  {
    var families := Order(env.settings.internalFirst);
    run := [];
    var i := 0;
    while i < 2
      invariant 0 <= i <= 2
      invariant run == families[..i]
      invariant i > 0 ==> PriceOf(families[0], internal, external) <= 0.0
      invariant i > 1 ==> PriceOf(families[1], internal, external) <= 0.0
      invariant token.Data() == v && token.stored == Some(v)
    {
      p := RunFamilyOf(token, env, families[i], v, internal, external);
      run := run + [families[i]];
      if p > 0.0 {
        ResolvedAt(env.settings.internalFirst, internal, external, i);
        return;
      }
      i := i + 1;
    }
    ResolvedNone(env.settings.internalFirst, internal, external);
    p := 0.0;
  }

  /**
   * `_update_price`: validate, check the symbol against the ignore list,
   * run the families in order, list the token when no price is found, and
   * save the token with the price it returns.
   */
  method UpdatePrice(token: Token, env: Env, registry: ModelUteis) returns (price: real, ghost run: seq<Family>)
    modifies token, registry`zeroPriceTokens
    ensures var v := Validated(old(token.Data()));
            var r := ResolutionFor(v, env);
            price == r.price && run == r.familiesRun &&
            registry.zeroPriceTokens ==
              (if r.zeroListed then WithZeroPrice(old(registry.zeroPriceTokens), token) else old(registry.zeroPriceTokens))
    ensures token.Data() == Validated(old(token.Data())).(price := price)
    ensures token.stored == Some(token.Data())
  {
    ModelUteis.EnsureTokenValidity(token);
    ValidatedIdempotent(old(token.Data()));
    run := [];
    if token.symbol.value in env.settings.ignored {
      price := FinalizeUpdate(token, 0.0);
      return;
    }
    ghost var v := token.Data();
    ghost var internal, external := InternalPrice(v.address, v.decimals, env), ExternalPrice(v.address, env);
    assert PricedAs(v, env, internal, external) by {
      forall f ensures FamilyPrice(f, v, env) == PriceOf(f, internal, external) {
      }
    }
    var p;
    p, run := RunFamilies(token, env, v, internal, external);
    if p <= 0.0 {
      registry.AddZeroPriceToken(token);
    }
    price := FinalizeUpdate(token, p);
  }

  // ---------------------------------------------------------------- token lists

  /**
   * `_is_valid_token`: the `and` chain returns False, or the lower-cased
   * address itself (truthy exactly when it is not empty). A non-object entry
   * or a non-text address raises.
   */
  function IsValidToken(tokenData: Value, chainId: int, ignored: seq<string>): (r: Attempt)
    ensures r.Raised? <==> !tokenData.DictVal? || !GetKeyOr(tokenData, "address", StrVal("")).StrVal?
    ensures r.Returned? ==>
      var address := Lower(GetKeyOr(tokenData, "address", StrVal("")).s);
      (Truthy(r.value) <==>
         EqualsInt(GetKeyOr(tokenData, "chainId", NoneVal), chainId) && address !in ignored && address != []) &&
      (Truthy(r.value) ==> r.value == StrVal(address))
  {
    if !tokenData.DictVal? then Raised
    else
      var addr := GetKeyOr(tokenData, "address", StrVal(""));
      if !addr.StrVal? then Raised
      else
        var address := Lower(addr.s);
        if !EqualsInt(GetKeyOr(tokenData, "chainId", NoneVal), chainId) then Returned(BoolVal(false))
        else if address in ignored then Returned(BoolVal(false))
        else Returned(StrVal(address))
  }

  /** `"stablecoin" in tags[0]`; None where the expression raises. */
  function StableTag(tags: Value): (r: Option<bool>)
    ensures tags.ListVal? && tags.items != [] && tags.items[0].StrVal? ==>
      r == Some(Contains(tags.items[0].s, "stablecoin"))
    ensures tags.ListVal? && tags.items == [] ==> r.None?
    ensures r == Some(true) ==> tags.ListVal? && tags.items != []
  {
    match tags
    case ListVal(items) =>
      if items == [] then None   // IndexError
      else (match items[0]
        case StrVal(s) => Some(Contains(s, "stablecoin"))
        case ListVal(xs) => Some(StrVal("stablecoin") in xs)
        case DictVal(entries) => Some(exists k :: 0 <= k < |entries| && entries[k].0 == "stablecoin")
        case _ => None)          // `in` on a number, a bool or None
    // a one-character string never contains "stablecoin"
    case StrVal(s) => if s == [] then None else Some(false)
    case _ => None               // not indexable by 0
  }

  /** `len(tags) > 1 and isinstance(tags[1], str) and "taxed" in tags[1]`. */
  function TaxedTag(tags: Value): (r: bool)
    ensures r <==> tags.ListVal? && |tags.items| > 1 && tags.items[1].StrVal? && Contains(tags.items[1].s, "taxed")
  {
    match tags
    case ListVal(items) => |items| > 1 && items[1].StrVal? && Contains(items[1].s, "taxed")
    // tags[1] of a string is one character, which never contains "taxed"
    case _ => false
  }

  /** A text field read with `get(key, "")`: text, or None for null; other types are not modelled. */
  function TextField(tokenData: Value, key: string): Option<Option<string>>
    requires tokenData.DictVal?
  {
    match GetKeyOr(tokenData, key, StrVal(""))
    case StrVal(s) => Some(Some(s))
    case NoneVal => Some(None)
    case _ => None
  }

  /**
   * A list entry `_create_and_update_token` reads without raising: an
   * object whose addresses are text, whose symbol, name and logo are text or
   * null, whose tags have a first element "stablecoin" can be looked for in,
   * and whose tax is a number.
   */
  predicate WellFormedEntry(tokenData: Value) {
    tokenData.DictVal? &&
    GetKeyOr(tokenData, "address", StrVal("")).StrVal? &&
    GetKeyOr(tokenData, "liquid_staked_address", StrVal("")).StrVal? &&
    TextField(tokenData, "symbol").Some? &&
    TextField(tokenData, "name").Some? &&
    TextField(tokenData, "logoURI").Some? &&
    StableTag(GetKeyOr(tokenData, "tags", ListVal([StrVal("")]))).Some? &&
    AsNumber(GetKeyOr(tokenData, "tax", BoolVal(false))).Some?
  }

  /**
   * The fields of the token created from a well-formed entry, before its
   * price: both addresses lower-cased, symbol, name and logo copied, the
   * flags read from the tags, the tax copied, and the declared defaults
   * (no decimals, price 0) elsewhere.
   */
  function EntryData(tokenData: Value): TokenData
    requires WellFormedEntry(tokenData)
  {
    var tags := GetKeyOr(tokenData, "tags", ListVal([StrVal("")]));
    TokenData(Lower(GetKeyOr(tokenData, "address", StrVal("")).s),
              TextField(tokenData, "name").value,
              TextField(tokenData, "symbol").value,
              None,
              TextField(tokenData, "logoURI").value,
              0.0,
              StableTag(tags).value,
              Lower(GetKeyOr(tokenData, "liquid_staked_address", StrVal("")).s),
              TaxedTag(tags),
              AsNumber(GetKeyOr(tokenData, "tax", BoolVal(false))).value)
  }

  /**
   * `_create_and_update_token` up to the price: create the token from its
   * list entry (lower-cased addresses, symbol), copy name and logo, and set
   * the stable and taxed flags from the tags and the tax. None stands for an
   * exception, which happens exactly for an entry that is not well formed.
   */
  method TokenFromEntry(tokenData: Value) returns (r: Option<Token>)
    ensures r.Some? <==> WellFormedEntry(tokenData)
    ensures r.Some? ==> fresh(r.value) && r.value.Data() == EntryData(tokenData)
  {
    if !tokenData.DictVal? {
      return None;
    }
    var address := GetKeyOr(tokenData, "address", StrVal(""));
    var liquidStaked := GetKeyOr(tokenData, "liquid_staked_address", StrVal(""));
    var symbol := TextField(tokenData, "symbol");
    if !address.StrVal? || !liquidStaked.StrVal? || symbol.None? {
      return None;
    }
    var tags := GetKeyOr(tokenData, "tags", ListVal([StrVal("")]));
    var token := new Token.Create(Lower(address.s), Lower(liquidStaked.s), symbol.value);
    var name := TextField(tokenData, "name");
    var logo := TextField(tokenData, "logoURI");
    if name.None? || logo.None? {
      return None;
    }
    token.name := name.value;
    token.logoURI := logo.value;
    var stable := StableTag(tags);
    if stable.None? {
      return None;
    }
    token.stable := stable.value;
    token.taxed := TaxedTag(tags);
    var tax := AsNumber(GetKeyOr(tokenData, "tax", BoolVal(false)));
    if tax.None? {
      return None;
    }
    token.tax := tax.value;
    r := Some(token);
  }

  /**
   * `_create_and_update_token`: the token of the list entry, with its price
   * resolved and saved by `_update_price`, which also lists a token priced
   * at 0 in the registry.
   */
  method CreateAndUpdateToken(tokenData: Value, env: Env, registry: ModelUteis) returns (r: Option<Token>)
    modifies registry`zeroPriceTokens
    ensures r.Some? <==> WellFormedEntry(tokenData)
    ensures r.None? ==> registry.zeroPriceTokens == old(registry.zeroPriceTokens)
    ensures r.Some? ==>
      var v := Validated(EntryData(tokenData));
      var res := ResolutionFor(v, env);
      fresh(r.value) && r.value.Data() == v.(price := res.price) && r.value.stored == Some(r.value.Data()) &&
      registry.zeroPriceTokens ==
        (if res.zeroListed then WithZeroPrice(old(registry.zeroPriceTokens), r.value) else old(registry.zeroPriceTokens))
  {
    r := TokenFromEntry(tokenData);
    if r.Some? {
      var price;
      ghost var run;
      price, run := UpdatePrice(r.value, env, registry);
    }
  }

  /** The lower-cased addresses of the entries `_is_valid_token` accepts, in list order. */
  function ValidAddresses(items: seq<Value>, chainId: int, ignored: seq<string>): seq<string> {
    if items == [] then []
    else
      var v := IsValidToken(items[|items| - 1], chainId, ignored);
      ValidAddresses(items[..|items| - 1], chainId, ignored) +
        (if v.Returned? && Truthy(v.value) then [v.value.s] else [])
  }

  /** One more entry of the list adds its address when it is valid. */
  lemma ValidAddressesStep(items: seq<Value>, i: nat, chainId: int, ignored: seq<string>)
    requires i < |items|
    ensures var v := IsValidToken(items[i], chainId, ignored);
      ValidAddresses(items[..i + 1], chainId, ignored) ==
        ValidAddresses(items[..i], chainId, ignored) + (if v.Returned? && Truthy(v.value) then [v.value.s] else [])
  {
    assert items[..i + 1][..i] == items[..i];
  }

  lemma AddressesSnoc(tokens: seq<Token>, t: Token)
    ensures Addresses(tokens + [t]) == Addresses(tokens) + [t.address]
  {
    assert (tokens + [t])[..|tokens|] == tokens;
  }

  function Addresses(tokens: seq<Token>): (r: seq<string>)
    ensures |r| == |tokens| && forall k :: 0 <= k < |tokens| ==> r[k] == tokens[k].address
  {
    if tokens == [] then [] else Addresses(tokens[..|tokens| - 1]) + [tokens[|tokens| - 1].address]
  }

  /** An entry on which `_fetch_tokenlist`'s loop raises: in `_is_valid_token`, or in creating a valid entry's token. */
  predicate EntryRaises(tokenData: Value, chainId: int, ignored: seq<string>) {
    var valid := IsValidToken(tokenData, chainId, ignored);
    valid.Raised? || (Truthy(valid.value) && !WellFormedEntry(tokenData))
  }

  /**
   * One entry of `_fetch_tokenlist`'s loop: an invalid entry is skipped
   * (Some(None)), a valid one becomes a created, priced token; None where
   * the code raises.
   */
  method FetchEntry(tokenData: Value, chainId: int, env: Env, registry: ModelUteis) returns (r: Option<Option<Token>>)
    modifies registry`zeroPriceTokens
    ensures r.None? <==> EntryRaises(tokenData, chainId, env.settings.ignored)
    ensures r.Some? ==>
      var valid := IsValidToken(tokenData, chainId, env.settings.ignored);
      valid.Returned? && (r.value.Some? <==> Truthy(valid.value)) &&
      (r.value.Some? ==> fresh(r.value.value) && r.value.value.address == valid.value.s)
    ensures r.Some? && r.value.None? ==> registry.zeroPriceTokens == old(registry.zeroPriceTokens)
  {
    var valid := IsValidToken(tokenData, chainId, env.settings.ignored);
    if valid.Raised? {
      return None;
    }
    if !Truthy(valid.value) {
      return Some(None);
    }
    var token := CreateAndUpdateToken(tokenData, env, registry);
    if token.None? {
      return None;
    }
    return Some(token);
  }

  /** The entries `res.get("tokens", [])` iterates over; None where reading them raises. */
  function ListEntries(json: Value): (r: Option<seq<Value>>)
    ensures r.Some? ==> json.DictVal?
  {
    if json.DictVal? then Iterate(GetKeyOr(json, "tokens", ListVal([]))) else None
  }

  /** Some entry of the list makes the loop raise, the last one or one before it. */
  predicate SomeEntryRaises(items: seq<Value>, chainId: int, ignored: seq<string>) {
    items != [] &&
    (SomeEntryRaises(items[..|items| - 1], chainId, ignored) || EntryRaises(items[|items| - 1], chainId, ignored))
  }

  /** The loop raises exactly when one of the entries does. */
  lemma {:induction false} SomeEntryRaisesExists(items: seq<Value>, chainId: int, ignored: seq<string>)
    ensures SomeEntryRaises(items, chainId, ignored) <==>
      exists j :: 0 <= j < |items| && EntryRaises(items[j], chainId, ignored)
  {
    if items != [] {
      var init := items[..|items| - 1];
      SomeEntryRaisesExists(init, chainId, ignored);
      if exists j :: 0 <= j < |init| && EntryRaises(init[j], chainId, ignored) {
        var j :| 0 <= j < |init| && EntryRaises(init[j], chainId, ignored);
        assert items[j] == init[j];
      }
      if exists j :: 0 <= j < |items| && EntryRaises(items[j], chainId, ignored) {
        var j :| 0 <= j < |items| && EntryRaises(items[j], chainId, ignored);
        if j < |init| {
          assert init[j] == items[j];
        }
      }
    }
  }

  /** Once a prefix of the entries raises, the whole loop raises. */
  lemma {:induction false} SomeEntryRaisesPrefix(items: seq<Value>, i: nat, chainId: int, ignored: seq<string>)
    requires i <= |items|
    requires SomeEntryRaises(items[..i], chainId, ignored)
    ensures SomeEntryRaises(items, chainId, ignored)
  {
    if i < |items| {
      assert items[..|items| - 1][..i] == items[..i];
      SomeEntryRaisesPrefix(items[..|items| - 1], i, chainId, ignored);
    } else {
      assert items[..i] == items;
    }
  }

  /**
   * The loop of `_fetch_tokenlist`: every valid entry becomes a created,
   * priced token, in list order; None when some entry raises.
   */
  method FetchEntries(items: seq<Value>, chainId: int, env: Env, registry: ModelUteis) returns (r: Option<seq<Token>>)
    modifies registry`zeroPriceTokens
    ensures r.None? <==> SomeEntryRaises(items, chainId, env.settings.ignored)
    ensures r.Some? ==> Addresses(r.value) == ValidAddresses(items, chainId, env.settings.ignored)
    ensures r.Some? ==> forall k :: 0 <= k < |r.value| ==> fresh(r.value[k])
  {
    var tokens: seq<Token> := [];
    for i := 0 to |items|
      invariant Addresses(tokens) == ValidAddresses(items[..i], chainId, env.settings.ignored)
      invariant forall k :: 0 <= k < |tokens| ==> fresh(tokens[k])
      invariant !SomeEntryRaises(items[..i], chainId, env.settings.ignored)
    {
      var next := FetchNext(tokens, items, i, chainId, env, registry);
      if next.None? {
        SomeEntryRaisesPrefix(items, i + 1, chainId, env.settings.ignored);
        return None;
      }
      tokens := next.value;
    }
    assert items[..|items|] == items;
    r := Some(tokens);
  }

  /** One pass of that loop: the tokens of `items[..i + 1]` from those of `items[..i]`; None when `items[i]` raises. */
  method FetchNext(tokens: seq<Token>, items: seq<Value>, i: nat, chainId: int, env: Env, registry: ModelUteis)
    returns (r: Option<seq<Token>>)
    requires i < |items|
    requires Addresses(tokens) == ValidAddresses(items[..i], chainId, env.settings.ignored)
    requires !SomeEntryRaises(items[..i], chainId, env.settings.ignored)
    modifies registry`zeroPriceTokens
    ensures r.None? <==> SomeEntryRaises(items[..i + 1], chainId, env.settings.ignored)
    ensures r.Some? ==> Addresses(r.value) == ValidAddresses(items[..i + 1], chainId, env.settings.ignored)
    ensures r.Some? ==> r.value == tokens || (|r.value| == |tokens| + 1 && r.value == tokens + [r.value[|tokens|]])
    ensures r.Some? && r.value != tokens ==> fresh(r.value[|tokens|])
  {
    assert items[..i + 1][..i] == items[..i];
    var next := FetchEntry(items[i], chainId, env, registry);
    if next.None? {
      return None;
    }
    ValidAddressesStep(items, i, chainId, env.settings.ignored);
    if next.value.Some? {
      AddressesSnoc(tokens, next.value.value);
      return Some(tokens + [next.value.value]);
    }
    return Some(tokens);
  }

  /**
   * `_fetch_tokenlist`: every valid entry of the list becomes a created,
   * priced token, in list order. A failed request or an undecodable body
   * gives an empty list; any other exception escapes (None).
   */
  method FetchTokenlist(reply: Reply, chainId: int, env: Env, registry: ModelUteis) returns (r: Option<seq<Token>>)
    modifies registry`zeroPriceTokens
    ensures !reply.Body? ==> r == Some([])
    ensures reply.Body? ==>
      (r.None? <==>
        ListEntries(reply.json).None? || SomeEntryRaises(ListEntries(reply.json).value, chainId, env.settings.ignored))
    ensures r.Some? && reply.Body? ==>
      Addresses(r.value) == ValidAddresses(ListEntries(reply.json).value, chainId, env.settings.ignored)
    ensures r.Some? ==> forall k :: 0 <= k < |r.value| ==> fresh(r.value[k])
  {
    if !reply.Body? {
      return Some([]);
    }
    var entries := ListEntries(reply.json);
    if entries.None? {
      return None;
    }
    r := FetchEntries(entries.value, chainId, env, registry);
  }
}
