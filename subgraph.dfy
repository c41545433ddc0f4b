/**
 * The concentrated-liquidity subgraph client (app/cl/subgraph.py): paged
 * token and pool queries, the URL fallback, the cache fallbacks, and the
 * price and type each fetched token is given.
 */
module Subgraph {
  import opened Wrappers
  import opened Strings
  import opened PyValues
  import Dicts
  import TokenType

  /** Page size of both paging loops. */
  const Limit: nat := 100

  /** A subgraph HTTP response: its status and its body as decoded JSON (None when `.json()` raises). */
  datatype Response = Response(status: int, body: Option<Value>)

  /** `requests.post(url, json={"query": q})`: None when it raises a request exception. */
  type Post = (string, string) -> Option<Response>

  /**
   * The cache entries the client reads and writes. The token and pool
   * entries are written with `json.dumps` and read back with `json.loads`,
   * so each is kept as the JSON value it decodes to. The price entry is used
   * as `CACHE.get` returns it, undecoded: stored text is a `StrVal`, on
   * which the price lookup of `process_tokens` raises.
   */
  class SubgraphCache {
    var prices: Option<Value>
    var tokens: Option<Value>
    var pools: Option<Value>

    constructor (prices: Option<Value>, tokens: Option<Value>, pools: Option<Value>)
      ensures this.prices == prices && this.tokens == tokens && this.pools == pools
    {
      this.prices, this.tokens, this.pools := prices, tokens, pools;
    }
  }

  // ------------------------------------------------------------ classification

  /**
   * The type `process_tokens` gives a symbol and id: a listed symbol keeps
   * its listed type; otherwise "USD" in the symbol, the WETH address and
   * the default token address are tried in that order.
   */
  function Classify(symbol: string, id: Value, defaultTokenAddress: string): (r: int)
    ensures r in TokenType.Codes
  {
    var listed := if symbol in TokenType.TokenTypeDict then TokenType.TokenTypeDict[symbol] else TokenType.OTHERS;
    TokenType.DictValues();
    if listed != TokenType.OTHERS then listed
    else if Contains(symbol, "USD") then TokenType.LOOSE_STABLE
    else if id == StrVal(TokenType.WethAddress) then TokenType.WETH
    else if id == StrVal(defaultTokenAddress) then TokenType.VARA
    else TokenType.OTHERS
  }

  /** A listed symbol is never refined, whatever its id or spelling. */
  lemma ClassifyListed(symbol: string, id: Value, defaultTokenAddress: string)
    requires symbol in TokenType.TokenTypeDict
    ensures Classify(symbol, id, defaultTokenAddress) == TokenType.TokenTypeDict[symbol]
  {
    TokenType.DictValues();
  }

  /** An unlisted symbol: "USD" wins over the addresses, WETH over the default token. */
  lemma ClassifyUnlisted(symbol: string, id: Value, defaultTokenAddress: string)
    requires symbol !in TokenType.TokenTypeDict
    ensures Contains(symbol, "USD") ==> Classify(symbol, id, defaultTokenAddress) == TokenType.LOOSE_STABLE
    ensures !Contains(symbol, "USD") && id == StrVal(TokenType.WethAddress) ==>
      Classify(symbol, id, defaultTokenAddress) == TokenType.WETH
    ensures !Contains(symbol, "USD") && id != StrVal(TokenType.WethAddress) && id == StrVal(defaultTokenAddress) ==>
      Classify(symbol, id, defaultTokenAddress) == TokenType.VARA
    ensures !Contains(symbol, "USD") && id != StrVal(TokenType.WethAddress) && id != StrVal(defaultTokenAddress) ==>
      Classify(symbol, id, defaultTokenAddress) == TokenType.OTHERS
  {
  }

  /** `get_prices`: the cached price map, or {} when it is missing or empty. */
  function Prices(cached: Option<Value>): (r: Value)
    ensures cached.Some? && Truthy(cached.value) ==> r == cached.value
    ensures cached.None? || !Truthy(cached.value) ==> r == DictVal([])
  {
    if cached.Some? && Truthy(cached.value) then cached.value else DictVal([])
  }

  /**
   * One pass of `process_tokens`: the token gets its price by symbol (0
   * when unlisted) and its type. None where the code raises: a token or
   * price map that is not an object, a missing or non-text symbol, or a
   * missing id when the id is consulted.
   */
  function ProcessToken(token: Value, prices: Value, defaultTokenAddress: string): (r: Option<Value>)
    ensures r.Some? ==> token.DictVal? && prices.DictVal? && r.value.DictVal?
    ensures r.Some? ==> GetKey(token, "symbol").Some? && GetKey(token, "symbol").value.StrVal?
  {
    if !token.DictVal? || !prices.DictVal? then None
    else match GetKey(token, "symbol")
      case None => None
      case Some(sym) =>
        if !sym.StrVal? then None
        else
          var symbol := sym.s;
          if symbol !in TokenType.TokenTypeDict && !Contains(symbol, "USD") && !Dicts.HasKey(token.entries, "id") then None
          else
            var priced := Dicts.Put(token.entries, "price", GetKeyOr(prices, symbol, IntVal(0)));
            Some(DictVal(Dicts.Put(priced, "type", IntVal(Classify(symbol, GetKeyOr(token, "id", NoneVal), defaultTokenAddress)))))
  }

  /**
   * A processed token (its keys distinct, as decoded JSON's are) reads back
   * the price of its symbol, 0 when unpriced, and its type; every other key
   * is as it was.
   */
  lemma ProcessTokenFacts(token: Value, prices: Value, defaultTokenAddress: string)
    requires ProcessToken(token, prices, defaultTokenAddress).Some?
    requires Dicts.DistinctKeys(token.entries)
    ensures var r := ProcessToken(token, prices, defaultTokenAddress).value;
      var symbol := GetKey(token, "symbol").value.s;
      GetKey(r, "price") == Some(GetKeyOr(prices, symbol, IntVal(0))) &&
      GetKey(r, "type") == Some(IntVal(Classify(symbol, GetKeyOr(token, "id", NoneVal), defaultTokenAddress))) &&
      (forall k :: k != "price" && k != "type" ==> GetKey(r, k) == GetKey(token, k)) &&
      Dicts.DistinctKeys(r.entries)
  {
    var symbol := GetKey(token, "symbol").value.s;
    var price := GetKeyOr(prices, symbol, IntVal(0));
    Dicts.PutFacts(token.entries, "price", price);
    var priced := Dicts.Put(token.entries, "price", price);
    Dicts.PutFacts(priced, "type", IntVal(Classify(symbol, GetKeyOr(token, "id", NoneVal), defaultTokenAddress)));
  }

  /** `process_tokens` applied to one token at a time, as a function value. */
  function Processor(prices: Value, defaultTokenAddress: string): (f: Value -> Option<Value>)
    ensures forall token :: f(token) == ProcessToken(token, prices, defaultTokenAddress)
  {
    token => ProcessToken(token, prices, defaultTokenAddress)
  }

  /** A loop over a list that stops at the first element `f` fails on: the results in order, or None. */
  function MapAll(xs: seq<Value>, f: Value -> Option<Value>): (r: Option<seq<Value>>)
    ensures r.Some? ==> |r.value| == |xs|
  {
    if xs == [] then Some([])
    else match MapAll(xs[..|xs| - 1], f)
      case None => None
      case Some(done) =>
        match f(xs[|xs| - 1])
        case None => None
        case Some(last) => Some(done + [last])
  }

  /** The loop succeeds exactly when `f` succeeds on every element, and then element by element. */
  lemma {:induction false} MapAllSpec(xs: seq<Value>, f: Value -> Option<Value>)
    ensures var r := MapAll(xs, f);
      (r.Some? <==> forall i :: 0 <= i < |xs| ==> f(xs[i]).Some?) &&
      (r.Some? ==> forall i :: 0 <= i < |xs| ==> Some(r.value[i]) == f(xs[i]))
  {
    if xs != [] {
      var init := xs[..|xs| - 1];
      MapAllSpec(init, f);
      assert forall i :: 0 <= i < |init| ==> init[i] == xs[i];
    }
  }

  /** An element `f` fails on fails the whole loop. */
  lemma MapAllFails(xs: seq<Value>, i: nat, f: Value -> Option<Value>)
    requires i < |xs| && f(xs[i]).None?
    ensures MapAll(xs, f).None?
  {
    MapAllSpec(xs, f);
  }

  /** One element of the loop replaced by its result: the loop's invariant, one index further. */
  lemma MapAllAssign(xs: seq<Value>, i: nat, f: Value -> Option<Value>, current: seq<Value>, v: Value)
    requires i < |xs| && |current| == |xs| && current[i..] == xs[i..]
    requires MapAll(xs[..i], f) == Some(current[..i]) && f(xs[i]) == Some(v)
    ensures var next := current[i := v];
      next[i + 1..] == xs[i + 1..] && MapAll(xs[..i + 1], f) == Some(next[..i + 1])
  {
    assert xs[..i + 1][..i] == xs[..i];
    var next := current[i := v];
    assert next[..i + 1] == current[..i] + [v];
    assert current[i + 1..] == current[i..][1..];
    assert xs[i + 1..] == xs[i..][1..];
  }

  /**
   * `process_tokens`: every token of the list is updated in place. On a
   * failure (ok false) the loop stopped there, leaving the remaining tokens
   * as they were.
   */
  method ProcessTokens(tokens: array<Value>, prices: Value, defaultTokenAddress: string) returns (ok: bool)
    modifies tokens
    ensures ok <==> MapAll(old(tokens[..]), Processor(prices, defaultTokenAddress)).Some?
    ensures ok ==> MapAll(old(tokens[..]), Processor(prices, defaultTokenAddress)) == Some(tokens[..])
  {
    ghost var before := tokens[..];
    ghost var f := Processor(prices, defaultTokenAddress);
    for i := 0 to tokens.Length
      invariant MapAll(before[..i], f) == Some(tokens[..i])
      invariant tokens[i..] == before[i..]
    {
      assert tokens[i] == tokens[i..][0] == before[i];
      var processed := ProcessToken(tokens[i], prices, defaultTokenAddress);
      assert processed == f(before[i]);
      if processed.None? {
        MapAllFails(before, i, f);
        return false;
      }
      ghost var current := tokens[..];
      MapAllAssign(before, i, f, current, processed.value);
      tokens[i] := processed.value;
      assert tokens[..] == current[i := processed.value];
    }
    assert before[..tokens.Length] == before;
    assert tokens[..tokens.Length] == tokens[..];
    return true;
  }

  // ----------------------------------------------------------- requests

  /** The first URL whose response has status 200, in URL order. */
  function FirstOk(urls: seq<string>, query: string, post: Post): (r: Option<Response>)
    ensures r.Some? ==> r.value.status == 200
  {
    if urls == [] then None
    else if Answered(post(urls[0], query)) then post(urls[0], query)
    else FirstOk(urls[1..], query, post)
  }

  /** The answer is the response of the first URL that answered with 200; none means no URL did. */
  lemma {:induction false} FirstOkSpec(urls: seq<string>, query: string, post: Post)
    ensures var r := FirstOk(urls, query, post);
      (r.Some? ==> exists i :: 0 <= i < |urls| && post(urls[i], query) == r &&
                     forall j :: 0 <= j < i ==> !Answered(post(urls[j], query))) &&
      (r.None? <==> forall i :: 0 <= i < |urls| ==> !Answered(post(urls[i], query)))
  {
    if urls != [] && !Answered(post(urls[0], query)) {
      var rest := FirstOk(urls[1..], query, post);
      FirstOkSpec(urls[1..], query, post);
      assert forall i :: 1 <= i < |urls| ==> urls[i] == urls[1..][i - 1];
      if rest.Some? {
        var i :| 0 <= i < |urls[1..]| && post(urls[1..][i], query) == rest &&
                 forall j :: 0 <= j < i ==> !Answered(post(urls[1..][j], query));
        assert post(urls[i + 1], query) == rest;
      }
    }
  }

  predicate Answered(response: Option<Response>) {
    response.Some? && response.value.status == 200
  }

  /** `try_subgraph`: the URLs in order, returning the first response with status 200. */
  method TrySubgraph(urls: seq<string>, query: string, post: Post) returns (r: Option<Response>)
    ensures r == FirstOk(urls, query, post)
  {
    for i := 0 to |urls|
      invariant FirstOk(urls, query, post) == FirstOk(urls[i..], query, post)
    {
      assert urls[i..][1..] == urls[i + 1..];
      var response := post(urls[i], query);
      if response.Some? && response.value.status == 200 {
        return response;
      }
    }
    return None;
  }

  // -------------------------------------------------------------- paging

  /** A query asking for one page: `skip` and the page size spliced between fixed text. */
  function PagedQuery(head: string, skip: nat, middle: string, limit: nat, tail: string): string {
    head + NatToString(skip) + middle + NatToString(limit) + tail
  }

  /** When the text after `skip` does not start with a digit, different pages get different queries. */
  lemma PagedQueryInjective(head: string, skip1: nat, skip2: nat, middle: string, limit: nat, tail: string)
    requires middle != [] && !IsDigit(middle[0])
    requires PagedQuery(head, skip1, middle, limit, tail) == PagedQuery(head, skip2, middle, limit, tail)
    ensures skip1 == skip2
  {
    var rest := middle + NatToString(limit) + tail;
    assert PagedQuery(head, skip1, middle, limit, tail) == head + (NatToString(skip1) + rest);
    assert PagedQuery(head, skip2, middle, limit, tail) == head + (NatToString(skip2) + rest);
    assert (head + (NatToString(skip1) + rest))[|head|..] == NatToString(skip1) + rest;
    assert (head + (NatToString(skip2) + rest))[|head|..] == NatToString(skip2) + rest;
    NatToStringInjective(skip1, skip2, rest, rest);
  }

  /** `{ tokens(skip: …, first: …) { id name symbol decimals } }`. */
  function TokenQuery(skip: nat, limit: nat): string {
    PagedQuery("{ tokens(skip: ", skip, ", first: ", limit, ") { id name symbol decimals } }")
  }

  /** The fields `build_pool_query` selects for each pool. */
  const PoolSelection: string :=
    "{ id token0 { id symbol decimals tokenDayData(first:7 orderBy:date orderDirection:desc){ date priceUSD } } "
    + "token1 { id symbol decimals tokenDayData(first:7 orderBy:date orderDirection:desc){ date priceUSD } } "
    + "feeTier liquidity sqrtPrice tick tickSpacing totalValueLockedUSD totalValueLockedToken0 totalValueLockedToken1 "
    + "gauge { id rewardTokens isAlive bVaraRatio } feeDistributor { id rewardTokens } "
    + "poolDayData(first:7 orderBy:date orderDirection:desc){ date feesUSD tvlUSD liquidity high low volumeToken0 volumeToken1 } }"

  /** `build_pool_query(skip, limit)`. */
  function PoolQuery(skip: nat, limit: nat): string {
    PagedQuery("{ pools(skip: ", skip, ", limit: ", limit, ") " + PoolSelection + " }")
  }

  /** Different token pages are asked for with different queries. */
  lemma TokenQueryInjective(skip1: nat, skip2: nat, limit: nat)
    requires TokenQuery(skip1, limit) == TokenQuery(skip2, limit)
    ensures skip1 == skip2
  {
    PagedQueryInjective("{ tokens(skip: ", skip1, skip2, ", first: ", limit, ") { id name symbol decimals } }");
  }

  /** Different pool pages are asked for with different queries. */
  lemma PoolQueryInjective(skip1: nat, skip2: nat, limit: nat)
    requires PoolQuery(skip1, limit) == PoolQuery(skip2, limit)
    ensures skip1 == skip2
  {
    PagedQueryInjective("{ pools(skip: ", skip1, skip2, ", limit: ", limit, ") " + PoolSelection + " }");
  }

  /**
   * `response.json().get("data", {}).get(key, [])`, then what `extend`
   * and `len` see: Some([]) for a falsy value (the loop stops), the items
   * of a list (the characters of a string, the keys of an object) otherwise,
   * None where the code raises.
   */
  function PageItems(body: Option<Value>, key: string): (r: Option<seq<Value>>)
    ensures r.Some? ==> body.Some? && body.value.DictVal?
  {
    if body.None? || !body.value.DictVal? then None
    else
      var data := GetKeyOr(body.value, "data", DictVal([]));
      if !data.DictVal? then None
      else
        var items := GetKeyOr(data, key, ListVal([]));
        if !Truthy(items) then Some([])
        else Iterate(items)
  }

  /** How a paging loop ended. */
  datatype Outcome =
    | Complete    // an empty or short page
    | Stopped     // no URL answered with status 200
    | Raised      // the body could not be read as a page
    | Unfinished  // only full pages within the number of requests allowed

  datatype Paged = Paged(outcome: Outcome, items: seq<Value>)

  /**
   * The pages from `skip` on, at most `fuel` requests: each full page
   * advances `skip` by the limit, an empty or short page ends the loop, and
   * the items are the pages concatenated in order.
   */
  function Paging(urls: seq<string>, post: Post, query: (nat, nat) -> string, key: string, skip: nat, fuel: nat): (r: Paged)
    decreases fuel
  {
    if fuel == 0 then Paged(Unfinished, [])
    else match FirstOk(urls, query(skip, Limit), post)
      case None => Paged(Stopped, [])
      case Some(response) =>
        match PageItems(response.body, key)
        case None => Paged(Raised, [])
        case Some(page) =>
          if |page| < Limit then Paged(Complete, page)
          else
            var rest := Paging(urls, post, query, key, skip + Limit, fuel - 1);
            Paged(rest.outcome, page + rest.items)
  }

  /** Once the paging has ended within `fuel` requests, allowing more requests changes nothing. */
  lemma {:induction false} PagingFuel(urls: seq<string>, post: Post, query: (nat, nat) -> string, key: string, skip: nat, fuel: nat, more: nat)
    requires Paging(urls, post, query, key, skip, fuel).outcome != Unfinished
    requires more >= fuel
    ensures Paging(urls, post, query, key, skip, more) == Paging(urls, post, query, key, skip, fuel)
    decreases fuel
  {
    var response := FirstOk(urls, query(skip, Limit), post);
    if response.Some? {
      var page := PageItems(response.value.body, key);
      if page.Some? && |page.value| >= Limit {
        PagingFuel(urls, post, query, key, skip + Limit, fuel - 1, more - 1);
      }
    }
  }

  /** The paging loop both functions run, from skip 0 with at most `fuel` requests. */
  method FetchPages(urls: seq<string>, post: Post, query: (nat, nat) -> string, key: string, fuel: nat) returns (r: Paged)
    ensures r == Paging(urls, post, query, key, 0, fuel)
  {
    ghost var whole := Paging(urls, post, query, key, 0, fuel);
    var skip: nat := 0;
    var items: seq<Value> := [];
    var left := fuel;
    while left > 0
      invariant whole.outcome == Remaining(urls, post, query, key, skip, left).outcome
      invariant whole.items == items + Remaining(urls, post, query, key, skip, left).items
      decreases left
    {
      var response := TrySubgraph(urls, query(skip, Limit), post);
      if response.None? {
        PagingStep(urls, post, query, key, skip, left);
        return Paged(Stopped, items);
      }
      var page := PageItems(response.value.body, key);
      if page.None? {
        PagingStep(urls, post, query, key, skip, left);
        return Paged(Raised, items);
      }
      if |page.value| < Limit {
        PagingStep(urls, post, query, key, skip, left);
        return Paged(Complete, items + page.value);
      }
      PagingResumes(urls, post, query, key, whole, items, skip, left, page.value);
      items := items + page.value;
      skip := skip + Limit;
      left := left - 1;
    }
    return Paged(Unfinished, items);
  }

  /** The paging still to come from `skip`, with `left` requests allowed. */
  function Remaining(urls: seq<string>, post: Post, query: (nat, nat) -> string, key: string, skip: nat, left: nat): Paged {
    Paging(urls, post, query, key, skip, left)
  }

  /** After a full page the loop resumes from the next skip with the page's items collected. */
  lemma PagingResumes(urls: seq<string>, post: Post, query: (nat, nat) -> string, key: string,
                      whole: Paged, items: seq<Value>, skip: nat, left: nat, page: seq<Value>)
    requires left > 0 && FirstOk(urls, query(skip, Limit), post).Some?
    requires PageItems(FirstOk(urls, query(skip, Limit), post).value.body, key) == Some(page) && |page| >= Limit
    requires whole.outcome == Remaining(urls, post, query, key, skip, left).outcome
    requires whole.items == items + Remaining(urls, post, query, key, skip, left).items
    ensures whole.outcome == Remaining(urls, post, query, key, skip + Limit, left - 1).outcome
    ensures whole.items == (items + page) + Remaining(urls, post, query, key, skip + Limit, left - 1).items
  {
    PagingStep(urls, post, query, key, skip, left);
  }

  /** One request of the paging: how its answer decides the outcome and the items. */
  lemma PagingStep(urls: seq<string>, post: Post, query: (nat, nat) -> string, key: string, skip: nat, left: nat)
    requires left > 0
    ensures var here := Paging(urls, post, query, key, skip, left);
      var response := FirstOk(urls, query(skip, Limit), post);
      if response.None? then here == Paged(Stopped, [])
      else match PageItems(response.value.body, key)
        case None => here == Paged(Raised, [])
        case Some(page) =>
          if |page| < Limit then here == Paged(Complete, page)
          else
            var rest := Paging(urls, post, query, key, skip + Limit, left - 1);
            here.outcome == rest.outcome && here.items == page + rest.items
  {
  }

  /** The subgraph's paging ends within `fuel` requests (the loops have no bound of their own). */
  predicate Ends(urls: seq<string>, post: Post, query: (nat, nat) -> string, key: string, fuel: nat) {
    Paging(urls, post, query, key, 0, fuel).outcome != Unfinished
  }

  // ------------------------------------------------------------ the entry points

  /** `load_cached_tokens` and `load_cached_pools`: the cached JSON, or [] without one. */
  function LoadCached(cached: Option<Value>): (r: Value)
    ensures cached.None? ==> r == ListVal([])
    ensures cached.Some? ==> r == cached.value
  {
    if cached.Some? then cached.value else ListVal([])
  }

  /**
   * `get_cl_subgraph_tokens`: the processed pages, also cached; the cached
   * tokens (unprocessed) when a page gets no answer. None where it raises.
   */
  method GetClSubgraphTokens(urls: seq<string>, post: Post, cache: SubgraphCache, defaultTokenAddress: string, fuel: nat)
    returns (r: Option<Value>)
    requires Ends(urls, post, TokenQuery, "tokens", fuel)
    modifies cache`tokens
    ensures var paged := Paging(urls, post, TokenQuery, "tokens", 0, fuel);
      var processed := MapAll(paged.items, Processor(Prices(cache.prices), defaultTokenAddress));
      if paged.outcome == Complete && processed.Some? then
        r == Some(ListVal(processed.value)) && cache.tokens == r
      else
        cache.tokens == old(cache.tokens) &&
        r == (if paged.outcome == Stopped then Some(LoadCached(old(cache.tokens))) else None)
  {
    var paged := FetchPages(urls, post, TokenQuery, "tokens", fuel);
    if paged.outcome == Stopped {
      return Some(LoadCached(cache.tokens));
    }
    if paged.outcome != Complete {
      return None;
    }
    var tokens := new Value[|paged.items|](i requires 0 <= i < |paged.items| => paged.items[i]);
    assert tokens[..] == paged.items;
    var ok := ProcessTokens(tokens, Prices(cache.prices), defaultTokenAddress);
    if !ok {
      return None;
    }
    r := Some(ListVal(tokens[..]));
    cache.tokens := r;
  }

  /**
   * `get_cl_subgraph_pools`: the pages fetched before the first failure,
   * also cached; the cached pools, or [], when nothing was fetched.
   */
  method GetClSubgraphPools(urls: seq<string>, post: Post, cache: SubgraphCache, fuel: nat) returns (r: Value)
    requires Ends(urls, post, PoolQuery, "pools", fuel)
    modifies cache`pools
    ensures var paged := Paging(urls, post, PoolQuery, "pools", 0, fuel);
      (paged.items != [] ==> r == ListVal(paged.items) && cache.pools == Some(r)) &&
      (paged.items == [] ==> r == LoadCached(old(cache.pools)) && cache.pools == old(cache.pools))
  {
    var paged := FetchPages(urls, post, PoolQuery, "pools", fuel);
    if paged.items == [] {
      // ValueError("No pools fetched from subgraph"), caught
      return LoadCached(cache.pools);
    }
    r := ListVal(paged.items);
    cache.pools := Some(r);
  }
}
