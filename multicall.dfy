/**
 * Multicall results as the pipeline consumes them: each call is named by a
 * composite key `"<address>-<token>"`, the results come back as a dict in
 * call order (a repeated key keeps its first position and its last value),
 * and a loop handles them one by one.
 */
module Multicall {
  import opened Wrappers
  import opened Strings

  /** `f"{address}-{token_address}"`: the key a multicall result is returned under. */
  function Key(owner: string, token: string): string {
    owner + "-" + token
  }

  /** A key splits back into its owner and token when neither contains "-". */
  lemma KeySplit(owner: string, token: string)
    requires '-' !in owner && '-' !in token
    ensures Split(Key(owner, token), '-') == [owner, token]
  {
    assert Key(owner, token) == owner + ['-'] + token;
    SplitJoin(owner, token, '-');
  }

  /** Keys of names without "-" are equal only for the same owner and token. */
  lemma KeyInjective(owner: string, token: string, owner': string, token': string)
    requires '-' !in owner && '-' !in token && '-' !in owner' && '-' !in token'
    ensures Key(owner, token) == Key(owner', token') ==> owner == owner' && token == token'
  {
    KeySplit(owner, token);
    KeySplit(owner', token');
  }

  /** The calls of one contract: a key and the value read for each token, in order. */
  function KeyedCalls(owner: string, tokens: seq<string>, read: string -> nat): (r: seq<(string, nat)>)
    ensures |r| == |tokens|
    ensures forall i :: 0 <= i < |tokens| ==> r[i] == (Key(owner, tokens[i]), read(tokens[i]))
  {
    seq(|tokens|, i requires 0 <= i < |tokens| => (Key(owner, tokens[i]), read(tokens[i])))
  }

  /** The results of a multicall (key and value) handled in order by `step`, raising where a step raises. */
  function ApplyAll<S>(s: S, results: seq<(string, nat)>, step: (S, string, nat) -> Option<S>): Option<S> {
    if results == [] then Some(s)
    else match ApplyAll(s, results[..|results| - 1], step)
      case None => None
      case Some(done) => step(done, results[|results| - 1].0, results[|results| - 1].1)
  }

  /** Once a prefix of the results raises, so does the whole loop. */
  lemma {:induction false} ApplyAllFails<S>(s: S, results: seq<(string, nat)>, n: nat, step: (S, string, nat) -> Option<S>)
    requires n <= |results| && ApplyAll(s, results[..n], step).None?
    ensures ApplyAll(s, results, step).None?
    decreases |results| - n
  {
    if n < |results| {
      assert results[..n + 1][..n] == results[..n];
      ApplyAllFails(s, results, n + 1, step);
    } else {
      assert results[..n] == results;
    }
  }
}
