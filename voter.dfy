/**
 * The total of gauge votes over the serialized pairs (app/voter/model.py):
 * a sum over the pairs whose gauge reports votes, with 10 returned when
 * anything in the computation raises.
 */
module Voter {
  import opened Wrappers
  import opened PyValues

  /** The value returned when the computation raises. */
  const Fallback: real := 10.0

  /** What one pair adds to the sum. */
  datatype Contribution = Skipped | Votes(votes: Value) | Raises

  /** `pair['gauge']` when the pair is an object with that key. */
  function Gauge(pair: Value): Option<Value>
    requires pair.DictVal?
  {
    GetKey(pair, "gauge")
  }

  /**
   * `'gauge' in pair and 'votes' in pair['gauge']`, then `pair['gauge']['votes']`.
   * Pairs and gauges are objects; any other value makes the test raise.
   */
  function ContributionOf(pair: Value): (r: Contribution)
    ensures r.Votes? ==>
      pair.DictVal? && Gauge(pair).Some? && Gauge(pair).value.DictVal? &&
      GetKey(Gauge(pair).value, "votes") == Some(r.votes)
    ensures (pair.DictVal? && Gauge(pair).Some? && Gauge(pair).value.DictVal? &&
             GetKey(Gauge(pair).value, "votes").Some?) ==> r.Votes?
    ensures r.Skipped? <==>
      pair.DictVal? && (Gauge(pair).None? || (Gauge(pair).value.DictVal? && GetKey(Gauge(pair).value, "votes").None?))
  {
    if !pair.DictVal? then Raises
    else match GetKey(pair, "gauge")
      case None => Skipped
      case Some(gauge) =>
        if !gauge.DictVal? then Raises
        else match GetKey(gauge, "votes")
          case None => Skipped
          case Some(votes) => Votes(votes)
  }

  /** Whether a pair makes the sum raise: its test raises or `float(votes)` does. */
  predicate RaisesOn(pair: Value, parseFloat: string -> Option<real>) {
    var c := ContributionOf(pair);
    c.Raises? || (c.Votes? && Float(c.votes, parseFloat).None?)
  }

  /** What a pair that does not raise adds to the sum. */
  function Added(pair: Value, parseFloat: string -> Option<real>): real
    requires !RaisesOn(pair, parseFloat)
  {
    var c := ContributionOf(pair);
    if c.Votes? then Float(c.votes, parseFloat).value else 0.0
  }

  /**
   * `sum(float(pair['gauge']['votes']) for pair in pairs if ...)`, the total
   * the function is meant to compute; None when some pair raises.
   */
  function IntendedTotal(pairs: seq<Value>, parseFloat: string -> Option<real>): (r: Option<real>)
    ensures r.None? <==> exists i :: 0 <= i < |pairs| && RaisesOn(pairs[i], parseFloat)
  {
    if pairs == [] then Some(0.0)
    else
      var prev := pairs[..|pairs| - 1];
      var last := pairs[|pairs| - 1];
      assert forall i :: 0 <= i < |prev| ==> prev[i] == pairs[i];
      match IntendedTotal(prev, parseFloat)
      case None => None
      case Some(t) => if RaisesOn(last, parseFloat) then None else Some(t + Added(last, parseFloat))
  }

  /**
   * `calc_total_votes` as evidently intended: the pairs it sums are the
   * serialized pairs, and any exception gives the fallback 10.
   */
  function CalcTotalVotes(pairs: seq<Value>, parseFloat: string -> Option<real>): (r: real)
    ensures (exists i :: 0 <= i < |pairs| && RaisesOn(pairs[i], parseFloat)) ==> r == Fallback
    ensures (forall i :: 0 <= i < |pairs| ==> !RaisesOn(pairs[i], parseFloat)) ==>
      Some(r) == IntendedTotal(pairs, parseFloat)
  {
    IntendedTotal(pairs, parseFloat).GetOr(Fallback)
  }

  /**
   * `calc_total_votes` as written: the serialized pairs are only annotated
   * onto a name (`pairs_data: ...`), so reading `pairs` raises NameError
   * whatever the pairs are, and the handler returns the fallback.
   */
  function CalcTotalVotesAsWritten(pairs: seq<Value>, parseFloat: string -> Option<real>): (r: real)
    ensures r == Fallback
  {
    var bound: Option<seq<Value>> := None;   // the name `pairs` is never assigned
    match bound
    case None => Fallback
    case Some(ps) => CalcTotalVotes(ps, parseFloat)
  }

  /** One pair whose gauge has 5 votes: the intended total is 5, the shipped function returns 10. */
  lemma AsWrittenIgnoresVotes(parseFloat: string -> Option<real>)
    ensures var pairs := [DictVal([("gauge", DictVal([("votes", IntVal(5))]))])];
      CalcTotalVotes(pairs, parseFloat) == 5.0 && CalcTotalVotesAsWritten(pairs, parseFloat) == 10.0
  {
    var pairs := [DictVal([("gauge", DictVal([("votes", IntVal(5))]))])];
    assert ContributionOf(pairs[0]) == Votes(IntVal(5));
    assert pairs[..0] == [];
  }

  /** The total over two runs of pairs is the sum of their totals (or raises if either does). */
  lemma {:induction false} IntendedTotalAppend(a: seq<Value>, b: seq<Value>, parseFloat: string -> Option<real>)
    ensures IntendedTotal(a + b, parseFloat) ==
      match (IntendedTotal(a, parseFloat), IntendedTotal(b, parseFloat))
      case (Some(x), Some(y)) => Some(x + y)
      case _ => None
    decreases |b|
  {
    if b == [] {
      assert a + b == a;
    } else {
      var prev := b[..|b| - 1];
      assert (a + b)[..|a + b| - 1] == a + prev;
      assert (a + b)[|a + b| - 1] == b[|b| - 1];
      IntendedTotalAppend(a, prev, parseFloat);
    }
  }

  /** Pairs without a gauge, or whose gauge has no votes, add nothing to the total. */
  lemma SkippedPairAddsNothing(pairs: seq<Value>, pair: Value, parseFloat: string -> Option<real>)
    requires ContributionOf(pair).Skipped?
    ensures IntendedTotal(pairs + [pair], parseFloat) == IntendedTotal(pairs, parseFloat)
  {
    assert (pairs + [pair])[..|pairs|] == pairs;
  }

  /** A total of votes that are all non-negative numbers is non-negative. */
  lemma {:induction false} IntendedTotalNonNegative(pairs: seq<Value>, parseFloat: string -> Option<real>)
    requires forall i :: 0 <= i < |pairs| && ContributionOf(pairs[i]).Votes? && Float(ContributionOf(pairs[i]).votes, parseFloat).Some? ==>
      Float(ContributionOf(pairs[i]).votes, parseFloat).value >= 0.0
    ensures IntendedTotal(pairs, parseFloat).Some? ==> IntendedTotal(pairs, parseFloat).value >= 0.0
  {
    if pairs != [] {
      var prev := pairs[..|pairs| - 1];
      assert forall i :: 0 <= i < |prev| ==> prev[i] == pairs[i];
      IntendedTotalNonNegative(prev, parseFloat);
    }
  }
}
