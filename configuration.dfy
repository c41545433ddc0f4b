/**
 * The app configuration (app/configuration/__init__.py): the traded volume
 * summed over dexscreener replies for the pair addresses, requested in at
 * most 30 groups, and the total TVL and best APR over the pairs.
 */
module Configuration {
  import opened Wrappers
  import opened Strings
  import opened PyValues
  import Dicts

  const DexscreenerEndpoint: string := "https://api.dexscreener.com/latest/dex/pairs/kava/"

  /** The addresses are requested in at most this many groups. */
  const MaxGroups: nat := 30

  // --------------------------------------------------------------- grouping

  /** `max(1, math.ceil(n / 30))`: the smallest group size that needs at most 30 groups. */
  function SubgroupSize(n: nat): (r: nat)
    ensures r >= 1 && r * MaxGroups >= n
    ensures n > 0 ==> (r - 1) * MaxGroups < n
  {
    var c := (n + MaxGroups - 1) / MaxGroups;
    if c < 1 then 1 else c
  }

  /** The groups joined back together. */
  function Flatten(groups: seq<seq<string>>): seq<string> {
    if groups == [] then [] else groups[0] + Flatten(groups[1..])
  }

  /** `[a[i:i + size] for i in range(0, len(a), size)]`. */
  function Chunks(a: seq<string>, size: nat): (r: seq<seq<string>>)
    requires size >= 1
    ensures forall k :: 0 <= k < |r| ==> 0 < |r[k]| <= size
    ensures r == [] <==> a == []
    decreases |a|
  {
    if a == [] then []
    else if |a| <= size then [a]
    else
      [a[..size]] + Chunks(a[size..], size)
  }

  /** Joining the chunks back together gives the addresses again. */
  lemma {:induction false} ChunksFlatten(a: seq<string>, size: nat)
    requires size >= 1
    ensures Flatten(Chunks(a, size)) == a
    decreases |a|
  {
    if |a| > size {
      var rest := Chunks(a[size..], size);
      ChunksFlatten(a[size..], size);
      assert ([a[..size]] + rest)[1..] == rest;
      assert a[..size] + a[size..] == a;
    }
  }

  /** The number of chunks is `len(a) / size` rounded up. */
  lemma {:induction false} ChunkCount(a: seq<string>, size: nat)
    requires size >= 1 && a != []
    ensures (|Chunks(a, size)| - 1) * size < |a| <= |Chunks(a, size)| * size
    decreases |a|
  {
    if |a| > size {
      var rest := Chunks(a[size..], size);
      ChunkCount(a[size..], size);
      assert |Chunks(a, size)| == |rest| + 1;
      assert (|rest| + 1) * size == |rest| * size + size;
      assert |rest| * size == (|rest| - 1) * size + size;
    }
  }

  /** Group k of the chunks is the slice the comprehension takes from `k * size`. */
  lemma ChunkSlices(a: seq<string>, size: nat, k: nat, lo: nat, hi: nat)
    requires size >= 1 && k < |Chunks(a, size)|
    requires lo == k * size && hi == (if lo + size <= |a| then lo + size else |a|)
    ensures lo < |a| && Chunks(a, size)[k] == a[lo..hi]
  {
    OffsetIsProduct(k, size);
    ChunkSlicesFrom(a, size, k);
  }

  /** Group k of the chunks. */
  function Chunk(a: seq<string>, size: nat, k: nat): seq<string>
    requires size >= 1 && k < |Chunks(a, size)|
  {
    Chunks(a, size)[k]
  }

  /** `k * size`, counted up one chunk at a time. */
  function Offset(k: nat, size: nat): nat {
    if k == 0 then 0 else Offset(k - 1, size) + size
  }

  lemma {:induction false} OffsetIsProduct(k: nat, size: nat)
    ensures Offset(k, size) == k * size
  {
    if k > 0 {
      OffsetIsProduct(k - 1, size);
      MulPred(k, size);
    }
  }

  /** The end of the slice that starts at `lo`: `size` on, or the end of `a`. */
  function SliceEnd(lo: nat, size: nat, n: nat): nat {
    if lo + size <= n then lo + size else n
  }

  /** `ChunkSlices` with the offset counted up rather than multiplied. */
  lemma {:induction false} ChunkSlicesFrom(a: seq<string>, size: nat, k: nat)
    requires size >= 1 && k < |Chunks(a, size)|
    ensures Offset(k, size) < |a| && Chunk(a, size, k) == a[Offset(k, size)..SliceEnd(Offset(k, size), size, |a|)]
    decreases |a|
  {
    if k == 0 {
      ChunksHead(a, size);
    } else {
      ChunksTail(a, size, k);
      ChunkSlicesFrom(a[size..], size, k - 1);
      ChunkShift(a, size, k);
    }
  }

  lemma ChunkShift(a: seq<string>, size: nat, k: nat)
    requires size >= 1 && 0 < k && size < |a|
    requires Offset(k - 1, size) < |a[size..]|
    ensures Offset(k, size) < |a|
    ensures a[size..][Offset(k - 1, size)..SliceEnd(Offset(k - 1, size), size, |a[size..]|)]
         == a[Offset(k, size)..SliceEnd(Offset(k, size), size, |a|)]
  {
    var lo := Offset(k - 1, size);
    SliceShift(a, size, lo, SliceEnd(lo, size, |a| - size), lo + size, SliceEnd(lo + size, size, |a|));
  }

  /** The first chunk is the first `size` items, or all of them when fewer. */
  lemma ChunksHead(a: seq<string>, size: nat)
    requires size >= 1 && Chunks(a, size) != []
    ensures a != [] && Chunk(a, size, 0) == a[0..SliceEnd(0, size, |a|)]
  {
    assert a[0..SliceEnd(0, size, |a|)] == a[..SliceEnd(0, size, |a|)];
  }

  /** Past the first, the chunks are those of the rest after the first `size` items. */
  lemma ChunksTail(a: seq<string>, size: nat, k: nat)
    requires size >= 1 && 0 < k < |Chunks(a, size)|
    ensures |a| > size && k - 1 < |Chunks(a[size..], size)|
    ensures Chunk(a, size, k) == Chunk(a[size..], size, k - 1)
  {
  }

  /** A slice of the tail is the slice of the whole shifted by the dropped prefix. */
  lemma SliceShift(a: seq<string>, size: nat, lo: nat, hi: nat, shiftedLo: nat, shiftedHi: nat)
    requires size <= |a| && lo <= hi <= |a| - size
    requires shiftedLo == lo + size && shiftedHi == hi + size
    ensures a[size..][lo..hi] == a[shiftedLo..shiftedHi]
  {
  }

  /** `k * size` is `size` more than `(k - 1) * size`. */
  lemma MulPred(k: nat, size: nat)
    requires k > 0
    ensures k * size == (k - 1) * size + size
  {
  }

  /** A product below another with the same positive factor has the smaller other factor. */
  lemma MulLess(x: int, y: int, s: int)
    requires s > 0 && x * s < y * s
    ensures x < y
  {
  }

  /** The pair addresses are requested in at most 30 groups. */
  lemma AtMostThirtyGroups(addresses: seq<string>)
    ensures |Chunks(addresses, SubgroupSize(|addresses|))| <= MaxGroups
  {
    var size := SubgroupSize(|addresses|);
    var groups := Chunks(addresses, size);
    if addresses != [] {
      ChunkCount(addresses, size);
      assert (|groups| - 1) * size < size * MaxGroups;
      MulLess(|groups| - 1, MaxGroups, size);
    }
  }

  // ---------------------------------------------------------------- volumes

  /** The four volume windows. */
  datatype Volumes = Volumes(m5: real, h1: real, h6: real, h24: real)

  const NoVolume: Volumes := Volumes(0.0, 0.0, 0.0, 0.0)

  function Add(a: Volumes, b: Volumes): Volumes {
    Volumes(a.m5 + b.m5, a.h1 + b.h1, a.h6 + b.h6, a.h24 + b.h24)
  }

  /**
   * `p["volume"].get(window, 0)` for one pair of a reply: the pair must be
   * an object with a "volume" object, and the value a number to be summed.
   */
  function PairVolume(p: Value, window: string): (r: Option<real>)
    ensures r.Some? ==> p.DictVal? && GetKey(p, "volume").Some? && GetKey(p, "volume").value.DictVal?
    ensures p.DictVal? && GetKey(p, "volume").Some? && GetKey(p, "volume").value.DictVal? ==>
      r == AsNumber(GetKeyOr(GetKey(p, "volume").value, window, IntVal(0)))
    ensures (p.DictVal? && GetKey(p, "volume").Some? && GetKey(p, "volume").value.DictVal? &&
             !Dicts.HasKey(GetKey(p, "volume").value.entries, window)) ==> r == Some(0.0)
  {
    if !p.DictVal? then None
    else match GetKey(p, "volume")
      case None => None
      case Some(volume) => if volume.DictVal? then AsNumber(GetKeyOr(volume, window, IntVal(0))) else None
  }

  /** `x + y` where either side may already have raised. */
  function AddOpt(x: Option<real>, y: Option<real>): Option<real> {
    if x.Some? && y.Some? then Some(x.value + y.value) else None
  }

  lemma AddOptAssociates(x: Option<real>, y: Option<real>, z: Option<real>)
    ensures AddOpt(AddOpt(x, y), z) == AddOpt(x, AddOpt(y, z))
  {
  }

  /** `sum(p["volume"].get(window, 0) for p in pairs_data)`; None where a pair raises. */
  function WindowSum(pairs: seq<Value>, window: string): Option<real> {
    if pairs == [] then Some(0.0)
    else AddOpt(WindowSum(pairs[..|pairs| - 1], window), PairVolume(pairs[|pairs| - 1], window))
  }

  /** The sum raises exactly when some pair does. */
  lemma {:induction false} WindowSumRaises(pairs: seq<Value>, window: string)
    ensures WindowSum(pairs, window).None? <==> exists i :: 0 <= i < |pairs| && PairVolume(pairs[i], window).None?
    decreases |pairs|
  {
    if pairs != [] {
      var prev := pairs[..|pairs| - 1];
      WindowSumRaises(prev, window);
      assert forall i :: 0 <= i < |prev| ==> prev[i] == pairs[i];
      if PairVolume(pairs[|pairs| - 1], window).Some? && exists i :: 0 <= i < |pairs| && PairVolume(pairs[i], window).None? {
        var i :| 0 <= i < |pairs| && PairVolume(pairs[i], window).None?;
        assert i < |prev|;
      }
    }
  }

  /** The sum over two runs of pairs is the sum of their sums. */
  lemma {:induction false} WindowSumAppend(a: seq<Value>, b: seq<Value>, window: string)
    ensures WindowSum(a + b, window) == AddOpt(WindowSum(a, window), WindowSum(b, window))
    decreases |b|
  {
    if b == [] {
      assert a + b == a;
    } else {
      var prev, last := b[..|b| - 1], b[|b| - 1];
      assert (a + b)[..|a + b| - 1] == a + prev;
      assert (a + b)[|a + b| - 1] == last;
      WindowSumAppend(a, prev, window);
      AddOptAssociates(WindowSum(a, window), WindowSum(prev, window), PairVolume(last, window));
    }
  }

  /** What one group's request adds. */
  datatype Outcome = Skipped | Counted(volumes: Volumes) | Raised

  /**
   * One group: a failed request (RequestException, None) is skipped, as is
   * a reply without "pairs" or with None there; otherwise the four window
   * sums are added, and anything that raises on the way ends the whole
   * computation.
   */
  function GroupOutcome(reply: Option<Value>): (r: Outcome)
    ensures reply.None? ==> r == Skipped
    ensures reply.Some? && reply.value.DictVal? && !Dicts.HasKey(reply.value.entries, "pairs") ==> r == Skipped
    ensures reply.Some? && reply.value.DictVal? && GetKey(reply.value, "pairs") == Some(NoneVal) ==> r == Skipped
    ensures reply.Some? && reply.value.DictVal? && GetKey(reply.value, "pairs") == Some(ListVal([])) ==> r == Counted(NoVolume)
    ensures r.Counted? ==>
      (reply.Some? && reply.value.DictVal? && GetKey(reply.value, "pairs").Some? &&
       var pairs := Iterate(GetKey(reply.value, "pairs").value);
       pairs.Some? &&
       Some(r.volumes.m5) == WindowSum(pairs.value, "m5") && Some(r.volumes.h1) == WindowSum(pairs.value, "h1") &&
       Some(r.volumes.h6) == WindowSum(pairs.value, "h6") && Some(r.volumes.h24) == WindowSum(pairs.value, "h24"))
  {
    match reply
    case None => Skipped
    case Some(json) =>
      match json
      case DictVal(_) =>
        (match GetKey(json, "pairs")
         case None => Skipped
         case Some(NoneVal) => Skipped
         case Some(pairsData) =>
           match Iterate(pairsData)
           case None => Raised
           case Some(pairs) =>
             match (WindowSum(pairs, "m5"), WindowSum(pairs, "h1"), WindowSum(pairs, "h6"), WindowSum(pairs, "h24"))
             case (Some(m5), Some(h1), Some(h6), Some(h24)) => Counted(Volumes(m5, h1, h6, h24))
             case _ => Raised)
      // `"pairs" in` a list is membership, in a string a substring test; indexing either then raises
      case ListVal(items) => if StrVal("pairs") in items then Raised else Skipped
      case StrVal(s) => if Contains(s, "pairs") then Raised else Skipped
      case _ => Raised
  }

  /** `f"{DEXSCREENER_ENDPOINT},{','.join(group)}"`. */
  function GroupUrl(group: seq<string>): string {
    DexscreenerEndpoint + "," + JoinComma(group)
  }

  function JoinComma(parts: seq<string>): string {
    if parts == [] then "" else if |parts| == 1 then parts[0] else parts[0] + "," + JoinComma(parts[1..])
  }

  /** The running totals after one more group's outcome; None stays None. */
  function Next(total: Option<Volumes>, o: Outcome): Option<Volumes> {
    match total
    case None => None
    case Some(v) =>
      match o
      case Skipped => Some(v)
      case Counted(w) => Some(Add(v, w))
      case Raised => None
  }

  /** The totals over a run of group outcomes, in order. */
  function Total(outcomes: seq<Outcome>): Option<Volumes> {
    if outcomes == [] then Some(NoVolume)
    else Next(Total(outcomes[..|outcomes| - 1]), outcomes[|outcomes| - 1])
  }

  /** Each group's outcome, in order. */
  function Outcomes(groups: seq<seq<string>>, fetch: string -> Option<Value>): (r: seq<Outcome>)
    ensures |r| == |groups|
  {
    if groups == [] then []
    else Outcomes(groups[..|groups| - 1], fetch) + [GroupOutcome(fetch(GroupUrl(groups[|groups| - 1])))]
  }

  /** Outcome i is what group i's request gives. */
  lemma {:induction false} OutcomeAt(groups: seq<seq<string>>, fetch: string -> Option<Value>, i: nat)
    requires i < |groups|
    ensures Outcomes(groups, fetch)[i] == GroupOutcome(fetch(GroupUrl(groups[i])))
    decreases |groups|
  {
    if i < |groups| - 1 {
      var prev := groups[..|groups| - 1];
      OutcomeAt(prev, fetch, i);
      assert prev[i] == groups[i];
    }
  }

  /** The outcomes of a prefix of the groups are a prefix of the outcomes. */
  lemma {:induction false} OutcomesPrefix(groups: seq<seq<string>>, fetch: string -> Option<Value>, n: nat)
    requires n <= |groups|
    ensures Outcomes(groups[..n], fetch) == Outcomes(groups, fetch)[..n]
    decreases |groups|
  {
    if n < |groups| {
      var prev := groups[..|groups| - 1];
      OutcomesPrefix(prev, fetch, n);
      assert prev[..n] == groups[..n];
    } else {
      assert groups[..n] == groups;
    }
  }

  /** The volumes over the groups in order; None once a group raises. */
  function VolumeSpec(groups: seq<seq<string>>, fetch: string -> Option<Value>): Option<Volumes> {
    Total(Outcomes(groups, fetch))
  }

  /** One more outcome of the run. */
  lemma TotalStep(outcomes: seq<Outcome>, i: nat)
    requires i < |outcomes|
    ensures Total(outcomes[..i + 1]) == Next(Total(outcomes[..i]), outcomes[i])
  {
    assert outcomes[..i + 1][..i] == outcomes[..i];
  }

  /** Once a prefix of the outcomes raises, so does the whole run. */
  lemma {:induction false} TotalFails(outcomes: seq<Outcome>, n: nat)
    requires n <= |outcomes| && Total(outcomes[..n]).None?
    ensures Total(outcomes).None?
    decreases |outcomes| - n
  {
    if n < |outcomes| {
      TotalStep(outcomes, n);
      TotalFails(outcomes, n + 1);
    } else {
      assert outcomes[..n] == outcomes;
    }
  }

  /** The totals after one more outcome at the end. */
  lemma TotalSnoc(s: seq<Outcome>, o: Outcome)
    ensures Total(s + [o]) == Next(Total(s), o)
  {
    assert (s + [o])[..|s|] == s;
  }

  /** The totals over two runs of outcomes are the sum of their totals. */
  lemma {:induction false} TotalAppend(a: seq<Outcome>, b: seq<Outcome>)
    ensures Total(a + b) ==
      match (Total(a), Total(b))
      case (Some(x), Some(y)) => Some(Add(x, y))
      case _ => None
    decreases |b|
  {
    if b == [] {
      assert a + b == a;
    } else {
      var prev, last := b[..|b| - 1], b[|b| - 1];
      assert b == prev + [last];
      assert a + b == (a + prev) + [last];
      TotalAppend(a, prev);
      TotalSnoc(a + prev, last);
      TotalSnoc(prev, last);
      if Total(a).Some? && Total(prev).Some? && last.Counted? {
        AddAssociates(Total(a).value, Total(prev).value, last.volumes);
      }
    }
  }

  lemma AddAssociates(x: Volumes, y: Volumes, w: Volumes)
    ensures Add(Add(x, y), w) == Add(x, Add(y, w))
  {
  }

  lemma {:induction false} OutcomesAppend(a: seq<seq<string>>, b: seq<seq<string>>, fetch: string -> Option<Value>)
    ensures Outcomes(a + b, fetch) == Outcomes(a, fetch) + Outcomes(b, fetch)
    decreases |b|
  {
    if b == [] {
      assert a + b == a;
    } else {
      var prev := b[..|b| - 1];
      assert (a + b)[..|a + b| - 1] == a + prev;
      assert (a + b)[|a + b| - 1] == b[|b| - 1];
      OutcomesAppend(a, prev, fetch);
    }
  }

  /** The volumes over two runs of groups are the sum of their volumes. */
  lemma VolumeSpecAppend(a: seq<seq<string>>, b: seq<seq<string>>, fetch: string -> Option<Value>)
    ensures VolumeSpec(a + b, fetch) ==
      match (VolumeSpec(a, fetch), VolumeSpec(b, fetch))
      case (Some(x), Some(y)) => Some(Add(x, y))
      case _ => None
  {
    OutcomesAppend(a, b, fetch);
    TotalAppend(Outcomes(a, fetch), Outcomes(b, fetch));
  }

  /** A group whose request fails, or whose reply has no pairs, adds nothing. */
  lemma SkippedGroupAddsNothing(groups: seq<seq<string>>, group: seq<string>, fetch: string -> Option<Value>)
    requires GroupOutcome(fetch(GroupUrl(group))).Skipped?
    ensures VolumeSpec(groups + [group], fetch) == VolumeSpec(groups, fetch)
  {
    OutcomesAppend(groups, [group], fetch);
    var outcomes := Outcomes(groups + [group], fetch);
    TotalStep(outcomes, |groups|);
    assert outcomes[..|groups|] == Outcomes(groups, fetch);
    assert outcomes[..|groups| + 1] == outcomes;
  }

  /** Once a prefix of the groups raises, so does the whole loop. */
  lemma VolumeSpecFails(groups: seq<seq<string>>, n: nat, fetch: string -> Option<Value>)
    requires n <= |groups| && VolumeSpec(groups[..n], fetch).None?
    ensures VolumeSpec(groups, fetch).None?
  {
    OutcomesPrefix(groups, fetch, n);
    TotalFails(Outcomes(groups, fetch), n);
  }

  /** The result: no pairs gives the four fields as None, otherwise their totals. */
  datatype VolumeData = Unavailable | Totals(volumes: Volumes)

  /** `dexscreener_volume_data`; None where it raises. */
  method DexscreenerVolumeData(addresses: seq<string>, fetch: string -> Option<Value>) returns (r: Option<VolumeData>)
    ensures addresses == [] ==> r == Some(Unavailable)
    ensures addresses != [] ==>
      r == match VolumeSpec(Chunks(addresses, SubgroupSize(|addresses|)), fetch)
           case None => None
           case Some(v) => Some(Totals(v))
  {
    if addresses == [] {
      return Some(Unavailable);
    }
    var size := SubgroupSize(|addresses|);
    var groups := Chunks(addresses, size);
    var totals := SumGroups(groups, fetch);
    r := match totals case None => None case Some(v) => Some(Totals(v));
  }

  /** One group's request and what it adds: outcome i of the run. */
  method FetchGroup(groups: seq<seq<string>>, fetch: string -> Option<Value>, i: nat) returns (o: Outcome)
    requires i < |groups|
    ensures o == Outcomes(groups, fetch)[i]
  {
    OutcomeAt(groups, fetch, i);
    o := GroupOutcome(fetch(GroupUrl(groups[i])));
  }

  /** A counted group adds its four sums to the running totals. */
  lemma CountedStep(outcomes: seq<Outcome>, i: nat, m5: real, h1: real, h6: real, h24: real)
    requires i < |outcomes| && outcomes[i].Counted?
    requires Total(outcomes[..i]) == Some(Volumes(m5, h1, h6, h24))
    ensures var w := outcomes[i].volumes;
      Total(outcomes[..i + 1]) == Some(Volumes(m5 + w.m5, h1 + w.h1, h6 + w.h6, h24 + w.h24))
  {
    TotalStep(outcomes, i);
  }

  /** A skipped group leaves the running totals as they are. */
  lemma SkippedStep(outcomes: seq<Outcome>, i: nat)
    requires i < |outcomes| && outcomes[i].Skipped? && Total(outcomes[..i]).Some?
    ensures Total(outcomes[..i + 1]) == Total(outcomes[..i])
  {
    TotalStep(outcomes, i);
  }

  /** A group that raises ends the run with None. */
  lemma RaisedStep(outcomes: seq<Outcome>, i: nat)
    requires i < |outcomes| && outcomes[i].Raised?
    ensures Total(outcomes).None?
  {
    TotalStep(outcomes, i);
    TotalFails(outcomes, i + 1);
  }

  /** The loop over the groups, with its four running totals. */
  method SumGroups(groups: seq<seq<string>>, fetch: string -> Option<Value>) returns (r: Option<Volumes>)
    ensures r == VolumeSpec(groups, fetch)
  {
    ghost var outcomes := Outcomes(groups, fetch);
    var m5, h1, h6, h24 := 0.0, 0.0, 0.0, 0.0;
    var i := 0;
    while i < |groups|
      invariant 0 <= i <= |groups|
      invariant Total(outcomes[..i]) == Some(Volumes(m5, h1, h6, h24))
    {
      var outcome := FetchGroup(groups, fetch, i);
      match outcome {
        case Raised =>
          RaisedStep(outcomes, i);
          return None;
        case Counted(w) =>
          CountedStep(outcomes, i, m5, h1, h6, h24);
          m5, h1, h6, h24 := m5 + w.m5, h1 + w.h1, h6 + w.h6, h24 + w.h24;
        case Skipped =>
          SkippedStep(outcomes, i);
      }
      i := i + 1;
    }
    assert outcomes[..i] == outcomes;
    return Some(Volumes(m5, h1, h6, h24));
  }

  // --------------------------------------------------------- tvl and max apr

  /** The two figures `on_get` reads from each pair; None where the field holds None. */
  datatype PairFigures = PairFigures(tvl: Option<real>, apr: Option<real>)

  predicate Truthy(x: Option<real>) {
    x.Some? && x.value != 0.0
  }

  /** `sum(pair.tvl for pair in all_pairs if pair.tvl)`. */
  function TruthyTvlSum(pairs: seq<PairFigures>): real {
    if pairs == [] then 0.0
    else TruthyTvlSum(pairs[..|pairs| - 1]) + (if Truthy(pairs[|pairs| - 1].tvl) then pairs[|pairs| - 1].tvl.value else 0.0)
  }

  /** The sum of every pair's TVL, None counted as 0. */
  function TvlTotal(pairs: seq<PairFigures>): real {
    if pairs == [] then 0.0 else TvlTotal(pairs[..|pairs| - 1]) + pairs[|pairs| - 1].tvl.GetOr(0.0)
  }

  /** Leaving out the falsy TVLs does not change the sum: it is the total of all of them. */
  lemma {:induction false} TruthyTvlSumIsTotal(pairs: seq<PairFigures>)
    ensures TruthyTvlSum(pairs) == TvlTotal(pairs)
  {
    if pairs != [] {
      TruthyTvlSumIsTotal(pairs[..|pairs| - 1]);
    }
  }

  /** `tvl` in `on_get`: None without pairs, else the sum of the truthy TVLs. */
  function Tvl(pairs: seq<PairFigures>): (r: Option<real>)
    ensures r.None? <==> pairs == []
    ensures r.Some? ==> r.value == TvlTotal(pairs)
  {
    TruthyTvlSumIsTotal(pairs);
    if pairs == [] then None else Some(TruthyTvlSum(pairs))
  }

  /** The truthy APRs, in order. */
  function TruthyAprs(pairs: seq<PairFigures>): (r: seq<real>)
    ensures forall x :: x in r ==> x != 0.0 && exists i :: 0 <= i < |pairs| && pairs[i].apr == Some(x)
    ensures forall i :: 0 <= i < |pairs| && Truthy(pairs[i].apr) ==> pairs[i].apr.value in r
  {
    if pairs == [] then []
    else
      var prev := TruthyAprs(pairs[..|pairs| - 1]);
      var last := pairs[|pairs| - 1];
      assert forall i :: 0 <= i < |pairs| - 1 ==> pairs[..|pairs| - 1][i] == pairs[i];
      if Truthy(last.apr) then prev + [last.apr.value] else prev
  }

  /** `max(...)` of a non-empty sequence. */
  function Max(xs: seq<real>): (r: real)
    requires xs != []
    ensures r in xs && forall x :: x in xs ==> x <= r
  {
    if |xs| == 1 then xs[0]
    else
      var m := Max(xs[..|xs| - 1]);
      assert forall x :: x in xs ==> x in xs[..|xs| - 1] || x == xs[|xs| - 1];
      if xs[|xs| - 1] > m then xs[|xs| - 1] else m
  }

  /**
   * `max_apr` in `on_get`: None without pairs; the largest truthy APR; and
   * ValueError from `max` of nothing when pairs exist but none has one.
   */
  function MaxApr(pairs: seq<PairFigures>): (r: Result<Option<real>, string>)
    ensures r == Ok(None) <==> pairs == []
    ensures r.Err? <==> pairs != [] && forall i :: 0 <= i < |pairs| ==> !Truthy(pairs[i].apr)
    ensures r.Ok? && r.value.Some? ==>
      (forall i :: 0 <= i < |pairs| && Truthy(pairs[i].apr) ==> pairs[i].apr.value <= r.value.value) &&
      (exists i :: 0 <= i < |pairs| && Truthy(pairs[i].apr) && pairs[i].apr == r.value)
  {
    if pairs == [] then Ok(None)
    else
      var aprs := TruthyAprs(pairs);
      if aprs == [] then Err("max() arg is an empty sequence")
      else
        var m := Max(aprs);
        assert m in aprs;
        Ok(Some(m))
  }
}
