/**
 * The token supply figures `Supply.recache` derives from one multicall
 * (app/supply/__init__.py): total, locked, circulating and the locked share.
 */
module Supply {
  import opened Wrappers
  import opened PyValues

  /** The multicall result: decimals of the token and the lock, and the three raw balances. */
  datatype SupplyReads = SupplyReads(
    tokenDecimals: nat,
    lockDecimals: nat,
    rawTotalSupply: nat,
    rawLockedSupply: nat,
    rawTreasurySupply: nat)

  /** The cached data: the reads together with the derived figures. */
  datatype SupplyData = SupplyData(
    source: SupplyReads,
    totalSupply: real,
    lockedSupply: real,
    circulatingSupply: real,
    percentageLocked: real)

  /**
   * The locked supply: the lock's balance and the treasury's, each scaled by
   * its own decimals. Cleared of both denominators it is the two raw
   * balances cross-scaled.
   */
  function LockedSupply(d: SupplyReads): (r: real)
    ensures r >= 0.0
    ensures r * (Unit(d.lockDecimals) * Unit(d.tokenDecimals)) ==
      d.rawLockedSupply as real * Unit(d.tokenDecimals) + d.rawTreasurySupply as real * Unit(d.lockDecimals)
  {
    ScaledSumCleared(d.rawLockedSupply as real, d.lockDecimals, d.rawTreasurySupply as real, d.tokenDecimals);
    Scale(d.rawLockedSupply as real, d.lockDecimals) + Scale(d.rawTreasurySupply as real, d.tokenDecimals)
  }

  /**
   * The derived figures; dividing by a zero total supply raises
   * ZeroDivisionError (None).
   */
  function Recache(d: SupplyReads): (r: Option<SupplyData>)
    ensures r.None? <==> d.rawTotalSupply == 0
    ensures r.Some? ==> r.value.source == d
    ensures r.Some? ==> r.value.totalSupply * Unit(d.tokenDecimals) == d.rawTotalSupply as real
    ensures r.Some? ==> r.value.lockedSupply == LockedSupply(d)
    ensures r.Some? ==> r.value.circulatingSupply + r.value.lockedSupply == r.value.totalSupply
    ensures r.Some? ==> r.value.totalSupply > 0.0 && r.value.lockedSupply >= 0.0 && r.value.percentageLocked >= 0.0
  {
    var total := Scale(d.rawTotalSupply as real, d.tokenDecimals);
    var locked := LockedSupply(d);
    if total == 0.0 then None
    else
      var percentage := locked / total * 100.0;
      Some(SupplyData(d, total, locked, total - locked, percentage))
  }

  /** The locked percentage is the locked supply's share of the total, times 100. */
  lemma PercentageLocked(d: SupplyReads, s: SupplyData)
    requires Recache(d) == Some(s)
    ensures s.percentageLocked * s.totalSupply == s.lockedSupply * 100.0
  {
    assert s.percentageLocked == s.lockedSupply / s.totalSupply * 100.0;
    PercentageScaled(s.lockedSupply, s.totalSupply);
  }

  /** Two amounts each scaled down by its own decimals, summed and cleared of both units. */
  lemma ScaledSumCleared(a: real, da: nat, b: real, db: nat)
    ensures (Scale(a, da) + Scale(b, db)) * (Unit(da) * Unit(db)) == a * Unit(db) + b * Unit(da)
  {
    var px, py := Unit(da), Unit(db);
    var x, y := Scale(a, da), Scale(b, db);
    ClearDenominators(x, px, a, y, py, b);
  }

  /** Two amounts each scaled down by its own denominator, summed and cleared of both. */
  lemma ClearDenominators(x: real, px: real, a: real, y: real, py: real, b: real)
    requires x * px == a && y * py == b
    ensures (x + y) * (px * py) == a * py + b * px
  {
    calc {
      (x + y) * (px * py);
      (x * px) * py + (y * py) * px;
    }
  }

  /** `part / total * 100`, times the total, is the part times 100. */
  lemma PercentageScaled(part: real, total: real)
    requires total != 0.0
    ensures part / total * 100.0 * total == part * 100.0
  {
  }

  /** A share of a positive total, times 100: at most 100 exactly when the part is at most the total. */
  lemma PercentageOfTotal(p: real, part: real, total: real)
    requires total > 0.0 && p * total == part * 100.0
    ensures p <= 100.0 <==> part <= total
  {
    if p <= 100.0 {
      assert p * total <= 100.0 * total;
    } else {
      assert p * total > 100.0 * total;
    }
  }

  /** The locked share is at most 100 percent exactly when the circulating supply is not negative. */
  lemma PercentageBound(d: SupplyReads)
    requires Recache(d).Some?
    ensures var s := Recache(d).value;
      s.percentageLocked <= 100.0 <==> s.circulatingSupply >= 0.0
  {
    var s := Recache(d).value;
    PercentageLocked(d, s);
    PercentageOfTotal(s.percentageLocked, s.lockedSupply, s.totalSupply);
  }
}
