/** What every instruction keeps. The measure of what the vault owes is, for each position,
    its YT times the reciprocal of the index it last saw: earning turns part of that claim into
    staged SY, stripping creates it, merging and moving YT never raise it. */
module VaultInvariant {
  import opened Outcome
  import opened FixedPoint
  import opened Sums
  import opened VaultSpec
  import opened VaultRuns

  function YtOf(p: Position): nat {
    p.ytBalance
  }

  function StagedOf(p: Position): nat {
    p.interest.staged
  }

  function ClaimOf(p: Position): nat {
    p.ytBalance * Reciprocal(p.interest.lastSeenIndex)
  }

  /** Escrowed SY that neither the treasury nor staged interest lays claim to. */
  function Free(v: Vault): int {
    v.totalSyInEscrow - v.treasurySy - v.uncollectedSy
  }

  /** Free SY valued at the current rate; a rounding deficit is valued at the final rate. */
  function Worth(free: int, lastRate: nat, finalRate: nat): int {
    if free >= 0 then free * lastRate else free * finalRate
  }

  /** Every position that holds YT has seen an index no later than the robot's. */
  predicate Ordered(v: Vault, ps: seq<Position>)
    requires |ps| > 0
  {
    && ps[0].interest.lastSeenIndex <= v.allTimeHigh
    && forall i :: 0 <= i < |ps| && ps[i].ytBalance > 0 ==>
         0 < ps[i].interest.lastSeenIndex <= ps[0].interest.lastSeenIndex
  }

  predicate Settled(v: Vault, ps: seq<Position>)
    requires |ps| > 0
  {
    !InEmergency(v) ==> ps[0].interest.lastSeenIndex == v.finalRate
  }

  /** While active: what is owed is in escrow, up to one last place per PT merged so far (`k`). */
  predicate BackedWhileActive(v: Vault, ps: seq<Position>, k: nat) {
    && v.ptSupply == Sum(YtOf, ps)
    && v.lastSeenRate == v.finalRate
    && ONE * (v.treasurySy + v.uncollectedSy) + Sum(ClaimOf, ps) <= ONE * v.totalSyInEscrow + k
  }

  /** After maturity: the free SY at the current rate covers the PT left and what each position
      has still to earn up to the final rate. */
  predicate BackedAfterMaturity(v: Vault, ps: seq<Position>, k: nat) {
    && v.ptSupply <= Sum(YtOf, ps)
    && v.finalRate <= v.lastSeenRate
    && ONE * Worth(Free(v), v.lastSeenRate, v.finalRate) + ONE * ONE * (Sum(YtOf, ps) - v.ptSupply) + v.finalRate * k
         >= v.finalRate * Sum(ClaimOf, ps)
  }

  /** Holds between the statements of an instruction running at time `now`. */
  predicate Sound(v: Vault, ps: seq<Position>, k: nat, now: nat) {
    && |ps| > 0
    && Ordered(v, ps)
    && Sum(StagedOf, ps) == v.uncollectedSy
    && v.lastSeenRate <= v.allTimeHigh
    && (now <= Maturity(v) ==> BackedWhileActive(v, ps, k))
    && (now > Maturity(v) ==>
         BackedAfterMaturity(v, ps, k) && !InEmergency(v) && ps[0].interest.lastSeenIndex == v.finalRate)
  }

  predicate Untouched(v: Vault, ps: seq<Position>) {
    && v.totalSyInEscrow == v.syForPt == v.ptSupply == v.treasurySy == v.uncollectedSy == 0
    && v.lastSeenRate == v.allTimeHigh == 0
    && forall i :: 0 <= i < |ps| ==> ps[i].ytBalance == 0 && ps[i].interest == Tracker(0, 0)
  }

  /** SY set aside for PT is never worth more than the PT, and was there when it was set aside. */
  predicate SetAside(v: Vault, k: nat) {
    && v.syForPt * v.lastSeenRate <= v.ptSupply * ONE
    && (InEmergency(v) ==> ONE * v.syForPt <= ONE * Free(v) + k)
  }

  /** What holds of the world after every committed instruction. */
  predicate Invariant(w: World) {
    && Sound(w.vault, w.positions, w.mergedPy, w.clock)
    && Settled(w.vault, w.positions)
    && SetAside(w.vault, w.mergedPy)
    && (w.vault.finalRate > 0 ==> w.vault.startTs <= w.clock)
    && (w.vault.finalRate == 0 ==> Untouched(w.vault, w.positions))
  }

  // ---------- arithmetic of the single statements ----------

  lemma EarnedIsClaimGivenUp(yt: nat, index: nat, rate: nat, earned: nat)
    requires rate > 0
    requires yt > 0 ==> 0 < index <= rate
    requires CalcEarnedSy(yt, index, rate) == Ok(earned)
    ensures ONE * earned + yt * Reciprocal(rate) <= yt * Reciprocal(index)
  {
    if yt > 0 && index < rate {
      ReciprocalAntitone(index, rate);
      var d := Reciprocal(index) - Reciprocal(rate);
      DivBounds(d * yt, ONE);
      assert d * yt == yt * Reciprocal(index) - yt * Reciprocal(rate);
    }
  }

  lemma ScalingKeepsValue(amount: nat, finalRate: nat, lastRate: nat, scaled: nat)
    requires 0 < finalRate <= lastRate
    requires ScaleToCurrentRate(amount, finalRate, lastRate) == Ok(scaled)
    ensures scaled * lastRate <= amount * finalRate
  {
    if lastRate > finalRate {
      var q := Quotient(finalRate, lastRate);
      DivBounds(finalRate * ONE, lastRate);
      DivBounds(q * amount, ONE);
      assert scaled * ONE <= q * amount;
      calc {
        ONE * (scaled * lastRate);
        scaled * ONE * lastRate;
      <= { MulMono(scaled * ONE, q * amount, lastRate); }
        q * amount * lastRate;
        q * lastRate * amount;
      <= { MulMono(q * lastRate, finalRate * ONE, amount); }
        finalRate * ONE * amount;
        ONE * (amount * finalRate);
      }
    }
  }

  lemma ScalingLosesLittle(a: nat, f: nat, rate: nat, scaled: nat)
    requires 0 < f < rate && ScaleToCurrentRate(a, f, rate) == Ok(scaled)
    ensures ONE * (rate * scaled) + rate * ONE + rate * a >= f * (ONE * a)
  {
    var q := Quotient(f, rate);
    DivBounds(f * ONE, rate);
    DivBounds(q * a, ONE);
    calc {
      f * (ONE * a);
      f * ONE * a;
    <= { MulMono(f * ONE, q * rate + rate, a); }
      (q * rate + rate) * a;
      rate * (q * a) + rate * a;
    <= { MulMono(q * a, scaled * ONE + ONE, rate); }
      rate * (scaled * ONE + ONE) + rate * a;
      ONE * (rate * scaled) + rate * ONE + rate * a;
    }
  }

  lemma WorthOfPaying(free: int, paid: nat, lastRate: nat, finalRate: nat)
    requires finalRate <= lastRate
    ensures Worth(free - paid, lastRate, finalRate) + paid * lastRate >= Worth(free, lastRate, finalRate)
  {
    assert (free - paid) * lastRate == free * lastRate - paid * lastRate;
    if free < paid {
      if 0 <= free {
        MulMono(finalRate, lastRate, paid - free);
        assert (free - paid) * finalRate == -((paid - free) * finalRate);
      } else {
        MulMono(finalRate, lastRate, paid);
        assert (free - paid) * finalRate == free * finalRate - paid * finalRate;
      }
    }
  }

  lemma SweepKeepsWorth(free: nat, lastRate: nat, rate: nat, surplus: nat)
    requires lastRate < rate
    requires SyAppreciation(lastRate, rate, free) == Ok(surplus)
    ensures surplus <= free
    ensures free * lastRate <= (free - surplus) * rate < free * lastRate + rate
  {
    var x := (rate - lastRate) * free;
    TruncateTwice(x, rate);
    DivBounds(x, rate);
    assert x == free * rate - free * lastRate;
    assert (free - surplus) * rate == free * rate - surplus * rate;
    if surplus > free {
      MulMono(free + 1, surplus, rate);
    }
  }

  lemma BackingIsAffordable(rate: nat, ptSupply: nat, sy: nat, backing: nat)
    requires SyBackingForPt(rate, ptSupply, sy) == Ok(backing)
    ensures backing <= sy && backing * rate <= ptSupply * ONE
  {
    if rate > 0 {
      DivBounds(ptSupply * ONE, rate);
      MulMono(backing, DivFloor(ptSupply, rate), rate);
    }
  }

  lemma PartOfBacking(paid: nat, pt: nat, s: nat, amount: nat, rate: nat)
    requires 0 < pt && amount <= pt
    requires paid * pt <= s * amount
    requires s * rate <= pt * ONE
    ensures paid <= s
    ensures paid * rate <= amount * ONE
  {
    MulMono(amount, pt, s);
    CancelFactor(paid, s, pt);
    calc {
      paid * rate * pt;
      paid * pt * rate;
    <= { MulMono(paid * pt, s * amount, rate); }
      s * amount * rate;
      s * rate * amount;
    <= { MulMono(s * rate, pt * ONE, amount); }
      pt * ONE * amount;
      amount * ONE * pt;
    }
    CancelFactor(paid * rate, amount * ONE, pt);
  }

  /** A redemption never exceeds the SY set aside nor the face value at the rate. */
  lemma RedemptionBounds(v: Vault, amount: nat, paid: nat)
    requires RedemptionAmount(v, amount) == Ok(paid)
    requires amount <= v.ptSupply
    requires v.syForPt * v.lastSeenRate <= v.ptSupply * ONE
    ensures paid <= v.syForPt
    ensures paid * v.lastSeenRate <= amount * ONE
  {
    if v.ptSupply > 0 {
      ShareOfTotal(v.syForPt, v.ptSupply, amount);
      PartOfBacking(paid, v.ptSupply, v.syForPt, amount, v.lastSeenRate);
    }
  }
}
