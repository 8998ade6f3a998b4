/** The other half of the crossing condition: claims that miss it by more than the roundings have a
    continuation, a refresh above the all-time high and everybody settling, that leaves PT short. */
module VaultShortfall {
  import opened Outcome
  import opened FixedPoint
  import opened Sums
  import opened VaultSpec
  import opened VaultRuns
  import opened VaultInvariant
  import opened VaultPreservation
  import opened Solvency
  import opened VaultCrossing

  // ---------- the continuation ----------

  /** Merging nothing refreshes the vault at `rate` and settles the robot. */
  function Refreshing(now: nat, rate: nat): Event {
    Event(now, Merge(SyState(rate, []), 0))
  }

  function Settlement(w: World, now: nat, rate: nat): seq<Event> {
    [Refreshing(now, rate)] + (SettleUsers(now, 1, |w.positions|) + [Refreshing(now, rate)])
  }

  // ---------- what it costs ----------

  /** The SY a position would be credited at final rate `f`, before it is scaled. */
  function Earnable(f: nat): Position -> nat {
    (p: Position) =>
      if p.interest.lastSeenIndex == 0 || p.interest.lastSeenIndex >= f then 0
      else EarnableBetween(p.ytBalance, p.interest.lastSeenIndex, f)
  }

  function EarnableBetween(yt: nat, index: nat, f: nat): nat
    requires 0 < index <= f
  {
    ReciprocalAntitone(index, f);
    MulFloor(Reciprocal(index) - Reciprocal(f), yt)
  }

  /** What all roundings together can hide, scaled by 10^24: one unit in the sweep, one at either rate
      for each settlement, the last place of each scaling, one unit and the dust at the end. */
  function Allowance(w: World, rate: nat): nat {
    var f := w.vault.finalRate;
    rate * ONE + (|w.positions| + 1) * ((f + rate) * ONE) + rate * Sum(Earnable(f), w.positions) + rate * (ONE + Dust(w))
  }

  /** The claims exceed the free SY by more than the roundings. */
  predicate Uncovered(w: World, rate: nat) {
    var f := w.vault.finalRate;
    f * Sum(CappedClaim(f), w.positions) >= ONE * (f * Free(w.vault)) + Allowance(w, rate)
  }

  /** A vault at `rate` whose free SY, with all that is still to be earned taken off, is worth at most
      `bound` beyond nothing. */
  predicate Deficit(v: Vault, ps: seq<Position>, rate: nat, f: nat, bound: int) {
    && v.lastSeenRate == v.allTimeHigh == rate && v.finalRate == f && 0 < f < rate
    && ONE * (rate * Free(v)) + rate * Sum(Earnable(f), ps) <= bound + f * Sum(CappedClaim(f), ps)
  }

  // ---------- one settlement ----------

  lemma ClaimBarelyExceedsEarnings(p: Position, f: nat, a: nat)
    requires f > 0 && CalcEarnedSy(p.ytBalance, p.interest.lastSeenIndex, f) == Ok(a)
    ensures a == Earnable(f)(p)
    ensures CappedClaim(f)(p) <= ONE * a + ONE + p.ytBalance * Reciprocal(f)
  {
    var index, yt := p.interest.lastSeenIndex, p.ytBalance;
    if 0 < index < f {
      ReciprocalAntitone(index, f);
      var d := Reciprocal(index) - Reciprocal(f);
      assert d * yt == yt * Reciprocal(index) - yt * Reciprocal(f);
      DivBounds(d * yt, ONE);
      assert Min(index, f) == index;
      if yt == 0 {
        assert MulFloor(d, 0) == 0;
      }
    }
  }

  lemma SettledSums(ps: seq<Position>, i: nat, p: Position, f: nat)
    requires i < |ps|
    ensures Sum(CappedClaim(f), ps[i := p]) + CappedClaim(f)(ps[i]) == Sum(CappedClaim(f), ps) + CappedClaim(f)(p)
    ensures Sum(Earnable(f), ps[i := p]) + Earnable(f)(ps[i]) == Sum(Earnable(f), ps) + Earnable(f)(p)
    ensures Sum(YtOf, ps[i := p]) + ps[i].ytBalance == Sum(YtOf, ps) + p.ytBalance
  {
    SumUpdate(CappedClaim(f), ps, i, p);
    SumUpdate(Earnable(f), ps, i, p);
    SumUpdate(YtOf, ps, i, p);
  }

  lemma DeficitArithmetic(free: int, earned: nat, rate: nat, f: nat, bound: int, earnable: nat, earnable1: nat, a: nat,
                          claims: nat, claims1: nat)
    requires ONE * (rate * free) + rate * earnable <= bound + f * claims
    requires earnable1 + a == earnable && claims <= claims1 + ONE * a + ONE
    requires ONE * (rate * earned) + rate * ONE + rate * a >= f * (ONE * a)
    ensures ONE * (rate * (free - earned)) + rate * earnable1 <= bound + (f + rate) * ONE + f * claims1
  {
    MulMono(claims, claims1 + ONE * a + ONE, f);
    assert f * (claims1 + ONE * a + ONE) == f * claims1 + f * (ONE * a) + f * ONE;
    assert rate * earnable == rate * earnable1 + rate * a;
    assert rate * (free - earned) == rate * free - rate * earned;
    assert (f + rate) * ONE == f * ONE + rate * ONE;
  }

  lemma EarnDeficit(v: Vault, ps: seq<Position>, i: nat, rate: nat, f: nat, bound: int, v1: Vault, p1: Position)
    requires i < |ps| && Deficit(v, ps, rate, f, bound) && Earn(v, ps[i]) == Ok((v1, p1))
    ensures Deficit(v1, ps[i := p1], rate, f, bound + (f + rate) * ONE)
    ensures p1.interest.lastSeenIndex == f && Sum(YtOf, ps[i := p1]) == Sum(YtOf, ps)
    ensures v1 == v.(uncollectedSy := v1.uncollectedSy)
  {
    var a, earned := EarnEffect(v, ps[i], v1, p1);
    ClaimBarelyExceedsEarnings(ps[i], f, a);
    ScalingLosesLittle(a, f, rate, earned);
    SettledSums(ps, i, p1, f);
    assert Free(v1) == Free(v) - earned;
    DeficitArithmetic(Free(v), earned, rate, f, bound, Sum(Earnable(f), ps), Sum(Earnable(f), ps[i := p1]), a,
      Sum(CappedClaim(f), ps), Sum(CappedClaim(f), ps[i := p1]));
  }

  // ---------- everybody's settlement ----------

  /** What stays as it is from the first step of the continuation to its last. */
  predicate SameStakes(w: World, w1: World) {
    && |w1.positions| == |w.positions|
    && Sum(YtOf, w1.positions) == Sum(YtOf, w.positions)
    && w1.vault.ptSupply == w.vault.ptSupply && w1.mergedPy == w.mergedPy
    && Maturity(w1.vault) == Maturity(w.vault)
  }

  predicate SettledUpTo(ps: seq<Position>, i: nat, f: nat) {
    i <= |ps| && forall j :: 0 <= j < i ==> ps[j].interest.lastSeenIndex == f
  }

  lemma SettleOne(w: World, now: nat, i: nat, rate: nat, f: nat, bound: int, w1: World)
    requires 0 < i < |w.positions| && Deficit(w.vault, w.positions, rate, f, bound) && SettledUpTo(w.positions, i, f)
    requires Commit(w, Event(now, CollectUserInterest(i, 0))) == Ok(w1)
    ensures Deficit(w1.vault, w1.positions, rate, f, bound + (f + rate) * ONE) && SettledUpTo(w1.positions, i + 1, f)
    ensures SameStakes(w, w1) && w1.clock == now
  {
    var (v1, u1) := Earn(w.vault, w.positions[i]).value;
    EarnDeficit(w.vault, w.positions, i, rate, f, bound, v1, u1);
    assert w1.positions == w.positions[i := u1];
  }

  lemma OneMoreUnit(m: nat, unit: nat)
    requires m > 0
    ensures m * unit == unit + (m - 1) * unit
  {
  }

  lemma {:induction false} SettleRest(w: World, now: nat, i: nat, rate: nat, f: nat, bound: int, unit: nat)
    requires unit == (f + rate) * ONE
    requires 0 < i <= |w.positions| && Deficit(w.vault, w.positions, rate, f, bound) && SettledUpTo(w.positions, i, f)
    requires AllCommit(w, SettleUsers(now, i, |w.positions|))
    ensures
      var n := |w.positions|;
      var w1 := Run(w, SettleUsers(now, i, n));
      && Deficit(w1.vault, w1.positions, rate, f, bound + (n - i) * unit)
      && SettledUpTo(w1.positions, n, f) && SameStakes(w, w1)
    decreases |w.positions| - i
  {
    var n := |w.positions|;
    if i < n {
      var e := Event(now, CollectUserInterest(i, 0));
      var w1 := Commit(w, e).value;
      assert ([e] + SettleUsers(now, i + 1, n))[1..] == SettleUsers(now, i + 1, n);
      SettleOne(w, now, i, rate, f, bound, w1);
      SettleRest(w1, now, i + 1, rate, f, bound + unit, unit);
      OneMoreUnit(n - i, unit);
    }
  }

  // ---------- the refreshes at either end ----------

  lemma SweepAddsLittle(v: Vault, rate: nat, now: nat, v1: Vault)
    requires now > Maturity(v) && v.lastSeenRate <= v.allTimeHigh < rate && SweepSy(v, rate, now) == Ok(v1)
    ensures v1 == v.(treasurySy := v1.treasurySy)
    ensures rate * Free(v1) <= v.lastSeenRate * Free(v) + rate
  {
    if Free(v) >= 0 {
      SweepKeepsWorth(Free(v), v.lastSeenRate, rate, v1.treasurySy - v.treasurySy);
    } else {
      assert ActiveSy(v) == 0;
      assert SyAppreciation(v.lastSeenRate, rate, 0) == Ok(0);
      MulMono(v.lastSeenRate, rate, -Free(v));
    }
  }

  function Shortfall(w: World, rate: nat): int {
    var f := w.vault.finalRate;
    ONE * (f * Free(w.vault)) + ONE * rate + rate * Sum(Earnable(f), w.positions) - f * Sum(CappedClaim(f), w.positions)
  }

  lemma FirstRefresh(w: World, now: nat, rate: nat, w1: World)
    requires |w.positions| > 0 && now > Maturity(w.vault) && rate > w.vault.allTimeHigh >= w.vault.lastSeenRate
    requires w.vault.finalRate == w.vault.lastSeenRate > 0
    requires Commit(w, Refreshing(now, rate)) == Ok(w1)
    ensures
      var f := w.vault.finalRate;
      Deficit(w1.vault, w1.positions, rate, f, Shortfall(w, rate) + (f + rate) * ONE)
    ensures SettledUpTo(w1.positions, 1, w.vault.finalRate) && SameStakes(w, w1) && w1.clock == now
  {
    var f, ps := w.vault.finalRate, w.positions;
    var sy := SyState(rate, []);
    var w0 := Perform(w, now, Merge(sy, 0)).value;
    var v1, r1, paid, v2 := MaturedMergeParts(w, now, sy, 0, w0);
    var v0 := UpdateFromSyState(w.vault, sy, now).value;
    var swept := UpdateFrame(w.vault, sy, now, v0);
    SweepAddsLittle(w.vault, rate, now, swept);
    assert Free(v0) == Free(swept);
    var start := Shortfall(w, rate);
    assert Deficit(v0, ps, rate, f, start);
    EarnDeficit(v0, ps, 0, rate, f, start, v1, r1);
    SameFree(v1, w1.vault, ps[0 := r1], rate, f, start + (f + rate) * ONE);
  }

  lemma SameFree(v: Vault, v1: Vault, ps: seq<Position>, rate: nat, f: nat, bound: int)
    requires Deficit(v, ps, rate, f, bound) && Free(v1) == Free(v)
    requires v1.lastSeenRate == v.lastSeenRate && v1.allTimeHigh == v.allTimeHigh && v1.finalRate == v.finalRate
    ensures Deficit(v1, ps, rate, f, bound)
  {
  }

  lemma LastRefresh(w: World, now: nat, rate: nat, f: nat, bound: int, w1: World)
    requires |w.positions| > 0 && now > Maturity(w.vault) && Deficit(w.vault, w.positions, rate, f, bound)
    requires SettledUpTo(w.positions, |w.positions|, f)
    requires Commit(w, Refreshing(now, rate)) == Ok(w1)
    ensures Deficit(w1.vault, w1.positions, rate, f, bound + (f + rate) * ONE)
    ensures SettledUpTo(w1.positions, |w1.positions|, f) && SameStakes(w, w1) && IsSet(w1.vault)
  {
    var sy := SyState(rate, []);
    var w0 := Perform(w, now, Merge(sy, 0)).value;
    var v1, r1, paid, v2 := MaturedMergeParts(w, now, sy, 0, w0);
    var v0 := UpdateFromSyState(w.vault, sy, now).value;
    var swept := UpdateFrame(w.vault, sy, now, v0);
    SameFree(w.vault, v0, w.positions, rate, f, bound);
    EarnDeficit(v0, w.positions, 0, rate, f, bound, v1, r1);
    SameFree(v1, w1.vault, w.positions[0 := r1], rate, f, bound + (f + rate) * ONE);
    SetTwice(v2, w1.vault);
  }

  // ---------- what is left ----------

  /** The free SY is worth less than the PT by more than the dust. */
  predicate Short(w: World) {
    var v := w.vault;
    v.lastSeenRate * (ONE * (Free(v) + 1) + Dust(w)) <= ONE * ONE * v.ptSupply
  }

  lemma SettledClaims(ps: seq<Position>, f: nat)
    requires f > 0 && SettledUpTo(ps, |ps|, f)
    ensures f * Sum(CappedClaim(f), ps) <= ONE * ONE * Sum(YtOf, ps)
  {
    var none := (p: Position) => 0;
    forall i | 0 <= i < |ps| ensures CappedClaim(f)(ps[i]) <= none(ps[i]) + Reciprocal(f) * YtOf(ps[i]) {
    }
    SumAtMostPlus(CappedClaim(f), none, Reciprocal(f), YtOf, ps);
    SumZero(none, ps);
    ReciprocalBounds(f);
    var yt := Sum(YtOf, ps);
    MulMono(Sum(CappedClaim(f), ps), Reciprocal(f) * yt, f);
    MulMono(Reciprocal(f) * f, ONE * ONE, yt);
    assert Reciprocal(f) * yt * f == Reciprocal(f) * f * yt;
  }

  lemma ShortMeansUnbacked(w: World)
    requires Short(w) && IsSet(w.vault) && w.vault.lastSeenRate > 0
    ensures w.vault.syForPt < DivFloor(w.vault.ptSupply, w.vault.lastSeenRate)
         || w.vault.treasurySy + w.vault.uncollectedSy > w.vault.totalSyInEscrow
  {
    var v := w.vault;
    if Free(v) >= 0 {
      var rate, room := v.lastSeenRate, ONE * (Free(v) + 1);
      MulMono(room, room + Dust(w), rate);
      assert (Free(v) + 1) * rate * ONE == rate * room;
      CancelFactor((Free(v) + 1) * rate, v.ptSupply * ONE, ONE);
      DivIsAtLeast(v.ptSupply * ONE, rate, Free(v) + 1);
    }
  }

  lemma LeftShort(w: World, end: World, rate: nat, bound: int)
    requires rate > 0 && |w.positions| > 0 && SameStakes(w, end) && w.vault.ptSupply == Sum(YtOf, w.positions)
    requires Deficit(end.vault, end.positions, rate, w.vault.finalRate, bound)
    requires SettledUpTo(end.positions, |end.positions|, w.vault.finalRate)
    requires bound + rate * (ONE + Dust(w)) <= 0
    ensures Short(end)
  {
    var free, f := Free(end.vault), w.vault.finalRate;
    SettledClaims(end.positions, f);
    assert rate * (ONE * (free + 1) + Dust(w)) == ONE * (rate * free) + rate * (ONE + Dust(w));
    assert rate * Sum(Earnable(f), end.positions) >= 0;
  }

  lemma SettlementParts(w: World, now: nat, rate: nat) returns (w1: World, w2: World)
    requires |w.positions| > 0 && AllCommit(w, Settlement(w, now, rate))
    ensures Commit(w, Refreshing(now, rate)) == Ok(w1) && |w1.positions| > 0
    ensures AllCommit(w1, SettleUsers(now, 1, |w.positions|)) && Run(w1, SettleUsers(now, 1, |w.positions|)) == w2
    ensures |w2.positions| > 0 && Commit(w2, Refreshing(now, rate)) == Ok(Run(w, Settlement(w, now, rate)))
  {
    var first, users, last := [Refreshing(now, rate)], SettleUsers(now, 1, |w.positions|), [Refreshing(now, rate)];
    RunsJoin(w, first, users + last);
    w1 := Step(w, first[0]);
    assert Run(w, first) == w1 by {
      assert first[1..] == [];
    }
    RunsJoin(w1, users, last);
    w2 := Run(w1, users);
    assert Run(w2, last) == Step(w2, last[0]) by {
      assert last[1..] == [];
    }
  }

  lemma UsersSettle(w: World, now: nat, rate: nat, start: int, unit: nat, w1: World, w2: World)
    requires |w.positions| > 0 && SameStakes(w, w1) && unit == (w.vault.finalRate + rate) * ONE
    requires Deficit(w1.vault, w1.positions, rate, w.vault.finalRate, start) && SettledUpTo(w1.positions, 1, w.vault.finalRate)
    requires AllCommit(w1, SettleUsers(now, 1, |w.positions|)) && Run(w1, SettleUsers(now, 1, |w.positions|)) == w2
    ensures Deficit(w2.vault, w2.positions, rate, w.vault.finalRate, start + (|w.positions| - 1) * unit)
    ensures SettledUpTo(w2.positions, |w2.positions|, w.vault.finalRate) && SameStakes(w, w2)
  {
    SettleRest(w1, now, 1, rate, w.vault.finalRate, start, unit);
  }

  lemma SettlementDeficit(w: World, now: nat, rate: nat, start: int, unit: nat) returns (end: World)
    requires |w.positions| > 0 && w.clock <= Maturity(w.vault) < now
    requires rate > w.vault.allTimeHigh >= w.vault.lastSeenRate == w.vault.finalRate > 0
    requires AllCommit(w, Settlement(w, now, rate))
    requires unit == (w.vault.finalRate + rate) * ONE && start == Shortfall(w, rate) + unit
    ensures end == Run(w, Settlement(w, now, rate))
    ensures Deficit(end.vault, end.positions, rate, w.vault.finalRate, start + (|w.positions| - 1) * unit + unit)
    ensures SettledUpTo(end.positions, |end.positions|, w.vault.finalRate) && SameStakes(w, end) && IsSet(end.vault)
  {
    var w1, w2 := SettlementParts(w, now, rate);
    FirstRefresh(w, now, rate, w1);
    UsersSettle(w, now, rate, start, unit, w1, w2);
    end := Run(w, Settlement(w, now, rate));
    LastRefresh(w2, now, rate, w.vault.finalRate, start + (|w.positions| - 1) * unit, end);
  }

  lemma AllowanceCovers(w: World, rate: nat, start: int, unit: nat)
    requires Uncovered(w, rate) && unit == (w.vault.finalRate + rate) * ONE && start == Shortfall(w, rate) + unit
    requires |w.positions| > 0
    ensures start + (|w.positions| - 1) * unit + unit + rate * (ONE + Dust(w)) <= 0
  {
    OneMoreUnit(|w.positions| + 1, unit);
    OneMoreUnit(|w.positions|, unit);
  }

  /** A vault left in an emergency at maturity whose claims miss the condition by more than the
      roundings: one refresh above the all-time high, with everybody then settling, leaves PT with
      less than its face value, or the escrow with less than is owed to YT and treasury alone. */
  lemma UncoveredCrossingLosesBacking(w: World, now: nat, rate: nat)
    requires Invariant(w) && InEmergency(w.vault) && w.clock <= Maturity(w.vault) < now
    requires rate > w.vault.allTimeHigh && Uncovered(w, rate)
    requires AllCommit(w, Settlement(w, now, rate))
    ensures
      var end := Run(w, Settlement(w, now, rate));
      && end.vault.ptSupply == w.vault.ptSupply && end.vault.lastSeenRate == rate && !InEmergency(end.vault)
      && Short(end)
      && (end.vault.syForPt < DivFloor(end.vault.ptSupply, rate)
          || end.vault.treasurySy + end.vault.uncollectedSy > end.vault.totalSyInEscrow)
  {
    var unit := (w.vault.finalRate + rate) * ONE;
    var start := Shortfall(w, rate) + unit;
    var end := SettlementDeficit(w, now, rate, start, unit);
    AllowanceCovers(w, rate, start, unit);
    LeftShort(w, end, rate, start + (|w.positions| - 1) * unit + unit);
    ShortMeansUnbacked(end);
  }
}
