/** Crossing maturity. The final rate freezes there, wherever the rate happens to be. While the
    rate is at its all-time high the invariant carries over by itself; in an emergency, whether the
    vault can still pay everyone is decided by one sum that can be read before the crossing. */
module VaultCrossing {
  import opened Outcome
  import opened FixedPoint
  import opened Sums
  import opened VaultSpec
  import opened VaultRuns
  import opened VaultInvariant
  import opened VaultPreservation
  import opened VaultSafety
  import opened Solvency

  /** A position's claim once the final rate is `f`: an index seen above it is worth no more. */
  function CappedClaim(f: nat): Position -> nat {
    (p: Position) => p.ytBalance * Reciprocal(Min(p.interest.lastSeenIndex, f))
  }

  /** The claims at the present rate fit the free SY: read before the step that crosses maturity. */
  predicate Covered(w: World) {
    Sum(CappedClaim(w.vault.finalRate), w.positions) <= ONE * Free(w.vault) + w.mergedPy
  }

  predicate Crosses(w: World, e: Event) {
    w.clock <= Maturity(w.vault) < e.now
  }

  ghost predicate CoveredRun(w: World, events: seq<Event>)
    requires |w.positions| > 0
    decreases |events|
  {
    events != [] ==>
      && (Commit(w, events[0]).Ok? && Crosses(w, events[0]) ==> Covered(w))
      && CoveredRun(Step(w, events[0]), events[1..])
  }

  /** After maturity, emergency or not: the free SY at the current rate covers the PT left and what
      each position has still to earn up to the final rate. */
  predicate Matured(v: Vault, ps: seq<Position>, k: nat) {
    && |ps| > 0
    && (forall i :: 0 <= i < |ps| && ps[i].ytBalance > 0 ==> 0 < ps[i].interest.lastSeenIndex)
    && Sum(StagedOf, ps) == v.uncollectedSy
    && v.finalRate <= v.lastSeenRate <= v.allTimeHigh
    && v.ptSupply <= Sum(YtOf, ps)
    && ONE * Worth(Free(v), v.lastSeenRate, v.finalRate) + ONE * ONE * (Sum(YtOf, ps) - v.ptSupply) + v.finalRate * k
         >= v.finalRate * Sum(CappedClaim(v.finalRate), ps)
    && (v.finalRate == 0 ==> Untouched(v, ps))
  }

  predicate MaturedInvariant(w: World) {
    && w.clock > Maturity(w.vault)
    && Matured(w.vault, w.positions, w.mergedPy)
    && SetAside(w.vault, w.mergedPy)
  }

  predicate Safe(w: World) {
    Invariant(w) || MaturedInvariant(w)
  }

  // ---------- the crossing ----------

  lemma SmallerIndexClaimsMore(yt: nat, a: nat, b: nat)
    requires yt > 0 ==> 0 < a <= b
    ensures yt * Reciprocal(b) <= yt * Reciprocal(a)
  {
    if yt > 0 {
      ReciprocalAntitone(a, b);
      MulMono(Reciprocal(b), Reciprocal(a), yt);
    }
  }

  lemma CappedIsNoMore(ps: seq<Position>, f: nat)
    requires forall i :: 0 <= i < |ps| && ps[i].ytBalance > 0 ==> ps[i].interest.lastSeenIndex <= f
    ensures Sum(CappedClaim(f), ps) <= Sum(ClaimOf, ps)
  {
    forall i | 0 <= i < |ps| ensures CappedClaim(f)(ps[i]) <= ClaimOf(ps[i]) + 0 * YtOf(ps[i]) {
      if ps[i].ytBalance > 0 {
        assert Min(ps[i].interest.lastSeenIndex, f) == ps[i].interest.lastSeenIndex;
      }
    }
    SumAtMostPlus(CappedClaim(f), ClaimOf, 0, YtOf, ps);
  }

  /** A vault that is not in an emergency meets the condition. */
  lemma CalmIsCovered(w: World)
    requires Invariant(w) && w.clock <= Maturity(w.vault) && !InEmergency(w.vault)
    ensures Covered(w)
  {
    CappedIsNoMore(w.positions, w.vault.finalRate);
  }

  lemma CoveredWorth(free: int, f: nat, k: nat, claims: nat)
    requires claims <= ONE * free + k
    ensures ONE * (free * f) + f * k >= f * claims
  {
    MulMono(claims, ONE * free + k, f);
    assert (ONE * free + k) * f == ONE * (free * f) + f * k;
  }

  lemma CrossingMatures(w: World)
    requires Invariant(w) && w.clock <= Maturity(w.vault) && Covered(w)
    ensures Matured(w.vault, w.positions, w.mergedPy)
  {
    var v := w.vault;
    CoveredWorth(Free(v), v.finalRate, w.mergedPy, Sum(CappedClaim(v.finalRate), w.positions));
  }

  /** Where every step after maturity starts from. */
  lemma StartsMatured(w: World, e: Event)
    requires Safe(w) && e.now > Maturity(w.vault) && e.now >= w.clock
    requires Crosses(w, e) ==> Covered(w)
    ensures Matured(w.vault, w.positions, w.mergedPy) && SetAside(w.vault, w.mergedPy)
  {
    if Invariant(w) {
      if w.clock <= Maturity(w.vault) {
        CrossingMatures(w);
      } else {
        CappedIsNoMore(w.positions, w.vault.finalRate);
        MulMono(Sum(CappedClaim(w.vault.finalRate), w.positions), Sum(ClaimOf, w.positions), w.vault.finalRate);
      }
    }
  }

  // ---------- statements after maturity ----------

  lemma MaturedTotals(ps: seq<Position>, i: nat, p: Position, f: nat)
    requires i < |ps|
    ensures Sum(CappedClaim(f), ps[i := p]) + CappedClaim(f)(ps[i]) == Sum(CappedClaim(f), ps) + CappedClaim(f)(p)
  {
    SumUpdate(CappedClaim(f), ps, i, p);
    TotalsAfter(ps, i, p);
  }

  lemma MaturedRefresh(v: Vault, ps: seq<Position>, k: nat, now: nat, sy: SyState, v1: Vault)
    requires Matured(v, ps, k) && now > Maturity(v) && v.finalRate > 0
    requires UpdateFromSyState(v, sy, now) == Ok(v1) && !InEmergency(v1)
    ensures Matured(v1, ps, k) && SetAside(v1, k)
  {
    var swept := UpdateFrame(v, sy, now, v1);
    SweepSyKeeps(v, now, sy.exchangeRate, swept);
    assert Free(v1) == Free(swept);
    BackingIsAffordable(v1.lastSeenRate, v1.ptSupply, ActiveSy(v1), v1.syForPt);
  }

  lemma CappedEarning(yt: nat, index: nat, f: nat, earned: nat)
    requires f > 0 && (yt > 0 ==> index > 0)
    requires CalcEarnedSy(yt, index, f) == Ok(earned)
    ensures ONE * earned + yt * Reciprocal(f) <= yt * Reciprocal(Min(index, f))
  {
    if index < f {
      EarnedIsClaimGivenUp(yt, index, f, earned);
    }
  }

  lemma MaturedEarn(v: Vault, ps: seq<Position>, i: nat, k: nat, v1: Vault, p1: Position)
    requires i < |ps| && Matured(v, ps, k) && Earn(v, ps[i]) == Ok((v1, p1))
    ensures Matured(v1, ps[i := p1], k) && v1 == v.(uncollectedSy := v1.uncollectedSy)
    ensures SetAside(v, k) ==> SetAside(v1, k)
  {
    var a, earned := EarnEffect(v, ps[i], v1, p1);
    var f := v.finalRate;
    TotalsAfter(ps, i, p1);
    MaturedTotals(ps, i, p1, f);
    if !InEmergency(v) {
      CappedEarning(ps[i].ytBalance, ps[i].interest.lastSeenIndex, f, a);
      ScalingKeepsValue(a, f, v.lastSeenRate, earned);
      WorthOfPaying(Free(v), earned, v.lastSeenRate, f);
      assert Free(v1) == Free(v) - earned;
      WorthCoversClaims(Worth(Free(v), v.lastSeenRate, f), Worth(Free(v1), v.lastSeenRate, f),
        ONE * ONE * (Sum(YtOf, ps) - v.ptSupply) + f * k, f, a,
        Sum(CappedClaim(f), ps), Sum(CappedClaim(f), ps[i := p1]));
    }
  }

  lemma MaturedPay(v: Vault, ps: seq<Position>, i: nat, k: nat, amount: nat, v1: Vault, p1: Position)
    requires i < |ps| && Matured(v, ps, k) && PayStaged(v, ps[i], amount) == Ok((v1, p1))
    ensures Matured(v1, ps[i := p1], k)
    ensures SetAside(v, k) ==> SetAside(v1, k)
    ensures Maturity(v1) == Maturity(v)
  {
    TotalsAfter(ps, i, p1);
    MaturedTotals(ps, i, p1, v.finalRate);
    assert Free(v1) == Free(v);
  }

  lemma MaturedSameInterest(v: Vault, ps: seq<Position>, i: nat, p: Position, k: nat)
    requires i < |ps| && Matured(v, ps, k) && p.ytBalance == ps[i].ytBalance && p.interest == ps[i].interest
    ensures Matured(v, ps[i := p], k)
  {
    TotalsAfter(ps, i, p);
    MaturedTotals(ps, i, p, v.finalRate);
  }

  // ---------- instructions after maturity ----------

  predicate MaturedCommits(w: World, now: nat, a: Action, w1: World) {
    && now > Maturity(w.vault)
    && Matured(w.vault, w.positions, w.mergedPy) && SetAside(w.vault, w.mergedPy)
    && Perform(w, now, a) == Ok(w1)
  }

  lemma RobotRefreshes(w: World, now: nat, sy: SyState, v1: Vault, r1: Position)
    requires now > Maturity(w.vault) && Matured(w.vault, w.positions, w.mergedPy)
    requires UpdateVaultYield(w.vault, w.positions[0], now, sy) == Ok((v1, r1)) && !InEmergency(v1)
    ensures Matured(v1, w.positions[0 := r1], w.mergedPy) && SetAside(v1, w.mergedPy)
    ensures Maturity(v1) == Maturity(w.vault) && v1.startTs == w.vault.startTs && v1.finalRate > 0
  {
    var v0 := UpdateFromSyState(w.vault, sy, now).value;
    var swept := UpdateFrame(w.vault, sy, now, v0);
    var a, e := EarnEffect(v0, w.positions[0], v1, r1);
    MaturedRefresh(w.vault, w.positions, w.mergedPy, now, sy, v0);
    MaturedEarn(v0, w.positions, 0, w.mergedPy, v1, r1);
  }

  lemma ResetSyForPt(v: Vault, ps: seq<Position>, k: nat, v1: Vault)
    requires Matured(v, ps, k) && v.finalRate > 0 && !InEmergency(v) && SetSyForPt(v) == Ok(v1)
    ensures Matured(v1, ps, k) && SetAside(v1, k) && Maturity(v1) == Maturity(v)
  {
    BackingIsAffordable(v.lastSeenRate, v.ptSupply, ActiveSy(v), v1.syForPt);
  }

  lemma MaturedRedeem(v: Vault, ps: seq<Position>, k: nat, amount: nat, paid: nat, v1: Vault)
    requires Matured(v, ps, k) && v.finalRate > 0 && paid * v.lastSeenRate <= amount * ONE
    requires paid <= v.totalSyInEscrow && amount <= v.ptSupply
    requires v1 == v.(totalSyInEscrow := v.totalSyInEscrow - paid, ptSupply := v.ptSupply - amount)
    ensures Matured(v1, ps, k)
  {
    WorthOfPaying(Free(v), paid, v.lastSeenRate, v.finalRate);
    assert Free(v1) == Free(v) - paid;
  }

  lemma KeepsDates(v: Vault, p: Position, now: nat, sy: SyState, v1: Vault, r1: Position)
    requires UpdateVaultYield(v, p, now, sy) == Ok((v1, r1))
    ensures v1.startTs == v.startTs && v1.duration == v.duration
  {
    var v0 := UpdateFromSyState(v, sy, now).value;
    var swept := UpdateFrame(v, sy, now, v0);
    var a, e := EarnEffect(v0, p, v1, r1);
  }

  lemma MaturedMergeParts(w: World, now: nat, sy: SyState, amount: nat, w1: World)
    returns (v1: Vault, r1: Position, paid: nat, v2: Vault)
    requires |w.positions| > 0 && now > Maturity(w.vault) && Perform(w, now, Merge(sy, amount)) == Ok(w1)
    ensures UpdateVaultYield(w.vault, w.positions[0], now, sy) == Ok((v1, r1)) && !InEmergency(v1)
    ensures Maturity(v1) == Maturity(w.vault) && v1.startTs == w.vault.startTs
    ensures RedemptionAmount(v1, amount) == Ok(paid) && paid <= v1.totalSyInEscrow && amount <= v1.ptSupply
    ensures v2 == v1.(totalSyInEscrow := v1.totalSyInEscrow - paid, ptSupply := v1.ptSupply - amount)
    ensures SetSyForPt(v2) == Ok(w1.vault)
    ensures w1.positions == w.positions[0 := r1] && w1.mergedPy == w.mergedPy
  {
    var res := UpdateVaultYield(w.vault, w.positions[0], now, sy).value;
    v1, r1 := res.0, res.1;
    KeepsDates(w.vault, w.positions[0], now, sy, v1, r1);
    paid := RedemptionAmount(v1, amount).value;
    v2 := v1.(totalSyInEscrow := v1.totalSyInEscrow - paid, ptSupply := v1.ptSupply - amount);
  }

  lemma MaturedMergeKeeps(w: World, now: nat, sy: SyState, amount: nat, w1: World)
    requires MaturedCommits(w, now, Merge(sy, amount), w1)
    ensures MaturedInvariant(w1.(clock := now))
  {
    var v1, r1, paid, v2 := MaturedMergeParts(w, now, sy, amount, w1);
    RobotRefreshes(w, now, sy, v1, r1);
    RedemptionBounds(v1, amount, paid);
    MaturedRedeem(v1, w1.positions, w.mergedPy, amount, paid, v2);
    ResetSyForPt(v2, w1.positions, w.mergedPy, w1.vault);
  }

  lemma MaturedStageKeeps(w: World, now: nat, user: nat, sy: SyState, w1: World)
    requires MaturedCommits(w, now, StageYield(user, sy), w1)
    ensures MaturedInvariant(w1.(clock := now))
  {
    var (v1, r1) := UpdateVaultYield(w.vault, w.positions[0], now, sy).value;
    RobotRefreshes(w, now, sy, v1, r1);
    var (v2, u1) := Earn(v1, w.positions[user]).value;
    MaturedEarn(v1, w.positions[0 := r1], user, w.mergedPy, v2, u1);
    ResetSyForPt(v2, w1.positions, w.mergedPy, w1.vault);
  }

  lemma MaturedCollectKeeps(w: World, now: nat, user: nat, amount: nat, w1: World)
    requires MaturedCommits(w, now, CollectUserInterest(user, amount), w1)
    ensures MaturedInvariant(w1.(clock := now))
  {
    var (v1, u1) := Earn(w.vault, w.positions[user]).value;
    MaturedEarn(w.vault, w.positions, user, w.mergedPy, v1, u1);
    var (v2, u2) := PayStaged(v1, u1, amount).value;
    MaturedPay(v1, w.positions[user := u1], user, w.mergedPy, amount, v2, u2);
    assert w1.positions == w.positions[user := u1][user := u2];
  }

  lemma MaturedOpenKeeps(w: World, now: nat, w1: World)
    requires MaturedCommits(w, now, OpenPosition, w1)
    ensures MaturedInvariant(w1.(clock := now))
  {
    SumAppend(YtOf, w.positions, EMPTY_POSITION);
    SumAppend(StagedOf, w.positions, EMPTY_POSITION);
    SumAppend(CappedClaim(w.vault.finalRate), w.positions, EMPTY_POSITION);
  }

  lemma MaturedTakeKeeps(w: World, now: nat, a: Action, w1: World)
    requires MaturedCommits(w, now, a, w1) && (a.TakeTreasurySy? || a.TakeRobotSy?)
    ensures MaturedInvariant(w1.(clock := now))
  {
    if a.TakeRobotSy? {
      MaturedPay(w.vault, w.positions, 0, w.mergedPy, a.amount, w1.vault, w1.positions[0]);
    } else {
      assert Free(w1.vault) == Free(w.vault);
    }
  }

  lemma MaturedOthersKeep(w: World, now: nat, a: Action, w1: World)
    requires MaturedCommits(w, now, a, w1)
    requires a.CollectUserEmission? || a.TakeTreasuryEmission? || a.TakeRobotEmission? || a.RegisterEmission? || a.ChangeSettings?
    ensures MaturedInvariant(w1.(clock := now))
  {
    var i := if a.CollectUserEmission? then a.user else 0;
    MaturedSameInterest(w.vault, w.positions, i, w1.positions[i], w.mergedPy);
    assert w1.positions == w.positions[i := w1.positions[i]];
    assert Free(w1.vault) == Free(w.vault);
  }

  lemma MaturedCommitKeeps(w: World, now: nat, a: Action, w1: World)
    requires MaturedCommits(w, now, a, w1)
    ensures MaturedInvariant(w1.(clock := now))
  {
    match a
    case Merge(sy, amount) => MaturedMergeKeeps(w, now, sy, amount, w1);
    case StageYield(user, sy) => MaturedStageKeeps(w, now, user, sy, w1);
    case CollectUserInterest(user, amount) => MaturedCollectKeeps(w, now, user, amount, w1);
    case OpenPosition => MaturedOpenKeeps(w, now, w1);
    case TakeTreasurySy(_) => MaturedTakeKeeps(w, now, a, w1);
    case TakeRobotSy(_) => MaturedTakeKeeps(w, now, a, w1);
    case CollectUserEmission(_, _, _) => MaturedOthersKeep(w, now, a, w1);
    case TakeTreasuryEmission(_, _) => MaturedOthersKeep(w, now, a, w1);
    case TakeRobotEmission(_, _) => MaturedOthersKeep(w, now, a, w1);
    case RegisterEmission(_) => MaturedOthersKeep(w, now, a, w1);
    case ChangeSettings(_, _) => MaturedOthersKeep(w, now, a, w1);
    case Strip(_, _) =>
    case DepositYt(_, _, _) =>
    case WithdrawYt(_, _, _) =>
  }

  // ---------- runs ----------

  lemma SafeStep(w: World, e: Event, w1: World)
    requires Safe(w) && Commit(w, e) == Ok(w1) && (Crosses(w, e) ==> Covered(w))
    ensures Safe(w1)
  {
    var w0 := Perform(w, e.now, e.action).value;
    if e.now > Maturity(w.vault) {
      StartsMatured(w, e);
      MaturedCommitKeeps(w, e.now, e.action, w0);
    } else {
      CommitKeeps(w, e, w1);
    }
  }

  lemma {:induction false} SafeRun(w: World, events: seq<Event>)
    requires Safe(w) && CoveredRun(w, events)
    ensures Safe(Run(w, events))
    decreases |events|
  {
    if events != [] {
      var r := Commit(w, events[0]);
      if r.Ok? {
        SafeStep(w, events[0], r.value);
      }
      SafeRun(Step(w, events[0]), events[1..]);
    }
  }

  // ---------- solvency and backing ----------

  lemma CappedAtFinalRate(ps: seq<Position>, f: nat)
    requires f > 0
    requires forall i :: 0 <= i < |ps| && ps[i].ytBalance > 0 ==> 0 < ps[i].interest.lastSeenIndex
    ensures Sum(YtOf, ps) * Reciprocal(f) <= Sum(CappedClaim(f), ps)
  {
    forall i | 0 <= i < |ps| ensures YtOf(ps[i]) * Reciprocal(f) <= CappedClaim(f)(ps[i]) {
      SmallerIndexClaimsMore(ps[i].ytBalance, Min(ps[i].interest.lastSeenIndex, f), f);
    }
    SumScaledAtMost(YtOf, CappedClaim(f), Reciprocal(f), ps);
  }

  /** The free SY covers the PT supply at the current rate, up to the dust. */
  lemma MaturedCoversPt(v: Vault, ps: seq<Position>, k: nat)
    requires Matured(v, ps, k) && v.finalRate > 0
    ensures ONE * ONE * v.ptSupply
         <= (if Free(v) >= 0 then v.lastSeenRate else v.finalRate) * (ONE * Free(v) + k + Sum(YtOf, ps))
  {
    var f, yt := v.finalRate, Sum(YtOf, ps);
    CappedAtFinalRate(ps, f);
    MaturedArithmetic(Worth(Free(v), v.lastSeenRate, f), yt, v.ptSupply, f, k, Sum(CappedClaim(f), ps));
    FreeSyInUnits(Free(v), v.lastSeenRate, f, k + yt, v.ptSupply);
  }

  lemma MaturedMeansSolvent(w: World)
    requires MaturedInvariant(w)
    ensures ONE * (w.vault.syForPt + w.vault.treasurySy + w.vault.uncollectedSy) <= ONE * w.vault.totalSyInEscrow + Dust(w)
  {
    var v := w.vault;
    if !InEmergency(v) && v.finalRate > 0 {
      MaturedCoversPt(v, w.positions, w.mergedPy);
      BackingWithinFree(v.syForPt, Free(v), v.lastSeenRate, v.finalRate, Dust(w), v.ptSupply);
    }
  }

  lemma SafeMeansSolvent(w: World)
    requires Safe(w)
    ensures ONE * (w.vault.syForPt + w.vault.treasurySy + w.vault.uncollectedSy) <= ONE * w.vault.totalSyInEscrow + Dust(w)
  {
    if Invariant(w) {
      InvariantMeansSolvent(w);
    } else {
      MaturedMeansSolvent(w);
    }
  }

  /** Solvency over every run whose crossing meets the condition, an emergency at maturity included:
      the escrow is never short by more than the dust, and below one unit of it never at all. */
  lemma SolventWhenCovered(startTs: nat, duration: nat, events: seq<Event>)
    requires CoveredRun(Genesis(startTs, duration), events)
    ensures
      var w := Run(Genesis(startTs, duration), events);
      var owed := w.vault.syForPt + w.vault.treasurySy + w.vault.uncollectedSy;
      && ONE * owed <= ONE * w.vault.totalSyInEscrow + Dust(w)
      && (Dust(w) < ONE ==> owed <= w.vault.totalSyInEscrow)
  {
    GenesisIsSound(startTs, duration);
    SafeRun(Genesis(startTs, duration), events);
    SafeMeansSolvent(Run(Genesis(startTs, duration), events));
  }

  /** Every calm run meets the condition where it crosses. */
  lemma {:induction false} CalmRunIsCovered(w: World, events: seq<Event>)
    requires Invariant(w) && CalmRun(w, events)
    ensures CoveredRun(w, events)
    decreases |events|
  {
    if events != [] {
      var r := Commit(w, events[0]);
      if r.Ok? {
        if Crosses(w, events[0]) {
          CalmIsCovered(w);
        }
        CommitKeeps(w, events[0], r.value);
      }
      CalmRunIsCovered(Step(w, events[0]), events[1..]);
    }
  }

  /** What backing means just after the SY for PT was set: the face value, or within the dust of it. */
  predicate Backed(w: World) {
    var v := w.vault;
    && v.lastSeenRate > 0
    && v.syForPt <= DivFloor(v.ptSupply, v.lastSeenRate)
    && v.lastSeenRate * (ONE * (v.syForPt + 1) + Dust(w)) > ONE * ONE * v.ptSupply
    && (Dust(w) < ONE ==> v.syForPt == DivFloor(v.ptSupply, v.lastSeenRate))
  }

  lemma SafeIsBacked(w: World)
    requires Safe(w) && IsSet(w.vault) && !InEmergency(w.vault)
    ensures Backed(w)
  {
    var v := w.vault;
    if Invariant(w) {
      JustSetAside(v, w.positions, w.mergedPy, w.clock);
    } else {
      MaturedCoversPt(v, w.positions, w.mergedPy);
      SetAsideArithmetic(v.ptSupply, v.lastSeenRate, v.finalRate, Free(v), v.syForPt, Dust(w));
    }
  }

  /** PT backing over every run whose crossing meets the condition: after any refreshing instruction
      outside an emergency, PT is backed by its face value up to the dust. */
  lemma PtBackedWhenCovered(startTs: nat, duration: nat, events: seq<Event>, e: Event, w1: World)
    requires CoveredRun(Genesis(startTs, duration), events)
    requires Commit(Run(Genesis(startTs, duration), events), e) == Ok(w1)
    requires Crosses(Run(Genesis(startTs, duration), events), e) ==> Covered(Run(Genesis(startTs, duration), events))
    requires Refreshes(e.action) && !InEmergency(w1.vault)
    ensures Backed(w1)
  {
    GenesisIsSound(startTs, duration);
    SafeRun(Genesis(startTs, duration), events);
    var w := Run(Genesis(startTs, duration), events);
    SafeStep(w, e, w1);
    CommittedIsSet(w, e, w1);
    SafeIsBacked(w1);
  }
}
