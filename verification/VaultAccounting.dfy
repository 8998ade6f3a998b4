/** Supplies, indexes and payments over every run. */
module VaultAccounting {
  import opened Outcome
  import opened FixedPoint
  import opened Sums
  import opened VaultSpec
  import opened VaultRuns
  import opened VaultInvariant
  import opened VaultPreservation
  import opened VaultSafety
  import opened Solvency

  /** YT and PT supplies agree until maturity and YT never falls below PT; what the vault counts
      as uncollected is exactly what its positions have staged; and every position that holds YT
      last saw an index no later than the robot's, which outside an emergency is the final rate. */
  lemma AccountsAgree(startTs: nat, duration: nat, events: seq<Event>)
    requires CalmRun(Genesis(startTs, duration), events)
    ensures
      var w := Run(Genesis(startTs, duration), events);
      var v, ps := w.vault, w.positions;
      && (w.clock <= Maturity(v) ==> Sum(YtOf, ps) == v.ptSupply)
      && v.ptSupply <= Sum(YtOf, ps)
      && Sum(StagedOf, ps) == v.uncollectedSy
      && (forall i :: 0 <= i < |ps| && ps[i].ytBalance > 0 ==>
           0 < ps[i].interest.lastSeenIndex <= ps[0].interest.lastSeenIndex <= v.allTimeHigh)
      && (!InEmergency(v) ==> ps[0].interest.lastSeenIndex == v.finalRate)
  {
    GenesisIsSound(startTs, duration);
    RunKeepsInvariant(Genesis(startTs, duration), events);
  }

  // ---------- after maturity ----------

  lemma EarnKeepsYt(v: Vault, p: Position)
    requires Earn(v, p).Ok?
    ensures Earn(v, p).value.1.ytBalance == p.ytBalance
    ensures Earn(v, p).value.0.ptSupply == v.ptSupply
    ensures Maturity(Earn(v, p).value.0) == Maturity(v) && Earn(v, p).value.0.startTs == v.startTs
  {
    var (v1, p1) := Earn(v, p).value;
    var a, e := EarnEffect(v, p, v1, p1);
  }

  lemma RefreshKeepsYt(v: Vault, robot: Position, now: nat, sy: SyState)
    requires UpdateVaultYield(v, robot, now, sy).Ok?
    ensures
      var (v1, r1) := UpdateVaultYield(v, robot, now, sy).value;
      && r1.ytBalance == robot.ytBalance && v1.ptSupply == v.ptSupply
      && Maturity(v1) == Maturity(v) && v1.startTs == v.startTs
  {
    var v0 := UpdateFromSyState(v, sy, now).value;
    var swept := UpdateFrame(v, sy, now, v0);
    EarnKeepsYt(v0, robot);
  }

  lemma SameYt(ps: seq<Position>, i: nat, p: Position)
    requires i < |ps| && p.ytBalance == ps[i].ytBalance
    ensures Sum(YtOf, ps[i := p]) == Sum(YtOf, ps)
  {
    SumUpdate(YtOf, ps, i, p);
  }

  lemma MergeFreezes(w: World, now: nat, sy: SyState, py: nat, w1: World)
    requires |w.positions| > 0 && now > Maturity(w.vault) && Perform(w, now, Merge(sy, py)) == Ok(w1)
    ensures w1.positions == w.positions[0 := w1.positions[0]] && w1.positions[0].ytBalance == w.positions[0].ytBalance
    ensures w1.vault.ptSupply <= w.vault.ptSupply && Maturity(w1.vault) == Maturity(w.vault)
  {
    RefreshKeepsYt(w.vault, w.positions[0], now, sy);
  }

  lemma MaturedMerge(w: World, e: Event, w1: World)
    requires |w.positions| > 0 && e.now > Maturity(w.vault) && e.action.Merge? && Commit(w, e) == Ok(w1)
    ensures Frozen(w, w1)
  {
    MergeFreezes(w, e.now, e.action.sy, e.action.amountPy, Perform(w, e.now, e.action).value);
    SameYt(w.positions, 0, w1.positions[0]);
  }

  lemma MaturedStage(w: World, e: Event, w1: World)
    requires |w.positions| > 0 && e.now > Maturity(w.vault) && e.action.StageYield? && Commit(w, e) == Ok(w1)
    ensures Frozen(w, w1)
  {
    var ps, user := w.positions, e.action.user;
    RefreshKeepsYt(w.vault, ps[0], e.now, e.action.sy);
    var (v1, r1) := UpdateVaultYield(w.vault, ps[0], e.now, e.action.sy).value;
    EarnKeepsYt(v1, ps[user]);
    SameYt(ps, 0, r1);
    SameYt(ps[0 := r1], user, w1.positions[user]);
  }

  predicate Frozen(w: World, w1: World) {
    && Sum(YtOf, w1.positions) == Sum(YtOf, w.positions)
    && w1.vault.ptSupply <= w.vault.ptSupply
    && Maturity(w1.vault) == Maturity(w.vault)
  }

  lemma MaturedStep(w: World, e: Event)
    requires |w.positions| > 0 && e.now > Maturity(w.vault)
    ensures Frozen(w, Step(w, e))
  {
    if Commit(w, e).Ok? {
      var w1 := Step(w, e);
      var ps := w.positions;
      match e.action
      case Merge(_, _) => MaturedMerge(w, e, w1);
      case StageYield(_, _) => MaturedStage(w, e, w1);
      case CollectUserInterest(user, amount) =>
        EarnKeepsYt(w.vault, ps[user]);
        SameYt(ps, user, w1.positions[user]);
      case CollectUserEmission(user, stream, amount) => SameYt(ps, user, w1.positions[user]);
      case OpenPosition => SumAppend(YtOf, ps, EMPTY_POSITION);
      case TakeRobotSy(amount) => SameYt(ps, 0, w1.positions[0]);
      case TakeRobotEmission(stream, amount) => SameYt(ps, 0, w1.positions[0]);
      case _ =>
    }
  }

  /** Once matured, the YT supply is frozen and the gap over the PT supply never shrinks. */
  lemma {:induction false} GapNeverShrinks(w: World, events: seq<Event>)
    requires |w.positions| > 0
    requires forall i :: 0 <= i < |events| ==> events[i].now > Maturity(w.vault)
    ensures Sum(YtOf, Run(w, events).positions) == Sum(YtOf, w.positions)
    ensures Run(w, events).vault.ptSupply <= w.vault.ptSupply
    decreases |events|
  {
    if events != [] {
      MaturedStep(w, events[0]);
      GapNeverShrinks(Step(w, events[0]), events[1..]);
    }
  }

  // ---------- payments ----------

  /** Collecting staged interest: the position's and the vault's counters always suffice, and so
      does the escrow while the dust is below one unit; the fee is rounded up and nothing is lost
      between the owner and the treasury. */
  lemma CollectingNeverUnderflows(w: World, user: nat, amount: nat, v1: Vault, p1: Position)
    requires Invariant(w) && IsUser(w, user) && !(w.clock > Maturity(w.vault) && InEmergency(w.vault))
    requires amount <= w.positions[user].interest.staged <= U64_MAX
    requires w.vault.interestBpsFee <= 10000
    requires Earn(w.vault, w.positions[user]) == Ok((v1, p1))
    ensures amount <= p1.interest.staged && amount <= v1.uncollectedSy
    ensures Dust(w) < ONE ==>
      var r := HandleCollectInterest(v1, p1, amount);
      && r.Ok?
      && r.value.0.totalSyInEscrow + amount == v1.totalSyInEscrow
      && r.value.0.uncollectedSy + amount == v1.uncollectedSy
      && r.value.1.interest.staged + amount == p1.interest.staged
      && r.value.2 + r.value.3 == amount
      && r.value.3 * 10000 < amount * w.vault.interestBpsFee + 10000
      && amount * w.vault.interestBpsFee <= r.value.3 * 10000
  {
    var v, ps := w.vault, w.positions;
    EarnKeeps(v, ps, user, w.mergedPy, w.clock, v1, p1);
    SumMember(StagedOf, ps[user := p1], user);
    if Dust(w) < ONE {
      var w1 := WithUser(w, v1, user, p1);
      EarnKeepsYt(v, ps[user]);
      SameYt(ps, user, p1);
      assert SetAside(v1, w.mergedPy) by {
        var a, e := EarnEffect(v, ps[user], v1, p1);
      }
      InvariantMeansSolvent(w1);
      FeeFits(amount, v.interestBpsFee);
    }
  }

  lemma FeeFits(amount: nat, bps: nat)
    requires bps <= 10000 && amount <= U64_MAX
    ensures SplitInterest(amount, bps).Ok?
    ensures
      var (toUser, fee) := SplitInterest(amount, bps).value;
      toUser + fee == amount && fee * 10000 < amount * bps + 10000 && amount * bps <= fee * 10000
  {
    var x := amount * bps + 9999;
    MulMono(bps, 10000, amount);
    DivBounds(x, 10000);
    var fee := x / 10000;
    assert fee <= amount;
    assert fee % (U64_MAX + 1) == fee;
  }

  /** Withdrawing YT never raises what positions may still claim, in an emergency or not. */
  lemma WithdrawNeverRaisesClaims(w: World, now: nat, user: nat, sy: SyState, amount: nat, w1: World)
    requires Commits(w, now, WithdrawYt(user, sy, amount), w1)
    ensures Sum(ClaimOf, w1.positions) <= Sum(ClaimOf, w.positions)
  {
    var ps := w.positions;
    var (v1, r1) := UpdateVaultYield(w.vault, ps[0], now, sy).value;
    var (v2, u1) := Earn(v1, ps[user]).value;
    BothSettled(w, now, sy, user, v1, r1, v2, u1);
    var qs := ps[0 := r1][user := u1];
    EarningLowersClaims(w, now, sy, user, v1, r1, v2, u1);
    var u2, r2 := DecYt(u1, amount).value, IncYt(r1, amount).value;
    MoveYtKeeps(v2, qs, user, 0, amount, w.mergedPy, now, u2, r2);
    assert w1.positions == qs[user := u2][0 := r2];
  }

  lemma EarnLowersClaim(v: Vault, ps: seq<Position>, i: nat, k: nat, now: nat, v1: Vault, p1: Position)
    requires i < |ps| && Sound(v, ps, k, now) && (i != 0 ==> Settled(v, ps))
    requires Earn(v, ps[i]) == Ok((v1, p1))
    ensures Sum(ClaimOf, ps[i := p1]) <= Sum(ClaimOf, ps)
  {
    var atFinal, earned := EarnEffect(v, ps[i], v1, p1);
    TotalsAfter(ps, i, p1);
    if !InEmergency(v) {
      EarnedIsClaimGivenUp(ps[i].ytBalance, ps[i].interest.lastSeenIndex, v.finalRate, atFinal);
    }
  }

  lemma EarningLowersClaims(w: World, now: nat, sy: SyState, user: nat, v1: Vault, r1: Position, v2: Vault, u1: Position)
    requires Invariant(w) && now >= w.clock && IsUser(w, user)
    requires now > Maturity(w.vault) ==> !InEmergency(w.vault) && !InEmergency(v1)
    requires UpdateVaultYield(w.vault, w.positions[0], now, sy) == Ok((v1, r1))
    requires Earn(v1, w.positions[user]) == Ok((v2, u1))
    ensures Sum(ClaimOf, w.positions[0 := r1][user := u1]) <= Sum(ClaimOf, w.positions)
  {
    var ps, k := w.positions, w.mergedPy;
    var v0 := UpdateFromSyState(w.vault, sy, now).value;
    EarnedFromFinalRate(v0, ps[0]);
    TimePasses(w, now);
    RefreshNeedsStart(w, now, sy);
    var a, e := EarnEffect(v0, ps[0], v1, r1);
    RefreshKeeps(w.vault, ps, k, now, sy, v0);
    EarnLowersClaim(v0, ps, 0, k, now, v1, r1);
    UpdateVaultYieldKeeps(w.vault, ps, k, now, sy, v1, r1);
    EarnLowersClaim(v1, ps[0 := r1], user, k, now, v2, u1);
  }
}
