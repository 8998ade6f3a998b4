/** What a refreshing instruction does to every emission stream: what the treasury sweeps and what each
    settled position is credited, from both sides and whatever the rates, and the SY it leaves set
    aside for PT. */
module VaultStreamEffects {
  import opened Outcome
  import opened FixedPoint
  import opened VaultSpec
  import opened VaultRuns
  import opened VaultEmissions

  // ---------- one stream ----------

  /** `credit` is the rise of an index from `last` to `index` on `shares`, rounded down; a fall is
      credited nothing. */
  predicate FairShare(last: nat, index: nat, shares: nat, credit: int) {
    && (index <= last ==> credit == 0)
    && (index > last ==> ONE * credit <= (index - last) * shares < ONE * credit + ONE)
  }

  lemma ShareIsFair(last: nat, index: nat, shares: nat, credit: nat)
    requires ShareValue(last, index, shares) == Ok(credit)
    ensures FairShare(last, index, shares, credit)
  {
    if index > last {
      DivBounds((index - last) * shares, ONE);
    }
  }

  /** The reported index is recorded, as final too while the vault is active; after maturity the rise on
      the whole escrow goes to the treasury. */
  predicate StreamRefreshed(v: Vault, now: nat, index: nat, e: EmissionInfo, e1: EmissionInfo) {
    && e1.lastSeenIndex == index && e1.finalIndex == (if IsActive(v, now) then index else e.finalIndex)
    && (now <= Maturity(v) ==> e1.treasuryEmission == e.treasuryEmission)
    && (now > Maturity(v) ==>
          FairShare(e.lastSeenIndex, index, v.totalSyInEscrow, e1.treasuryEmission - e.treasuryEmission))
  }

  predicate StreamsRefreshed(v: Vault, now: nat, indexes: seq<nat>, v1: Vault) {
    && |indexes| <= |v.emissions| == |v1.emissions|
    && (forall k :: 0 <= k < |indexes| ==> StreamRefreshed(v, now, indexes[k], v.emissions[k], v1.emissions[k]))
    && forall k :: |indexes| <= k < |v.emissions| ==> v1.emissions[k] == v.emissions[k]
  }

  lemma RefreshStreams(v: Vault, sy: SyState, now: nat, v1: Vault)
    requires UpdateFromSyState(v, sy, now) == Ok(v1)
    ensures StreamsRefreshed(v, now, sy.emissionIndexes, v1)
  {
    RefreshCount(v, sy, now, v1);
    forall k | 0 <= k < |sy.emissionIndexes|
      ensures StreamRefreshed(v, now, sy.emissionIndexes[k], v.emissions[k], v1.emissions[k])
    {
      UpdatedStream(v, sy, now, v1, k);
      if now > Maturity(v) {
        var e, x := v.emissions[k], sy.emissionIndexes[k];
        ShareIsFair(e.lastSeenIndex, x, v.totalSyInEscrow, ShareValue(e.lastSeenIndex, x, v.totalSyInEscrow).value);
      }
    }
    forall k | |sy.emissionIndexes| <= k < |v.emissions| ensures v1.emissions[k] == v.emissions[k] {
      UpdatedStream(v, sy, now, v1, k);
    }
  }

  lemma RefreshCount(v: Vault, sy: SyState, now: nat, v1: Vault)
    requires UpdateFromSyState(v, sy, now) == Ok(v1)
    ensures |sy.emissionIndexes| <= |v.emissions| == |v1.emissions|
  {
    var swept := SweepSy(v, sy.exchangeRate, now).value;
    assert SweepAllEmissions(swept, sy, now).Ok?;
  }

  /** `balance` is the SY a position stands for: what it has staged once settled, and its YT at the final
      rate, rounded down. */
  predicate StandsFor(v: Vault, staged: nat, yt: nat, balance: nat) {
    staged <= balance && (balance - staged) * v.finalRate <= yt * ONE < (balance - staged + 1) * v.finalRate
  }

  predicate TrackersCredited(v: Vault, p: Position, ts: seq<Tracker>, balance: nat) {
    && |v.emissions| <= |ts|
    && forall k :: 0 <= k < |v.emissions| ==>
         && ts[k].lastSeenIndex == v.emissions[k].finalIndex
         && FairShare(TrackerAt(p, k).lastSeenIndex, v.emissions[k].finalIndex, balance, ts[k].staged - TrackerAt(p, k).staged)
  }

  lemma EarnStreams(v: Vault, p: Position, v1: Vault, p1: Position) returns (balance: nat)
    requires Earn(v, p) == Ok((v1, p1))
    ensures v1.emissions == v.emissions && v1.finalRate == v.finalRate
    ensures StandsFor(v, p1.interest.staged, p.ytBalance, balance) && TrackersCredited(v, p, p1.emissions, balance)
  {
    var q := p.(emissions := EnsureTrackers(p.emissions, |v.emissions|));
    var (v2, p2) := EarnSyInterest(v, q).value;
    balance := TotalSyBalance(v2, p2).value;
    DivBounds(p.ytBalance * ONE, v.finalRate);
    assert p1.emissions == EarnTrackers(q.emissions, v.emissions, balance, |v.emissions|).value;
    forall k | 0 <= k < |v.emissions|
      ensures p1.emissions[k].lastSeenIndex == v.emissions[k].finalIndex
      ensures FairShare(TrackerAt(p, k).lastSeenIndex, v.emissions[k].finalIndex, balance, p1.emissions[k].staged - TrackerAt(p, k).staged)
    {
      assert q.emissions[k] == TrackerAt(p, k);
      assert EarnTracker(TrackerAt(p, k), v.emissions[k], balance) == Ok(p1.emissions[k]);
      ShareIsFair(TrackerAt(p, k).lastSeenIndex, v.emissions[k].finalIndex, balance, p1.emissions[k].staged - TrackerAt(p, k).staged);
    }
  }

  // ---------- SY set aside ----------

  /** What nobody else has a claim on, or the face value of the PT rounded down, whichever is less. */
  predicate SetAside(v: Vault) {
    var free := if v.treasurySy + v.uncollectedSy <= v.totalSyInEscrow
                then v.totalSyInEscrow - v.treasurySy - v.uncollectedSy else 0;
    && v.syForPt <= free && v.syForPt * v.lastSeenRate <= v.ptSupply * ONE
    && (v.syForPt < free && v.lastSeenRate > 0 ==> v.ptSupply * ONE < (v.syForPt + 1) * v.lastSeenRate)
  }

  lemma SettingAside(v: Vault, v1: Vault)
    requires SetSyForPt(v) == Ok(v1)
    ensures SetAside(v1) && v1 == v.(syForPt := v1.syForPt)
  {
    if v.lastSeenRate > 0 {
      DivBounds(v.ptSupply * ONE, v.lastSeenRate);
      MulMono(v1.syForPt, DivFloor(v.ptSupply, v.lastSeenRate), v.lastSeenRate);
    }
  }

  // ---------- one instruction ----------

  /** Every stream is refreshed on the escrow before the instruction, the robot and the user are credited
      on what they stood for before any YT moved, and the SY for PT is set aside last. */
  predicate StreamsSettled(w: World, now: nat, indexes: seq<nat>, w1: World, balance: nat)
    requires |w.positions| > 0
  {
    && StreamsRefreshed(w.vault, now, indexes, w1.vault) && SetAside(w1.vault)
    && |w1.positions| > 0 && StandsFor(w1.vault, w1.positions[0].interest.staged, w.positions[0].ytBalance, balance)
    && TrackersCredited(w1.vault, w.positions[0], w1.positions[0].emissions, balance)
  }

  lemma RobotStreams(v: Vault, robot: Position, now: nat, sy: SyState, v1: Vault, r1: Position) returns (balance: nat)
    requires UpdateVaultYield(v, robot, now, sy) == Ok((v1, r1))
    ensures StreamsRefreshed(v, now, sy.emissionIndexes, v1)
    ensures StandsFor(v1, r1.interest.staged, robot.ytBalance, balance) && TrackersCredited(v1, robot, r1.emissions, balance)
  {
    var v0 := UpdateFromSyState(v, sy, now).value;
    RefreshStreams(v, sy, now, v0);
    balance := EarnStreams(v0, robot, v1, r1);
  }

  /** The same streams and rate, whatever else has changed since. */
  lemma CreditCarries(v: Vault, v1: Vault, p: Position, p1: Position, q1: Position, balance: nat)
    requires StandsFor(v, p1.interest.staged, p.ytBalance, balance) && TrackersCredited(v, p, p1.emissions, balance)
    requires v1.emissions == v.emissions && v1.finalRate == v.finalRate
    requires q1 == p1.(ytBalance := q1.ytBalance)
    ensures StandsFor(v1, q1.interest.staged, p.ytBalance, balance) && TrackersCredited(v1, p, q1.emissions, balance)
  {
  }

  lemma RefreshCarries(v: Vault, now: nat, indexes: seq<nat>, v1: Vault, v2: Vault)
    requires StreamsRefreshed(v, now, indexes, v1) && v2.emissions == v1.emissions
    ensures StreamsRefreshed(v, now, indexes, v2)
  {
  }

  /** The robot's part of every refreshing instruction: `before` is the vault just before SY is set aside. */
  lemma RobotAssembles(w: World, now: nat, sy: SyState, v1: Vault, r1: Position, before: Vault, w1: World) returns (balance: nat)
    requires |w.positions| > 0 && |w1.positions| > 0 && UpdateVaultYield(w.vault, w.positions[0], now, sy) == Ok((v1, r1))
    requires SetSyForPt(before) == Ok(w1.vault) && before.emissions == v1.emissions && before.finalRate == v1.finalRate
    requires w1.positions[0] == r1.(ytBalance := w1.positions[0].ytBalance)
    ensures StreamsSettled(w, now, sy.emissionIndexes, w1, balance)
    ensures w1.vault.emissions == v1.emissions && w1.vault.finalRate == v1.finalRate
  {
    balance := RobotStreams(w.vault, w.positions[0], now, sy, v1, r1);
    SettingAside(before, w1.vault);
    RefreshCarries(w.vault, now, sy.emissionIndexes, v1, w1.vault);
    CreditCarries(v1, w1.vault, w.positions[0], r1, w1.positions[0], balance);
  }

  lemma StripStreams(w: World, now: nat, sy: SyState, amountSy: nat, w1: World) returns (balance: nat)
    requires |w.positions| > 0 && Perform(w, now, Strip(sy, amountSy)) == Ok(w1)
    ensures StreamsSettled(w, now, sy.emissionIndexes, w1, balance)
  {
    var (v1, r1) := UpdateVaultYield(w.vault, w.positions[0], now, sy).value;
    var before := v1.(totalSyInEscrow := v1.totalSyInEscrow + amountSy,
                      ptSupply := v1.ptSupply + SyToPy(v1.lastSeenRate, amountSy).value);
    balance := RobotAssembles(w, now, sy, v1, r1, before, w1);
  }

  lemma MergeStreams(w: World, now: nat, sy: SyState, amountPy: nat, w1: World) returns (balance: nat)
    requires |w.positions| > 0 && Perform(w, now, Merge(sy, amountPy)) == Ok(w1)
    ensures StreamsSettled(w, now, sy.emissionIndexes, w1, balance)
  {
    var (v1, r1) := UpdateVaultYield(w.vault, w.positions[0], now, sy).value;
    var before := v1.(totalSyInEscrow := v1.totalSyInEscrow - RedemptionAmount(v1, amountPy).value,
                      ptSupply := v1.ptSupply - amountPy);
    balance := RobotAssembles(w, now, sy, v1, r1, before, w1);
  }

  lemma UserAssembles(w: World, user: nat, v1: Vault, v2: Vault, u1: Position, w1: World) returns (balance: nat)
    requires user < |w.positions| == |w1.positions| && Earn(v1, w.positions[user]) == Ok((v2, u1))
    requires w1.vault.emissions == v1.emissions && w1.vault.finalRate == v1.finalRate
    requires w1.positions[user] == u1.(ytBalance := w1.positions[user].ytBalance)
    ensures UserSettled(w, user, w1, balance)
  {
    balance := EarnStreams(v1, w.positions[user], v2, u1);
    CreditCarries(v1, w1.vault, w.positions[user], u1, w1.positions[user], balance);
  }

  predicate UserSettled(w: World, user: nat, w1: World, balance: nat) {
    && user < |w.positions| == |w1.positions|
    && StandsFor(w1.vault, w1.positions[user].interest.staged, w.positions[user].ytBalance, balance)
    && TrackersCredited(w1.vault, w.positions[user], w1.positions[user].emissions, balance)
  }

  lemma DepositYtStreams(w: World, now: nat, user: nat, sy: SyState, amount: nat, w1: World) returns (robotBalance: nat, balance: nat)
    requires |w.positions| > 0 && Perform(w, now, DepositYt(user, sy, amount)) == Ok(w1)
    ensures StreamsSettled(w, now, sy.emissionIndexes, w1, robotBalance) && UserSettled(w, user, w1, balance)
  {
    var (v1, r1) := UpdateVaultYield(w.vault, w.positions[0], now, sy).value;
    var (v2, u1) := Earn(v1, w.positions[user]).value;
    EarnKeepsStreams(v1, w.positions[user], v2, u1);
    robotBalance := RobotAssembles(w, now, sy, v1, r1, v2, w1);
    balance := UserAssembles(w, user, v1, v2, u1, w1);
  }

  lemma WithdrawYtStreams(w: World, now: nat, user: nat, sy: SyState, amount: nat, w1: World) returns (robotBalance: nat, balance: nat)
    requires |w.positions| > 0 && Perform(w, now, WithdrawYt(user, sy, amount)) == Ok(w1)
    ensures StreamsSettled(w, now, sy.emissionIndexes, w1, robotBalance) && UserSettled(w, user, w1, balance)
  {
    var (v1, r1) := UpdateVaultYield(w.vault, w.positions[0], now, sy).value;
    var (v2, u1) := Earn(v1, w.positions[user]).value;
    EarnKeepsStreams(v1, w.positions[user], v2, u1);
    robotBalance := RobotAssembles(w, now, sy, v1, r1, v2, w1);
    balance := UserAssembles(w, user, v1, v2, u1, w1);
  }

  lemma StageYieldStreams(w: World, now: nat, user: nat, sy: SyState, w1: World) returns (robotBalance: nat, balance: nat)
    requires |w.positions| > 0 && Perform(w, now, StageYield(user, sy)) == Ok(w1)
    ensures StreamsSettled(w, now, sy.emissionIndexes, w1, robotBalance) && UserSettled(w, user, w1, balance)
  {
    var (v1, r1) := UpdateVaultYield(w.vault, w.positions[0], now, sy).value;
    var (v2, u1) := Earn(v1, w.positions[user]).value;
    EarnKeepsStreams(v1, w.positions[user], v2, u1);
    robotBalance := RobotAssembles(w, now, sy, v1, r1, v2, w1);
    balance := UserAssembles(w, user, v1, v2, u1, w1);
  }

  lemma EarnKeepsStreams(v: Vault, p: Position, v1: Vault, p1: Position)
    requires Earn(v, p) == Ok((v1, p1))
    ensures v1.emissions == v.emissions && v1.finalRate == v.finalRate
  {
  }

  /** Collecting interest credits the emissions of the user on the interest staged before it is paid. */
  lemma CollectInterestStreams(w: World, now: nat, user: nat, amount: nat, w1: World) returns (balance: nat)
    requires |w.positions| > 0 && Perform(w, now, CollectUserInterest(user, amount)) == Ok(w1)
    ensures IsUser(w, user) && user < |w1.positions| && w1.vault.emissions == w.vault.emissions
    ensures StandsFor(w.vault, w1.positions[user].interest.staged + amount, w.positions[user].ytBalance, balance)
    ensures TrackersCredited(w.vault, w.positions[user], w1.positions[user].emissions, balance)
  {
    var (v1, u1) := Earn(w.vault, w.positions[user]).value;
    balance := EarnStreams(w.vault, w.positions[user], v1, u1);
  }
}
