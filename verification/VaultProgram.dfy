/** The vault and yield-position accounts as the program mutates them, one statement at a time.
    A method that reports `Reverted` may leave its accounts half changed: the runtime throws that
    state away. A method that reports `Ok` leaves exactly the state that VaultSpec gives. */
module VaultProgram {
  import opened Outcome
  import opened Spec = VaultSpec

  class YieldTokenPosition {
    var ytBalance: nat
    var interest: Tracker
    var emissions: seq<Tracker>

    function View(): Position
      reads this
    {
      Position(ytBalance, interest, emissions)
    }

    constructor ()
      ensures View() == Position(0, Tracker(0, 0), [])
    {
      ytBalance, interest, emissions := 0, Tracker(0, 0), [];
    }

    method IncYtBalance(amount: nat) returns (r: Result<()>)
      modifies this
      ensures r.Ok? <==> IncYt(old(View()), amount).Ok?
      ensures r.Ok? ==> IncYt(old(View()), amount) == Outcome.Ok(View())
    {
      ytBalance :- CheckedAdd(ytBalance, amount);
      return Ok(());
    }

    method DecYtBalance(amount: nat) returns (r: Result<()>)
      modifies this
      ensures r.Ok? <==> DecYt(old(View()), amount).Ok?
      ensures r.Ok? ==> DecYt(old(View()), amount) == Outcome.Ok(View())
    {
      ytBalance :- CheckedSub(ytBalance, amount);
      return Ok(());
    }

    method EnsureTrackers(vault: VaultAccount)
      modifies this
      ensures View() == old(View()).(emissions := Spec.EnsureTrackers(old(emissions), |vault.emissions|))
    {
      for index := 0 to |vault.emissions|
        invariant ytBalance == old(ytBalance) && interest == old(interest)
        invariant |emissions| >= index
        invariant Spec.EnsureTrackers(emissions, |vault.emissions|)
               == Spec.EnsureTrackers(old(emissions), |vault.emissions|)
      {
        if index >= |emissions| {
          emissions := emissions + [Tracker(0, 0)];
        }
      }
    }

    method EarnSyInterest(vault: VaultAccount) returns (r: Result<()>)
      modifies this, vault
      ensures r.Ok? <==> Spec.EarnSyInterest(old(vault.View()), old(View())).Ok?
      ensures r.Ok? ==> Spec.EarnSyInterest(old(vault.View()), old(View())) == Outcome.Ok((vault.View(), View()))
    {
      if InEmergency(vault.View()) {
        return Ok(());
      }
      var rate := vault.finalRate;
      var atFinal :- CalcEarnedSy(ytBalance, interest.lastSeenIndex, rate);
      var earned :- ScaleToCurrentRate(atFinal, rate, vault.lastSeenRate);
      var staged :- CheckedAdd(interest.staged, earned);
      interest := interest.(staged := staged);
      vault.uncollectedSy :- CheckedAdd(vault.uncollectedSy, earned);
      interest := interest.(lastSeenIndex := rate);
      return Ok(());
    }

    method EarnEmissions(vault: VaultAccount) returns (r: Result<()>)
      requires |emissions| >= |vault.emissions|
      modifies this
      ensures r.Ok? <==> Spec.EarnEmissions(vault.View(), old(View())).Ok?
      ensures r.Ok? ==> Spec.EarnEmissions(vault.View(), old(View())) == Outcome.Ok(View())
    {
      var sy :- PyToSy(vault.finalRate, ytBalance);
      var balance :- CheckedAdd(interest.staged, sy);
      var n := |vault.emissions|;
      for index := 0 to n
        invariant ytBalance == old(ytBalance) && interest == old(interest)
        invariant |emissions| == |old(emissions)|
        invariant EarnTrackers(old(emissions), vault.emissions, balance, index) == Outcome.Ok(emissions)
      {
        var e := vault.emissions[index];
        var t := emissions[index];
        if EarnTracker(t, e, balance).Reverted? {
          EarnTrackersRevert(old(emissions), vault.emissions, balance, index, n);
        }
        var earned :- ShareValue(t.lastSeenIndex, e.finalIndex, balance);
        var staged :- CheckedAdd(t.staged, earned);
        t := t.(staged := staged);
        t := t.(lastSeenIndex := e.finalIndex);
        emissions := emissions[index := t];
      }
      return Ok(());
    }

    method EarnAllWithTracking(vault: VaultAccount) returns (r: Result<()>)
      modifies this, vault
      ensures r.Ok? <==> Earn(old(vault.View()), old(View())).Ok?
      ensures r.Ok? ==> Earn(old(vault.View()), old(View())) == Outcome.Ok((vault.View(), View()))
    {
      EnsureTrackers(vault);
      var _ :- EarnSyInterest(vault);
      var _ :- EarnEmissions(vault);
      return Ok(());
    }
  }

  /** A stream that cannot be credited stops the whole pass. */
  lemma EarnTrackersRevert(ts: seq<Tracker>, es: seq<EmissionInfo>, balance: nat, k: nat, n: nat)
    requires k < n && n <= |es| && n <= |ts|
    requires EarnTracker(ts[k], es[k], balance).Reverted?
    ensures EarnTrackers(ts, es, balance, n).Reverted?
  {
  }

  lemma SweepEmissionsRevert(es: seq<EmissionInfo>, indexes: seq<nat>, escrow: nat, k: nat, n: nat)
    requires k < n && n <= |es| && n <= |indexes|
    requires SweepEmission(es[k], indexes[k], escrow).Reverted?
    ensures SweepEmissions(es, indexes, escrow, n).Reverted?
  {
  }

  class VaultAccount {
    var startTs: nat
    var duration: nat
    var lastSeenRate: nat
    var allTimeHigh: nat
    var finalRate: nat
    var totalSyInEscrow: nat
    var syForPt: nat
    var ptSupply: nat
    var treasurySy: nat
    var uncollectedSy: nat
    var interestBpsFee: nat
    var maxPySupply: nat
    var emissions: seq<EmissionInfo>

    function View(): Vault
      reads this
    {
      Vault(startTs, duration, lastSeenRate, allTimeHigh, finalRate, totalSyInEscrow, syForPt, ptSupply,
            treasurySy, uncollectedSy, interestBpsFee, maxPySupply, emissions)
    }

    constructor (startTs: nat, duration: nat, interestBpsFee: nat)
      ensures View() == Vault(startTs, duration, 0, 0, 0, 0, 0, 0, 0, 0, interestBpsFee, U64_MAX, [])
    {
      this.startTs, this.duration, this.interestBpsFee := startTs, duration, interestBpsFee;
      lastSeenRate, allTimeHigh, finalRate := 0, 0, 0;
      totalSyInEscrow, syForPt, ptSupply, treasurySy, uncollectedSy := 0, 0, 0, 0, 0;
      maxPySupply, emissions := U64_MAX, [];
    }

    method SetSyForPt() returns (r: Result<()>)
      modifies this
      ensures r.Ok? <==> Spec.SetSyForPt(old(View())).Ok?
      ensures r.Ok? ==> Spec.SetSyForPt(old(View())) == Outcome.Ok(View())
    {
      syForPt :- SyBackingForPt(lastSeenRate, ptSupply, ActiveSy(View()));
      return Ok(());
    }

    /** First every stream's surplus, then the treasury balances. */
    method SweepEmissionsToTreasury(indexes: seq<nat>) returns (r: Result<()>)
      modifies this`emissions
      ensures
        var n := SweptStreams(old(View()), SyState(0, indexes));
        var spec := SweepEmissions(old(emissions), indexes, totalSyInEscrow, n);
        && (r.Ok? <==> spec.Ok?)
        && (r.Ok? ==> spec == Outcome.Ok(emissions))
    {
      var n := SweptStreams(View(), SyState(0, indexes));
      var surpluses: seq<nat> := [];
      for i := 0 to n
        invariant |surpluses| == i
        invariant emissions == old(emissions)
        invariant forall k :: 0 <= k < i ==>
          ShareValue(emissions[k].lastSeenIndex, indexes[k], totalSyInEscrow) == Outcome.Ok(surpluses[k])
      {
        if ShareValue(emissions[i].lastSeenIndex, indexes[i], totalSyInEscrow).Reverted? {
          SweepEmissionsRevert(emissions, indexes, totalSyInEscrow, i, n);
        }
        var s :- ShareValue(emissions[i].lastSeenIndex, indexes[i], totalSyInEscrow);
        surpluses := surpluses + [s];
      }
      for i := 0 to |surpluses|
        invariant |emissions| == |old(emissions)|
        invariant SweepEmissions(old(emissions), indexes, totalSyInEscrow, i) == Outcome.Ok(emissions)
      {
        if CheckedAdd(emissions[i].treasuryEmission, surpluses[i]).Reverted? {
          SweepEmissionsRevert(old(emissions), indexes, totalSyInEscrow, i, n);
        }
        var treasury :- CheckedAdd(emissions[i].treasuryEmission, surpluses[i]);
        emissions := emissions[i := emissions[i].(treasuryEmission := treasury)];
      }
      return Ok(());
    }

    method RecordEmissionIndexes(indexes: seq<nat>, now: nat) returns (r: Result<()>)
      modifies this`emissions
      ensures r.Ok? <==> |indexes| <= |old(emissions)|
      ensures r.Ok? ==> emissions == RecordIndexes(old(emissions), indexes, IsActive(old(View()), now))
    {
      for i := 0 to |indexes|
        invariant |emissions| == |old(emissions)|
        invariant i <= |emissions|
        invariant forall k :: 0 <= k < |emissions| ==>
          emissions[k] == if k < i then RecordIndex(old(emissions)[k], indexes[k], IsActive(old(View()), now))
                          else old(emissions)[k]
      {
        if i >= |emissions| {
          return Reverted(MissingEmission);
        }
        emissions := emissions[i := emissions[i].(lastSeenIndex := indexes[i])];
        if IsActive(View(), now) {
          emissions := emissions[i := emissions[i].(finalIndex := indexes[i])];
        }
      }
      return Ok(());
    }

    method SweepSyToTreasury(rate: nat, now: nat) returns (r: Result<()>)
      modifies this`treasurySy
      ensures r.Ok? <==> SweepSy(old(View()), rate, now).Ok?
      ensures r.Ok? ==> SweepSy(old(View()), rate, now) == Outcome.Ok(View())
    {
      if IsExpired(View(), now) && rate > allTimeHigh {
        var surplus :- SyAppreciation(lastSeenRate, rate, ActiveSy(View()));
        treasurySy :- CheckedAdd(treasurySy, surplus);
      }
      return Ok(());
    }

    method RecordRates(rate: nat, now: nat)
      modifies this`lastSeenRate, this`allTimeHigh, this`finalRate
      ensures View() == Spec.RecordRates(old(View()), rate, now)
    {
      lastSeenRate := rate;
      allTimeHigh := if rate >= allTimeHigh then rate else allTimeHigh;
      if IsActive(View(), now) {
        finalRate := rate;
      }
    }

    method UpdateFromSyState(sy: SyState, now: nat) returns (r: Result<()>)
      modifies this
      ensures r.Ok? <==> Spec.UpdateFromSyState(old(View()), sy, now).Ok?
      ensures r.Ok? ==> Spec.UpdateFromSyState(old(View()), sy, now) == Outcome.Ok(View())
    {
      if startTs + duration > U32_MAX {
        return Reverted(Overflow);
      }
      var _ :- SweepSyToTreasury(sy.exchangeRate, now);
      if IsExpired(View(), now) {
        var _ :- SweepEmissionsToTreasury(sy.emissionIndexes);
      }
      RecordRates(sy.exchangeRate, now);
      var _ :- RecordEmissionIndexes(sy.emissionIndexes, now);
      var _ :- SetSyForPt();
      return Ok(());
    }

    method UpdateVaultYield(robot: YieldTokenPosition, now: nat, sy: SyState) returns (r: Result<()>)
      modifies this, robot
      ensures r.Ok? <==> Spec.UpdateVaultYield(old(View()), old(robot.View()), now, sy).Ok?
      ensures r.Ok? ==>
        Spec.UpdateVaultYield(old(View()), old(robot.View()), now, sy) == Outcome.Ok((View(), robot.View()))
    {
      var _ :- UpdateFromSyState(sy, now);
      var _ :- robot.EarnAllWithTracking(this);
      return Ok(());
    }

    method IncPtSupply(amount: nat) returns (r: Result<()>)
      modifies this
      ensures r.Ok? <==> Spec.IncPtSupply(old(View()), amount).Ok?
      ensures r.Ok? ==> Spec.IncPtSupply(old(View()), amount) == Outcome.Ok(View())
    {
      ptSupply :- CheckedAdd(ptSupply, amount);
      if ptSupply > maxPySupply {
        return Reverted(SupplyCapExceeded);
      }
      return Ok(());
    }

    method HandleStrip(robot: YieldTokenPosition, now: nat, sy: SyState, amountSy: nat) returns (r: Result<nat>)
      modifies this, robot
      ensures r.Ok? <==> Spec.HandleStrip(old(View()), old(robot.View()), now, sy, amountSy).Ok?
      ensures r.Ok? ==>
        Spec.HandleStrip(old(View()), old(robot.View()), now, sy, amountSy) == Outcome.Ok((View(), robot.View(), r.value))
    {
      var _ :- UpdateVaultYield(robot, now, sy);
      if InEmergency(View()) {
        return Reverted(VaultInEmergencyMode);
      }
      var amountPy :- SyToPy(lastSeenRate, amountSy);
      totalSyInEscrow :- CheckedAdd(totalSyInEscrow, amountSy);
      var _ :- IncPtSupply(amountPy);
      var _ :- robot.IncYtBalance(amountPy);
      var _ :- SetSyForPt();
      return Ok(amountPy);
    }

    method HandleMerge(robot: YieldTokenPosition, now: nat, sy: SyState, amountPy: nat) returns (r: Result<nat>)
      modifies this, robot
      ensures r.Ok? <==> Spec.HandleMerge(old(View()), old(robot.View()), now, sy, amountPy).Ok?
      ensures r.Ok? ==>
        Spec.HandleMerge(old(View()), old(robot.View()), now, sy, amountPy) == Outcome.Ok((View(), robot.View(), r.value))
    {
      var _ :- UpdateVaultYield(robot, now, sy);
      if InEmergency(View()) {
        return Reverted(VaultInEmergencyMode);
      }
      if IsActive(View(), now) {
        var _ :- robot.DecYtBalance(amountPy);
      }
      var amountSy :- RedemptionAmount(View(), amountPy);
      totalSyInEscrow :- CheckedSub(totalSyInEscrow, amountSy);
      ptSupply :- CheckedSub(ptSupply, amountPy);
      var _ :- SetSyForPt();
      return Ok(amountSy);
    }

    method HandleDepositYt(robot: YieldTokenPosition, user: YieldTokenPosition, sy: SyState, now: nat, amount: nat)
      returns (r: Result<()>)
      requires robot != user
      modifies this, robot, user
      ensures r.Ok? <==> Spec.HandleDepositYt(old(View()), old(robot.View()), old(user.View()), sy, now, amount).Ok?
      ensures r.Ok? ==>
        Spec.HandleDepositYt(old(View()), old(robot.View()), old(user.View()), sy, now, amount)
          == Outcome.Ok((View(), robot.View(), user.View()))
    {
      var _ :- UpdateVaultYield(robot, now, sy);
      if InEmergency(View()) {
        return Reverted(VaultInEmergencyMode);
      }
      var _ :- user.EarnAllWithTracking(this);
      var _ :- user.IncYtBalance(amount);
      var _ :- robot.DecYtBalance(amount);
      var _ :- SetSyForPt();
      return Ok(());
    }

    method HandleWithdrawYt(robot: YieldTokenPosition, user: YieldTokenPosition, sy: SyState, now: nat, amount: nat)
      returns (r: Result<()>)
      requires robot != user
      modifies this, robot, user
      ensures r.Ok? <==> Spec.HandleWithdrawYt(old(View()), old(robot.View()), old(user.View()), sy, now, amount).Ok?
      ensures r.Ok? ==>
        Spec.HandleWithdrawYt(old(View()), old(robot.View()), old(user.View()), sy, now, amount)
          == Outcome.Ok((View(), robot.View(), user.View()))
    {
      var _ :- UpdateVaultYield(robot, now, sy);
      var _ :- user.EarnAllWithTracking(this);
      var _ :- user.DecYtBalance(amount);
      var _ :- robot.IncYtBalance(amount);
      var _ :- SetSyForPt();
      return Ok(());
    }

    method HandleStageYield(robot: YieldTokenPosition, user: YieldTokenPosition, sy: SyState, now: nat)
      returns (r: Result<()>)
      requires robot != user
      modifies this, robot, user
      ensures r.Ok? <==> Spec.HandleStageYield(old(View()), old(robot.View()), old(user.View()), sy, now).Ok?
      ensures r.Ok? ==>
        Spec.HandleStageYield(old(View()), old(robot.View()), old(user.View()), sy, now)
          == Outcome.Ok((View(), robot.View(), user.View()))
    {
      var _ :- UpdateVaultYield(robot, now, sy);
      if InEmergency(View()) {
        return Reverted(VaultInEmergencyMode);
      }
      var _ :- user.EarnAllWithTracking(this);
      var _ :- SetSyForPt();
      return Ok(());
    }

    method CollectInterest(user: YieldTokenPosition, amount: nat) returns (r: Result<(nat, nat)>)
      modifies this, user
      ensures r.Ok? <==> Spec.CollectInterest(old(View()), old(user.View()), amount).Ok?
      ensures r.Ok? ==>
        Spec.CollectInterest(old(View()), old(user.View()), amount)
          == Outcome.Ok((View(), user.View(), r.value.0, r.value.1))
    {
      if amount > user.interest.staged {
        return Reverted(AmountTooLarge);
      }
      var _ :- user.EarnAllWithTracking(this);
      var parts :- SplitInterest(amount, interestBpsFee);
      totalSyInEscrow :- CheckedSub(totalSyInEscrow, amount);
      var staged :- CheckedSub(user.interest.staged, amount);
      user.interest := user.interest.(staged := staged);
      uncollectedSy :- CheckedSub(uncollectedSy, amount);
      return Ok(parts);
    }
  }
}
