/** The market's reward state and LP positions as the program mutates them, loop by loop. An
    `Ok` leaves exactly the state LpSpec gives; a `Reverted` state is thrown away. */
module LpProgram {
  import opened Outcome
  import opened FixedPoint
  import opened Spec = LpSpec

  /** `PersonalYieldTrackers`: one list of trackers inside a position. */
  class Trackers {
    var trackers: seq<YieldTracker>

    constructor (ts: seq<YieldTracker>)
      ensures trackers == ts
    {
      trackers := ts;
    }

    method EnsureTrackers(n: nat)
      modifies this
      ensures trackers == Spec.EnsureTrackers(old(trackers), n)
    {
      while |trackers| < n
        invariant Spec.EnsureTrackers(trackers, n) == Spec.EnsureTrackers(old(trackers), n)
      {
        trackers := trackers + [YieldTracker(0, 0)];
      }
    }

    method EarnAll(indexes: seq<nat>, lpBalance: nat) returns (r: Result<()>)
      requires |trackers| >= |indexes|
      modifies this
      ensures r.Ok? <==> Spec.EarnAll(old(trackers), indexes, lpBalance, |indexes|).Ok?
      ensures r.Ok? ==> Spec.EarnAll(old(trackers), indexes, lpBalance, |indexes|) == Outcome.Ok(trackers)
    {
      for pos := 0 to |indexes|
        invariant |trackers| == |old(trackers)|
        invariant Spec.EarnAll(old(trackers), indexes, lpBalance, pos) == Outcome.Ok(trackers)
      {
        var t := trackers[pos];
        if EarnTracker(t, indexes[pos], lpBalance).Reverted? {
          OneTrackerReverts(old(trackers), indexes, lpBalance, pos, |indexes|);
        }
        if indexes[pos] < t.lastSeenIndex {
          return Reverted(Underflow);
        }
        var earned :- ToU64(MulFloor(indexes[pos] - t.lastSeenIndex, lpBalance));
        t := t.(lastSeenIndex := indexes[pos]);
        var staged :- CheckedAdd(t.staged, earned);
        t := t.(staged := staged);
        trackers := trackers[pos := t];
      }
      return Ok(());
    }

    method EnsureTrackersAndEarnAll(indexes: seq<nat>, lpBalance: nat) returns (r: Result<()>)
      modifies this
      ensures r.Ok? <==> Spec.EnsureTrackersAndEarnAll(old(trackers), indexes, lpBalance).Ok?
      ensures r.Ok? ==> Spec.EnsureTrackersAndEarnAll(old(trackers), indexes, lpBalance) == Outcome.Ok(trackers)
    {
      EnsureTrackers(|indexes|);
      r := EarnAll(indexes, lpBalance);
    }
  }

  lemma OneTrackerReverts(ts: seq<YieldTracker>, indexes: seq<nat>, lpBalance: nat, k: nat, n: nat)
    requires k < n && n <= |ts| && n <= |indexes|
    requires EarnTracker(ts[k], indexes[k], lpBalance).Reverted?
    ensures EarnAll(ts, indexes, lpBalance, n).Reverted?
  {
  }

  lemma OneEmissionReverts(es: seq<MarketEmission>, claimable: seq<nat>, lpStaked: nat, k: nat, n: nat)
    requires k < n && n <= |es| && n <= |claimable|
    requires SyncEmission(es[k], claimable[k], lpStaked).Reverted?
    ensures SyncEmissions(es, claimable, lpStaked, n).Reverted?
  {
  }

  lemma OneFarmReverts(fs: seq<Farm>, lastSeenTs: nat, currentTs: nat, lpStaked: nat, k: nat, n: nat)
    requires k < n && n <= |fs|
    requires SyncFarm(fs[k], lastSeenTs, currentTs, lpStaked).Reverted?
    ensures SyncFarms(fs, lastSeenTs, currentTs, lpStaked, n).Reverted?
  {
  }

  class LpPositionAccount {
    var lpBalance: nat
    const emissions: Trackers
    const farms: Trackers

    predicate Valid()
      reads this
    {
      emissions != farms
    }

    function View(): LpPosition
      reads this, emissions, farms
    {
      LpPosition(lpBalance, emissions.trackers, farms.trackers)
    }

    constructor NewFromMarket(m: LpMarketAccount)
      ensures Valid() && View() == Spec.NewFromMarket(m.View())
      ensures fresh(emissions) && fresh(farms)
    {
      var p := Spec.NewFromMarket(m.View());
      lpBalance := 0;
      emissions := new Trackers(p.emissions);
      farms := new Trackers(p.farms);
    }

    method StageAll(m: LpMarketAccount) returns (r: Result<()>)
      requires Valid()
      modifies emissions, farms
      ensures r.Ok? <==> Spec.StageAll(m.View(), old(View())).Ok?
      ensures r.Ok? ==> Spec.StageAll(m.View(), old(View())) == Outcome.Ok(View())
    {
      var _ :- emissions.EnsureTrackersAndEarnAll(EmissionIndexes(m.View()), lpBalance);
      var _ :- farms.EnsureTrackersAndEarnAll(FarmIndexes(m.View()), lpBalance);
      return Ok(());
    }
  }

  class LpMarketAccount {
    var lpEscrowAmount: nat
    var emissions: seq<MarketEmission>
    var farmsSeenTs: nat
    var farms: seq<Farm>

    function View(): LpMarket
      reads this
    {
      LpMarket(lpEscrowAmount, emissions, farmsSeenTs, farms)
    }

    constructor ()
      ensures View() == LpMarket(0, [], 0, [])
    {
      lpEscrowAmount, emissions, farmsSeenTs, farms := 0, [], 0, [];
    }

    method UpdateEmissionsFromPositionState(claimable: seq<nat>) returns (r: Result<()>)
      modifies this`emissions
      ensures r.Ok? <==> SyncAllEmissions(old(View()), claimable).Ok?
      ensures r.Ok? ==> SyncAllEmissions(old(View()), claimable) == Outcome.Ok(View())
    {
      for index := 0 to |claimable|
        invariant index <= |emissions| == |old(emissions)|
        invariant SyncEmissions(old(emissions), claimable, lpEscrowAmount, index) == Outcome.Ok(emissions)
      {
        if index >= |emissions| {
          return Reverted(MissingEmission);
        }
        if SyncEmission(emissions[index], claimable[index], lpEscrowAmount).Reverted? {
          if |claimable| <= |emissions| {
            OneEmissionReverts(old(emissions), claimable, lpEscrowAmount, index, |claimable|);
          }
        }
        ghost var before := emissions;
        var difference :- CheckedSub(claimable[index], emissions[index].lastSeenStaged);
        var increase := Ratio(difference, lpEscrowAmount);
        emissions := emissions[index := emissions[index].(lpShareIndex := emissions[index].lpShareIndex + increase)];
        emissions := emissions[index := emissions[index].(lastSeenStaged := claimable[index])];
        assert emissions == before[index := SyncEmission(before[index], claimable[index], lpEscrowAmount).value];
      }
      return Ok(());
    }

    method IncreaseShareIndexes(now: nat) returns (r: Result<()>)
      modifies this`farms, this`farmsSeenTs
      ensures r.Ok? <==> Spec.IncreaseShareIndexes(old(View()), now).Ok?
      ensures r.Ok? ==> Spec.IncreaseShareIndexes(old(View()), now) == Outcome.Ok(View())
    {
      var n := |farms|;
      for i := 0 to n
        invariant farmsSeenTs == old(farmsSeenTs) && |farms| == n
        invariant SyncFarms(old(farms), farmsSeenTs, now, lpEscrowAmount, i) == Outcome.Ok(farms)
      {
        if SyncFarm(farms[i], farmsSeenTs, now, lpEscrowAmount).Reverted? {
          OneFarmReverts(old(farms), farmsSeenTs, now, lpEscrowAmount, i, n);
        }
        var delta := DeltaTimeFarm(farms[i].expiryTs, farmsSeenTs, now);
        var tokens :- ToU64(farms[i].tokenRate * delta);
        farms := farms[i := farms[i].(index := farms[i].index + Ratio(tokens, lpEscrowAmount))];
      }
      farmsSeenTs := now;
      return Ok(());
    }

    /** Both indexes and the position are settled before any balance changes. */
    method DepositLp(p: LpPositionAccount, now: nat, claimable: seq<nat>, amount: nat) returns (r: Result<()>)
      requires p.Valid()
      modifies this, p, p.emissions, p.farms
      ensures r.Ok? <==> Spec.DepositLp(old(View()), old(p.View()), now, claimable, amount).Ok?
      ensures r.Ok? ==> Spec.DepositLp(old(View()), old(p.View()), now, claimable, amount) == Outcome.Ok((View(), p.View()))
    {
      var _ :- UpdateEmissionsFromPositionState(claimable);
      var _ :- IncreaseShareIndexes(now);
      var _ :- p.StageAll(this);
      lpEscrowAmount :- CheckedAdd(lpEscrowAmount, amount);
      p.lpBalance :- CheckedAdd(p.lpBalance, amount);
      return Ok(());
    }

    method WithdrawLp(p: LpPositionAccount, now: nat, claimable: seq<nat>, amount: nat) returns (r: Result<()>)
      requires p.Valid()
      modifies this, p, p.emissions, p.farms
      ensures r.Ok? <==> Spec.WithdrawLp(old(View()), old(p.View()), now, claimable, amount).Ok?
      ensures r.Ok? ==> Spec.WithdrawLp(old(View()), old(p.View()), now, claimable, amount) == Outcome.Ok((View(), p.View()))
    {
      var _ :- UpdateEmissionsFromPositionState(claimable);
      var _ :- IncreaseShareIndexes(now);
      var _ :- p.StageAll(this);
      p.lpBalance :- CheckedSub(p.lpBalance, amount);
      lpEscrowAmount :- CheckedSub(lpEscrowAmount, amount);
      return Ok(());
    }

    method CollectEmission(p: LpPositionAccount, k: nat) returns (r: Result<nat>)
      requires p.Valid()
      modifies this, p.emissions
      ensures r.Ok? <==> Spec.CollectEmission(old(View()), old(p.View()), k).Ok?
      ensures r.Ok? ==> Spec.CollectEmission(old(View()), old(p.View()), k) == Outcome.Ok((View(), p.View()))
      ensures r.Ok? ==> k < |old(p.emissions.trackers)| && r.value == old(p.emissions.trackers)[k].staged
    {
      if k >= |p.emissions.trackers| {
        return Reverted(MissingEmission);
      }
      var amount := p.emissions.trackers[k].staged;
      p.emissions.trackers := p.emissions.trackers[k := p.emissions.trackers[k].(staged := 0)];
      if k >= |emissions| {
        return Reverted(MissingEmission);
      }
      var left :- CheckedSub(emissions[k].lastSeenStaged, amount);
      emissions := emissions[k := emissions[k].(lastSeenStaged := left)];
      return Ok(amount);
    }
  }
}
