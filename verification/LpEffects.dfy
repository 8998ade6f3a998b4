/** What each committed instruction of the LP side moves, and the ledger that follows over whole runs:
    whose staked LP is whose. */
module LpEffects {
  import opened Outcome
  import opened FixedPoint
  import opened LpSpec
  import opened LpRuns
  import opened LpConservation
  import LpCredit

  // ---------- indexes and trackers ----------

  /** `tokens` shared out over `staked` LP: less than one last place short of the exact share, and
      nothing when nobody stakes. */
  predicate SharedOut(index: nat, index1: nat, tokens: nat, staked: nat) {
    && (staked == 0 ==> index1 == index)
    && (staked > 0 ==> index <= index1 && (index1 - index) * staked <= tokens * ONE < (index1 - index) * staked + staked)
  }

  predicate EmissionSynced(e: MarketEmission, e1: MarketEmission, claimable: nat, staked: nat) {
    && e.lastSeenStaged <= claimable == e1.lastSeenStaged
    && SharedOut(e.lpShareIndex, e1.lpShareIndex, claimable - e.lastSeenStaged, staked)
  }

  predicate FarmSynced(f: Farm, f1: Farm, seen: nat, now: nat, staked: nat) {
    f1 == f.(index := f1.index) && SharedOut(f.index, f1.index, TokensEmitted(f, seen, now), staked)
  }

  predicate FarmsSyncedAll(m: LpMarket, m1: LpMarket, now: nat) {
    && m1.farmsSeenTs == now && |m1.farms| == |m.farms|
    && forall k :: 0 <= k < |m.farms| ==> FarmSynced(m.farms[k], m1.farms[k], m.farmsSeenTs, now, m.lpEscrowAmount)
  }

  predicate EmissionsSyncedAll(m: LpMarket, m1: LpMarket, claimable: seq<nat>) {
    && |claimable| <= |m.emissions| == |m1.emissions|
    && (forall k :: 0 <= k < |claimable| ==> EmissionSynced(m.emissions[k], m1.emissions[k], claimable[k], m.lpEscrowAmount))
    && forall k :: |claimable| <= k < |m.emissions| ==> m1.emissions[k] == m.emissions[k]
  }

  lemma RatioShares(index: nat, tokens: nat, staked: nat)
    ensures SharedOut(index, index + Ratio(tokens, staked), tokens, staked)
  {
    if staked > 0 {
      DivBounds(tokens * ONE, staked);
    }
  }

  lemma FarmsSync(m: LpMarket, now: nat, m1: LpMarket)
    requires IncreaseShareIndexes(m, now) == Ok(m1)
    ensures FarmsSyncedAll(m, m1, now) && m1 == m.(farms := m1.farms, farmsSeenTs := now)
  {
    forall k | 0 <= k < |m.farms|
      ensures FarmSynced(m.farms[k], m1.farms[k], m.farmsSeenTs, now, m.lpEscrowAmount)
    {
      assert SyncFarm(m.farms[k], m.farmsSeenTs, now, m.lpEscrowAmount) == Ok(m1.farms[k]);
      RatioShares(m.farms[k].index, TokensEmitted(m.farms[k], m.farmsSeenTs, now), m.lpEscrowAmount);
    }
  }

  lemma EmissionsSync(m: LpMarket, claimable: seq<nat>, m1: LpMarket)
    requires SyncAllEmissions(m, claimable) == Ok(m1)
    ensures EmissionsSyncedAll(m, m1, claimable) && m1 == m.(emissions := m1.emissions)
  {
    forall k | 0 <= k < |claimable|
      ensures EmissionSynced(m.emissions[k], m1.emissions[k], claimable[k], m.lpEscrowAmount)
    {
      assert SyncEmission(m.emissions[k], claimable[k], m.lpEscrowAmount) == Ok(m1.emissions[k]);
      RatioShares(m.emissions[k].lpShareIndex, claimable[k] - m.emissions[k].lastSeenStaged, m.lpEscrowAmount);
    }
  }

  /** Moved to the index with all that was pending credited, but for less than one token. */
  predicate TrackerSettled(t: YieldTracker, t1: YieldTracker, index: nat, lp: nat) {
    && t.lastSeenIndex <= index == t1.lastSeenIndex && t.staged <= t1.staged
    && ONE * (t1.staged - t.staged) <= (index - t.lastSeenIndex) * lp < ONE * (t1.staged - t.staged) + ONE
  }

  predicate PositionSettled(m: LpMarket, p: LpPosition, p1: LpPosition) {
    forall kind, k :: 0 <= k < Streams(kind, m) ==>
      TrackerSettled(TrackerOf(kind, p, k), TrackerOf(kind, p1, k), IndexOf(kind, m, k), p.lpBalance)
  }

  lemma StagingSettlesAll(m: LpMarket, p: LpPosition, p1: LpPosition)
    requires StageAll(m, p) == Ok(p1)
    ensures PositionSettled(m, p, p1) && p1.lpBalance == p.lpBalance
  {
    forall kind, k | 0 <= k < Streams(kind, m)
      ensures TrackerSettled(TrackerOf(kind, p, k), TrackerOf(kind, p1, k), IndexOf(kind, m, k), p.lpBalance)
    {
      StagingSettles(kind, m, p, p1, k);
      LpCredit.CreditIsWhole(TrackerOf(kind, p, k), IndexOf(kind, m, k), p.lpBalance, TrackerOf(kind, p1, k));
    }
  }

  // ---------- one instruction ----------

  predicate OthersStay(w: World, w1: World, user: nat) {
    && user < |w.positions| == |w1.positions|
    && forall i :: 0 <= i < |w.positions| && i != user ==> w1.positions[i] == w.positions[i]
  }

  /** Every index is brought up to date on the LP staked before, the user is settled at those indexes on
      the balance held before, and then balance and escrow move together by `change`. */
  predicate Restaked(w: World, w1: World, now: nat, user: nat, claimable: seq<nat>, change: int)
    requires user < |w.positions|
  {
    && OthersStay(w, w1, user)
    && EmissionsSyncedAll(w.market, w1.market, claimable) && FarmsSyncedAll(w.market, w1.market, now)
    && PositionSettled(w1.market, w.positions[user], w1.positions[user])
    && w1.positions[user].lpBalance == w.positions[user].lpBalance + change
    && w1.market.lpEscrowAmount == w.market.lpEscrowAmount + change
  }

  lemma SettleEffect(m: LpMarket, p: LpPosition, now: nat, claimable: seq<nat>, m1: LpMarket, p1: LpPosition)
    requires Settle(m, p, now, claimable) == Ok((m1, p1))
    ensures EmissionsSyncedAll(m, m1, claimable) && FarmsSyncedAll(m, m1, now) && PositionSettled(m1, p, p1)
    ensures p1.lpBalance == p.lpBalance && m1.lpEscrowAmount == m.lpEscrowAmount
  {
    var m0 := SyncAllEmissions(m, claimable).value;
    EmissionsSync(m, claimable, m0);
    FarmsSync(m0, now, m1);
    StagingSettlesAll(m1, p, p1);
  }

  lemma SameTrackers(m: LpMarket, m1: LpMarket, p: LpPosition, q: LpPosition, q1: LpPosition)
    requires PositionSettled(m, p, q) && m1 == m.(lpEscrowAmount := m1.lpEscrowAmount) && q1 == q.(lpBalance := q1.lpBalance)
    ensures PositionSettled(m1, p, q1)
  {
    forall kind, k | 0 <= k < Streams(kind, m1)
      ensures TrackerSettled(TrackerOf(kind, p, k), TrackerOf(kind, q1, k), IndexOf(kind, m1, k), p.lpBalance)
    {
      assert k < Streams(kind, m) && IndexOf(kind, m, k) == IndexOf(kind, m1, k);
      assert TrackerOf(kind, q, k) == TrackerOf(kind, q1, k);
    }
  }

  /** A deposit stakes exactly `amount` for the user. */
  lemma DepositEffect(w: World, now: nat, user: nat, claimable: seq<nat>, amount: nat, w1: World)
    requires Perform(w, now, Deposit(user, claimable, amount)) == Ok(w1)
    ensures user < |w.positions| && Restaked(w, w1, now, user, claimable, amount)
  {
    var (m1, p1) := Settle(w.market, w.positions[user], now, claimable).value;
    SettleEffect(w.market, w.positions[user], now, claimable, m1, p1);
    SameTrackers(m1, w1.market, w.positions[user], p1, w1.positions[user]);
  }

  /** A withdrawal takes exactly `amount` back. */
  lemma WithdrawEffect(w: World, now: nat, user: nat, claimable: seq<nat>, amount: nat, w1: World)
    requires Perform(w, now, Withdraw(user, claimable, amount)) == Ok(w1)
    ensures user < |w.positions| && Restaked(w, w1, now, user, claimable, 0 - amount)
  {
    var (m1, p1) := Settle(w.market, w.positions[user], now, claimable).value;
    SettleEffect(w.market, w.positions[user], now, claimable, m1, p1);
    SameTrackers(m1, w1.market, w.positions[user], p1, w1.positions[user]);
  }

  /** The user keeps everything but what is staged on stream `k`, which falls by `amount`. */
  ghost predicate PaidOut(kind: Kind, p: LpPosition, p1: LpPosition, k: nat, amount: nat) {
    && p1.lpBalance == p.lpBalance && |p1.emissions| == |p.emissions| && |p1.farms| == |p.farms|
    && TrackerOf(kind, p1, k).staged + amount == TrackerOf(kind, p, k).staged
    && TrackerOf(kind, p1, k).lastSeenIndex == TrackerOf(kind, p, k).lastSeenIndex
    && forall other, j: nat :: (other != kind || j != k) ==> TrackerOf(other, p1, j) == TrackerOf(other, p, j)
  }

  /** Collecting a market emission pays out all that is staged on it, and takes that off the market's
      record; it is refused exactly when there is no such stream or the record is short. */
  lemma CollectEffect(w: World, now: nat, user: nat, k: nat)
    ensures Perform(w, now, Collect(user, k)).Ok?
       <==> && user < |w.positions| && k < |w.positions[user].emissions| && k < |w.market.emissions|
            && w.positions[user].emissions[k].staged <= w.market.emissions[k].lastSeenStaged
    ensures Perform(w, now, Collect(user, k)).Ok? ==>
      var w1 := Perform(w, now, Collect(user, k)).value;
      var amount := w.positions[user].emissions[k].staged;
      && OthersStay(w, w1, user) && PaidOut(OfEmission, w.positions[user], w1.positions[user], k, amount)
      && w1.market == w.market.(emissions := w1.market.emissions) && |w1.market.emissions| == |w.market.emissions|
      && w1.market.emissions[k].lastSeenStaged + amount == w.market.emissions[k].lastSeenStaged
      && w1.market.emissions[k].lpShareIndex == w.market.emissions[k].lpShareIndex
      && forall j :: 0 <= j < |w.market.emissions| && j != k ==> w1.market.emissions[j] == w.market.emissions[j]
  {
  }

  /** Claiming from a farm pays exactly what is asked, up to what is staged. */
  lemma ClaimEffect(w: World, now: nat, user: nat, k: nat, amount: nat)
    ensures Perform(w, now, Claim(user, k, amount)).Ok?
       <==> user < |w.positions| && k < |w.positions[user].farms| && amount <= w.positions[user].farms[k].staged
    ensures Perform(w, now, Claim(user, k, amount)).Ok? ==>
      var w1 := Perform(w, now, Claim(user, k, amount)).value;
      OthersStay(w, w1, user) && PaidOut(OfFarm, w.positions[user], w1.positions[user], k, amount) && w1.market == w.market
  {
  }

  /** A farm is added after those there are, for a mint none of them pays, at index zero, once they are
      up to date. */
  lemma NewFarmEffect(w: World, now: nat, mint: nat, tokenRate: nat, untilTs: nat, w1: World)
    requires Perform(w, now, NewFarm(mint, tokenRate, untilTs)) == Ok(w1)
    ensures var m, m1, n := w.market, w1.market, |w.market.farms|;
      && w1 == w.(market := m1) && m1 == m.(farms := m1.farms, farmsSeenTs := now) && |m1.farms| == n + 1
      && FarmsSyncedAll(m, m1.(farms := m1.farms[..n]), now) && m1.farms[n] == Farm(mint, tokenRate, untilTs, 0)
      && now <= untilTs && (untilTs - now) * tokenRate <= U64_MAX
      && forall k :: 0 <= k < n ==> m.farms[k].mint != mint
  {
    var m0 := IncreaseShareIndexes(w.market, now).value;
    FarmsSync(w.market, now, m0);
    assert w1.market.farms[..|w.market.farms|] == m0.farms;
  }

  /** New terms start after the index is up to date under the old ones. */
  lemma ChangeFarmEffect(w: World, now: nat, k: nat, tokenRate: nat, expiryTs: nat, w1: World)
    requires Perform(w, now, ChangeFarm(k, tokenRate, expiryTs)) == Ok(w1)
    ensures k < |w.market.farms| == |w1.market.farms|
    ensures var m, m1 := w.market, w1.market;
      && w1 == w.(market := m1) && m1 == m.(farms := m1.farms, farmsSeenTs := now)
      && m1.farms[k].tokenRate == tokenRate && m1.farms[k].expiryTs == expiryTs
      && var before := m1.farms[k].(tokenRate := m.farms[k].tokenRate, expiryTs := m.farms[k].expiryTs);
         FarmsSyncedAll(m, m1.(farms := m1.farms[k := before]), now)
  {
    FarmsSync(w.market, now, IncreaseShareIndexes(w.market, now).value);
  }

  // ---------- nothing to settle ----------

  predicate Current(ts: seq<YieldTracker>, indexes: seq<nat>) {
    && |ts| >= |indexes|
    && forall k :: 0 <= k < |indexes| ==> ts[k].lastSeenIndex == indexes[k] && ts[k].staged <= U64_MAX
  }

  lemma {:induction false} EarnNothing(ts: seq<YieldTracker>, indexes: seq<nat>, lp: nat, n: nat)
    requires Current(ts, indexes) && n <= |indexes|
    ensures EarnAll(ts, indexes, lp, n) == Ok(ts)
  {
    if n > 0 {
      EarnNothing(ts, indexes, lp, n - 1);
      assert MulFloor(0, lp) == 0;
      assert EarnTracker(ts[n - 1], indexes[n - 1], lp) == Ok(ts[n - 1]);
      assert ts[n - 1 := ts[n - 1]] == ts;
    }
  }

  lemma {:induction false} EmitNothing(fs: seq<Farm>, now: nat, staked: nat, n: nat)
    requires n <= |fs|
    ensures SyncFarms(fs, now, now, staked, n) == Ok(fs)
  {
    if n > 0 {
      EmitNothing(fs, now, staked, n - 1);
      assert TokensEmitted(fs[n - 1], now, now) == 0;
      assert Ratio(0, staked) == 0;
      assert fs[n - 1 := fs[n - 1]] == fs;
    }
  }

  /** In the same second, with nothing new to collect, settling a position that is up to date changes
      nothing. */
  lemma SettlingAgain(m: LpMarket, p: LpPosition)
    requires Current(p.emissions, EmissionIndexes(m)) && Current(p.farms, FarmIndexes(m))
    ensures Settle(m, p, m.farmsSeenTs, []) == Ok((m, p))
  {
    assert SyncAllEmissions(m, []) == Ok(m);
    EmitNothing(m.farms, m.farmsSeenTs, m.lpEscrowAmount, |m.farms|);
    EarnNothing(p.emissions, EmissionIndexes(m), p.lpBalance, |m.emissions|);
    EarnNothing(p.farms, FarmIndexes(m), p.lpBalance, |m.farms|);
  }

  lemma StagedIsCurrent(ts: seq<YieldTracker>, indexes: seq<nat>, lp: nat, r: seq<YieldTracker>)
    requires EnsureTrackersAndEarnAll(ts, indexes, lp) == Ok(r)
    ensures Current(r, indexes)
  {
    forall k | 0 <= k < |indexes| ensures r[k].lastSeenIndex == indexes[k] && r[k].staged <= U64_MAX {
      SettledTracker(ts, indexes, lp, r, k);
    }
  }

  /** A new position may stake at once, as far as the amounts fit. */
  lemma FirstDepositCommits(w: World, user: nat, amount: nat)
    requires user < |w.positions| && w.positions[user] == NewFromMarket(w.market)
    ensures Perform(w, w.market.farmsSeenTs, Deposit(user, [], amount)).Ok? <==> w.market.lpEscrowAmount + amount <= U64_MAX
  {
    SettlingAgain(w.market, w.positions[user]);
  }

  /** A withdrawal undoes the deposit of the same second: it commits, and leaves the world as if the
      position had only been settled. */
  lemma WithdrawUndoesDeposit(w: World, now: nat, user: nat, claimable: seq<nat>, amount: nat, w1: World)
    requires Perform(w, now, Deposit(user, claimable, amount)) == Ok(w1)
    ensures user < |w.positions|
    ensures var settled := Settle(w.market, w.positions[user], now, claimable);
            settled.Ok? && Perform(w1, now, Withdraw(user, [], amount)) == Ok(With(w, settled.value.0, user, settled.value.1))
  {
    var (m1, p1) := Settle(w.market, w.positions[user], now, claimable).value;
    SettledTwice(w.market, w.positions[user], now, claimable, m1, p1, w1.market, w1.positions[user]);
    UnstakingRestores(w, now, user, m1, p1, amount, w1);
  }

  lemma SettledTwice(m: LpMarket, p: LpPosition, now: nat, claimable: seq<nat>, m1: LpMarket, p1: LpPosition,
                     m2: LpMarket, p2: LpPosition)
    requires Settle(m, p, now, claimable) == Ok((m1, p1))
    requires m2 == m1.(lpEscrowAmount := m2.lpEscrowAmount) && p2 == p1.(lpBalance := p2.lpBalance)
    ensures Settle(m2, p2, now, []) == Ok((m2, p2))
  {
    var m0 := SyncAllEmissions(m, claimable).value;
    assert IncreaseShareIndexes(m0, now).Ok?;
    StagedIsCurrent(p.emissions, EmissionIndexes(m1), p.lpBalance, p1.emissions);
    StagedIsCurrent(p.farms, FarmIndexes(m1), p.lpBalance, p1.farms);
    assert EmissionIndexes(m2) == EmissionIndexes(m1) && FarmIndexes(m2) == FarmIndexes(m1);
    SettlingAgain(m2, p2);
  }

  lemma UnstakingRestores(w: World, now: nat, user: nat, m1: LpMarket, p1: LpPosition, amount: nat, w1: World)
    requires user < |w.positions| == |w1.positions| && w1 == With(w, w1.market, user, w1.positions[user])
    requires w1.market == m1.(lpEscrowAmount := m1.lpEscrowAmount + amount)
    requires w1.positions[user] == p1.(lpBalance := p1.lpBalance + amount)
    requires Settle(w1.market, w1.positions[user], now, []) == Ok((w1.market, w1.positions[user]))
    ensures Perform(w1, now, Withdraw(user, [], amount)) == Ok(With(w, m1, user, p1))
  {
    assert WithdrawLp(w1.market, w1.positions[user], now, [], amount) == Ok((m1, p1));
    assert w1.positions[user := p1] == w.positions[user := p1];
  }

  // ---------- whose LP is whose ----------

  datatype Stakes = Stakes(deposited: nat, withdrawn: nat)

  function StakesAfter(e: Event, user: nat, s: Stakes): Stakes {
    if e.action.Deposit? && e.action.user == user then s.(deposited := s.deposited + e.action.amount)
    else if e.action.Withdraw? && e.action.user == user then s.(withdrawn := s.withdrawn + e.action.amount)
    else s
  }

  function RunStakes(w: World, events: seq<Event>, user: nat, s: Stakes): Stakes
    decreases |events|
  {
    if events == [] then s
    else RunStakes(Step(w, events[0]), events[1..], user, if Committed(w, events[0]) then StakesAfter(events[0], user, s) else s)
  }

  predicate OwnsItsStakes(w: World, user: nat, s: Stakes) {
    if user < |w.positions| then w.positions[user].lpBalance + s.withdrawn == s.deposited else s == Stakes(0, 0)
  }

  lemma StakesStep(w: World, e: Event, user: nat, s: Stakes, w1: World)
    requires Perform(w, e.now, e.action) == Ok(w1) && OwnsItsStakes(w, user, s)
    ensures OwnsItsStakes(w1, user, StakesAfter(e, user, s))
  {
    match e.action
    case Deposit(u, claimable, amount) => DepositEffect(w, e.now, u, claimable, amount, w1);
    case Withdraw(u, claimable, amount) => WithdrawEffect(w, e.now, u, claimable, amount, w1);
    case Collect(u, k) => CollectEffect(w, e.now, u, k);
    case Claim(u, k, amount) => ClaimEffect(w, e.now, u, k, amount);
    case Open =>
    case NewFarm(_, _, _) =>
    case ChangeFarm(_, _, _) =>
    case NewEmission =>
  }

  lemma {:induction false} StakesOverRun(w: World, events: seq<Event>, user: nat, s: Stakes)
    requires OwnsItsStakes(w, user, s)
    ensures OwnsItsStakes(Run(w, events), user, RunStakes(w, events, user, s))
    decreases |events|
  {
    if events != [] {
      var e := events[0];
      if Committed(w, e) {
        StakesStep(w, e, user, s, Perform(w, e.now, e.action).value);
      }
      StakesOverRun(Step(w, e), events[1..], user, if Committed(w, e) then StakesAfter(e, user, s) else s);
    }
  }

  /** In any run a user's staked LP is what they deposited less what they withdrew: nothing anybody else
      does touches it. */
  lemma StakeIsWhatWasDepositedLessWithdrawn(events: seq<Event>, user: nat)
    ensures OwnsItsStakes(Run(GENESIS, events), user, RunStakes(GENESIS, events, user, Stakes(0, 0)))
  {
    StakesOverRun(GENESIS, events, user, Stakes(0, 0));
  }
}
