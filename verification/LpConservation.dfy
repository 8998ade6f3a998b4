/** Sums over positions are conserved exactly, in 10^-12 fixed point: rewards staged and paid, and
    rewards still pending in unsettled positions, never exceed what came in. */
module LpConservation {
  import opened Outcome
  import opened FixedPoint
  import opened Sums
  import opened LpSpec
  import opened LpRuns

  /** A missing tracker counts from index zero, which is where it will be created. */
  function At(ts: seq<YieldTracker>, k: nat): YieldTracker {
    if k < |ts| then ts[k] else YieldTracker(0, 0)
  }

  /** The two kinds of reward stream. */
  datatype Kind = OfEmission | OfFarm

  function TrackerOf(kind: Kind, p: LpPosition, k: nat): YieldTracker {
    match kind
    case OfEmission => At(p.emissions, k)
    case OfFarm => At(p.farms, k)
  }

  function LpOf(p: LpPosition): nat {
    p.lpBalance
  }

  function StagedOf(kind: Kind, k: nat): LpPosition -> nat {
    (p: LpPosition) => TrackerOf(kind, p, k).staged
  }

  /** What settling at `index` would credit, scaled by 10^12. */
  function PendingAt(kind: Kind, p: LpPosition, k: nat, index: nat): nat {
    if TrackerOf(kind, p, k).lastSeenIndex <= index
    then (index - TrackerOf(kind, p, k).lastSeenIndex) * p.lpBalance
    else 0
  }

  function Pending(kind: Kind, k: nat, index: nat): LpPosition -> nat {
    (p: LpPosition) => PendingAt(kind, p, k, index)
  }

  /** Staged plus paid plus pending stays within what came in. */
  predicate Conserved(kind: Kind, ps: seq<LpPosition>, k: nat, index: nat, paid: nat, budget: nat) {
    ONE * (Sum(StagedOf(kind, k), ps) + paid) + Sum(Pending(kind, k, index), ps) <= ONE * budget
  }

  // ---------- one position ----------

  lemma TotalsAfter(kind: Kind, ps: seq<LpPosition>, i: nat, p: LpPosition, k: nat, x: nat)
    requires i < |ps|
    ensures Sum(StagedOf(kind, k), ps[i := p]) + TrackerOf(kind, ps[i], k).staged
         == Sum(StagedOf(kind, k), ps) + TrackerOf(kind, p, k).staged
    ensures Sum(Pending(kind, k, x), ps[i := p]) + PendingAt(kind, ps[i], k, x)
         == Sum(Pending(kind, k, x), ps) + PendingAt(kind, p, k, x)
  {
    SumUpdate(StagedOf(kind, k), ps, i, p);
    SumUpdate(Pending(kind, k, x), ps, i, p);
  }

  lemma CreditWithinPending(t: YieldTracker, index: nat, lp: nat, t1: YieldTracker)
    requires EarnTracker(t, index, lp) == Ok(t1)
    ensures t.lastSeenIndex <= index == t1.lastSeenIndex && t1.staged >= t.staged
    ensures ONE * (t1.staged - t.staged) <= (index - t.lastSeenIndex) * lp
  {
    DivBounds((index - t.lastSeenIndex) * lp, ONE);
  }

  lemma SettledTracker(ts: seq<YieldTracker>, indexes: seq<nat>, lp: nat, r: seq<YieldTracker>, k: nat)
    requires EnsureTrackersAndEarnAll(ts, indexes, lp) == Ok(r) && k < |indexes|
    ensures k < |r| && EarnTracker(At(ts, k), indexes[k], lp) == Ok(r[k])
  {
    assert EnsureTrackers(ts, |indexes|)[k] == At(ts, k);
  }

  lemma SettledCount(ts: seq<YieldTracker>, indexes: seq<nat>, lp: nat, r: seq<YieldTracker>)
    requires EnsureTrackersAndEarnAll(ts, indexes, lp) == Ok(r) && |ts| <= |indexes|
    ensures |r| == |indexes|
  {
  }

  function IndexOf(kind: Kind, m: LpMarket, k: nat): nat
    requires k < Streams(kind, m)
  {
    match kind
    case OfEmission => m.emissions[k].lpShareIndex
    case OfFarm => m.farms[k].index
  }

  function Streams(kind: Kind, m: LpMarket): nat {
    match kind
    case OfEmission => |m.emissions|
    case OfFarm => |m.farms|
  }

  lemma StagingSettles(kind: Kind, m: LpMarket, p0: LpPosition, p: LpPosition, k: nat)
    requires k < Streams(kind, m) && StageAll(m, p0) == Ok(p)
    ensures p.lpBalance == p0.lpBalance
    ensures EarnTracker(TrackerOf(kind, p0, k), IndexOf(kind, m, k), p.lpBalance) == Ok(TrackerOf(kind, p, k))
  {
    match kind {
      case OfEmission => SettledTracker(p0.emissions, EmissionIndexes(m), p.lpBalance, p.emissions, k);
      case OfFarm => SettledTracker(p0.farms, FarmIndexes(m), p.lpBalance, p.farms, k);
    }
  }

  /** Settling turns what a position had pending into staged rewards, rounding down. */
  lemma SettlingCredits(kind: Kind, p0: LpPosition, p: LpPosition, k: nat, index: nat)
    requires p.lpBalance == p0.lpBalance
    requires EarnTracker(TrackerOf(kind, p0, k), index, p.lpBalance) == Ok(TrackerOf(kind, p, k))
    ensures TrackerOf(kind, p, k).lastSeenIndex == index && PendingAt(kind, p, k, index) == 0
    ensures ONE * TrackerOf(kind, p, k).staged <= ONE * TrackerOf(kind, p0, k).staged + PendingAt(kind, p0, k, index)
  {
    CreditWithinPending(TrackerOf(kind, p0, k), index, p.lpBalance, TrackerOf(kind, p, k));
  }

  lemma StagingConserves(kind: Kind, m: LpMarket, ps: seq<LpPosition>, i: nat, p: LpPosition, k: nat, paid: nat, budget: nat)
    requires i < |ps| && k < Streams(kind, m)
    requires StageAll(m, ps[i]) == Ok(p)
    requires Conserved(kind, ps, k, IndexOf(kind, m, k), paid, budget)
    ensures Conserved(kind, ps[i := p], k, IndexOf(kind, m, k), paid, budget)
    ensures TrackerOf(kind, p, k).lastSeenIndex == IndexOf(kind, m, k) && p.lpBalance == ps[i].lpBalance
  {
    var index := IndexOf(kind, m, k);
    StagingSettles(kind, m, ps[i], p, k);
    SettlingCredits(kind, ps[i], p, k, index);
    SettledPositionConserves(kind, ps, i, p, k, index, paid, budget);
  }

  lemma SettledPositionConserves(kind: Kind, ps: seq<LpPosition>, i: nat, p: LpPosition, k: nat, index: nat, paid: nat, budget: nat)
    requires i < |ps| && Conserved(kind, ps, k, index, paid, budget)
    requires ONE * TrackerOf(kind, p, k).staged + PendingAt(kind, p, k, index)
          <= ONE * TrackerOf(kind, ps[i], k).staged + PendingAt(kind, ps[i], k, index)
    ensures Conserved(kind, ps[i := p], k, index, paid, budget)
  {
    TotalsAfter(kind, ps, i, p, k, index);
  }

  /** A settled position may stake or unstake. */
  lemma RestakingConserves(kind: Kind, ps: seq<LpPosition>, i: nat, p: LpPosition, k: nat, index: nat, paid: nat, budget: nat)
    requires i < |ps| && Conserved(kind, ps, k, index, paid, budget)
    requires p == ps[i].(lpBalance := p.lpBalance)
    requires TrackerOf(kind, ps[i], k).lastSeenIndex == index
    ensures Conserved(kind, ps[i := p], k, index, paid, budget)
  {
    TotalsAfter(kind, ps, i, p, k, index);
  }

  // ---------- indexes ----------

  lemma PendingGrows(kind: Kind, ps: seq<LpPosition>, k: nat, x: nat, d: nat)
    ensures Sum(Pending(kind, k, x + d), ps) <= Sum(Pending(kind, k, x), ps) + d * Sum(LpOf, ps)
  {
    forall i | 0 <= i < |ps|
      ensures Pending(kind, k, x + d)(ps[i]) <= Pending(kind, k, x)(ps[i]) + d * LpOf(ps[i])
    {
      var seen, lp := TrackerOf(kind, ps[i], k).lastSeenIndex, ps[i].lpBalance;
      if seen <= x {
        assert (x + d - seen) * lp == (x - seen) * lp + d * lp;
      } else if seen <= x + d {
        MulMono(x + d - seen, d, lp);
      }
    }
    SumAtMostPlus(Pending(kind, k, x + d), Pending(kind, k, x), d, LpOf, ps);
  }

  /** Sharing `tokens` out over the staked LP credits at most `tokens` in all. */
  lemma SharingConserves(kind: Kind, ps: seq<LpPosition>, k: nat, index: nat, tokens: nat, paid: nat, budget: nat)
    requires Conserved(kind, ps, k, index, paid, budget)
    ensures Conserved(kind, ps, k, index + Ratio(tokens, Sum(LpOf, ps)), paid, budget + tokens)
  {
    var staked := Sum(LpOf, ps);
    var d := Ratio(tokens, staked);
    PendingGrows(kind, ps, k, index, d);
    assert d * staked <= tokens * ONE by {
      if staked > 0 {
        DivBounds(tokens * ONE, staked);
      }
    }
  }

  // ---------- the invariant of a run ----------

  predicate Fits(m: LpMarket, ps: seq<LpPosition>) {
    forall i :: 0 <= i < |ps| ==> |ps[i].emissions| <= |m.emissions| && |ps[i].farms| <= |m.farms|
  }

  predicate FarmOk(m: LpMarket, ps: seq<LpPosition>, k: nat, l: FarmLedger) {
    && (k < |m.farms| ==> Conserved(OfFarm, ps, k, m.farms[k].index, l.claimed, l.emitted))
    && (k >= |m.farms| ==> l == FarmLedger(0, 0))
  }

  predicate EmissionOk(m: LpMarket, ps: seq<LpPosition>, j: nat) {
    j < |m.emissions| ==> Conserved(OfEmission, ps, j, m.emissions[j].lpShareIndex, 0, m.emissions[j].lastSeenStaged)
  }

  /** For farm `k` and market emission `j`. */
  predicate Sound(m: LpMarket, ps: seq<LpPosition>, k: nat, j: nat, l: FarmLedger) {
    && Fits(m, ps)
    && FarmOk(m, ps, k, l)
    && EmissionOk(m, ps, j)
  }

  predicate Invariant(w: World, k: nat, j: nat, l: FarmLedger) {
    Sum(LpOf, w.positions) == w.market.lpEscrowAmount && Sound(w.market, w.positions, k, j, l)
  }

  lemma SyncEmissionsKeeps(m: LpMarket, ps: seq<LpPosition>, claimable: seq<nat>, m1: LpMarket, k: nat, j: nat, l: FarmLedger)
    requires Sound(m, ps, k, j, l) && Sum(LpOf, ps) == m.lpEscrowAmount
    requires SyncAllEmissions(m, claimable) == Ok(m1)
    ensures Sound(m1, ps, k, j, l)
    ensures m1 == m.(emissions := m1.emissions) && |m1.emissions| == |m.emissions|
  {
    if j < |claimable| {
      var e := m.emissions[j];
      SharingConserves(OfEmission, ps, j, e.lpShareIndex, claimable[j] - e.lastSeenStaged, 0, e.lastSeenStaged);
    }
  }

  lemma SyncFarmsKeeps(m: LpMarket, ps: seq<LpPosition>, now: nat, m1: LpMarket, k: nat, j: nat, l: FarmLedger, l1: FarmLedger)
    requires Sound(m, ps, k, j, l) && Sum(LpOf, ps) == m.lpEscrowAmount
    requires IncreaseShareIndexes(m, now) == Ok(m1)
    requires l1 == if k < |m.farms| then l.(emitted := l.emitted + TokensEmitted(m.farms[k], m.farmsSeenTs, now)) else l
    ensures Sound(m1, ps, k, j, l1)
    ensures m1 == m.(farms := m1.farms, farmsSeenTs := now) && |m1.farms| == |m.farms|
    ensures forall i :: 0 <= i < |m.farms| ==> m1.farms[i] == m.farms[i].(index := m1.farms[i].index)
  {
    forall i | 0 <= i < |m.farms| ensures m1.farms[i] == m.farms[i].(index := m1.farms[i].index) {
      assert SyncFarm(m.farms[i], m.farmsSeenTs, now, m.lpEscrowAmount) == Ok(m1.farms[i]);
    }
    if k < |m.farms| {
      SharingConserves(OfFarm, ps, k, m.farms[k].index, TokensEmitted(m.farms[k], m.farmsSeenTs, now), l.claimed, l.emitted);
      assert SyncFarm(m.farms[k], m.farmsSeenTs, now, m.lpEscrowAmount) == Ok(m1.farms[k]);
    }
  }

  lemma StageKeeps(m: LpMarket, ps: seq<LpPosition>, i: nat, p: LpPosition, k: nat, j: nat, l: FarmLedger)
    requires i < |ps| && Sound(m, ps, k, j, l) && StageAll(m, ps[i]) == Ok(p)
    ensures Sound(m, ps[i := p], k, j, l) && p.lpBalance == ps[i].lpBalance
    ensures k < |m.farms| ==> At(p.farms, k).lastSeenIndex == m.farms[k].index
    ensures j < |m.emissions| ==> At(p.emissions, j).lastSeenIndex == m.emissions[j].lpShareIndex
  {
    SettledCount(ps[i].emissions, EmissionIndexes(m), p.lpBalance, p.emissions);
    SettledCount(ps[i].farms, FarmIndexes(m), p.lpBalance, p.farms);
    if k < |m.farms| {
      StagingConserves(OfFarm, m, ps, i, p, k, l.claimed, l.emitted);
    }
    if j < |m.emissions| {
      StagingConserves(OfEmission, m, ps, i, p, j, 0, m.emissions[j].lastSeenStaged);
    }
  }

  /** The part shared by deposits and withdrawals. */
  lemma SettleKeeps(w: World, now: nat, user: nat, claimable: seq<nat>, m1: LpMarket, p1: LpPosition,
      k: nat, j: nat, l: FarmLedger, l1: FarmLedger)
    requires Invariant(w, k, j, l) && user < |w.positions|
    requires Settle(w.market, w.positions[user], now, claimable) == Ok((m1, p1))
    requires l1 == if k < |w.market.farms|
                   then l.(emitted := l.emitted + TokensEmitted(w.market.farms[k], w.market.farmsSeenTs, now)) else l
    ensures Sound(m1, w.positions[user := p1], k, j, l1)
    ensures m1.lpEscrowAmount == w.market.lpEscrowAmount && p1.lpBalance == w.positions[user].lpBalance
    ensures k < |m1.farms| ==> At(p1.farms, k).lastSeenIndex == m1.farms[k].index
    ensures j < |m1.emissions| ==> At(p1.emissions, j).lastSeenIndex == m1.emissions[j].lpShareIndex
  {
    var m0 := SyncAllEmissions(w.market, claimable).value;
    SyncEmissionsKeeps(w.market, w.positions, claimable, m0, k, j, l);
    SyncFarmsKeeps(m0, w.positions, now, m1, k, j, l, l1);
    StageKeeps(m1, w.positions, user, p1, k, j, l1);
  }

  lemma RestakeKeeps(m: LpMarket, ps: seq<LpPosition>, i: nat, p: LpPosition, m1: LpMarket, k: nat, j: nat, l: FarmLedger)
    requires i < |ps| && Sound(m, ps, k, j, l)
    requires p == ps[i].(lpBalance := p.lpBalance) && m1 == m.(lpEscrowAmount := m1.lpEscrowAmount)
    requires k < |m.farms| ==> At(ps[i].farms, k).lastSeenIndex == m.farms[k].index
    requires j < |m.emissions| ==> At(ps[i].emissions, j).lastSeenIndex == m.emissions[j].lpShareIndex
    ensures Sound(m1, ps[i := p], k, j, l)
  {
    if k < |m.farms| {
      RestakingConserves(OfFarm, ps, i, p, k, m.farms[k].index, l.claimed, l.emitted);
    }
    if j < |m.emissions| {
      RestakingConserves(OfEmission, ps, i, p, j, m.emissions[j].lpShareIndex, 0, m.emissions[j].lastSeenStaged);
    }
  }

  lemma RestakedWorld(w: World, e: Event, user: nat, m1: LpMarket, p1: LpPosition, w1: World, k: nat, j: nat, l: FarmLedger)
    requires Invariant(w, k, j, l) && user < |w.positions| == |w1.positions|
    requires e.action.Deposit? || e.action.Withdraw?
    requires Settle(w.market, w.positions[user], e.now, e.action.claimable) == Ok((m1, p1))
    requires w1.positions == w.positions[user := w1.positions[user]]
    requires w1.positions[user] == p1.(lpBalance := w1.positions[user].lpBalance)
    requires w1.market == m1.(lpEscrowAmount := w1.market.lpEscrowAmount)
    requires w1.market.lpEscrowAmount + p1.lpBalance == m1.lpEscrowAmount + w1.positions[user].lpBalance
    ensures Invariant(w1, k, j, Book(w, e, k, l))
  {
    SettleKeeps(w, e.now, user, e.action.claimable, m1, p1, k, j, l, Book(w, e, k, l));
    RestakeKeeps(m1, w.positions[user := p1], user, w1.positions[user], w1.market, k, j, Book(w, e, k, l));
    assert w1.positions == w.positions[user := p1][user := w1.positions[user]];
    SumUpdate(LpOf, w.positions, user, w1.positions[user]);
  }

  lemma DepositKeeps(w: World, e: Event, w1: World, k: nat, j: nat, l: FarmLedger)
    requires Invariant(w, k, j, l) && e.action.Deposit? && Perform(w, e.now, e.action) == Ok(w1)
    ensures Invariant(w1, k, j, Book(w, e, k, l))
  {
    var user := e.action.user;
    var (m1, p1) := Settle(w.market, w.positions[user], e.now, e.action.claimable).value;
    RestakedWorld(w, e, user, m1, p1, w1, k, j, l);
  }

  lemma WithdrawKeeps(w: World, e: Event, w1: World, k: nat, j: nat, l: FarmLedger)
    requires Invariant(w, k, j, l) && e.action.Withdraw? && Perform(w, e.now, e.action) == Ok(w1)
    ensures Invariant(w1, k, j, Book(w, e, k, l))
  {
    var user := e.action.user;
    var (m1, p1) := Settle(w.market, w.positions[user], e.now, e.action.claimable).value;
    RestakedWorld(w, e, user, m1, p1, w1, k, j, l);
  }

  lemma CollectKeeps(w: World, e: Event, w1: World, k: nat, j: nat, l: FarmLedger)
    requires Invariant(w, k, j, l) && e.action.Collect? && Perform(w, e.now, e.action) == Ok(w1)
    ensures Invariant(w1, k, j, l)
  {
    var user := e.action.user;
    SumUpdate(LpOf, w.positions, user, w1.positions[user]);
    if k < |w.market.farms| {
      TotalsAfter(OfFarm, w.positions, user, w1.positions[user], k, w.market.farms[k].index);
    }
    if j < |w.market.emissions| {
      TotalsAfter(OfEmission, w.positions, user, w1.positions[user], j, w.market.emissions[j].lpShareIndex);
    }
  }

  lemma ClaimKeeps(w: World, e: Event, w1: World, k: nat, j: nat, l: FarmLedger)
    requires Invariant(w, k, j, l) && e.action.Claim? && Perform(w, e.now, e.action) == Ok(w1)
    ensures Invariant(w1, k, j, Book(w, e, k, l))
  {
    var user := e.action.user;
    SumUpdate(LpOf, w.positions, user, w1.positions[user]);
    if k < |w.market.farms| {
      TotalsAfter(OfFarm, w.positions, user, w1.positions[user], k, w.market.farms[k].index);
    }
    if j < |w.market.emissions| {
      TotalsAfter(OfEmission, w.positions, user, w1.positions[user], j, w.market.emissions[j].lpShareIndex);
    }
  }

  lemma OpenKeeps(w: World, w1: World, k: nat, j: nat, l: FarmLedger)
    requires Invariant(w, k, j, l) && w1 == w.(positions := w.positions + [NewFromMarket(w.market)])
    ensures Invariant(w1, k, j, l)
  {
    var p := NewFromMarket(w.market);
    SumAppend(LpOf, w.positions, p);
    if k < |w.market.farms| {
      SumAppend(StagedOf(OfFarm, k), w.positions, p);
      SumAppend(Pending(OfFarm, k, w.market.farms[k].index), w.positions, p);
    }
    if j < |w.market.emissions| {
      SumAppend(StagedOf(OfEmission, j), w.positions, p);
      SumAppend(Pending(OfEmission, j, w.market.emissions[j].lpShareIndex), w.positions, p);
    }
  }

  /** A new stream starts at index zero with nothing pending, whatever is already staked. */
  lemma NewStreamIsEmpty(kind: Kind, m: LpMarket, ps: seq<LpPosition>, k: nat)
    requires Fits(m, ps) && k == Streams(kind, m)
    ensures Conserved(kind, ps, k, 0, 0, 0)
  {
    SumZero(StagedOf(kind, k), ps);
    SumZero(Pending(kind, k, 0), ps);
  }

  lemma NewFarmKeeps(w: World, e: Event, w1: World, k: nat, j: nat, l: FarmLedger)
    requires Invariant(w, k, j, l) && e.action.NewFarm? && Perform(w, e.now, e.action) == Ok(w1)
    ensures Invariant(w1, k, j, Book(w, e, k, l))
  {
    var m1 := IncreaseShareIndexes(w.market, e.now).value;
    SyncFarmsKeeps(w.market, w.positions, e.now, m1, k, j, l, Book(w, e, k, l));
    if k == |m1.farms| {
      NewStreamIsEmpty(OfFarm, m1, w.positions, k);
    }
  }

  lemma ChangeFarmKeeps(w: World, e: Event, w1: World, k: nat, j: nat, l: FarmLedger)
    requires Invariant(w, k, j, l) && e.action.ChangeFarm? && Perform(w, e.now, e.action) == Ok(w1)
    ensures Invariant(w1, k, j, Book(w, e, k, l))
  {
    var m1 := IncreaseShareIndexes(w.market, e.now).value;
    SyncFarmsKeeps(w.market, w.positions, e.now, m1, k, j, l, Book(w, e, k, l));
  }

  lemma NewEmissionKeeps(w: World, w1: World, k: nat, j: nat, l: FarmLedger)
    requires Invariant(w, k, j, l) && w1 == w.(market := AddMarketEmission(w.market))
    ensures Invariant(w1, k, j, l)
  {
    if j == |w.market.emissions| {
      NewStreamIsEmpty(OfEmission, w.market, w.positions, j);
    }
  }

  lemma PerformKeeps(w: World, e: Event, w1: World, k: nat, j: nat, l: FarmLedger)
    requires Invariant(w, k, j, l) && Perform(w, e.now, e.action) == Ok(w1)
    ensures Invariant(w1, k, j, Book(w, e, k, l))
  {
    match e.action
    case Deposit(_, _, _) => DepositKeeps(w, e, w1, k, j, l);
    case Withdraw(_, _, _) => WithdrawKeeps(w, e, w1, k, j, l);
    case Collect(_, _) => CollectKeeps(w, e, w1, k, j, l);
    case Claim(_, _, _) => ClaimKeeps(w, e, w1, k, j, l);
    case Open => OpenKeeps(w, w1, k, j, l);
    case NewFarm(_, _, _) => NewFarmKeeps(w, e, w1, k, j, l);
    case ChangeFarm(_, _, _) => ChangeFarmKeeps(w, e, w1, k, j, l);
    case NewEmission => NewEmissionKeeps(w, w1, k, j, l);
  }

  lemma {:induction false} RunKeeps(w: World, events: seq<Event>, k: nat, j: nat, l: FarmLedger)
    requires Invariant(w, k, j, l)
    ensures Invariant(Run(w, events), k, j, RunLedger(w, events, k, l))
    decreases |events|
  {
    if events != [] {
      var e := events[0];
      if Committed(w, e) {
        PerformKeeps(w, e, Perform(w, e.now, e.action).value, k, j, l);
      }
      RunKeeps(Step(w, e), events[1..], k, j, if Committed(w, e) then Book(w, e, k, l) else l);
    }
  }

  /** Farm rewards are conserved exactly: through any interleaving, what all positions have staged
      of a farm plus what was ever claimed never exceeds the tokens its clock has emitted. */
  lemma FarmRewardsConserved(events: seq<Event>, k: nat)
    ensures
      var w := Run(GENESIS, events);
      var l := RunLedger(GENESIS, events, k, FarmLedger(0, 0));
      k < |w.market.farms| ==> Sum(StagedOf(OfFarm, k), w.positions) + l.claimed <= l.emitted
  {
    RunKeeps(GENESIS, events, k, 0, FarmLedger(0, 0));
  }

  /** Market emissions: all positions' staged rewards of a stream are covered by the market's record
      of it, and the staked balances add up to the escrow; so collecting, and leaving the escrow,
      can never underflow. */
  lemma MarketEmissionsCovered(events: seq<Event>, j: nat, user: nat)
    ensures
      var w := Run(GENESIS, events);
      && Sum(LpOf, w.positions) == w.market.lpEscrowAmount
      && (j < |w.market.emissions| ==> Sum(StagedOf(OfEmission, j), w.positions) <= w.market.emissions[j].lastSeenStaged)
      && (user < |w.positions| && j < |w.positions[user].emissions| && j < |w.market.emissions| ==>
           CollectEmission(w.market, w.positions[user], j).Ok?)
      && (user < |w.positions| ==> w.positions[user].lpBalance <= w.market.lpEscrowAmount)
  {
    RunKeeps(GENESIS, events, 0, j, FarmLedger(0, 0));
    var w := Run(GENESIS, events);
    if user < |w.positions| {
      SumMember(LpOf, w.positions, user);
      SumMember(StagedOf(OfEmission, j), w.positions, user);
    }
  }

  // ---------- farm time over a run ----------

  predicate LeavesFarm(k: nat, e: Event) {
    e.action.ChangeFarm? ==> e.action.farm != k
  }

  predicate SameTerms(m: LpMarket, m1: LpMarket, k: nat) {
    && k < |m.farms| && k < |m1.farms|
    && m1.farms[k].tokenRate == m.farms[k].tokenRate && m1.farms[k].expiryTs == m.farms[k].expiryTs
  }

  lemma SyncEmits(m: LpMarket, now: nat, m1: LpMarket, k: nat)
    requires k < |m.farms| && m.farmsSeenTs <= now && IncreaseShareIndexes(m, now) == Ok(m1)
    ensures SameTerms(m, m1, k) && m1.farmsSeenTs == now
    ensures DeltaTimeFarm(m.farms[k].expiryTs, m.farmsSeenTs, now) == Min(m.farms[k].expiryTs, now) - Min(m.farms[k].expiryTs, m.farmsSeenTs)
  {
    assert SyncFarm(m.farms[k], m.farmsSeenTs, now, m.lpEscrowAmount) == Ok(m1.farms[k]);
  }

  lemma SettleSyncs(m: LpMarket, p: LpPosition, now: nat, claimable: seq<nat>, m1: LpMarket, p1: LpPosition, k: nat)
    requires k < |m.farms| && m.farmsSeenTs <= now && Settle(m, p, now, claimable) == Ok((m1, p1))
    ensures SameTerms(m, m1, k) && m1.farmsSeenTs == now
  {
    SyncEmits(SyncAllEmissions(m, claimable).value, now, m1, k);
  }

  lemma RestakingSyncs(w: World, e: Event, w1: World, k: nat)
    requires k < |w.market.farms| && w.market.farmsSeenTs <= e.now
    requires Perform(w, e.now, e.action) == Ok(w1) && (e.action.Deposit? || e.action.Withdraw?)
    ensures SameTerms(w.market, w1.market, k) && w1.market.farmsSeenTs == e.now
  {
    var p := w.positions[e.action.user];
    var (m1, p1) := Settle(w.market, p, e.now, e.action.claimable).value;
    SettleSyncs(w.market, p, e.now, e.action.claimable, m1, p1, k);
  }

  lemma FarmsSynced(w: World, e: Event, w1: World, k: nat)
    requires k < |w.market.farms| && w.market.farmsSeenTs <= e.now
    requires Perform(w, e.now, e.action) == Ok(w1) && LeavesFarm(k, e) && SyncsFarms(e.action)
    ensures SameTerms(w.market, w1.market, k) && w1.market.farmsSeenTs == e.now
  {
    if e.action.Deposit? || e.action.Withdraw? {
      RestakingSyncs(w, e, w1, k);
    } else {
      SyncEmits(w.market, e.now, IncreaseShareIndexes(w.market, e.now).value, k);
    }
  }

  /** What a farm emits between two looks. */
  function EmittedBetween(f: Farm, seen: nat, now: nat): int {
    f.tokenRate * (Min(f.expiryTs, now) - Min(f.expiryTs, seen))
  }

  lemma EmittedAdds(f: Farm, g: Farm, a: nat, b: nat, c: nat)
    requires g.tokenRate == f.tokenRate && g.expiryTs == f.expiryTs
    ensures EmittedBetween(f, a, c) == EmittedBetween(f, a, b) + EmittedBetween(g, b, c)
  {
  }

  /** One committed step emits for exactly the seconds between the two looks. */
  lemma StepEmits(w: World, e: Event, w1: World, k: nat, l: FarmLedger)
    requires k < |w.market.farms| && w.market.farmsSeenTs <= e.now
    requires Perform(w, e.now, e.action) == Ok(w1) && LeavesFarm(k, e)
    ensures SameTerms(w.market, w1.market, k) && w.market.farmsSeenTs <= w1.market.farmsSeenTs <= e.now
    ensures Book(w, e, k, l).emitted
         == l.emitted + EmittedBetween(w.market.farms[k], w.market.farmsSeenTs, w1.market.farmsSeenTs)
  {
    if SyncsFarms(e.action) {
      FarmsSynced(w, e, w1, k);
      assert DeltaTimeFarm(w.market.farms[k].expiryTs, w.market.farmsSeenTs, e.now)
          == Min(w.market.farms[k].expiryTs, e.now) - Min(w.market.farms[k].expiryTs, w.market.farmsSeenTs);
    }
  }

  /** Whatever happens in between and however often, a farm whose terms are left alone emits its
      rate times the seconds between the first look and the last, none after its expiry. */
  lemma {:induction false} FarmEmissionDependsOnEndPoints(w: World, events: seq<Event>, k: nat, l: FarmLedger)
    requires k < |w.market.farms| && w.market.farmsSeenTs <= w.clock
    requires forall i :: 0 <= i < |events| ==> LeavesFarm(k, events[i])
    ensures
      var w1 := Run(w, events);
      && SameTerms(w.market, w1.market, k) && w.market.farmsSeenTs <= w1.market.farmsSeenTs
      && RunLedger(w, events, k, l).emitted
           == l.emitted + EmittedBetween(w.market.farms[k], w.market.farmsSeenTs, w1.market.farmsSeenTs)
    decreases |events|
  {
    if events != [] {
      var e := events[0];
      var l1 := if Committed(w, e) then Book(w, e, k, l) else l;
      if Committed(w, e) {
        StepEmits(w, e, Perform(w, e.now, e.action).value, k, l);
      }
      FarmEmissionDependsOnEndPoints(Step(w, e), events[1..], k, l1);
      EmittedAdds(w.market.farms[k], Step(w, e).market.farms[k],
                  w.market.farmsSeenTs, Step(w, e).market.farmsSeenTs, Run(w, events).market.farmsSeenTs);
    }
  }
}
