/** The other side of conservation: rewards are not lost. What came in for a stream while LP was
    staked is staged, paid or pending, less one token for each settlement and the remainder of each
    share-out. */
module LpCredit {
  import opened Outcome
  import opened FixedPoint
  import opened Sums
  import opened LpSpec
  import opened LpRuns
  import opened LpConservation

  /** Tokens that came in while LP was staked, tokens paid out, and what the roundings may have kept,
      scaled by 10^12. */
  datatype Received = Received(came: nat, paid: nat, slack: nat)

  predicate NoneAhead(kind: Kind, ps: seq<LpPosition>, k: nat, index: nat) {
    forall i :: 0 <= i < |ps| ==> TrackerOf(kind, ps[i], k).lastSeenIndex <= index
  }

  predicate Credited(kind: Kind, ps: seq<LpPosition>, k: nat, index: nat, l: Received) {
    && NoneAhead(kind, ps, k, index)
    && ONE * (Sum(StagedOf(kind, k), ps) + l.paid) + Sum(Pending(kind, k, index), ps) + l.slack >= ONE * l.came
  }

  // ---------- one tracker, one share-out ----------

  /** Settling credits the whole of what was pending but for less than one token. */
  lemma CreditIsWhole(t: YieldTracker, index: nat, lp: nat, t1: YieldTracker)
    requires EarnTracker(t, index, lp) == Ok(t1)
    ensures t.lastSeenIndex <= index == t1.lastSeenIndex && t.staged <= t1.staged
    ensures ONE * (t1.staged - t.staged) <= (index - t.lastSeenIndex) * lp < ONE * (t1.staged - t.staged) + ONE
  {
    DivBounds((index - t.lastSeenIndex) * lp, ONE);
  }

  lemma PendingGrowsInFull(kind: Kind, ps: seq<LpPosition>, k: nat, x: nat, d: nat)
    requires NoneAhead(kind, ps, k, x)
    ensures Sum(Pending(kind, k, x + d), ps) >= Sum(Pending(kind, k, x), ps) + d * Sum(LpOf, ps)
  {
    forall i | 0 <= i < |ps|
      ensures Pending(kind, k, x + d)(ps[i]) >= Pending(kind, k, x)(ps[i]) + d * LpOf(ps[i])
    {
      var seen, lp := TrackerOf(kind, ps[i], k).lastSeenIndex, ps[i].lpBalance;
      assert (x + d - seen) * lp == (x - seen) * lp + d * lp;
    }
    SumAtLeastPlus(Pending(kind, k, x + d), Pending(kind, k, x), d, LpOf, ps);
  }

  /** The ledger of one share-out over `staked` LP; with none staked the tokens go to nobody. */
  function Shared(l: Received, tokens: nat, staked: nat): Received {
    if staked == 0 then l else l.(came := l.came + tokens, slack := l.slack + staked)
  }

  lemma SharingCredits(kind: Kind, ps: seq<LpPosition>, k: nat, index: nat, tokens: nat, l: Received)
    requires Credited(kind, ps, k, index, l)
    ensures Credited(kind, ps, k, index + Ratio(tokens, Sum(LpOf, ps)), Shared(l, tokens, Sum(LpOf, ps)))
  {
    var staked := Sum(LpOf, ps);
    var d := Ratio(tokens, staked);
    PendingGrowsInFull(kind, ps, k, index, d);
    if staked > 0 {
      DivBounds(tokens * ONE, staked);
    }
  }

  lemma SettlingLosesLittle(kind: Kind, ps: seq<LpPosition>, i: nat, p: LpPosition, k: nat, index: nat, l: Received)
    requires i < |ps| && Credited(kind, ps, k, index, l) && p.lpBalance == ps[i].lpBalance
    requires EarnTracker(TrackerOf(kind, ps[i], k), index, p.lpBalance) == Ok(TrackerOf(kind, p, k))
    ensures Credited(kind, ps[i := p], k, index, l.(slack := l.slack + ONE))
    ensures TrackerOf(kind, p, k).lastSeenIndex == index
  {
    CreditIsWhole(TrackerOf(kind, ps[i], k), index, p.lpBalance, TrackerOf(kind, p, k));
    TotalsAfter(kind, ps, i, p, k, index);
  }

  lemma RestakingCredits(kind: Kind, ps: seq<LpPosition>, i: nat, p: LpPosition, k: nat, index: nat, l: Received)
    requires i < |ps| && Credited(kind, ps, k, index, l)
    requires p == ps[i].(lpBalance := p.lpBalance) && TrackerOf(kind, ps[i], k).lastSeenIndex == index
    ensures Credited(kind, ps[i := p], k, index, l)
  {
    TotalsAfter(kind, ps, i, p, k, index);
  }

  // ---------- the ledger of a run ----------

  /** What the settlement at the head of a deposit or withdrawal brings in for a stream. */
  function SettledLedger(kind: Kind, w: World, now: nat, claimable: seq<nat>, k: nat, l: Received): Received
    requires k < Streams(kind, w.market)
  {
    var staked := w.market.lpEscrowAmount;
    var shared := match kind
      case OfFarm => Shared(l, TokensEmitted(w.market.farms[k], w.market.farmsSeenTs, now), staked)
      case OfEmission =>
        if k < |claimable| && w.market.emissions[k].lastSeenStaged <= claimable[k]
        then Shared(l, claimable[k] - w.market.emissions[k].lastSeenStaged, staked) else l;
    shared.(slack := shared.slack + ONE)
  }

  function ReceivedAfter(kind: Kind, w: World, e: Event, k: nat, l: Received): Received {
    if k >= Streams(kind, w.market) then l
    else
      match e.action
      case Deposit(_, claimable, _) => SettledLedger(kind, w, e.now, claimable, k, l)
      case Withdraw(_, claimable, _) => SettledLedger(kind, w, e.now, claimable, k, l)
      case Collect(user, stream) =>
        if kind.OfEmission? && stream == k && user < |w.positions|
        then l.(paid := l.paid + TrackerOf(kind, w.positions[user], k).staged) else l
      case Claim(_, farm, amount) => if kind.OfFarm? && farm == k then l.(paid := l.paid + amount) else l
      case Open => l
      case NewFarm(_, _, _) => FarmShared(kind, w, e.now, k, l)
      case ChangeFarm(_, _, _) => FarmShared(kind, w, e.now, k, l)
      case NewEmission => l
  }

  function FarmShared(kind: Kind, w: World, now: nat, k: nat, l: Received): Received
    requires k < Streams(kind, w.market)
  {
    match kind
    case OfFarm => Shared(l, TokensEmitted(w.market.farms[k], w.market.farmsSeenTs, now), w.market.lpEscrowAmount)
    case OfEmission => l
  }

  function RunReceived(kind: Kind, w: World, events: seq<Event>, k: nat, l: Received): Received
    decreases |events|
  {
    if events == [] then l
    else RunReceived(kind, Step(w, events[0]), events[1..], k,
                     if Committed(w, events[0]) then ReceivedAfter(kind, w, events[0], k, l) else l)
  }

  predicate NothingLost(kind: Kind, m: LpMarket, ps: seq<LpPosition>, k: nat, l: Received) {
    if k < Streams(kind, m) then Credited(kind, ps, k, IndexOf(kind, m, k), l) else l == Received(0, 0, 0)
  }

  predicate InBooks(w: World) {
    Sum(LpOf, w.positions) == w.market.lpEscrowAmount && Fits(w.market, w.positions)
  }

  // ---------- one instruction ----------

  lemma FarmsShareOut(kind: Kind, w: World, m: LpMarket, now: nat, m1: LpMarket, k: nat, l: Received)
    requires k < Streams(kind, m) && Credited(kind, w.positions, k, IndexOf(kind, m, k), l)
    requires Sum(LpOf, w.positions) == m.lpEscrowAmount && IncreaseShareIndexes(m, now) == Ok(m1)
    ensures m1 == m.(farms := m1.farms, farmsSeenTs := now) && |m1.farms| == |m.farms|
    ensures Credited(kind, w.positions, k, IndexOf(kind, m1, k),
      if kind.OfFarm? then Shared(l, TokensEmitted(m.farms[k], m.farmsSeenTs, now), m.lpEscrowAmount) else l)
  {
    if kind.OfFarm? {
      SharingCredits(kind, w.positions, k, m.farms[k].index, TokensEmitted(m.farms[k], m.farmsSeenTs, now), l);
      assert SyncFarm(m.farms[k], m.farmsSeenTs, now, m.lpEscrowAmount) == Ok(m1.farms[k]);
    }
  }

  lemma EmissionsShareOut(kind: Kind, w: World, claimable: seq<nat>, m1: LpMarket, k: nat, l: Received)
    requires k < Streams(kind, w.market) && Credited(kind, w.positions, k, IndexOf(kind, w.market, k), l)
    requires InBooks(w) && SyncAllEmissions(w.market, claimable) == Ok(m1)
    ensures m1 == w.market.(emissions := m1.emissions) && |m1.emissions| == |w.market.emissions|
    ensures kind.OfEmission? && k < |claimable| ==> w.market.emissions[k].lastSeenStaged <= claimable[k]
    ensures Credited(kind, w.positions, k, IndexOf(kind, m1, k),
      if kind.OfEmission? && k < |claimable|
      then Shared(l, claimable[k] - w.market.emissions[k].lastSeenStaged, w.market.lpEscrowAmount) else l)
  {
    if kind.OfEmission? && k < |claimable| {
      EmissionShareOut(w.positions, k, w.market.emissions[k], claimable[k], w.market.lpEscrowAmount, m1.emissions[k], l);
    }
  }

  lemma EmissionShareOut(ps: seq<LpPosition>, k: nat, e: MarketEmission, claimable: nat, staked: nat, e1: MarketEmission, l: Received)
    requires Credited(OfEmission, ps, k, e.lpShareIndex, l) && Sum(LpOf, ps) == staked
    requires SyncEmission(e, claimable, staked) == Ok(e1)
    ensures e.lastSeenStaged <= claimable
    ensures Credited(OfEmission, ps, k, e1.lpShareIndex, Shared(l, claimable - e.lastSeenStaged, staked))
  {
    EmissionRises(e, claimable, staked, e1);
    SharingCredits(OfEmission, ps, k, e.lpShareIndex, claimable - e.lastSeenStaged, l);
  }

  lemma EmissionRises(e: MarketEmission, claimable: nat, staked: nat, e1: MarketEmission)
    requires SyncEmission(e, claimable, staked) == Ok(e1)
    ensures e.lastSeenStaged <= claimable
    ensures e1 == MarketEmission(e.lpShareIndex + Ratio(claimable - e.lastSeenStaged, staked), claimable)
  {
  }

  lemma SettleCredits(kind: Kind, w: World, now: nat, user: nat, claimable: seq<nat>, m1: LpMarket, p1: LpPosition, k: nat, l: Received)
    requires k < Streams(kind, w.market) && user < |w.positions| && InBooks(w)
    requires NothingLost(kind, w.market, w.positions, k, l)
    requires Settle(w.market, w.positions[user], now, claimable) == Ok((m1, p1))
    ensures k < Streams(kind, m1) && TrackerOf(kind, p1, k).lastSeenIndex == IndexOf(kind, m1, k)
    ensures NothingLost(kind, m1, w.positions[user := p1], k, SettledLedger(kind, w, now, claimable, k, l))
  {
    var m0 := SyncAllEmissions(w.market, claimable).value;
    EmissionsShareOut(kind, w, claimable, m0, k, l);
    var l0 := if kind.OfEmission? && k < |claimable|
      then Shared(l, claimable[k] - w.market.emissions[k].lastSeenStaged, w.market.lpEscrowAmount) else l;
    FarmsShareOut(kind, w, m0, now, m1, k, l0);
    var l1 := if kind.OfFarm? then Shared(l0, TokensEmitted(m0.farms[k], m0.farmsSeenTs, now), m0.lpEscrowAmount) else l0;
    StagingSettles(kind, m1, w.positions[user], p1, k);
    SettlingLosesLittle(kind, w.positions, user, p1, k, IndexOf(kind, m1, k), l1);
  }

  lemma RestakedCredits(kind: Kind, w: World, e: Event, w1: World, k: nat, l: Received)
    requires InBooks(w) && NothingLost(kind, w.market, w.positions, k, l)
    requires (e.action.Deposit? || e.action.Withdraw?) && Perform(w, e.now, e.action) == Ok(w1)
    ensures NothingLost(kind, w1.market, w1.positions, k, ReceivedAfter(kind, w, e, k, l))
  {
    var user, claimable := e.action.user, e.action.claimable;
    var (m1, p1) := Settle(w.market, w.positions[user], e.now, claimable).value;
    RestakedWorldCredits(kind, w, e.now, user, claimable, m1, p1, w1, k, l);
  }

  lemma RestakedWorldCredits(kind: Kind, w: World, now: nat, user: nat, claimable: seq<nat>, m1: LpMarket, p1: LpPosition, w1: World,
                             k: nat, l: Received)
    requires user < |w.positions| && InBooks(w) && NothingLost(kind, w.market, w.positions, k, l)
    requires Settle(w.market, w.positions[user], now, claimable) == Ok((m1, p1))
    requires w1.market == m1.(lpEscrowAmount := w1.market.lpEscrowAmount)
    requires |w1.positions| == |w.positions| && w1.positions == w.positions[user := w1.positions[user]]
    requires w1.positions[user] == p1.(lpBalance := w1.positions[user].lpBalance)
    ensures NothingLost(kind, w1.market, w1.positions, k,
      if k < Streams(kind, w.market) then SettledLedger(kind, w, now, claimable, k, l) else l)
  {
    if k < Streams(kind, w.market) {
      SettleCredits(kind, w, now, user, claimable, m1, p1, k, l);
      var l1 := SettledLedger(kind, w, now, claimable, k, l);
      RestakingCredits(kind, w.positions[user := p1], user, w1.positions[user], k, IndexOf(kind, m1, k), l1);
      assert w1.positions == w.positions[user := p1][user := w1.positions[user]];
    } else {
      StreamsStay(w.market, w.positions[user], now, claimable, m1, p1);
    }
  }

  lemma StreamsStay(m: LpMarket, p: LpPosition, now: nat, claimable: seq<nat>, m1: LpMarket, p1: LpPosition)
    requires Settle(m, p, now, claimable) == Ok((m1, p1))
    ensures |m1.emissions| == |m.emissions| && |m1.farms| == |m.farms|
  {
    var m0 := SyncAllEmissions(m, claimable).value;
    assert IncreaseShareIndexes(m0, now).Ok?;
  }

  /** Paying out of what is staged. */
  lemma PayingCredits(kind: Kind, ps: seq<LpPosition>, i: nat, p: LpPosition, k: nat, index: nat, paid: nat, l: Received)
    requires i < |ps| && Credited(kind, ps, k, index, l) && p.lpBalance == ps[i].lpBalance
    requires TrackerOf(kind, p, k).lastSeenIndex == TrackerOf(kind, ps[i], k).lastSeenIndex
    requires TrackerOf(kind, p, k).staged + paid == TrackerOf(kind, ps[i], k).staged
    ensures Credited(kind, ps[i := p], k, index, l.(paid := l.paid + paid))
  {
    TotalsAfter(kind, ps, i, p, k, index);
  }

  lemma CollectCredits(kind: Kind, w: World, e: Event, w1: World, k: nat, l: Received)
    requires NothingLost(kind, w.market, w.positions, k, l)
    requires e.action.Collect? && Perform(w, e.now, e.action) == Ok(w1)
    ensures NothingLost(kind, w1.market, w1.positions, k, ReceivedAfter(kind, w, e, k, l))
  {
    if k < Streams(kind, w.market) {
      var p, p1 := w.positions[e.action.user], w1.positions[e.action.user];
      var paid := if kind.OfEmission? && e.action.stream == k then TrackerOf(kind, p, k).staged else 0;
      PayingCredits(kind, w.positions, e.action.user, p1, k, IndexOf(kind, w.market, k), paid, l);
    }
  }

  lemma ClaimCredits(kind: Kind, w: World, e: Event, w1: World, k: nat, l: Received)
    requires NothingLost(kind, w.market, w.positions, k, l)
    requires e.action.Claim? && Perform(w, e.now, e.action) == Ok(w1)
    ensures NothingLost(kind, w1.market, w1.positions, k, ReceivedAfter(kind, w, e, k, l))
  {
    if k < Streams(kind, w.market) {
      var paid := if kind.OfFarm? && e.action.farm == k then e.action.amount else 0;
      PayingCredits(kind, w.positions, e.action.user, w1.positions[e.action.user], k, IndexOf(kind, w.market, k), paid, l);
    }
  }

  lemma NewStreamOwesNothing(kind: Kind, m: LpMarket, ps: seq<LpPosition>, k: nat)
    requires Fits(m, ps) && k == Streams(kind, m)
    ensures Credited(kind, ps, k, 0, Received(0, 0, 0))
  {
  }

  lemma FarmChangeCredits(kind: Kind, w: World, e: Event, w1: World, k: nat, l: Received)
    requires InBooks(w) && NothingLost(kind, w.market, w.positions, k, l)
    requires (e.action.NewFarm? || e.action.ChangeFarm?) && Perform(w, e.now, e.action) == Ok(w1)
    ensures NothingLost(kind, w1.market, w1.positions, k, ReceivedAfter(kind, w, e, k, l))
  {
    if k < Streams(kind, w.market) {
      FarmsShareOut(kind, w, w.market, e.now, IncreaseShareIndexes(w.market, e.now).value, k, l);
    } else if k == Streams(kind, w.market) {
      NewStreamOwesNothing(kind, w.market, w.positions, k);
    }
  }

  lemma NewEmissionCredits(kind: Kind, w: World, e: Event, w1: World, k: nat, l: Received)
    requires InBooks(w) && NothingLost(kind, w.market, w.positions, k, l)
    requires e.action.NewEmission? && Perform(w, e.now, e.action) == Ok(w1)
    ensures NothingLost(kind, w1.market, w1.positions, k, ReceivedAfter(kind, w, e, k, l))
  {
    if k == Streams(kind, w.market) {
      NewStreamOwesNothing(kind, w.market, w.positions, k);
    }
  }

  lemma OpenCredits(kind: Kind, w: World, w1: World, k: nat, l: Received)
    requires NothingLost(kind, w.market, w.positions, k, l) && w1 == w.(positions := w.positions + [NewFromMarket(w.market)])
    ensures NothingLost(kind, w1.market, w1.positions, k, l)
  {
    var p := NewFromMarket(w.market);
    if k < Streams(kind, w.market) {
      SumAppend(StagedOf(kind, k), w.positions, p);
      SumAppend(Pending(kind, k, IndexOf(kind, w.market, k)), w.positions, p);
    }
  }

  lemma StepCredits(kind: Kind, w: World, e: Event, w1: World, k: nat, l: Received)
    requires InBooks(w) && NothingLost(kind, w.market, w.positions, k, l) && Perform(w, e.now, e.action) == Ok(w1)
    ensures NothingLost(kind, w1.market, w1.positions, k, ReceivedAfter(kind, w, e, k, l))
  {
    match e.action
    case Deposit(_, _, _) => RestakedCredits(kind, w, e, w1, k, l);
    case Withdraw(_, _, _) => RestakedCredits(kind, w, e, w1, k, l);
    case Collect(_, _) => CollectCredits(kind, w, e, w1, k, l);
    case Claim(_, _, _) => ClaimCredits(kind, w, e, w1, k, l);
    case Open => OpenCredits(kind, w, w1, k, l);
    case NewFarm(_, _, _) => FarmChangeCredits(kind, w, e, w1, k, l);
    case ChangeFarm(_, _, _) => FarmChangeCredits(kind, w, e, w1, k, l);
    case NewEmission => NewEmissionCredits(kind, w, e, w1, k, l);
  }

  lemma {:induction false} CreditsOverRun(kind: Kind, w: World, events: seq<Event>, k: nat, l: Received, books: FarmLedger)
    requires LpConservation.Invariant(w, 0, 0, books) && NothingLost(kind, w.market, w.positions, k, l)
    ensures NothingLost(kind, Run(w, events).market, Run(w, events).positions, k, RunReceived(kind, w, events, k, l))
    decreases |events|
  {
    if events != [] {
      var e := events[0];
      if Committed(w, e) {
        var w1 := Perform(w, e.now, e.action).value;
        StepCredits(kind, w, e, w1, k, l);
        PerformKeeps(w, e, w1, 0, 0, books);
      }
      CreditsOverRun(kind, Step(w, e), events[1..], k, if Committed(w, e) then ReceivedAfter(kind, w, e, k, l) else l,
        if Committed(w, e) then Book(w, e, 0, books) else books);
    }
  }

  /** Through any interleaving, all that came in for a farm or a market emission while LP was staked is
      staged, paid or pending, but for the slack: one token a settlement, and at each share-out less
      than one last place for each LP staked. */
  lemma RewardsAreNotLost(kind: Kind, events: seq<Event>, k: nat)
    ensures
      var w := Run(GENESIS, events);
      var l := RunReceived(kind, GENESIS, events, k, Received(0, 0, 0));
      k < Streams(kind, w.market) ==>
        ONE * (Sum(StagedOf(kind, k), w.positions) + l.paid) + Sum(Pending(kind, k, IndexOf(kind, w.market, k)), w.positions) + l.slack
          >= ONE * l.came
  {
    CreditsOverRun(kind, GENESIS, events, k, Received(0, 0, 0), FarmLedger(0, 0));
  }
}
