/** A farm's token account against what it owes: rewards staged, rewards pending, and the seconds it
    still has to run. Adding a farm pays for its whole time; changing one leaves in the account only
    what the new terms will still emit. */
module LpFunding {
  import opened Outcome
  import opened FixedPoint
  import opened Sums
  import opened LpSpec
  import opened LpRuns
  import opened LpConservation

  /** The account of farm `k` after a committed event. */
  function AccountAfter(w: World, e: Event, k: nat, a: int): int {
    match e.action
    case NewFarm(_, tokenRate, untilTs) => if k == |w.market.farms| then (untilTs - e.now) * tokenRate else a
    case ChangeFarm(farm, tokenRate, expiryTs) => if farm == k then (expiryTs - e.now) * tokenRate else a
    case Claim(_, farm, amount) => if farm == k then a - amount else a
    case Deposit(_, _, _) => a
    case Withdraw(_, _, _) => a
    case Collect(_, _) => a
    case Open => a
    case NewEmission => a
  }

  function RunAccount(w: World, events: seq<Event>, k: nat, a: int): int
    decreases |events|
  {
    if events == [] then a
    else RunAccount(Step(w, events[0]), events[1..], k, if Committed(w, events[0]) then AccountAfter(w, events[0], k, a) else a)
  }

  /** What a farm will still emit once it has been looked at. */
  function Future(f: Farm, seen: nat): nat {
    f.tokenRate * (f.expiryTs - Min(f.expiryTs, seen))
  }

  /** The account pays for everything staged and pending, and for the time to come. */
  predicate Covers(w: World, k: nat, a: int)
    requires k < |w.market.farms|
  {
    var f := w.market.farms[k];
    ONE * Sum(StagedOf(OfFarm, k), w.positions) + Sum(Pending(OfFarm, k, f.index), w.positions)
      + ONE * Future(f, w.market.farmsSeenTs) <= ONE * a
  }

  /** The account and what was ever claimed are what was emitted and what is to come. */
  predicate Funded(w: World, k: nat, l: FarmLedger, a: int) {
    && LpConservation.Invariant(w, k, 0, l) && w.market.farmsSeenTs <= w.clock
    && (k < |w.market.farms| ==> a + l.claimed == l.emitted + Future(w.market.farms[k], w.market.farmsSeenTs))
    && (k >= |w.market.farms| ==> a == 0 && l == FarmLedger(0, 0))
  }

  lemma FundedCovers(w: World, k: nat, l: FarmLedger, a: int)
    requires Funded(w, k, l, a) && k < |w.market.farms|
    ensures Covers(w, k, a)
  {
  }

  // ---------- one event ----------

  lemma FutureShrinks(f: Farm, seen: nat, now: nat)
    ensures Future(f, seen) == Future(f, now) + EmittedBetween(f, seen, now)
  {
  }

  lemma SeenAdvances(w: World, e: Event, w1: World)
    requires w.market.farmsSeenTs <= e.now && Perform(w, e.now, e.action) == Ok(w1)
    ensures w1.market.farmsSeenTs <= e.now && (SyncsFarms(e.action) ==> w1.market.farmsSeenTs == e.now)
  {
    if e.action.Deposit? || e.action.Withdraw? {
      var m := SyncAllEmissions(w.market, e.action.claimable).value;
      assert IncreaseShareIndexes(m, e.now).Ok?;
    }
  }

  lemma FarmCount(w: World, e: Event, w1: World)
    requires Perform(w, e.now, e.action) == Ok(w1)
    ensures |w1.market.farms| == |w.market.farms| + if e.action.NewFarm? then 1 else 0
    ensures e.action.NewFarm? ==>
      && e.now <= e.action.untilTs && w1.market.farmsSeenTs == e.now
      && w1.market.farms[|w.market.farms|] == Farm(e.action.mint, e.action.tokenRate, e.action.untilTs, 0)
  {
    if e.action.Deposit? || e.action.Withdraw? {
      var m := SyncAllEmissions(w.market, e.action.claimable).value;
      assert IncreaseShareIndexes(m, e.now).Ok?;
    }
  }

  /** A claim moves tokens from the account to the claimed; nothing else moves either. */
  lemma ClaimsComeFromAccount(w: World, e: Event, k: nat, l: FarmLedger, a: int)
    requires k < |w.market.farms| && LeavesFarm(k, e)
    ensures AccountAfter(w, e, k, a) + Book(w, e, k, l).claimed == a + l.claimed
  {
  }

  lemma FutureOfSameTerms(m: LpMarket, m1: LpMarket, k: nat)
    requires SameTerms(m, m1, k)
    ensures Future(m.farms[k], m.farmsSeenTs)
         == Future(m1.farms[k], m1.farmsSeenTs) + EmittedBetween(m.farms[k], m.farmsSeenTs, m1.farmsSeenTs)
  {
    FutureShrinks(m.farms[k], m.farmsSeenTs, m1.farmsSeenTs);
    assert Future(m1.farms[k], m1.farmsSeenTs) == Future(m.farms[k], m1.farmsSeenTs);
  }

  /** The farm exists and its terms are left alone. */
  lemma RunningFarmStays(w: World, e: Event, w1: World, k: nat, l: FarmLedger, a: int)
    requires Funded(w, k, l, a) && k < |w.market.farms| && e.now >= w.clock
    requires Perform(w, e.now, e.action) == Ok(w1) && LeavesFarm(k, e)
    ensures Funded(w1.(clock := e.now), k, Book(w, e, k, l), AccountAfter(w, e, k, a))
  {
    PerformKeeps(w, e, w1, k, 0, l);
    StepEmits(w, e, w1, k, l);
    FutureOfSameTerms(w.market, w1.market, k);
    ClaimsComeFromAccount(w, e, k, l, a);
  }

  /** The farm does not exist yet, or is just being added. */
  lemma AddedFarmIsPaid(w: World, e: Event, w1: World, k: nat, l: FarmLedger, a: int)
    requires Funded(w, k, l, a) && k >= |w.market.farms| && e.now >= w.clock
    requires Perform(w, e.now, e.action) == Ok(w1)
    ensures Funded(w1.(clock := e.now), k, Book(w, e, k, l), AccountAfter(w, e, k, a))
  {
    PerformKeeps(w, e, w1, k, 0, l);
    SeenAdvances(w, e, w1);
    FarmCount(w, e, w1);
    if e.action.NewFarm? && k == |w.market.farms| {
      assert Future(w1.market.farms[k], e.now) == e.action.tokenRate * (e.action.untilTs - e.now);
    }
  }

  // ---------- changing the terms ----------

  /** Nothing is staged or pending once the farm's index is brought up to date. */
  predicate NothingOwed(w: World, k: nat)
    requires k < |w.market.farms|
  {
    Sum(StagedOf(OfFarm, k), w.positions) == 0 && Sum(Pending(OfFarm, k, w.market.farms[k].index), w.positions) == 0
  }

  lemma ChangedAccount(w: World, e: Event, w1: World, k: nat, a: int)
    requires Perform(w, e.now, e.action) == Ok(w1) && e.action.ChangeFarm? && e.action.farm == k
    requires w.market.farmsSeenTs <= e.now <= e.action.expiryTs
    ensures k < |w1.market.farms| == |w.market.farms| && w1.positions == w.positions && w1.market.farmsSeenTs == e.now
    ensures AccountAfter(w, e, k, a) == Future(w1.market.farms[k], w1.market.farmsSeenTs)
  {
    SeenAdvances(w, e, w1);
    FarmCount(w, e, w1);
    var f := w1.market.farms[k];
    assert f.tokenRate == e.action.tokenRate && f.expiryTs == e.action.expiryTs;
  }

  /** The exact condition: a farm whose terms are changed still covers what it owes if and only if it
      owed nothing, for the account is left with what the new terms emit and no more. */
  lemma ChangeCoversOnlyIfNothingIsOwed(w: World, e: Event, w1: World, k: nat, a: int)
    requires Perform(w, e.now, e.action) == Ok(w1) && e.action.ChangeFarm? && e.action.farm == k
    requires w.market.farmsSeenTs <= e.now <= e.action.expiryTs
    ensures k < |w1.market.farms| && w1.positions == w.positions
    ensures Covers(w1, k, AccountAfter(w, e, k, a)) <==> NothingOwed(w1, k)
  {
    ChangedAccount(w, e, w1, k, a);
  }

  lemma ChangedWithNothingOwed(w: World, e: Event, w1: World, k: nat, l: FarmLedger, a: int)
    requires Funded(w, k, l, a) && e.now >= w.clock
    requires Perform(w, e.now, e.action) == Ok(w1) && e.action.ChangeFarm? && e.action.farm == k
    requires e.now <= e.action.expiryTs && k < |w1.market.farms| && NothingOwed(w1, k)
    ensures Funded(w1.(clock := e.now), k, FarmLedger(0, 0), AccountAfter(w, e, k, a))
  {
    PerformKeeps(w, e, w1, k, 0, l);
    ChangedAccount(w, e, w1, k, a);
  }

  // ---------- runs ----------

  /** The farm's terms change only while it owes nothing, and not to a time already past. */
  predicate ChangesFairly(w: World, e: Event, k: nat) {
    !LeavesFarm(k, e) && Committed(w, e) ==>
      var w1 := Perform(w, e.now, e.action).value;
      e.now <= e.action.expiryTs && (k < |w1.market.farms| ==> NothingOwed(w1, k))
  }

  ghost predicate FairRun(w: World, events: seq<Event>, k: nat)
    decreases |events|
  {
    events != [] ==> ChangesFairly(w, events[0], k) && FairRun(Step(w, events[0]), events[1..], k)
  }

  lemma FundedStep(w: World, e: Event, k: nat, l: FarmLedger, a: int) returns (l1: FarmLedger)
    requires Funded(w, k, l, a) && ChangesFairly(w, e, k) && Committed(w, e)
    ensures Funded(Step(w, e), k, l1, AccountAfter(w, e, k, a))
  {
    var w1 := Perform(w, e.now, e.action).value;
    l1 := Book(w, e, k, l);
    if k >= |w.market.farms| {
      AddedFarmIsPaid(w, e, w1, k, l, a);
    } else if LeavesFarm(k, e) {
      RunningFarmStays(w, e, w1, k, l, a);
    } else {
      FarmCount(w, e, w1);
      ChangedWithNothingOwed(w, e, w1, k, l, a);
      l1 := FarmLedger(0, 0);
    }
  }

  lemma {:induction false} FundedRun(w: World, events: seq<Event>, k: nat, l: FarmLedger, a: int) returns (l1: FarmLedger)
    requires Funded(w, k, l, a) && FairRun(w, events, k)
    ensures Funded(Run(w, events), k, l1, RunAccount(w, events, k, a))
    decreases |events|
  {
    l1 := l;
    if events != [] {
      var a1 := a;
      if Committed(w, events[0]) {
        l1 := FundedStep(w, events[0], k, l, a);
        a1 := AccountAfter(w, events[0], k, a);
      }
      l1 := FundedRun(Step(w, events[0]), events[1..], k, l1, a1);
    }
  }

  /** Over any run that changes the farm's terms only while it owes nothing, its account covers all
      that is staged, all that is pending and the time to come, so every staged reward can be paid. */
  lemma FarmPaysEveryClaim(events: seq<Event>, k: nat, user: nat)
    requires FairRun(GENESIS, events, k)
    ensures
      var w := Run(GENESIS, events);
      var a := RunAccount(GENESIS, events, k, 0);
      k < |w.market.farms| ==>
        Covers(w, k, a) && (user < |w.positions| ==> StagedOf(OfFarm, k)(w.positions[user]) <= a)
  {
    var l := FundedRun(GENESIS, events, k, FarmLedger(0, 0), 0);
    var w := Run(GENESIS, events);
    if k < |w.market.farms| {
      FundedCovers(w, k, l, RunAccount(GENESIS, events, k, 0));
      if user < |w.positions| {
        SumMember(StagedOf(OfFarm, k), w.positions, user);
      }
    }
  }
}
