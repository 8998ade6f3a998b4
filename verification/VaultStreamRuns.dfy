/** Conservation of one emission stream over every run whose dips fit. */
module VaultStreamRuns {
  import opened Outcome
  import opened FixedPoint
  import opened Sums
  import opened VaultSpec
  import opened VaultRuns
  import opened VaultInvariant
  import opened VaultPreservation
  import opened VaultSafety
  import opened Solvency
  import opened VaultEmissions

  /** `paid`: tokens of the stream collected so far. `budget`: index increase times the escrow
      (and dust) at each refresh, added up, scaled by 10^24. */
  datatype StreamLedger = StreamLedger(paid: nat, budget: nat)

  function Book(w: World, e: Event, k: nat, l: StreamLedger): StreamLedger {
    if Refreshes(e.action) then
      l.(budget := l.budget + Accrual(w.vault, w.positions, w.mergedPy, k, e.action.sy))
    else match e.action
      case CollectUserEmission(_, stream, amount) => if stream == k then l.(paid := l.paid + amount) else l
      case TakeTreasuryEmission(stream, amount) => if stream == k then l.(paid := l.paid + amount) else l
      case TakeRobotEmission(stream, amount) => if stream == k then l.(paid := l.paid + amount) else l
      case _ => l
  }

  function RunLedger(w: World, events: seq<Event>, k: nat, l: StreamLedger): StreamLedger
    requires |w.positions| > 0
    decreases |events|
  {
    if events == [] then l
    else
      var l1 := if Commit(w, events[0]).Ok? then Book(w, events[0], k, l) else l;
      RunLedger(Step(w, events[0]), events[1..], k, l1)
  }

  predicate NobodyHolds(ps: seq<Position>) {
    forall i :: 0 <= i < |ps| ==> ps[i].ytBalance == 0 && ps[i].interest.staged == 0
  }

  /** A new stream starts at zero or with no YT about. */
  predicate FreshStream(w: World, e: Event) {
    e.action.RegisterEmission? && |w.vault.emissions| < |e.action.sy.emissionIndexes| ==>
      e.action.sy.emissionIndexes[|w.vault.emissions|] == 0 || NobodyHolds(w.positions)
  }

  /** What a caller can see before the call: the reported rate is not below the all-time high, and
      a new stream starts at zero or with no YT about. */
  predicate Rising(w: World, e: Event) {
    (Refreshes(e.action) ==> e.action.sy.exchangeRate >= w.vault.allTimeHigh) && FreshStream(w, e)
  }

  ghost predicate RisingRun(w: World, events: seq<Event>)
    requires |w.positions| > 0
    decreases |events|
  {
    events != [] ==>
      && (Commit(w, events[0]).Ok? ==> Rising(w, events[0]))
      && RisingRun(Step(w, events[0]), events[1..])
  }

  /** The same for any rates: a refresh that begins or ends in an emergency must fit at the rate it
      reports, which is again a sum over what is there before the call. */
  predicate Affordable(w: World, e: Event, k: nat) {
    && FreshStream(w, e)
    && (Refreshes(e.action) && k < |w.vault.emissions| ==>
          Steady(w.vault, e.action.sy) || PricedIn(w.vault, w.positions, w.mergedPy, e.now, e.action.sy, k))
  }

  ghost predicate AffordableRun(w: World, events: seq<Event>, k: nat)
    requires |w.positions| > 0
    decreases |events|
  {
    events != [] ==>
      && (Commit(w, events[0]).Ok? ==> Calm(w, events[0]) && Affordable(w, events[0], k))
      && AffordableRun(Step(w, events[0]), events[1..], k)
  }

  predicate StreamOk(v: Vault, ps: seq<Position>, k: nat, l: StreamLedger) {
    && Tracked(v, ps)
    && (k < |v.emissions| ==> Conserved(v, ps, k, l.paid, l.budget))
    && (k >= |v.emissions| ==> l.paid == 0)
  }

  predicate InStep(v: Vault, k: nat, now: nat) {
    k < |v.emissions| && now <= Maturity(v) ==> v.emissions[k].finalIndex == v.emissions[k].lastSeenIndex
  }

  predicate CaughtUp(v: Vault, p: Position, k: nat) {
    k < |v.emissions| ==> TrackerAt(p, k).lastSeenIndex == v.emissions[k].finalIndex
  }

  predicate StreamInvariant(w: World, k: nat, l: StreamLedger) {
    && Invariant(w)
    && StreamOk(w.vault, w.positions, k, l)
    && InStep(w.vault, k, w.clock)
  }

  // ---------- statements ----------

  lemma UpdateKeepsCount(v: Vault, sy: SyState, now: nat, v1: Vault)
    requires UpdateFromSyState(v, sy, now) == Ok(v1)
    ensures |v1.emissions| == |v.emissions|
  {
    if |v.emissions| > 0 {
      UpdatedStream(v, sy, now, v1, 0);
    } else {
      var swept := SweepSy(v, sy.exchangeRate, now).value;
      var v2 := SweepAllEmissions(swept, sy, now).value;
    }
  }

  lemma EarnOk(v: Vault, ps: seq<Position>, i: nat, v1: Vault, p1: Position, k: nat, l: StreamLedger, merged: nat, now: nat)
    requires i < |ps| && StreamOk(v, ps, k, l) && Sound(v, ps, merged, now) && (i != 0 ==> Settled(v, ps))
    requires Earn(v, ps[i]) == Ok((v1, p1))
    ensures v1.emissions == v.emissions && PricingOf(v1) == PricingOf(v) && InEmergency(v1) == InEmergency(v)
    ensures StreamOk(v1, ps[i := p1], k, l) && CaughtUp(v1, p1, k)
  {
    var a, e := EarnEffect(v, ps[i], v1, p1);
    EnsuredLength(ps[i].emissions, |v.emissions|);
    if k < |v.emissions| {
      EarnConserves(v, ps, i, v1, p1, k, l.paid, l.budget);
    }
  }

  lemma YtChangeOk(v: Vault, ps: seq<Position>, i: nat, p: Position, k: nat, l: StreamLedger)
    requires i < |ps| && StreamOk(v, ps, k, l) && CaughtUp(v, ps[i], k)
    requires p.emissions == ps[i].emissions
    ensures StreamOk(v, ps[i := p], k, l) && CaughtUp(v, p, k)
  {
    if k < |v.emissions| {
      CaughtUpMayChange(v, ps, i, p, k, l.paid, l.budget);
    }
  }

  lemma OtherFieldsFree(v: Vault, v1: Vault, ps: seq<Position>, k: nat, l: StreamLedger)
    requires StreamOk(v, ps, k, l) && v1.emissions == v.emissions && PricingOf(v1) == PricingOf(v)
    ensures StreamOk(v1, ps, k, l)
  {
  }

  /** Refresh and robot, the part that every refreshing instruction shares. */
  lemma VaultYieldOk(w: World, e: Event, k: nat, l: StreamLedger, v1: Vault, r1: Position)
    requires StreamInvariant(w, k, l) && e.now >= w.clock && Refreshes(e.action) && Calm(w, e) && Affordable(w, e, k)
    requires UpdateVaultYield(w.vault, w.positions[0], e.now, e.action.sy) == Ok((v1, r1))
    requires e.now > Maturity(w.vault) ==> !InEmergency(v1)
    ensures InEmergency(v1) <==> e.action.sy.exchangeRate < w.vault.allTimeHigh
    ensures StreamOk(v1, w.positions[0 := r1], k, Book(w, e, k, l)) && CaughtUp(v1, r1, k) && InStep(v1, k, e.now)
    ensures Sound(v1, w.positions[0 := r1], w.mergedPy, e.now) && Settled(v1, w.positions[0 := r1])
  {
    var ps, now, sy := w.positions, e.now, e.action.sy;
    var v0 := UpdateFromSyState(w.vault, sy, now).value;
    var swept := UpdateFrame(w.vault, sy, now, v0);
    var a, x := EarnEffect(v0, ps[0], v1, r1);
    TimePasses(w, now);
    RefreshNeedsStart(w, now, sy);
    RefreshKeeps(w.vault, ps, w.mergedPy, now, sy, v0);
    UpdateVaultYieldKeeps(w.vault, ps, w.mergedPy, now, sy, v1, r1);
    UpdateKeepsCount(w.vault, sy, now, v0);
    if k < |w.vault.emissions| {
      RefreshConserves(w.vault, ps, w.mergedPy, now, sy, v0, k, l.paid, l.budget);
    }
    EarnOk(v0, ps, 0, v1, r1, k, Book(w, e, k, l), w.mergedPy, now);
  }

  lemma UserEarnsOk(w: World, e: Event, k: nat, l: StreamLedger, user: nat, v1: Vault, r1: Position, v2: Vault, u1: Position)
    requires StreamInvariant(w, k, l) && e.now >= w.clock && Refreshes(e.action) && Calm(w, e) && Affordable(w, e, k)
    requires IsUser(w, user) && UpdateVaultYield(w.vault, w.positions[0], e.now, e.action.sy) == Ok((v1, r1))
    requires e.now > Maturity(w.vault) ==> !InEmergency(v1)
    requires Earn(v1, w.positions[user]) == Ok((v2, u1))
    ensures InEmergency(v2) <==> e.action.sy.exchangeRate < w.vault.allTimeHigh
    ensures v2.emissions == v1.emissions && InStep(v2, k, e.now)
    ensures StreamOk(v2, w.positions[0 := r1][user := u1], k, Book(w, e, k, l))
    ensures CaughtUp(v2, r1, k) && CaughtUp(v2, u1, k)
  {
    VaultYieldOk(w, e, k, l, v1, r1);
    EarnOk(v1, w.positions[0 := r1], user, v2, u1, k, Book(w, e, k, l), w.mergedPy, e.now);
    var a, x := EarnEffect(v1, w.positions[user], v2, u1);
  }

  // ---------- instructions ----------

  predicate StreamCommits(w: World, e: Event, k: nat, l: StreamLedger, w1: World) {
    && StreamInvariant(w, k, l)
    && e.now >= w.clock
    && Calm(w, e) && Affordable(w, e, k)
    && Perform(w, e.now, e.action) == Ok(w1)
  }

  /** The conclusion for one instruction, apart from `Invariant`. */
  predicate StreamKept(w: World, e: Event, k: nat, l: StreamLedger, w1: World) {
    && (InEmergency(w1.vault) <==>
          if Refreshes(e.action) then e.action.sy.exchangeRate < w.vault.allTimeHigh else InEmergency(w.vault))
    && StreamOk(w1.vault, w1.positions, k, Book(w, e, k, l))
    && InStep(w1.vault, k, e.now)
  }

  lemma StripStream(w: World, e: Event, k: nat, l: StreamLedger, w1: World)
    requires StreamCommits(w, e, k, l, w1) && e.action.Strip?
    ensures StreamKept(w, e, k, l, w1)
  {
    var (v1, r1) := UpdateVaultYield(w.vault, w.positions[0], e.now, e.action.sy).value;
    VaultYieldOk(w, e, k, l, v1, r1);
    YtChangeOk(v1, w.positions[0 := r1], 0, w1.positions[0], k, Book(w, e, k, l));
    assert w1.positions == w.positions[0 := r1][0 := w1.positions[0]];
    OtherFieldsFree(v1, w1.vault, w1.positions, k, Book(w, e, k, l));
  }

  lemma MergeStream(w: World, e: Event, k: nat, l: StreamLedger, w1: World)
    requires StreamCommits(w, e, k, l, w1) && e.action.Merge?
    ensures StreamKept(w, e, k, l, w1)
  {
    var v1, r1, paid, v2 := MergeParts(w, e.now, e.action.sy, e.action.amountPy, w1);
    VaultYieldOk(w, e, k, l, v1, r1);
    YtChangeOk(v1, w.positions[0 := r1], 0, w1.positions[0], k, Book(w, e, k, l));
    assert w1.positions == w.positions[0 := r1][0 := w1.positions[0]];
    OtherFieldsFree(v1, w1.vault, w1.positions, k, Book(w, e, k, l));
  }

  lemma DepositStream(w: World, e: Event, k: nat, l: StreamLedger, w1: World)
    requires StreamCommits(w, e, k, l, w1) && e.action.DepositYt?
    ensures StreamKept(w, e, k, l, w1)
  {
    var user, amount := e.action.user, e.action.amount;
    var (v1, r1) := UpdateVaultYield(w.vault, w.positions[0], e.now, e.action.sy).value;
    var (v2, u1) := Earn(v1, w.positions[user]).value;
    UserEarnsOk(w, e, k, l, user, v1, r1, v2, u1);
    MovedStream(w, e, k, l, user, r1, v2, u1, w1);
  }

  lemma WithdrawStream(w: World, e: Event, k: nat, l: StreamLedger, w1: World)
    requires StreamCommits(w, e, k, l, w1) && e.action.WithdrawYt?
    ensures StreamKept(w, e, k, l, w1)
  {
    var user, amount := e.action.user, e.action.amount;
    var (v1, r1) := UpdateVaultYield(w.vault, w.positions[0], e.now, e.action.sy).value;
    var (v2, u1) := Earn(v1, w.positions[user]).value;
    UserEarnsOk(w, e, k, l, user, v1, r1, v2, u1);
    MovedStream(w, e, k, l, user, r1, v2, u1, w1);
  }

  lemma StageStream(w: World, e: Event, k: nat, l: StreamLedger, w1: World)
    requires StreamCommits(w, e, k, l, w1) && e.action.StageYield?
    ensures StreamKept(w, e, k, l, w1)
  {
    var user := e.action.user;
    var (v1, r1) := UpdateVaultYield(w.vault, w.positions[0], e.now, e.action.sy).value;
    var (v2, u1) := Earn(v1, w.positions[user]).value;
    UserEarnsOk(w, e, k, l, user, v1, r1, v2, u1);
    MovedStream(w, e, k, l, user, r1, v2, u1, w1);
  }

  /** Settled positions may exchange YT, and setting SY aside for PT touches no stream. */
  lemma MovedStream(w: World, e: Event, k: nat, l: StreamLedger, user: nat, r1: Position, v2: Vault, u1: Position, w1: World)
    requires |w.positions| > 0 && IsUser(w, user) && |w1.positions| == |w.positions|
    requires StreamOk(v2, w.positions[0 := r1][user := u1], k, Book(w, e, k, l))
    requires CaughtUp(v2, r1, k) && CaughtUp(v2, u1, k) && InStep(v2, k, e.now)
    requires Refreshes(e.action) && (InEmergency(v2) <==> e.action.sy.exchangeRate < w.vault.allTimeHigh)
    requires w1.positions == w.positions[0 := w1.positions[0]][user := w1.positions[user]]
    requires w1.positions[0].emissions == r1.emissions && w1.positions[user].emissions == u1.emissions
    requires w1.vault == v2.(syForPt := w1.vault.syForPt)
    ensures StreamKept(w, e, k, l, w1)
  {
    var qs := w.positions[0 := r1][user := u1];
    YtChangeOk(v2, qs, 0, w1.positions[0], k, Book(w, e, k, l));
    YtChangeOk(v2, qs[0 := w1.positions[0]], user, w1.positions[user], k, Book(w, e, k, l));
    assert w1.positions == qs[0 := w1.positions[0]][user := w1.positions[user]];
    OtherFieldsFree(v2, w1.vault, w1.positions, k, Book(w, e, k, l));
  }

  /** Paying out staged SY lowers a position's share. */
  lemma PaidOutOk(v: Vault, v1: Vault, ps: seq<Position>, i: nat, p: Position, k: nat, l: StreamLedger)
    requires i < |ps| && StreamOk(v, ps, k, l) && v1.emissions == v.emissions && PricingOf(v1) == PricingOf(v)
    requires p == ps[i].(interest := p.interest) && p.interest.lastSeenIndex == ps[i].interest.lastSeenIndex
    requires p.interest.staged <= ps[i].interest.staged
    ensures StreamOk(v1, ps[i := p], k, l)
  {
    if k < |v.emissions| {
      var x, seen := v.emissions[k].finalIndex, TrackerAt(p, k).lastSeenIndex;
      if seen <= x {
        MulMono(ShareUnder(PricingOf(v), p), ShareUnder(PricingOf(v), ps[i]), x - seen);
      }
      ReplaceConserves(v, ps, i, p, k, l.paid, l.budget);
    }
    OtherFieldsFree(v, v1, ps[i := p], k, l);
  }

  lemma CollectStream(w: World, e: Event, k: nat, l: StreamLedger, w1: World)
    requires StreamCommits(w, e, k, l, w1) && e.action.CollectUserInterest?
    ensures StreamKept(w, e, k, l, w1)
  {
    var user := e.action.user;
    var (v1, u1) := Earn(w.vault, w.positions[user]).value;
    TimePasses(w, e.now);
    var a, x := EarnEffect(w.vault, w.positions[user], v1, u1);
    EarnOk(w.vault, w.positions, user, v1, u1, k, l, w.mergedPy, e.now);
    PaidOutOk(v1, w1.vault, w.positions[user := u1], user, w1.positions[user], k, l);
    assert w1.positions == w.positions[user := u1][user := w1.positions[user]];
  }

  /** Collecting emissions moves them from staged to paid. */
  lemma EmissionPaidOk(w: World, i: nat, stream: nat, amount: nat, p: Position, k: nat, l: StreamLedger)
    requires i < |w.positions| && StreamInvariant(w, k, l)
    requires CollectStagedEmission(w.positions[i], stream, amount) == Ok(p)
    ensures StreamOk(w.vault, w.positions[i := p], k, if stream == k then l.(paid := l.paid + amount) else l)
  {
    if k < |w.vault.emissions| {
      StreamTotalsAfter(PricingOf(w.vault), w.positions, i, p, k, w.vault.emissions[k].finalIndex);
    }
  }

  lemma NothingHeld(m: Pricing, p: Position)
    requires p.ytBalance == 0 && p.interest.staged == 0
    ensures ShareUnder(m, p) == 0
  {
    match m
    case AtShare =>
    case InDip(f) => assert f > 0 ==> DivFloor(0, f) == 0;
  }

  lemma RegisterOk(w: World, e: Event, k: nat, l: StreamLedger, w1: World)
    requires StreamCommits(w, e, k, l, w1) && e.action.RegisterEmission?
    ensures StreamKept(w, e, k, l, w1)
  {
    if k == |w.vault.emissions| {
      var m, x := PricingOf(w1.vault), w1.vault.emissions[k].finalIndex;
      forall i | 0 <= i < |w.positions|
        ensures StagedEmission(k)(w.positions[i]) == 0 && Pending(m, k, x)(w.positions[i]) == 0
      {
        assert TrackerAt(w.positions[i], k) == Tracker(0, 0);
        if x > 0 {
          NothingHeld(m, w.positions[i]);
        }
      }
      SumZero(StagedEmission(k), w.positions);
      SumZero(Pending(m, k, x), w.positions);
    }
  }

  lemma OpenedOk(w: World, k: nat, l: StreamLedger)
    requires StreamInvariant(w, k, l)
    ensures StreamOk(w.vault, w.positions + [EMPTY_POSITION], k, l)
  {
    if k < |w.vault.emissions| {
      SumAppend(StagedEmission(k), w.positions, EMPTY_POSITION);
      NothingHeld(PricingOf(w.vault), EMPTY_POSITION);
      SumAppend(Pending(PricingOf(w.vault), k, w.vault.emissions[k].finalIndex), w.positions, EMPTY_POSITION);
    }
  }

  lemma TreasuryPaidOk(w: World, e: Event, k: nat, l: StreamLedger, w1: World)
    requires StreamCommits(w, e, k, l, w1) && e.action.TakeTreasuryEmission?
    ensures StreamKept(w, e, k, l, w1)
  {
  }

  lemma StreamStep(w: World, e: Event, k: nat, l: StreamLedger, w1: World)
    requires StreamCommits(w, e, k, l, w1)
    ensures StreamKept(w, e, k, l, w1)
  {
    match e.action
    case Strip(_, _) => StripStream(w, e, k, l, w1);
    case Merge(_, _) => MergeStream(w, e, k, l, w1);
    case DepositYt(_, _, _) => DepositStream(w, e, k, l, w1);
    case WithdrawYt(_, _, _) => WithdrawStream(w, e, k, l, w1);
    case StageYield(_, _) => StageStream(w, e, k, l, w1);
    case CollectUserInterest(_, _) => CollectStream(w, e, k, l, w1);
    case CollectUserEmission(user, stream, amount) => EmissionPaidOk(w, user, stream, amount, w1.positions[user], k, l);
    case TakeRobotEmission(stream, amount) => EmissionPaidOk(w, 0, stream, amount, w1.positions[0], k, l);
    case TakeRobotSy(amount) => PaidOutOk(w.vault, w1.vault, w.positions, 0, w1.positions[0], k, l);
    case RegisterEmission(_) => RegisterOk(w, e, k, l, w1);
    case OpenPosition => OpenedOk(w, k, l);
    case TakeTreasuryEmission(_, _) => TreasuryPaidOk(w, e, k, l, w1);
    case TakeTreasurySy(amount) => OtherFieldsFree(w.vault, w1.vault, w.positions, k, l);
    case ChangeSettings(_, _) => OtherFieldsFree(w.vault, w1.vault, w.positions, k, l);
  }

  lemma StreamCommitKeeps(w: World, e: Event, k: nat, l: StreamLedger, w1: World)
    requires StreamInvariant(w, k, l) && Calm(w, e) && Affordable(w, e, k) && Commit(w, e) == Ok(w1)
    ensures StreamInvariant(w1, k, Book(w, e, k, l))
    ensures !InEmergency(w.vault) && Rising(w, e) ==> !InEmergency(w1.vault)
  {
    StreamStep(w, e, k, l, Perform(w, e.now, e.action).value);
    CommitKeeps(w, e, w1);
  }

  lemma {:induction false} StreamInvariantOverRun(w: World, events: seq<Event>, k: nat, l: StreamLedger)
    requires StreamInvariant(w, k, l) && AffordableRun(w, events, k)
    ensures StreamInvariant(Run(w, events), k, RunLedger(w, events, k, l))
    decreases |events|
  {
    if events != [] {
      var e := events[0];
      var w1 := Step(w, e);
      var l1 := if Commit(w, e).Ok? then Book(w, e, k, l) else l;
      if Commit(w, e).Ok? {
        StreamCommitKeeps(w, e, k, l, w1);
      }
      StreamInvariantOverRun(w1, events[1..], k, l1);
    }
  }

  /** A run of rising rates never enters an emergency, so every refresh in it is steady. */
  lemma {:induction false} RisingIsAffordable(w: World, events: seq<Event>, k: nat, l: StreamLedger)
    requires StreamInvariant(w, k, l) && !InEmergency(w.vault) && RisingRun(w, events)
    ensures AffordableRun(w, events, k)
    decreases |events|
  {
    if events != [] {
      var e := events[0];
      var w1 := Step(w, e);
      if Commit(w, e).Ok? {
        StreamCommitKeeps(w, e, k, l, w1);
      }
      RisingIsAffordable(w1, events[1..], k, if Commit(w, e).Ok? then Book(w, e, k, l) else l);
    }
  }

  /** What a stream has credited, swept and paid is within the index rises times the escrowed SY at
      each refresh (plus the dust), scaled by 10^24. */
  predicate Kept(w: World, k: nat, l: StreamLedger) {
    k < |w.vault.emissions| ==>
      ONE * ONE * (Sum(StagedEmission(k), w.positions) + w.vault.emissions[k].treasuryEmission + l.paid) <= l.budget
  }

  /** Emissions are conserved through dips: any rates, as long as each refresh that touches an
      emergency fits at its rate, and maturity is not crossed in one. */
  lemma EmissionsConservedThroughDips(startTs: nat, duration: nat, events: seq<Event>, k: nat)
    requires AffordableRun(Genesis(startTs, duration), events, k)
    ensures Kept(Run(Genesis(startTs, duration), events), k, RunLedger(Genesis(startTs, duration), events, k, StreamLedger(0, 0)))
  {
    var g := Genesis(startTs, duration);
    GenesisIsSound(startTs, duration);
    StreamInvariantOverRun(g, events, k, StreamLedger(0, 0));
  }

  /** Emissions are conserved: under nondecreasing rates, with the stream registered at
      index zero or before anyone holds YT, what every position has staged, what the treasury has
      swept and what was ever paid out of stream `k` stay within the index increases times the
      escrowed SY at each refresh (plus the dust). */
  lemma EmissionsConserved(startTs: nat, duration: nat, events: seq<Event>, k: nat)
    requires RisingRun(Genesis(startTs, duration), events)
    requires k < |Run(Genesis(startTs, duration), events).vault.emissions|
    ensures
      var w := Run(Genesis(startTs, duration), events);
      var l := RunLedger(Genesis(startTs, duration), events, k, StreamLedger(0, 0));
      ONE * ONE * (Sum(StagedEmission(k), w.positions) + w.vault.emissions[k].treasuryEmission + l.paid) <= l.budget
  {
    GenesisIsSound(startTs, duration);
    RisingIsAffordable(Genesis(startTs, duration), events, k, StreamLedger(0, 0));
    EmissionsConservedThroughDips(startTs, duration, events, k);
  }
}
