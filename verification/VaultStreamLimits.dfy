/** Exactly when an emission stream credits more than it brings in: what a dip credits once everybody
    settles in it, and what a stream that comes with a history credits to those already there. */
module VaultStreamLimits {
  import opened Outcome
  import opened FixedPoint
  import opened Sums
  import opened VaultSpec
  import opened VaultRuns
  import opened VaultPreservation
  import opened Solvency
  import opened VaultEmissions
  import opened VaultStreamRuns

  // ---------- a dip, and everybody settling in it ----------

  function BalanceAt(f: nat): Position -> nat {
    (p: Position) => Balance(p, f)
  }

  /** What settling at index `x` and final rate `f` would credit now. */
  function Owed(f: nat, k: nat, x: nat): Position -> nat {
    (p: Position) => if TrackerAt(p, k).lastSeenIndex <= x then MulFloor(x - TrackerAt(p, k).lastSeenIndex, Balance(p, f)) else 0
  }

  /** Withdrawing nothing is the refresh that an emergency does not stop. */
  function Dip(now: nat, user: nat, sy: SyState): Event {
    Event(now, WithdrawYt(user, sy, 0))
  }

  function DipAndSettle(w: World, now: nat, user: nat, sy: SyState): seq<Event> {
    [Dip(now, user, sy)] + SettleUsers(now, 1, |w.positions|)
  }

  lemma DipEarn(v: Vault, p: Position, v1: Vault, p1: Position, k: nat)
    requires InEmergency(v) && Earn(v, p) == Ok((v1, p1)) && k < |v.emissions| && |p.emissions| <= |v.emissions|
    ensures v1 == v && p1.ytBalance == p.ytBalance && p1.interest == p.interest && |p1.emissions| == |v.emissions|
    ensures var x := v.emissions[k].finalIndex;
            TrackerAt(p1, k) == Tracker(x, TrackerAt(p, k).staged + Owed(v.finalRate, k, x)(p)) && Owed(v.finalRate, k, x)(p1) == 0
  {
    var a, e := EarnEffect(v, p, v1, p1);
    var balance := EarnedStream(v, p, v1, p1, k);
    assert MulFloor(0, balance) == 0;
  }

  /** Staged and owed, over everybody. */
  function Credit(ps: seq<Position>, f: nat, k: nat, x: nat): nat {
    Sum(StagedEmission(k), ps) + Sum(Owed(f, k, x), ps)
  }

  predicate InTheDip(v: Vault, ps: seq<Position>, k: nat, f: nat, x: nat) {
    InEmergency(v) && v.finalRate == f && k < |v.emissions| && v.emissions[k].finalIndex == x && Tracked(v, ps)
  }

  predicate NothingOwed(ps: seq<Position>, i: nat, f: nat, k: nat, x: nat) {
    i <= |ps| && forall j :: 0 <= j < i ==> Owed(f, k, x)(ps[j]) == 0
  }

  /** A settlement moves what was owed to what is staged, and nothing else. */
  lemma SettlingKeepsCredit(v: Vault, ps: seq<Position>, i: nat, p1: Position, k: nat, f: nat, x: nat)
    requires i < |ps| && InTheDip(v, ps, k, f, x) && Earn(v, ps[i]) == Ok((v, p1))
    ensures Credit(ps[i := p1], f, k, x) == Credit(ps, f, k, x) && InTheDip(v, ps[i := p1], k, f, x)
    ensures Owed(f, k, x)(p1) == 0
  {
    DipEarn(v, ps[i], v, p1, k);
    SumUpdate(StagedEmission(k), ps, i, p1);
    SumUpdate(Owed(f, k, x), ps, i, p1);
  }

  lemma DipSettleOne(w: World, now: nat, i: nat, k: nat, f: nat, x: nat, w1: World)
    requires 0 < i < |w.positions| && InTheDip(w.vault, w.positions, k, f, x) && NothingOwed(w.positions, i, f, k, x)
    requires Commit(w, Event(now, CollectUserInterest(i, 0))) == Ok(w1)
    ensures w1.vault == w.vault && |w1.positions| == |w.positions| && InTheDip(w1.vault, w1.positions, k, f, x)
    ensures NothingOwed(w1.positions, i + 1, f, k, x) && Credit(w1.positions, f, k, x) == Credit(w.positions, f, k, x)
  {
    var (v1, u1) := Earn(w.vault, w.positions[i]).value;
    DipEarn(w.vault, w.positions[i], v1, u1, k);
    SettlingKeepsCredit(w.vault, w.positions, i, u1, k, f, x);
    assert w1.positions == w.positions[i := u1];
  }

  lemma {:induction false} DipSettleRest(w: World, now: nat, i: nat, k: nat, f: nat, x: nat)
    requires 0 < i <= |w.positions| && InTheDip(w.vault, w.positions, k, f, x) && NothingOwed(w.positions, i, f, k, x)
    requires AllCommit(w, SettleUsers(now, i, |w.positions|))
    ensures
      var w1 := Run(w, SettleUsers(now, i, |w.positions|));
      w1.vault == w.vault && Sum(StagedEmission(k), w1.positions) == Credit(w.positions, f, k, x)
    decreases |w.positions| - i
  {
    var n := |w.positions|;
    if i < n {
      var e := Event(now, CollectUserInterest(i, 0));
      var w1 := Commit(w, e).value;
      assert ([e] + SettleUsers(now, i + 1, n))[1..] == SettleUsers(now, i + 1, n);
      DipSettleOne(w, now, i, k, f, x, w1);
      DipSettleRest(w1, now, i + 1, k, f, x);
    } else {
      SumZero(Owed(f, k, x), w.positions);
    }
  }

  lemma DipStep(w: World, now: nat, user: nat, sy: SyState, k: nat, w1: World)
    requires |w.positions| > 0 && k < |w.vault.emissions| && k < |sy.emissionIndexes| && Tracked(w.vault, w.positions)
    requires sy.exchangeRate < w.vault.allTimeHigh && Commit(w, Dip(now, user, sy)) == Ok(w1)
    ensures var f, x := sy.exchangeRate, sy.emissionIndexes[k];
            && InTheDip(w1.vault, w1.positions, k, f, x) && NothingOwed(w1.positions, 1, f, k, x)
            && Credit(w1.positions, f, k, x) == Credit(w.positions, f, k, x)
    ensures |w1.positions| == |w.positions| && w1.vault.emissions[k].treasuryEmission == w.vault.emissions[k].treasuryEmission
  {
    var f, x, ps := sy.exchangeRate, sy.emissionIndexes[k], w.positions;
    var v0 := UpdateFromSyState(w.vault, sy, now).value;
    var swept := UpdateFrame(w.vault, sy, now, v0);
    UpdatedStream(w.vault, sy, now, v0, k);
    var (v1, r1) := Earn(v0, ps[0]).value;
    DipEarn(v0, ps[0], v1, r1, k);
    SettlingKeepsCredit(v0, ps, 0, r1, k, f, x);
    var (v2, u1) := Earn(v0, ps[user]).value;
    DipEarn(v0, ps[user], v2, u1, k);
    SettlingKeepsCredit(v0, ps[0 := r1], user, u1, k, f, x);
    assert w1.positions == ps[0 := r1][user := u1];
  }

  /** A dip, with everybody settling in it, credits exactly what everybody is owed at the depressed
      rate; the stream is conserved over it if and only if that, read before the dip, fits. */
  lemma DipConservesExactlyWhenOwedFits(w: World, now: nat, user: nat, sy: SyState, k: nat, l: StreamLedger)
    requires |w.positions| > 0 && k < |w.vault.emissions| && k < |sy.emissionIndexes| && Tracked(w.vault, w.positions)
    requires sy.exchangeRate < w.vault.allTimeHigh && AllCommit(w, DipAndSettle(w, now, user, sy))
    ensures
      var end := Run(w, DipAndSettle(w, now, user, sy));
      var owed := Sum(Owed(sy.exchangeRate, k, sy.emissionIndexes[k]), w.positions);
      && k < |end.vault.emissions|
      && Sum(StagedEmission(k), end.positions) == Sum(StagedEmission(k), w.positions) + owed
      && (Kept(end, k, Book(w, Dip(now, user, sy), k, l)) <==>
            ONE * ONE * (Sum(StagedEmission(k), w.positions) + owed + w.vault.emissions[k].treasuryEmission + l.paid)
              <= l.budget + Accrual(w.vault, w.positions, w.mergedPy, k, sy))
  {
    var first, users := [Dip(now, user, sy)], SettleUsers(now, 1, |w.positions|);
    RunsJoin(w, first, users);
    var w1 := Step(w, first[0]);
    assert Run(w, first) == w1 by {
      assert first[1..] == [];
    }
    DipStep(w, now, user, sy, k, w1);
    DipSettleRest(w1, now, 1, k, sy.exchangeRate, sy.emissionIndexes[k]);
  }

  // ---------- the condition as a sum of balances ----------

  predicate EveryoneCaughtUp(w: World, k: nat)
    requires k < |w.vault.emissions|
  {
    && w.vault.emissions[k].finalIndex == w.vault.emissions[k].lastSeenIndex
    && forall i :: 0 <= i < |w.positions| ==> TrackerAt(w.positions[i], k).lastSeenIndex == w.vault.emissions[k].finalIndex
  }

  lemma OwedWhenCaughtUp(w: World, k: nat, m: nat, f: nat)
    requires k < |w.vault.emissions| && EveryoneCaughtUp(w, k)
    ensures Sum(Owed(f, k, w.vault.emissions[k].finalIndex + m * ONE), w.positions) == m * Sum(BalanceAt(f), w.positions)
  {
    var x := w.vault.emissions[k].finalIndex + m * ONE;
    forall i | 0 <= i < |w.positions| ensures Owed(f, k, x)(w.positions[i]) == m * BalanceAt(f)(w.positions[i]) {
      WholeRise(m, Balance(w.positions[i], f));
    }
    SumScaled(BalanceAt(f), Owed(f, k, x), m, w.positions);
  }

  lemma WholeRise(m: nat, balance: nat)
    ensures MulFloor(m * ONE, balance) == m * balance
  {
    assert m * ONE * balance == m * balance * ONE;
  }

  lemma PendingWhenCaughtUp(w: World, k: nat, m: Pricing, x: nat, d: nat)
    requires k < |w.vault.emissions| && EveryoneCaughtUp(w, k) && x == w.vault.emissions[k].finalIndex + d
    ensures m.InDip? ==> Sum(Pending(m, k, x), w.positions) == ONE * d * Sum(BalanceAt(m.rate), w.positions)
    ensures d == 0 ==> Sum(Pending(m, k, x), w.positions) == 0
  {
    if m.InDip? {
      forall i | 0 <= i < |w.positions| ensures Pending(m, k, x)(w.positions[i]) == ONE * d * BalanceAt(m.rate)(w.positions[i]) {
      }
      SumScaled(BalanceAt(m.rate), Pending(m, k, x), ONE * d, w.positions);
    } else if d == 0 {
      SumZero(Pending(m, k, x), w.positions);
    }
  }

  /** With everybody caught up, a dip that raises the index is affordable exactly when the SY that
      positions stand for at the depressed rate fits the escrow (and dust). */
  lemma DipIsAffordableWhenBalancesFit(w: World, now: nat, sy: SyState, k: nat)
    requires k < |w.vault.emissions| && k < |sy.emissionIndexes| && EveryoneCaughtUp(w, k) && IsActive(w.vault, now)
    requires sy.exchangeRate < w.vault.allTimeHigh && sy.emissionIndexes[k] > w.vault.emissions[k].finalIndex
    ensures PricedIn(w.vault, w.positions, w.mergedPy, now, sy, k)
       <==> ONE * Sum(BalanceAt(sy.exchangeRate), w.positions) <= Basis(w.vault, w.positions, w.mergedPy)
  {
    var d := sy.emissionIndexes[k] - w.vault.emissions[k].finalIndex;
    var total, basis := Sum(BalanceAt(sy.exchangeRate), w.positions), Basis(w.vault, w.positions, w.mergedPy);
    PricedInSums(w, now, sy, k, d, total, basis);
    assert ONE * d * total == d * (ONE * total);
    SameFactor(d, ONE * total, basis);
  }

  lemma PricedInSums(w: World, now: nat, sy: SyState, k: nat, d: nat, total: nat, basis: nat)
    requires k < |w.vault.emissions| && k < |sy.emissionIndexes| && EveryoneCaughtUp(w, k) && IsActive(w.vault, now)
    requires sy.exchangeRate < w.vault.allTimeHigh && sy.emissionIndexes[k] == w.vault.emissions[k].finalIndex + d
    requires total == Sum(BalanceAt(sy.exchangeRate), w.positions) && basis == Basis(w.vault, w.positions, w.mergedPy)
    ensures PricedIn(w.vault, w.positions, w.mergedPy, now, sy, k) <==> ONE * d * total <= d * basis
  {
    PendingWhenCaughtUp(w, k, InDip(sy.exchangeRate), sy.emissionIndexes[k], d);
    PendingWhenCaughtUp(w, k, PricingOf(w.vault), w.vault.emissions[k].finalIndex, 0);
  }

  lemma SameFactor(d: nat, a: nat, b: nat)
    requires d > 0
    ensures d * a <= d * b <==> a <= b
  {
    if a <= b {
      MulMono(a, b, d);
    } else {
      MulMono(b + 1, a, d);
    }
  }

  /** The exact condition for one dip: with everybody caught up and an index rise of whole tokens per
      SY, the dip with everybody settling credits within what the refresh brings in if and only if
      it was affordable, which is what conservation over whole runs asks for. */
  lemma DipFitsExactlyWhenAffordable(w: World, now: nat, user: nat, sy: SyState, k: nat, m: nat)
    requires |w.positions| > 0 && k < |w.vault.emissions| && k < |sy.emissionIndexes| && Tracked(w.vault, w.positions)
    requires sy.exchangeRate < w.vault.allTimeHigh && AllCommit(w, DipAndSettle(w, now, user, sy))
    requires EveryoneCaughtUp(w, k) && IsActive(w.vault, now)
    requires m > 0 && sy.emissionIndexes[k] == w.vault.emissions[k].finalIndex + m * ONE
    ensures
      var end := Run(w, DipAndSettle(w, now, user, sy));
      ONE * ONE * (Sum(StagedEmission(k), end.positions) - Sum(StagedEmission(k), w.positions))
        <= Accrual(w.vault, w.positions, w.mergedPy, k, sy)
      <==> PricedIn(w.vault, w.positions, w.mergedPy, now, sy, k)
  {
    var total, basis := Sum(BalanceAt(sy.exchangeRate), w.positions), Basis(w.vault, w.positions, w.mergedPy);
    DipCredits(w, now, user, sy, k, m, total);
    WholePrice(w, now, sy, k, m, total, basis);
  }

  lemma WholePrice(w: World, now: nat, sy: SyState, k: nat, m: nat, total: nat, basis: nat)
    requires k < |w.vault.emissions| && k < |sy.emissionIndexes| && EveryoneCaughtUp(w, k) && IsActive(w.vault, now)
    requires sy.exchangeRate < w.vault.allTimeHigh && sy.emissionIndexes[k] == w.vault.emissions[k].finalIndex + m * ONE
    requires total == Sum(BalanceAt(sy.exchangeRate), w.positions) && basis == Basis(w.vault, w.positions, w.mergedPy)
    ensures ONE * ONE * (m * total) <= Accrual(w.vault, w.positions, w.mergedPy, k, sy)
       <==> PricedIn(w.vault, w.positions, w.mergedPy, now, sy, k)
  {
    PricedInSums(w, now, sy, k, m * ONE, total, basis);
    Regroup(m, total);
  }

  lemma Regroup(m: nat, total: nat)
    ensures ONE * ONE * (m * total) == ONE * (m * ONE) * total
  {
    assert m * ONE * total == ONE * (m * total);
  }

  lemma DipCredits(w: World, now: nat, user: nat, sy: SyState, k: nat, m: nat, total: nat)
    requires |w.positions| > 0 && k < |w.vault.emissions| && k < |sy.emissionIndexes| && Tracked(w.vault, w.positions)
    requires sy.exchangeRate < w.vault.allTimeHigh && AllCommit(w, DipAndSettle(w, now, user, sy))
    requires EveryoneCaughtUp(w, k) && sy.emissionIndexes[k] == w.vault.emissions[k].finalIndex + m * ONE
    requires total == Sum(BalanceAt(sy.exchangeRate), w.positions)
    ensures Sum(StagedEmission(k), Run(w, DipAndSettle(w, now, user, sy)).positions)
         == Sum(StagedEmission(k), w.positions) + m * total
  {
    DipConservesExactlyWhenOwedFits(w, now, user, sy, k, StreamLedger(0, 0));
    OwedWhenCaughtUp(w, k, m, sy.exchangeRate);
  }

  // ---------- a stream with a history ----------

  lemma RefreshOne(v: Vault, e: EmissionInfo, rate: nat, index: nat, now: nat)
    requires v.emissions == [e] && IsActive(v, now) && Maturity(v) <= U32_MAX
    ensures UpdateFromSyState(v, SyState(rate, [index]), now)
         == SetSyForPt(RecordRates(v, rate, now).(emissions := [EmissionInfo(index, index, e.treasuryEmission)]))
  {
    assert RecordIndexes([e], [index], true) == [RecordIndex(e, index, true)];
  }

  lemma EarnOne(v: Vault, p: Position, e: EmissionInfo, v1: Vault, p1: Position, balance: nat, t1: Tracker)
    requires v.emissions == [e] && |p.emissions| <= 1
    requires EarnSyInterest(v, p.(emissions := [TrackerAt(p, 0)])) == Ok((v1, p1))
    requires TotalSyBalance(v1, p1) == Ok(balance) && EarnTracker(TrackerAt(p, 0), e, balance) == Ok(t1)
    ensures Earn(v, p) == Ok((v1, p1.(emissions := [t1])))
  {
    var ts := [TrackerAt(p, 0)];
    assert EnsureTrackers(p.emissions, 1) == ts;
    assert EarnTrackers(ts, [e], balance, 0) == Ok(ts);
    assert ts[0 := t1] == [t1];
    assert EarnTrackers(ts, [e], balance, 1) == Ok([t1]);
  }

  /** A rising run in which a stream may also be registered at index `x` while YT is held. */
  predicate RisingWithHistory(w: World, e: Event, x: nat) {
    && (Refreshes(e.action) ==> e.action.sy.exchangeRate >= w.vault.allTimeHigh)
    && (e.action.RegisterEmission? && |w.vault.emissions| < |e.action.sy.emissionIndexes| ==>
          e.action.sy.emissionIndexes[|w.vault.emissions|] == x || FreshStream(w, e))
  }

  ghost predicate HistoryRun(w: World, events: seq<Event>, x: nat)
    requires |w.positions| > 0
    decreases |events|
  {
    events != [] ==>
      && (Commit(w, events[0]).Ok? ==> RisingWithHistory(w, events[0], x))
      && HistoryRun(Step(w, events[0]), events[1..], x)
  }

  ghost predicate KeptWithHistory(startTs: nat, duration: nat, events: seq<Event>, k: nat, x: nat) {
    HistoryRun(Genesis(startTs, duration), events, x) ==>
      Kept(Run(Genesis(startTs, duration), events), k, RunLedger(Genesis(startTs, duration), events, k, StreamLedger(0, 0)))
  }

  lemma {:induction false} NoHistoryIsRising(w: World, events: seq<Event>)
    requires |w.positions| > 0 && HistoryRun(w, events, 0)
    ensures RisingRun(w, events)
    decreases |events|
  {
    if events != [] {
      NoHistoryIsRising(Step(w, events[0]), events[1..]);
    }
  }

  lemma NoHistoryIsKept(startTs: nat, duration: nat, events: seq<Event>, k: nat)
    ensures KeptWithHistory(startTs, duration, events, k, 0)
  {
    var g := Genesis(startTs, duration);
    if HistoryRun(g, events, 0) && k < |Run(g, events).vault.emissions| {
      NoHistoryIsRising(g, events);
      EmissionsConserved(startTs, duration, events, k);
    }
  }

  /** YT is minted, a stream is registered at `x`, and the holder is settled. */
  function Late(x: nat, supply: nat): seq<Event> {
    [Event(0, Strip(SyState(ONE, []), supply)), Event(0, RegisterEmission(SyState(ONE, [x]))),
     Event(1, Strip(SyState(ONE, [x]), 0))]
  }

  function LateVault(supply: nat, es: seq<EmissionInfo>): Vault {
    Vault(0, 10, ONE, ONE, ONE, supply, supply, supply, 0, 0, 0, U64_MAX, es)
  }

  function LateWorld(supply: nat, es: seq<EmissionInfo>, ts: seq<Tracker>, clock: nat): World {
    World(LateVault(supply, es), [Position(supply, Tracker(ONE, 0), ts)], clock, 0)
  }

  lemma LateStrip(supply: nat)
    requires supply <= U64_MAX
    ensures Commit(Genesis(0, 10), Event(0, Strip(SyState(ONE, []), supply))) == Ok(LateWorld(supply, [], [], 0))
  {
    var v0 := LateVault(0, []);
    assert UpdateFromSyState(Genesis(0, 10).vault, SyState(ONE, []), 0) == Ok(v0);
    assert Earn(v0, EMPTY_POSITION) == Ok((v0, Position(0, Tracker(ONE, 0), [])));
    assert SyToPy(ONE, supply) == Ok(supply);
    assert SyBackingForPt(ONE, supply, supply) == Ok(supply);
    assert HandleStrip(Genesis(0, 10).vault, EMPTY_POSITION, 0, SyState(ONE, []), supply)
        == Ok((LateVault(supply, []), Position(supply, Tracker(ONE, 0), []), supply));
    assert [EMPTY_POSITION][0 := Position(supply, Tracker(ONE, 0), [])] == [Position(supply, Tracker(ONE, 0), [])];
  }

  lemma LateSettle(x: nat, supply: nat)
    requires supply <= U64_MAX && MulFloor(x, supply) <= U64_MAX
    ensures Commit(LateWorld(supply, [EmissionInfo(x, x, 0)], [], 0), Event(1, Strip(SyState(ONE, [x]), 0)))
         == Ok(LateWorld(supply, [EmissionInfo(x, x, 0)], [Tracker(x, MulFloor(x, supply))], 1))
  {
    var e, v := EmissionInfo(x, x, 0), LateVault(supply, [EmissionInfo(x, x, 0)]);
    assert SyBackingForPt(ONE, supply, supply) == Ok(supply);
    RefreshOne(v, e, ONE, x, 1);
    var p := Position(supply, Tracker(ONE, 0), []);
    assert PyToSy(ONE, supply) == Ok(supply);
    EarnOne(v, p, e, v, p.(emissions := [Tracker(0, 0)]), supply, Tracker(x, MulFloor(x, supply)));
    assert SyToPy(ONE, 0) == Ok(0);
    assert HandleStrip(v, p, 1, SyState(ONE, [x]), 0)
        == Ok((v, p.(emissions := [Tracker(x, MulFloor(x, supply))]), 0));
    assert [p][0 := p.(emissions := [Tracker(x, MulFloor(x, supply))])] == [p.(emissions := [Tracker(x, MulFloor(x, supply))])];
  }

  /** A run allowed from `w` to `end` that adds nothing to the ledger of stream zero. */
  ghost predicate LeadsTo(w: World, events: seq<Event>, x: nat, end: World)
    requires |w.positions| > 0
  {
    && HistoryRun(w, events, x) && Run(w, events) == end
    && RunLedger(w, events, 0, StreamLedger(0, 0)) == StreamLedger(0, 0)
  }

  lemma LeadsFurther(w: World, e: Event, rest: seq<Event>, x: nat, w1: World, end: World)
    requires |w.positions| > 0 && |w1.positions| > 0 && Commit(w, e) == Ok(w1) && RisingWithHistory(w, e, x)
    requires Book(w, e, 0, StreamLedger(0, 0)) == StreamLedger(0, 0) && LeadsTo(w1, rest, x, end)
    ensures LeadsTo(w, [e] + rest, x, end)
  {
    assert ([e] + rest)[1..] == rest;
  }

  function LateEnd(x: nat, supply: nat): World {
    LateWorld(supply, [EmissionInfo(x, x, 0)], [Tracker(x, MulFloor(x, supply))], 1)
  }

  lemma LateLeads2(x: nat, supply: nat)
    requires supply <= U64_MAX && MulFloor(x, supply) <= U64_MAX
    ensures LeadsTo(LateWorld(supply, [EmissionInfo(x, x, 0)], [], 0), [Event(1, Strip(SyState(ONE, [x]), 0))], x, LateEnd(x, supply))
  {
    var w, e := LateWorld(supply, [EmissionInfo(x, x, 0)], [], 0), Event(1, Strip(SyState(ONE, [x]), 0));
    LateSettle(x, supply);
    assert Rise(x, x, Basis(w.vault, w.positions, 0)) == 0;
    LeadsFurther(w, e, [], x, LateEnd(x, supply), LateEnd(x, supply));
    assert [e] + [] == [e];
  }

  lemma LateLeads1(x: nat, supply: nat)
    requires supply <= U64_MAX && MulFloor(x, supply) <= U64_MAX
    ensures LeadsTo(LateWorld(supply, [], [], 0),
      [Event(0, RegisterEmission(SyState(ONE, [x]))), Event(1, Strip(SyState(ONE, [x]), 0))], x, LateEnd(x, supply))
  {
    var e, rest := Event(0, RegisterEmission(SyState(ONE, [x]))), [Event(1, Strip(SyState(ONE, [x]), 0))];
    LateRegister(x, supply);
    LateLeads2(x, supply);
    LeadsFurther(LateWorld(supply, [], [], 0), e, rest, x, LateWorld(supply, [EmissionInfo(x, x, 0)], [], 0), LateEnd(x, supply));
    assert [e] + rest == [e, rest[0]];
  }

  /** The stream pays nothing, and the holder is staged `x` per SY. */
  lemma LateRun(x: nat, supply: nat)
    requires supply <= U64_MAX && MulFloor(x, supply) <= U64_MAX
    ensures LeadsTo(Genesis(0, 10), Late(x, supply), x, LateEnd(x, supply))
    ensures Sum(StagedEmission(0), LateEnd(x, supply).positions) == MulFloor(x, supply)
  {
    var es := Late(x, supply);
    LateStrip(supply);
    LateLeads1(x, supply);
    LeadsFurther(Genesis(0, 10), es[0], [es[1], es[2]], x, LateWorld(supply, [], [], 0), LateEnd(x, supply));
    assert es == [es[0]] + [es[1], es[2]];
    OneStaged(LateEnd(x, supply).positions[0], 0);
  }

  lemma OneStaged(p: Position, k: nat)
    ensures Sum(StagedEmission(k), [p]) == TrackerAt(p, k).staged
  {
    assert [p][1..] == [];
    assert Sum(StagedEmission(k), [p]) == StagedEmission(k)(p) + Sum(StagedEmission(k), []);
  }

  lemma LateRegister(x: nat, supply: nat)
    ensures Commit(LateWorld(supply, [], [], 0), Event(0, RegisterEmission(SyState(ONE, [x])))) == Ok(LateWorld(supply, [EmissionInfo(x, x, 0)], [], 0))
  {
    assert AddEmission(LateVault(supply, []), SyState(ONE, [x])).value == LateVault(supply, [EmissionInfo(x, x, 0)]);
  }

  /** Conservation over rising runs, with registration at index `x` allowed while YT is held, holds if
      and only if `x` is zero, for every `x` whose credit to a single SY can be represented. */
  lemma ExactlyWithoutHistory(x: nat)
    requires x <= U64_MAX * ONE
    ensures (forall startTs: nat, duration: nat, events: seq<Event>, k: nat :: KeptWithHistory(startTs, duration, events, k, x)) <==> x == 0
  {
    if x == 0 {
      forall startTs: nat, duration: nat, events: seq<Event>, k: nat ensures KeptWithHistory(startTs, duration, events, k, x) {
        NoHistoryIsKept(startTs, duration, events, k);
      }
    } else {
      var supply := if x < ONE then ONE else 1;
      CreditFits(x, supply);
      LateRun(x, supply);
      assert !KeptWithHistory(0, 10, Late(x, supply), 0, x);
    }
  }

  lemma CreditFits(x: nat, supply: nat)
    requires 0 < x <= U64_MAX * ONE && supply == if x < ONE then ONE else 1
    ensures 0 < MulFloor(x, supply) <= U64_MAX
  {
    if x >= ONE {
      DivIsAtMost(x, ONE, U64_MAX);
      DivIsAtLeast(x, ONE, 1);
    }
  }
}
