/** Short runs beyond the conditions of the run theorems: a vault left depressed at maturity that
    misses the crossing condition, a dip that does not fit, and a stream registered with a history. */
module VaultCounterexamples {
  import opened Outcome
  import opened FixedPoint
  import opened Sums
  import opened VaultSpec
  import opened VaultRuns
  import opened VaultInvariant
  import opened Solvency
  import opened VaultCrossing
  import opened VaultShortfall
  import opened VaultEmissions
  import opened VaultStreamLimits

  const TWO := 2 * ONE
  const FOUR := 4 * ONE
  const FIVE := 5 * ONE

  function Of(last: nat, high: nat, final: nat, escrow: nat, sfp: nat, pt: nat, treasury: nat, uncollected: nat, es: seq<EmissionInfo>): Vault {
    Vault(0, 10, last, high, final, escrow, sfp, pt, treasury, uncollected, 0, U64_MAX, es)
  }

  function P(yt: nat, index: nat, staged: nat, ts: seq<Tracker>): Position {
    Position(yt, Tracker(index, staged), ts)
  }

  lemma Then(w: World, e: Event, rest: seq<Event>, w1: World, end: World)
    requires |w.positions| > 0 && |w1.positions| > 0 && Step(w, e) == w1 && Run(w1, rest) == end
    ensures Run(w, [e] + rest) == end
  {
    assert ([e] + rest)[1..] == rest;
  }

  // ---------- left depressed at maturity ----------

  /** A holder stays at index one while the rate climbs to four; a withdrawal records a dip to two
      and nothing else happens before maturity. */
  const CLIMB: seq<Event> := [
    Event(0, OpenPosition),
    Event(0, Strip(SyState(ONE, []), 100)),
    Event(0, DepositYt(1, SyState(ONE, []), 40)),
    Event(1, Strip(SyState(FOUR, []), 4)),
    Event(5, WithdrawYt(1, SyState(TWO, []), 1))]

  /** At rate five all PT redeems, and the holder then settles. */
  const LATE_MERGE: seq<Event> := [
    Event(11, Merge(SyState(FIVE, []), 116)),
    Event(12, StageYield(1, SyState(FIVE, [])))]

  const DIP1 := World(Of(0, 0, 0, 0, 0, 0, 0, 0, []), [EMPTY_POSITION, EMPTY_POSITION], 0, 0)
  const DIP2 := World(Of(ONE, ONE, ONE, 100, 100, 100, 0, 0, []), [P(100, ONE, 0, []), EMPTY_POSITION], 0, 0)
  const DIP3 := World(Of(ONE, ONE, ONE, 100, 100, 100, 0, 0, []), [P(60, ONE, 0, []), P(40, ONE, 0, [])], 0, 0)
  const DIP4 := World(Of(FOUR, FOUR, FOUR, 104, 29, 116, 0, 45, []), [P(76, FOUR, 45, []), P(40, ONE, 0, [])], 1, 0)
  const DIP5 := World(Of(TWO, FOUR, TWO, 104, 58, 116, 0, 45, []), [P(77, FOUR, 45, []), P(39, ONE, 0, [])], 5, 0)
  const DIP6 := World(Of(FIVE, FIVE, TWO, 82, 0, 0, 35, 45, []), [P(77, TWO, 45, []), P(39, ONE, 0, [])], 11, 0)
  const DIP7 := World(Of(FIVE, FIVE, TWO, 82, 0, 0, 35, 52, []), [P(77, TWO, 45, []), P(39, TWO, 7, [])], 12, 0)

  lemma DipMergesLate()
    ensures Run(DIP5, LATE_MERGE) == DIP7
  {
    var v0, v1 := Of(FIVE, FIVE, TWO, 104, 23, 116, 35, 45, []), DIP6.vault;
    assert SyAppreciation(TWO, FIVE, 59) == Ok(35);
    assert UpdateFromSyState(DIP5.vault, SyState(FIVE, []), 11) == Ok(v0);
    assert Earn(v0, P(77, FOUR, 45, [])) == Ok((v0, P(77, TWO, 45, [])));
    assert RedemptionAmount(v0, 116) == Ok(22);
    assert Step(DIP5, LATE_MERGE[0]) == DIP6;
    assert UpdateFromSyState(v1, SyState(FIVE, []), 12) == Ok(v1);
    assert Earn(v1, P(77, TWO, 45, [])) == Ok((v1, P(77, TWO, 45, [])));
    HolderSettles(v1);
    assert Step(DIP6, LATE_MERGE[1]) == DIP7;
    Then(DIP6, LATE_MERGE[1], [], DIP7, DIP7);
    Then(DIP5, LATE_MERGE[0], [LATE_MERGE[1]], DIP6, DIP7);
    assert LATE_MERGE == [LATE_MERGE[0]] + [LATE_MERGE[1]];
  }

  lemma HolderSettles(v: Vault)
    requires v.emissions == [] && v.lastSeenRate == v.allTimeHigh == FIVE && v.finalRate == TWO && v.uncollectedSy == 45
    ensures Earn(v, P(39, ONE, 0, [])) == Ok((v.(uncollectedSy := 52), P(39, TWO, 7, [])))
  {
    assert CalcEarnedSy(39, ONE, TWO) == Ok(19);
    assert ScaleToCurrentRate(19, TWO, FIVE) == Ok(7);
  }

  lemma DipFrom4()
    ensures Run(DIP4, [CLIMB[4]]) == DIP5
  {
    var v0 := DIP5.vault;
    assert UpdateFromSyState(DIP4.vault, SyState(TWO, []), 5) == Ok(v0);
    assert Earn(v0, DIP4.positions[0]) == Ok((v0, DIP4.positions[0]));
    assert Earn(v0, DIP4.positions[1]) == Ok((v0, DIP4.positions[1]));
    assert Step(DIP4, CLIMB[4]) == DIP5;
    Then(DIP4, CLIMB[4], [], DIP5, DIP5);
  }

  lemma DipFrom3()
    ensures Run(DIP3, [CLIMB[3], CLIMB[4]]) == DIP5
  {
    var v0 := Of(FOUR, FOUR, FOUR, 100, 25, 100, 0, 0, []);
    assert UpdateFromSyState(DIP3.vault, SyState(FOUR, []), 1) == Ok(v0);
    assert CalcEarnedSy(60, ONE, FOUR) == Ok(45);
    assert Earn(v0, P(60, ONE, 0, [])) == Ok((v0.(uncollectedSy := 45), P(60, FOUR, 45, [])));
    assert Step(DIP3, CLIMB[3]) == DIP4;
    DipFrom4();
    Then(DIP3, CLIMB[3], [CLIMB[4]], DIP4, DIP5);
  }

  lemma DipFrom2()
    ensures Run(DIP2, [CLIMB[2], CLIMB[3], CLIMB[4]]) == DIP5
  {
    var v0 := DIP2.vault;
    assert UpdateFromSyState(v0, SyState(ONE, []), 0) == Ok(v0);
    assert Earn(v0, P(100, ONE, 0, [])) == Ok((v0, P(100, ONE, 0, [])));
    assert Earn(v0, EMPTY_POSITION) == Ok((v0, P(0, ONE, 0, [])));
    assert Step(DIP2, CLIMB[2]) == DIP3;
    DipFrom3();
    Then(DIP2, CLIMB[2], [CLIMB[3], CLIMB[4]], DIP3, DIP5);
  }

  lemma DipFrom1()
    ensures Run(DIP1, [CLIMB[1], CLIMB[2], CLIMB[3], CLIMB[4]]) == DIP5
  {
    var v0 := Of(ONE, ONE, ONE, 0, 0, 0, 0, 0, []);
    assert UpdateFromSyState(DIP1.vault, SyState(ONE, []), 0) == Ok(v0);
    assert Earn(v0, EMPTY_POSITION) == Ok((v0, P(0, ONE, 0, [])));
    assert Step(DIP1, CLIMB[1]) == DIP2;
    DipFrom2();
    Then(DIP1, CLIMB[1], [CLIMB[2], CLIMB[3], CLIMB[4]], DIP2, DIP5);
  }

  lemma DipFrom0()
    ensures Run(Genesis(0, 10), [CLIMB[0], CLIMB[1], CLIMB[2], CLIMB[3], CLIMB[4]]) == DIP5
  {
    assert Step(Genesis(0, 10), CLIMB[0]) == DIP1;
    DipFrom1();
    Then(Genesis(0, 10), CLIMB[0], [CLIMB[1], CLIMB[2], CLIMB[3], CLIMB[4]], DIP1, DIP5);
  }

  lemma ClimbRun()
    ensures Run(Genesis(0, 10), CLIMB) == DIP5
  {
    DipFrom0();
    assert CLIMB == [CLIMB[0], CLIMB[1], CLIMB[2], CLIMB[3], CLIMB[4]];
  }

  /** Five SY short, with dust far below one unit. */
  lemma DepressedMaturityIsInsolvent()
    ensures
      var w := Run(Genesis(0, 10), CLIMB + LATE_MERGE);
      && Dust(w) < ONE
      && w.vault.totalSyInEscrow + 5 == w.vault.syForPt + w.vault.treasurySy + w.vault.uncollectedSy
  {
    ClimbRun();
    DipMergesLate();
    RunsJoin(Genesis(0, 10), CLIMB, LATE_MERGE);
    assert Sum(YtOf, DIP7.positions) == 116 by {
      SumOfTwo(YtOf, P(77, TWO, 45, []), P(39, TWO, 7, []));
    }
  }

  const SHORT1 := World(Of(FIVE, FIVE, TWO, 104, 23, 116, 35, 45, []), [P(77, TWO, 45, []), P(39, ONE, 0, [])], 11, 0)
  const SHORT2 := World(Of(FIVE, FIVE, TWO, 104, 23, 116, 35, 52, []), [P(77, TWO, 45, []), P(39, TWO, 7, [])], 11, 0)
  const SHORT3 := World(Of(FIVE, FIVE, TWO, 104, 17, 116, 35, 52, []), [P(77, TWO, 45, []), P(39, TWO, 7, [])], 11, 0)

  lemma ShortStep1()
    ensures Commit(DIP5, Refreshing(11, FIVE)) == Ok(SHORT1)
  {
    assert SyAppreciation(TWO, FIVE, 59) == Ok(35);
    assert UpdateFromSyState(DIP5.vault, SyState(FIVE, []), 11) == Ok(SHORT1.vault);
    assert Earn(SHORT1.vault, P(77, FOUR, 45, [])) == Ok((SHORT1.vault, P(77, TWO, 45, [])));
    assert RedemptionAmount(SHORT1.vault, 0) == Ok(0);
    assert DIP5.positions[0 := P(77, TWO, 45, [])] == SHORT1.positions;
  }

  lemma ShortStep2()
    ensures Commit(SHORT1, Event(11, CollectUserInterest(1, 0))) == Ok(SHORT2)
  {
    HolderSettles(SHORT1.vault);
    assert PayStaged(SHORT2.vault, P(39, TWO, 7, []), 0) == Ok((SHORT2.vault, P(39, TWO, 7, [])));
    assert SHORT1.positions[1 := P(39, TWO, 7, [])] == SHORT2.positions;
  }

  lemma ShortStep3()
    ensures Commit(SHORT2, Refreshing(11, FIVE)) == Ok(SHORT3)
  {
    assert UpdateFromSyState(SHORT2.vault, SyState(FIVE, []), 11) == Ok(SHORT3.vault);
    assert Earn(SHORT3.vault, P(77, TWO, 45, [])) == Ok((SHORT3.vault, P(77, TWO, 45, [])));
    assert RedemptionAmount(SHORT3.vault, 0) == Ok(0);
    assert SHORT2.positions[0 := P(77, TWO, 45, [])] == SHORT3.positions;
  }

  lemma ThreeCommit(w: World, a: Event, b: Event, c: Event, w1: World, w2: World, w3: World)
    requires |w.positions| > 0 && Commit(w, a) == Ok(w1) && |w1.positions| > 0 && Commit(w1, b) == Ok(w2)
    requires |w2.positions| > 0 && Commit(w2, c) == Ok(w3) && |w3.positions| > 0
    ensures AllCommit(w, [a, b, c])
  {
    assert [a, b, c][1..] == [b, c] && [b, c][1..] == [c] && [c][1..] == [];
    assert AllCommit(w2, [c]);
    assert AllCommit(w1, [b, c]);
  }

  lemma ShortCommits()
    ensures AllCommit(DIP5, Settlement(DIP5, 11, FIVE))
  {
    var e0, e1 := Refreshing(11, FIVE), Event(11, CollectUserInterest(1, 0));
    assert SettleUsers(11, 1, 2) == [e1];
    assert Settlement(DIP5, 11, FIVE) == [e0, e1, e0];
    ShortStep1();
    ShortStep2();
    ShortStep3();
    ThreeCommit(DIP5, e0, e1, e0, SHORT1, SHORT2, SHORT3);
  }

  lemma ClimbSums()
    ensures Invariant(DIP5) && Uncovered(DIP5, FIVE) && !Covered(DIP5)
  {
    var a, b := P(77, FOUR, 45, []), P(39, ONE, 0, []);
    SumOfTwo(YtOf, a, b);
    SumOfTwo(StagedOf, a, b);
    SumOfTwo(ClaimOf, a, b);
    SumOfTwo(CappedClaim(TWO), a, b);
    SumOfTwo(Earnable(TWO), a, b);
    assert Earnable(TWO)(b) == 19;
  }

  /** The same vault at the crossing misses the condition by more than the roundings; by the theorem,
      settling everybody at rate five leaves PT short. */
  lemma DepressedMaturityLosesBacking()
    ensures
      var w := Run(Genesis(0, 10), CLIMB);
      var end := Run(w, Settlement(w, 11, FIVE));
      && InEmergency(w.vault) && !Covered(w) && Uncovered(w, FIVE) && AllCommit(w, Settlement(w, 11, FIVE))
      && Short(end)
      && (end.vault.syForPt < DivFloor(end.vault.ptSupply, FIVE)
          || end.vault.treasurySy + end.vault.uncollectedSy > end.vault.totalSyInEscrow)
  {
    ClimbRun();
    ClimbSums();
    ShortCommits();
    UncoveredCrossingLosesBacking(DIP5, 11, FIVE);
  }

  // ---------- emissions ----------

  /** A stream registered at index five, with YT already about, credits all five at once. */
  const LATE: seq<Event> := Late(FIVE, 100)

  /** 500 tokens staged although the index stayed where it was registered. */
  lemma HistoryIsCreditedTwice()
    ensures
      var w := Run(Genesis(0, 10), LATE);
      && w.vault.emissions == [EmissionInfo(FIVE, FIVE, 0)]
      && Sum(StagedEmission(0), w.positions) == 500
  {
    LateRun(FIVE, 100);
    assert MulFloor(FIVE, 100) == 500;
  }

  /** The rate rises to two, then a withdrawal by an empty account records a dip back to one just
      as the index rises by one. */
  const DEPRESSED: seq<Event> := [
    Event(0, OpenPosition),
    Event(0, RegisterEmission(SyState(ONE, [0]))),
    Event(0, Strip(SyState(ONE, [0]), 100)),
    Event(1, Strip(SyState(TWO, [0]), 10)),
    Event(2, WithdrawYt(1, SyState(ONE, [ONE]), 0))]

  const FRESH := EmissionInfo(0, 0, 0)
  const LOW1 := World(Of(0, 0, 0, 0, 0, 0, 0, 0, []), [EMPTY_POSITION, EMPTY_POSITION], 0, 0)
  const LOW2 := World(Of(0, 0, 0, 0, 0, 0, 0, 0, [FRESH]), [EMPTY_POSITION, EMPTY_POSITION], 0, 0)
  const LOW3 := World(Of(ONE, ONE, ONE, 100, 100, 100, 0, 0, [FRESH]), [P(100, ONE, 0, [Tracker(0, 0)]), EMPTY_POSITION], 0, 0)
  const LOW4 := World(Of(TWO, TWO, TWO, 110, 60, 120, 0, 50, [FRESH]), [P(120, TWO, 50, [Tracker(0, 0)]), EMPTY_POSITION], 1, 0)
  const LOW5 := World(Of(ONE, TWO, ONE, 110, 60, 120, 0, 50, [EmissionInfo(ONE, ONE, 0)]),
    [P(120, TWO, 50, [Tracker(ONE, 170)]), P(0, 0, 0, [Tracker(ONE, 0)])], 2, 0)

  lemma LowFrom4()
    ensures Run(LOW4, [DEPRESSED[4]]) == LOW5
  {
    RefreshOne(LOW4.vault, FRESH, ONE, ONE, 2);
    var e := EmissionInfo(ONE, ONE, 0);
    var v0 := LOW5.vault;
    EarnOne(v0, P(120, TWO, 50, [Tracker(0, 0)]), e, v0, P(120, TWO, 50, [Tracker(0, 0)]), 170, Tracker(ONE, 170));
    EarnOne(v0, EMPTY_POSITION, e, v0, P(0, 0, 0, [Tracker(0, 0)]), 0, Tracker(ONE, 0));
    assert Step(LOW4, DEPRESSED[4]) == LOW5;
    Then(LOW4, DEPRESSED[4], [], LOW5, LOW5);
  }

  lemma LowFrom3()
    ensures Run(LOW3, [DEPRESSED[3], DEPRESSED[4]]) == LOW5
  {
    RefreshOne(LOW3.vault, FRESH, TWO, 0, 1);
    var v0 := Of(TWO, TWO, TWO, 100, 50, 100, 0, 0, [FRESH]);
    assert CalcEarnedSy(100, ONE, TWO) == Ok(50);
    EarnOne(v0, P(100, ONE, 0, [Tracker(0, 0)]), FRESH, v0.(uncollectedSy := 50), P(100, TWO, 50, [Tracker(0, 0)]), 100, Tracker(0, 0));
    assert Step(LOW3, DEPRESSED[3]) == LOW4;
    LowFrom4();
    Then(LOW3, DEPRESSED[3], [DEPRESSED[4]], LOW4, LOW5);
  }

  lemma LowFrom2()
    ensures Run(LOW2, [DEPRESSED[2], DEPRESSED[3], DEPRESSED[4]]) == LOW5
  {
    RefreshOne(LOW2.vault, FRESH, ONE, 0, 0);
    var v0 := Of(ONE, ONE, ONE, 0, 0, 0, 0, 0, [FRESH]);
    EarnOne(v0, EMPTY_POSITION, FRESH, v0, P(0, ONE, 0, [Tracker(0, 0)]), 0, Tracker(0, 0));
    assert Step(LOW2, DEPRESSED[2]) == LOW3;
    LowFrom3();
    Then(LOW2, DEPRESSED[2], [DEPRESSED[3], DEPRESSED[4]], LOW3, LOW5);
  }

  lemma LowFrom1()
    ensures Run(LOW1, [DEPRESSED[1], DEPRESSED[2], DEPRESSED[3], DEPRESSED[4]]) == LOW5
  {
    assert Step(LOW1, DEPRESSED[1]) == LOW2;
    LowFrom2();
    Then(LOW1, DEPRESSED[1], [DEPRESSED[2], DEPRESSED[3], DEPRESSED[4]], LOW2, LOW5);
  }

  lemma LowFrom0()
    ensures Run(Genesis(0, 10), [DEPRESSED[0], DEPRESSED[1], DEPRESSED[2], DEPRESSED[3], DEPRESSED[4]]) == LOW5
  {
    assert Step(Genesis(0, 10), DEPRESSED[0]) == LOW1;
    LowFrom1();
    Then(Genesis(0, 10), DEPRESSED[0], [DEPRESSED[1], DEPRESSED[2], DEPRESSED[3], DEPRESSED[4]], LOW1, LOW5);
  }

  /** 170 tokens are credited for an index increase of one on an escrow of 110 SY. */
  lemma DipOverCreditsEmissions()
    ensures
      var w := Run(Genesis(0, 10), DEPRESSED);
      && w.vault.totalSyInEscrow == 110
      && w.vault.emissions == [EmissionInfo(ONE, ONE, 0)]
      && Sum(StagedEmission(0), w.positions) == 170
  {
    LowFrom0();
    assert DEPRESSED == [DEPRESSED[0], DEPRESSED[1], DEPRESSED[2], DEPRESSED[3], DEPRESSED[4]];
    SumOfTwo(StagedEmission(0), P(120, TWO, 50, [Tracker(ONE, 170)]), P(0, 0, 0, [Tracker(ONE, 0)]));
  }

  /** The dip was not affordable: the one position stands for 170 SY at rate one. */
  lemma DepressedDipWasUnaffordable()
    ensures EveryoneCaughtUp(LOW4, 0) && !PricedIn(LOW4.vault, LOW4.positions, 0, 2, SyState(ONE, [ONE]), 0)
  {
    SumOfTwo(BalanceAt(ONE), LOW4.positions[0], LOW4.positions[1]);
    SumOfTwo(YtOf, LOW4.positions[0], LOW4.positions[1]);
    DipIsAffordableWhenBalancesFit(LOW4, 2, SyState(ONE, [ONE]), 0);
  }
}
