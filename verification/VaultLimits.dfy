/** Exactly when truncated reciprocals break the exact solvency condition that the vault states. */
module VaultLimits {
  import opened Outcome
  import opened FixedPoint
  import opened VaultSpec
  import opened VaultRuns
  import opened VaultPreservation
  import opened VaultSafety
  import opened Solvency

  /** The condition the program states for itself. */
  predicate Solvent(w: World) {
    w.vault.syForPt + w.vault.treasurySy + w.vault.uncollectedSy <= w.vault.totalSyInEscrow
  }

  ghost predicate Reached(w: World) {
    exists startTs, duration, events ::
      CalmRun(Genesis(startTs, duration), events) && w == Run(Genesis(startTs, duration), events)
  }

  /** An active vault at its all-time high, with `supply` of PT and none merged yet. */
  predicate AtSupply(w: World, supply: nat, rate: nat) {
    && w.clock <= Maturity(w.vault) && !InEmergency(w.vault)
    && w.vault.ptSupply == supply && w.vault.lastSeenRate == rate && w.mergedPy == 0
  }

  /** The face value of the supply at the rate, rounded down, against the supply at the
      truncated reciprocal, rounded up. */
  predicate ReciprocalFits(supply: nat, rate: nat)
    requires rate > 0
  {
    ONE * DivFloor(supply, rate) <= supply * Reciprocal(rate) + ONE - 1
  }

  lemma FitsMeansSolvent(w: World, supply: nat, rate: nat)
    requires Reached(w) && rate > 0 && AtSupply(w, supply, rate) && ReciprocalFits(supply, rate)
    ensures Solvent(w)
  {
    var startTs, duration, events :|
      CalmRun(Genesis(startTs, duration), events) && w == Run(Genesis(startTs, duration), events);
    GenesisIsSound(startTs, duration);
    RunKeepsInvariant(Genesis(startTs, duration), events);
    ClaimsAtFinalRate(w.vault, w.positions, w.mergedPy, w.clock);
    DivIsAtLeast(supply * ONE, rate, w.vault.syForPt);
  }

  // ---------- the run that breaks it otherwise ----------

  /** A rate of one part in `d`, whose reciprocal is exact when `d` divides 10^12. */
  function PartRate(d: nat): nat
    requires d > 0
  {
    ONE / d
  }

  /** One holder deposits everything at a rate of one part in `d`, another account refreshes the vault
      at `rate`, and the holder then collects nothing, which only settles the interest. */
  function Settlers(supply: nat, rate: nat, d: nat): seq<Event>
    requires d > 0
  {
    var early, late := SyState(PartRate(d), []), SyState(rate, []);
    [Event(0, OpenPosition), Event(0, OpenPosition), Event(0, Strip(early, d * supply)), Event(0, DepositYt(1, early, supply)),
     Event(1, StageYield(2, late)), Event(2, CollectUserInterest(1, 0))]
  }

  function Holding(yt: nat, index: nat, staged: nat): Position {
    Position(yt, Tracker(index, staged), [])
  }

  function Plain(rate: nat, escrow: nat, sfp: nat, pt: nat, uncollected: nat): Vault {
    Vault(0, 10, rate, rate, rate, escrow, sfp, pt, 0, uncollected, 0, U64_MAX, [])
  }

  function Opened(): World {
    World(Plain(0, 0, 0, 0, 0), [EMPTY_POSITION, EMPTY_POSITION, EMPTY_POSITION], 0, 0)
  }

  /** `s` is the early rate and `c` the SY stripped. */
  function Stripped(n: nat, s: nat, c: nat): World {
    World(Plain(s, c, c, n, 0), [Holding(n, s, 0), EMPTY_POSITION, EMPTY_POSITION], 0, 0)
  }

  function Deposited(n: nat, s: nat, c: nat): World {
    World(Plain(s, c, c, n, 0), [Holding(0, s, 0), Holding(n, s, 0), EMPTY_POSITION], 0, 0)
  }

  function Refreshed(n: nat, rate: nat, s: nat, c: nat): World
    requires rate > 0
  {
    World(Plain(rate, c, DivFloor(n, rate), n, 0), [Holding(0, rate, 0), Holding(n, s, 0), Holding(0, rate, 0)], 1, 0)
  }

  function Interest(n: nat, rate: nat, d: nat): nat
    requires rate * d >= ONE
  {
    ReciprocalOfPart(rate, d);
    MulFloor(ONE * d - Reciprocal(rate), n)
  }

  function AfterSettling(n: nat, rate: nat, d: nat): World
    requires rate > 0 && rate * d >= ONE
  {
    var e := Interest(n, rate, d);
    World(Plain(rate, d * n, DivFloor(n, rate), n, e), [Holding(0, rate, 0), Holding(n, rate, e), Holding(0, rate, 0)], 2, 0)
  }

  lemma ReciprocalOfPart(rate: nat, d: nat)
    requires rate * d >= ONE
    ensures rate > 0 && Reciprocal(rate) <= ONE * d
  {
    assert rate > 0;
    ReciprocalBounds(rate);
    MulMono(ONE, rate * d, ONE);
    assert ONE * (rate * d) == ONE * d * rate;
    CancelFactor(Reciprocal(rate), ONE * d, rate);
  }

  lemma PartIsExact(n: nat, s: nat, d: nat)
    requires s * d == ONE
    ensures s > 0 && Reciprocal(s) == ONE * d && MulFloor(s, d * n) == n && DivFloor(n, s) == d * n
  {
    assert s > 0;
    assert ONE * ONE == ONE * d * s;
    DivIsAtLeast(ONE * ONE, s, ONE * d);
    DivIsAtMost(ONE * ONE, s, ONE * d);
    assert s * (d * n) == s * d * n;
    assert n * ONE == d * n * s;
    DivIsAtLeast(n * ONE, s, d * n);
    DivIsAtMost(n * ONE, s, d * n);
  }

  lemma StripsTo(n: nat, s: nat, d: nat)
    requires s * d == ONE && d * n <= U64_MAX && n <= U64_MAX
    ensures Step(Opened(), Event(0, Strip(SyState(s, []), d * n))) == Stripped(n, s, d * n)
  {
    PartIsExact(n, s, d);
    var v0 := Plain(s, 0, 0, 0, 0);
    assert DivFloor(0, s) == 0;
    assert UpdateFromSyState(Opened().vault, SyState(s, []), 0) == Ok(v0);
    assert Earn(v0, EMPTY_POSITION) == Ok((v0, Holding(0, s, 0)));
    assert SyToPy(s, d * n) == Ok(n);
    assert SyBackingForPt(s, n, d * n) == Ok(d * n);
  }

  lemma DepositsTo(n: nat, s: nat, d: nat)
    requires s * d == ONE && d * n <= U64_MAX && n <= U64_MAX
    ensures Step(Stripped(n, s, d * n), Event(0, DepositYt(1, SyState(s, []), n))) == Deposited(n, s, d * n)
  {
    PartIsExact(n, s, d);
    var v0 := Plain(s, d * n, d * n, n, 0);
    assert DivFloor(0, s) == 0;
    assert SyBackingForPt(s, n, d * n) == Ok(d * n);
    assert UpdateFromSyState(v0, SyState(s, []), 0) == Ok(v0);
    assert Earn(v0, Holding(n, s, 0)) == Ok((v0, Holding(n, s, 0)));
    assert Earn(v0, EMPTY_POSITION) == Ok((v0, Holding(0, s, 0)));
  }

  lemma FaceValueFits(n: nat, rate: nat, d: nat)
    requires rate * d >= ONE
    ensures rate > 0 && DivFloor(n, rate) <= d * n
  {
    assert rate > 0;
    DivBounds(n * ONE, rate);
    MulMono(ONE, rate * d, n);
    assert rate * d * n == d * n * rate;
    CancelFactor(DivFloor(n, rate), d * n, rate);
  }

  lemma RefreshesTo(n: nat, rate: nat, s: nat, d: nat)
    requires s * d == ONE && d * n <= U64_MAX && n <= U64_MAX && rate >= s
    ensures rate * d >= ONE
    ensures Step(Deposited(n, s, d * n), Event(1, StageYield(2, SyState(rate, [])))) == Refreshed(n, rate, s, d * n)
  {
    MulMono(s, rate, d);
    FaceValueFits(n, rate, d);
    var v0 := Plain(rate, d * n, DivFloor(n, rate), n, 0);
    assert UpdateFromSyState(Deposited(n, s, d * n).vault, SyState(rate, []), 1) == Ok(v0);
    assert DivFloor(0, rate) == 0;
    assert Earn(v0, Holding(0, s, 0)) == Ok((v0, Holding(0, rate, 0)));
    assert Earn(v0, EMPTY_POSITION) == Ok((v0, Holding(0, rate, 0)));
  }

  lemma InterestBounds(n: nat, rate: nat, d: nat)
    requires rate * d >= ONE
    ensures rate > 0
    ensures ONE * Interest(n, rate, d) <= ONE * (d * n) - n * Reciprocal(rate) < ONE * Interest(n, rate, d) + ONE
    ensures Interest(n, rate, d) + DivFloor(n, rate) <= d * n + n / ONE
  {
    ReciprocalOfPart(rate, d);
    var x := ONE * d - Reciprocal(rate);
    assert x * n == ONE * (d * n) - n * Reciprocal(rate);
    DivBounds(x * n, ONE);
    DivBounds(n * ONE, rate);
    RedeemedWithinClaim(rate, n, DivFloor(n, rate));
  }

  lemma SettlesTo(n: nat, rate: nat, s: nat, d: nat)
    requires s * d == ONE && rate > s && d * n + n / ONE <= U64_MAX && rate * d >= ONE
    ensures Step(Refreshed(n, rate, s, d * n), Event(2, CollectUserInterest(1, 0))) == AfterSettling(n, rate, d)
  {
    PartIsExact(n, s, d);
    InterestBounds(n, rate, d);
    var v0, p, e := Refreshed(n, rate, s, d * n).vault, Holding(n, s, 0), Interest(n, rate, d);
    assert CalcEarnedSy(n, s, rate) == Ok(e) by {
      if n == 0 {
        assert e == 0;
      }
    }
    var v1 := Plain(rate, d * n, DivFloor(n, rate), n, e);
    assert Earn(v0, p) == Ok((v1, Holding(n, rate, e)));
    assert PayStaged(v1, Holding(n, rate, e), 0) == Ok((v1, Holding(n, rate, e)));
  }

  /** The supply and rate that the run can be played at. */
  predicate Playable(n: nat, rate: nat, d: nat) {
    d > 0 && ONE % d == 0 && rate * d > ONE && d * n + n / ONE <= U64_MAX
  }

  lemma SettlersRun(n: nat, rate: nat, d: nat)
    requires Playable(n, rate, d)
    ensures rate > 0 && CalmRun(Genesis(0, 10), Settlers(n, rate, d))
    ensures Run(Genesis(0, 10), Settlers(n, rate, d)) == AfterSettling(n, rate, d)
  {
    var es, s := Settlers(n, rate, d), PartRate(d);
    PlayableRates(n, rate, d);
    var once := World(Plain(0, 0, 0, 0, 0), [EMPTY_POSITION, EMPTY_POSITION], 0, 0);
    assert Step(Genesis(0, 10), es[0]) == once;
    assert Step(once, es[1]) == Opened();
    StripsTo(n, s, d);
    DepositsTo(n, s, d);
    RefreshesTo(n, rate, s, d);
    SettlesTo(n, rate, s, d);
    var end := AfterSettling(n, rate, d);
    OneMore(Refreshed(n, rate, s, d * n), es[5], [], end, end);
    OneMore(Deposited(n, s, d * n), es[4], [es[5]], Refreshed(n, rate, s, d * n), end);
    OneMore(Stripped(n, s, d * n), es[3], [es[4], es[5]], Deposited(n, s, d * n), end);
    OneMore(Opened(), es[2], [es[3], es[4], es[5]], Stripped(n, s, d * n), end);
    OneMore(once, es[1], [es[2], es[3], es[4], es[5]], Opened(), end);
    OneMore(Genesis(0, 10), es[0], [es[1], es[2], es[3], es[4], es[5]], once, end);
    assert es == [es[0]] + [es[1], es[2], es[3], es[4], es[5]];
  }

  lemma PlayableRates(n: nat, rate: nat, d: nat)
    requires Playable(n, rate, d)
    ensures PartRate(d) * d == ONE && 0 < PartRate(d) < rate && n <= U64_MAX && d * n <= U64_MAX
  {
    var s := PartRate(d);
    assert s * d == ONE;
    if rate <= s {
      MulMono(rate, s, d);
    }
    MulMono(1, d, n);
  }

  lemma OneMore(w: World, e: Event, rest: seq<Event>, w1: World, end: World)
    requires |w.positions| > 0 && Step(w, e) == w1 && Calm(w, e)
    requires CalmRun(w1, rest) && Run(w1, rest) == end
    ensures CalmRun(w, [e] + rest) && Run(w, [e] + rest) == end
  {
    assert ([e] + rest)[1..] == rest;
  }

  /** The exact condition, for rates above one part in `d`: every calm run that is active at supply `n`
      and rate `rate` with nothing merged yet satisfies the program's own solvency condition if and
      only if the supply's face value fits its truncated reciprocal. */
  lemma ExactlyWhenReciprocalFits(n: nat, rate: nat, d: nat)
    requires Playable(n, rate, d)
    ensures rate > 0
    ensures (forall w :: Reached(w) && AtSupply(w, n, rate) ==> Solvent(w)) <==> ReciprocalFits(n, rate)
  {
    assert rate > 0;
    if ReciprocalFits(n, rate) {
      forall w | Reached(w) && AtSupply(w, n, rate) ensures Solvent(w) {
        FitsMeansSolvent(w, n, rate);
      }
    } else {
      SettlersRun(n, rate, d);
      InterestBounds(n, rate, d);
      var w := AfterSettling(n, rate, d);
      assert Reached(w) && AtSupply(w, n, rate) && !Solvent(w);
    }
  }

  /** So the exact condition does fail: 3 * 10^18 units stripped at rate one and settled at rate
      three leave the escrow a million units short until the next refresh. */
  lemma ExactSolvencyFails()
    ensures
      var w := Run(Genesis(0, 10), Settlers(3_000_000 * ONE, 3 * ONE, 1));
      && CalmRun(Genesis(0, 10), Settlers(3_000_000 * ONE, 3 * ONE, 1))
      && w.vault.totalSyInEscrow + 1_000_000 == w.vault.syForPt + w.vault.treasurySy + w.vault.uncollectedSy
  {
    SettlersRun(3_000_000 * ONE, 3 * ONE, 1);
  }
}
