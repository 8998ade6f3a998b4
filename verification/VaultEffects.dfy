/** What each committed instruction moves, token by token and position by position, and the ledgers
    that follow over whole runs: where the escrow's SY came from and went, and whose YT is whose. */
module VaultEffects {
  import opened Outcome
  import opened FixedPoint
  import opened VaultSpec
  import opened VaultRuns
  import opened VaultInvariant
  import opened VaultPreservation
  import opened VaultAccounting

  // ---------- settling and refreshing ----------

  /** The claim that moving from the index last seen up to `f` gives up, scaled by 10^12. */
  function GivenUp(p: Position, f: nat): nat {
    if 0 < p.interest.lastSeenIndex < f then ClaimLost(p.ytBalance, p.interest.lastSeenIndex, f) else 0
  }

  function ClaimLost(yt: nat, a: nat, b: nat): nat
    requires 0 < a <= b
  {
    ReciprocalAntitone(a, b);
    yt * (Reciprocal(a) - Reciprocal(b))
  }

  /** Interest is the claim given up, to within one unit; past maturity it is paid at the higher
      rate, to within the roundings of the scaling. */
  predicate FairInterest(p: Position, f: nat, last: nat, earned: nat) {
    var given := GivenUp(p, f);
    && (last <= f ==> ONE * earned <= given < ONE * earned + ONE)
    && (last > f ==>
          && ONE * (earned * last) <= f * given
          && ONE * (f * given) <= ONE * ONE * (last * earned) + ONE * ONE * (last + f) + last * given)
  }

  /** What settling does to one position under vault `v`. */
  predicate Settles(v: Vault, p: Position, p1: Position, earned: nat) {
    && p1.ytBalance == p.ytBalance && p1.interest.staged == p.interest.staged + earned
    && (InEmergency(v) ==> earned == 0 && p1.interest == p.interest)
    && (!InEmergency(v) ==> p1.interest.lastSeenIndex == v.finalRate && FairInterest(p, v.finalRate, v.lastSeenRate, earned))
  }

  lemma InterestIsFair(p: Position, f: nat, last: nat, a: nat, earned: nat)
    requires f > 0 && CalcEarnedSy(p.ytBalance, p.interest.lastSeenIndex, f) == Ok(a)
    requires ScaleToCurrentRate(a, f, last) == Ok(earned)
    ensures FairInterest(p, f, last, earned)
  {
    var given := GivenUp(p, f);
    AtFinalRate(p, f, a);
    if last > f {
      ScalingKeepsValue(a, f, last, earned);
      ScaledFromBelow(a, f, last, earned, given);
      MulMono(ONE * a, given, f);
    }
  }

  lemma AtFinalRate(p: Position, f: nat, a: nat)
    requires f > 0 && CalcEarnedSy(p.ytBalance, p.interest.lastSeenIndex, f) == Ok(a)
    ensures ONE * a <= GivenUp(p, f) < ONE * a + ONE
  {
    var index := p.interest.lastSeenIndex;
    if 0 < index < f {
      ReciprocalAntitone(index, f);
      DivBounds((Reciprocal(index) - Reciprocal(f)) * p.ytBalance, ONE);
      if p.ytBalance == 0 {
        assert ClaimLost(0, index, f) == 0;
      }
    }
  }

  lemma ScaledFromBelow(a: nat, f: nat, last: nat, earned: nat, given: nat)
    requires 0 < f < last && ScaleToCurrentRate(a, f, last) == Ok(earned) && ONE * a <= given < ONE * a + ONE
    ensures ONE * (f * given) <= ONE * ONE * (last * earned) + ONE * ONE * (last + f) + last * given
  {
    ScalingLosesLittle(a, f, last, earned);
    MulMono(given, ONE * a + ONE, f);
    MulMono(ONE * a, given, last);
    assert (ONE * a + ONE) * f == f * (ONE * a) + f * ONE;
    assert ONE * a * last == ONE * (last * a);
    BelowArithmetic(f * given, f * (ONE * a), last * earned, last * a, last * given, f, last);
  }

  lemma BelowArithmetic(fg: nat, fa: nat, le: nat, la: nat, lg: nat, f: nat, last: nat)
    requires fg <= fa + f * ONE && fa <= ONE * le + last * ONE + la && ONE * la <= lg
    ensures ONE * fg <= ONE * ONE * le + ONE * ONE * (last + f) + lg
  {
  }

  lemma EarnSettles(v: Vault, p: Position, v1: Vault, p1: Position) returns (earned: nat)
    requires Earn(v, p) == Ok((v1, p1))
    ensures Settles(v, p, p1, earned) && v1 == v.(uncollectedSy := v.uncollectedSy + earned) && v.finalRate > 0
  {
    var a: nat;
    a, earned := EarnEffect(v, p, v1, p1);
    if !InEmergency(v) {
      InterestIsFair(p, v.finalRate, v.lastSeenRate, a, earned);
    }
  }

  /** A refresh records what the SY program reports, and moves no SY in or out. */
  predicate Refreshed(v: Vault, now: nat, rate: nat, v1: Vault) {
    && v1.startTs == v.startTs && v1.duration == v.duration
    && v1.totalSyInEscrow == v.totalSyInEscrow && v1.ptSupply == v.ptSupply
    && v1.interestBpsFee == v.interestBpsFee && v1.maxPySupply == v.maxPySupply
    && v1.lastSeenRate == rate && v1.allTimeHigh == (if rate >= v.allTimeHigh then rate else v.allTimeHigh)
    && v1.finalRate == (if v.startTs <= now <= Maturity(v) then rate else v.finalRate)
    && (now <= Maturity(v) || rate <= v.allTimeHigh ==> v1.treasurySy == v.treasurySy)
  }

  /** The part every refreshing instruction begins with. */
  lemma RobotSettles(v: Vault, robot: Position, now: nat, sy: SyState, v1: Vault, r1: Position) returns (earned: nat)
    requires UpdateVaultYield(v, robot, now, sy) == Ok((v1, r1))
    ensures Refreshed(v, now, sy.exchangeRate, v1) && Settles(v1, robot, r1, earned)
    ensures v1.uncollectedSy == v.uncollectedSy + earned && v1.finalRate > 0
  {
    var v0 := UpdateFromSyState(v, sy, now).value;
    var swept := UpdateFrame(v, sy, now, v0);
    earned := EarnSettles(v0, robot, v1, r1);
  }

  // ---------- one instruction ----------

  /** Nobody but the robot and `user` is touched. */
  predicate OthersStay(w: World, w1: World, user: nat) {
    && |w1.positions| == |w.positions|
    && forall i :: 0 < i < |w.positions| && i != user ==> w1.positions[i] == w.positions[i]
  }

  /** A position settled and then given `ytBalance`. */
  predicate SettledTo(v: Vault, p: Position, p1: Position, ytBalance: int, earned: nat) {
    p1.ytBalance == ytBalance && Settles(v, p, p1.(ytBalance := p.ytBalance), earned)
  }

  /** A strip takes in the SY, mints its value at the reported rate rounded down, within the cap, and
      hands the YT to the robot; only an active vault at its all-time high strips. */
  lemma StripEffect(w: World, now: nat, sy: SyState, amountSy: nat, w1: World) returns (py: nat, earned: nat)
    requires |w.positions| > 0 && Perform(w, now, Strip(sy, amountSy)) == Ok(w1)
    ensures w.vault.startTs <= now <= Maturity(w.vault) && sy.exchangeRate >= w.vault.allTimeHigh
    ensures py * ONE <= sy.exchangeRate * amountSy < py * ONE + ONE
    ensures w1.vault.totalSyInEscrow == w.vault.totalSyInEscrow + amountSy
    ensures w1.vault.ptSupply == w.vault.ptSupply + py <= w.vault.maxPySupply
    ensures w1.vault.treasurySy == w.vault.treasurySy && w1.vault.uncollectedSy == w.vault.uncollectedSy + earned
    ensures SettledTo(w1.vault, w.positions[0], w1.positions[0], w.positions[0].ytBalance + py, earned)
    ensures OthersStay(w, w1, 0) && w1.mergedPy == w.mergedPy
  {
    var (v1, r1) := UpdateVaultYield(w.vault, w.positions[0], now, sy).value;
    earned := RobotSettles(w.vault, w.positions[0], now, sy, v1, r1);
    py := SyToPy(v1.lastSeenRate, amountSy).value;
    DivBounds(v1.lastSeenRate * amountSy, ONE);
  }

  /** What a merge hands out. */
  function Redeemed(w: World, now: nat, sy: SyState, amountPy: nat): nat
    requires |w.positions| > 0 && Perform(w, now, Merge(sy, amountPy)).Ok?
  {
    HandleMerge(w.vault, w.positions[0], now, sy, amountPy).value.2
  }

  /** A merge takes the SY it hands out from the escrow, burns the PT, and burns the YT only while the
      vault is active. */
  lemma MergeEffect(w: World, now: nat, sy: SyState, amountPy: nat, w1: World) returns (earned: nat)
    requires |w.positions| > 0 && Perform(w, now, Merge(sy, amountPy)) == Ok(w1)
    ensures sy.exchangeRate >= w.vault.allTimeHigh
    ensures w1.vault.totalSyInEscrow + Redeemed(w, now, sy, amountPy) == w.vault.totalSyInEscrow
    ensures w1.vault.ptSupply + amountPy == w.vault.ptSupply && w1.vault.uncollectedSy == w.vault.uncollectedSy + earned
    ensures var burned := if w.vault.startTs <= now <= Maturity(w.vault) then amountPy else 0;
            && SettledTo(w1.vault, w.positions[0], w1.positions[0], w.positions[0].ytBalance - burned, earned)
            && w1.mergedPy == w.mergedPy + burned
    ensures OthersStay(w, w1, 0)
  {
    var (v1, r1) := UpdateVaultYield(w.vault, w.positions[0], now, sy).value;
    earned := RobotSettles(w.vault, w.positions[0], now, sy, v1, r1);
    MergeMoves(w, now, sy, amountPy, v1, r1, w1);
    YtBurned(v1, w1.vault, w.positions[0], r1, w1.positions[0], earned);
  }

  lemma MergeMoves(w: World, now: nat, sy: SyState, amountPy: nat, v1: Vault, r1: Position, w1: World)
    requires |w.positions| > 0 && Perform(w, now, Merge(sy, amountPy)) == Ok(w1)
    requires UpdateVaultYield(w.vault, w.positions[0], now, sy) == Ok((v1, r1))
    requires v1.startTs == w.vault.startTs && v1.duration == w.vault.duration
    ensures !InEmergency(v1) && |w1.positions| == |w.positions|
    ensures w1.vault.totalSyInEscrow + Redeemed(w, now, sy, amountPy) == v1.totalSyInEscrow
    ensures w1.vault == v1.(totalSyInEscrow := w1.vault.totalSyInEscrow, ptSupply := v1.ptSupply - amountPy, syForPt := w1.vault.syForPt)
    ensures var burned := if w.vault.startTs <= now <= Maturity(w.vault) then amountPy else 0;
            && IsActive(v1, now) == (w.vault.startTs <= now <= Maturity(w.vault))
            && w1.positions[0] == r1.(ytBalance := w1.positions[0].ytBalance) && w1.positions[0].ytBalance + burned == r1.ytBalance
            && w1.mergedPy == w.mergedPy + burned
    ensures amountPy <= v1.ptSupply && OthersStay(w, w1, 0)
  {
  }

  lemma YtBurned(v: Vault, v1: Vault, p: Position, p1: Position, q1: Position, earned: nat)
    requires Settles(v, p, p1, earned) && q1 == p1.(ytBalance := q1.ytBalance)
    requires v1.finalRate == v.finalRate && v1.lastSeenRate == v.lastSeenRate && v1.allTimeHigh == v.allTimeHigh
    ensures SettledTo(v1, p, q1, q1.ytBalance, earned)
  {
  }

  /** The three instructions that settle the robot and one user and may move YT between them. */
  predicate MovesYt(w: World, w1: World, user: nat, toUser: int, robotEarned: nat, earned: nat)
    requires |w.positions| > 0
  {
    && IsUser(w, user) && OthersStay(w, w1, user) && w1.mergedPy == w.mergedPy
    && w1.vault.totalSyInEscrow == w.vault.totalSyInEscrow && w1.vault.ptSupply == w.vault.ptSupply
    && w1.vault.uncollectedSy == w.vault.uncollectedSy + robotEarned + earned
    && SettledTo(w1.vault, w.positions[0], w1.positions[0], w.positions[0].ytBalance - toUser, robotEarned)
    && SettledTo(w1.vault, w.positions[user], w1.positions[user], w.positions[user].ytBalance + toUser, earned)
  }

  lemma BothEarn(w: World, now: nat, user: nat, sy: SyState, v1: Vault, r1: Position, v2: Vault, u1: Position)
    returns (robotEarned: nat, earned: nat)
    requires IsUser(w, user) && UpdateVaultYield(w.vault, w.positions[0], now, sy) == Ok((v1, r1))
    requires Earn(v1, w.positions[user]) == Ok((v2, u1))
    ensures Refreshed(w.vault, now, sy.exchangeRate, v1)
    ensures v2 == v1.(uncollectedSy := w.vault.uncollectedSy + robotEarned + earned)
    ensures Settles(v2, w.positions[0], r1, robotEarned) && Settles(v2, w.positions[user], u1, earned)
  {
    robotEarned := RobotSettles(w.vault, w.positions[0], now, sy, v1, r1);
    earned := EarnSettles(v1, w.positions[user], v2, u1);
  }

  /** Depositing YT moves exactly `amount` from the robot to the user, and never in an emergency. */
  lemma DepositYtEffect(w: World, now: nat, user: nat, sy: SyState, amount: nat, w1: World) returns (robotEarned: nat, earned: nat)
    requires |w.positions| > 0 && Perform(w, now, DepositYt(user, sy, amount)) == Ok(w1)
    ensures w.vault.startTs <= now <= Maturity(w.vault) && sy.exchangeRate >= w.vault.allTimeHigh
    ensures MovesYt(w, w1, user, amount, robotEarned, earned)
  {
    var (v1, r1) := UpdateVaultYield(w.vault, w.positions[0], now, sy).value;
    var (v2, u1) := Earn(v1, w.positions[user]).value;
    robotEarned, earned := BothEarn(w, now, user, sy, v1, r1, v2, u1);
  }

  /** Withdrawing YT moves exactly `amount` from the user back to the robot, in an emergency or not. */
  lemma WithdrawYtEffect(w: World, now: nat, user: nat, sy: SyState, amount: nat, w1: World) returns (robotEarned: nat, earned: nat)
    requires |w.positions| > 0 && Perform(w, now, WithdrawYt(user, sy, amount)) == Ok(w1)
    ensures w.vault.startTs <= now <= Maturity(w.vault)
    ensures MovesYt(w, w1, user, 0 - amount, robotEarned, earned)
    ensures w1.positions[user].ytBalance + amount == w.positions[user].ytBalance
    ensures w1.positions[0].ytBalance == w.positions[0].ytBalance + amount
  {
    var (v1, r1) := UpdateVaultYield(w.vault, w.positions[0], now, sy).value;
    var (v2, u1) := Earn(v1, w.positions[user]).value;
    robotEarned, earned := BothEarn(w, now, user, sy, v1, r1, v2, u1);
  }

  /** Staging settles the user at the final rate and moves no YT, and never in an emergency. */
  lemma StageYieldEffect(w: World, now: nat, user: nat, sy: SyState, w1: World) returns (robotEarned: nat, earned: nat)
    requires |w.positions| > 0 && Perform(w, now, StageYield(user, sy)) == Ok(w1)
    ensures sy.exchangeRate >= w.vault.allTimeHigh && w1.positions[user].interest.lastSeenIndex == w1.vault.finalRate
    ensures MovesYt(w, w1, user, 0, robotEarned, earned)
  {
    var (v1, r1) := UpdateVaultYield(w.vault, w.positions[0], now, sy).value;
    var (v2, u1) := Earn(v1, w.positions[user]).value;
    robotEarned, earned := BothEarn(w, now, user, sy, v1, r1, v2, u1);
  }

  /** What collecting interest hands to the owner and to the treasury. */
  function InterestPaid(w: World, user: nat, amount: nat): (paid: (nat, nat))
    requires IsUser(w, user) && CollectInterest(w.vault, w.positions[user], amount).Ok?
  {
    var (_, _, toUser, fee) := CollectInterest(w.vault, w.positions[user], amount).value;
    (toUser, fee)
  }

  /** Collecting interest settles the user, and then takes exactly `amount` off the escrow, off the
      uncollected total and off what the user has staged; all of it goes to the owner and the
      treasury, and nobody else is touched. */
  lemma CollectInterestEffect(w: World, now: nat, user: nat, amount: nat, w1: World) returns (earned: nat)
    requires |w.positions| > 0 && Perform(w, now, CollectUserInterest(user, amount)) == Ok(w1)
    ensures IsUser(w, user) && amount <= w.positions[user].interest.staged
    ensures w1.vault.totalSyInEscrow + amount == w.vault.totalSyInEscrow
    ensures w1.vault.uncollectedSy + amount == w.vault.uncollectedSy + earned
    ensures w1.positions[user].interest.staged + amount == w.positions[user].interest.staged + earned
    ensures Settles(w.vault, w.positions[user],
      w1.positions[user].(interest := w1.positions[user].interest.(staged := w.positions[user].interest.staged + earned)), earned)
    ensures w1.vault == w.vault.(totalSyInEscrow := w1.vault.totalSyInEscrow, uncollectedSy := w1.vault.uncollectedSy)
    ensures OthersStay(w, w1, user) && w1.positions[0] == w.positions[0] && w1.mergedPy == w.mergedPy
    ensures CollectInterest(w.vault, w.positions[user], amount).Ok?
    ensures var (toUser, fee) := InterestPaid(w, user, amount);
            && toUser + fee == amount
            && (amount <= U64_MAX && w.vault.interestBpsFee <= 10000 ==>
                  fee * 10000 < amount * w.vault.interestBpsFee + 10000 && amount * w.vault.interestBpsFee <= fee * 10000)
  {
    var (v1, u1) := Earn(w.vault, w.positions[user]).value;
    earned := EarnSettles(w.vault, w.positions[user], v1, u1);
    if amount <= U64_MAX && w.vault.interestBpsFee <= 10000 {
      FeeFits(amount, w.vault.interestBpsFee);
    }
  }

  /** `amount` is taken off what a position has staged of stream `k`, and nothing else of it changes. */
  predicate EmissionTaken(p: Position, p1: Position, k: nat, amount: nat) {
    && k < |p.emissions| == |p1.emissions| && p1 == p.(emissions := p1.emissions)
    && p1.emissions[k].staged + amount == p.emissions[k].staged
    && p1.emissions[k].lastSeenIndex == p.emissions[k].lastSeenIndex
    && forall j :: 0 <= j < |p.emissions| && j != k ==> p1.emissions[j] == p.emissions[j]
  }

  /** Collecting an emission is refused exactly when there is no such stream or not so much staged. */
  lemma CollectEmissionEffect(w: World, now: nat, i: nat, k: nat, amount: nat, a: Action)
    requires i < |w.positions| && (if i == 0 then a == TakeRobotEmission(k, amount) else a == CollectUserEmission(i, k, amount))
    ensures Perform(w, now, a).Ok? <==> k < |w.positions[i].emissions| && amount <= w.positions[i].emissions[k].staged
    ensures Perform(w, now, a).Ok? ==>
      var w1 := Perform(w, now, a).value;
      w1 == w.(positions := w1.positions) && OthersStay(w, w1, i) && EmissionTaken(w.positions[i], w1.positions[i], k, amount)
      && (i != 0 ==> w1.positions[0] == w.positions[0])
  {
  }

  /** The treasury takes SY out of its own share, and out of the escrow. */
  lemma TakeTreasurySyEffect(w: World, now: nat, amount: nat)
    requires |w.positions| > 0
    ensures Perform(w, now, TakeTreasurySy(amount)).Ok? <==> amount <= w.vault.treasurySy && amount <= w.vault.totalSyInEscrow
    ensures Perform(w, now, TakeTreasurySy(amount)).Ok? ==>
      var v1 := Perform(w, now, TakeTreasurySy(amount)).value.vault;
      && v1.treasurySy + amount == w.vault.treasurySy && v1.totalSyInEscrow + amount == w.vault.totalSyInEscrow
      && Perform(w, now, TakeTreasurySy(amount)).value
           == w.(vault := w.vault.(treasurySy := v1.treasurySy, totalSyInEscrow := v1.totalSyInEscrow))
  {
  }

  /** The treasury takes the robot's interest: out of what it has staged, out of what is uncollected and
      out of the escrow. */
  lemma TakeRobotSyEffect(w: World, now: nat, amount: nat, w1: World)
    requires |w.positions| > 0 && Perform(w, now, TakeRobotSy(amount)) == Ok(w1)
    ensures w1.vault.totalSyInEscrow + amount == w.vault.totalSyInEscrow
    ensures w1.vault.uncollectedSy + amount == w.vault.uncollectedSy
    ensures w1.vault == w.vault.(totalSyInEscrow := w1.vault.totalSyInEscrow, uncollectedSy := w1.vault.uncollectedSy)
    ensures w1.positions[0].interest.staged + amount == w.positions[0].interest.staged
    ensures w1.positions[0] == w.positions[0].(interest := w.positions[0].interest.(staged := w1.positions[0].interest.staged))
    ensures OthersStay(w, w1, 0) && w1.mergedPy == w.mergedPy
  {
  }

  /** The treasury takes emissions it has swept. */
  lemma TakeTreasuryEmissionEffect(w: World, now: nat, k: nat, amount: nat)
    requires |w.positions| > 0
    ensures Perform(w, now, TakeTreasuryEmission(k, amount)).Ok?
       <==> k < |w.vault.emissions| && amount <= w.vault.emissions[k].treasuryEmission
    ensures Perform(w, now, TakeTreasuryEmission(k, amount)).Ok? ==>
      var w1 := Perform(w, now, TakeTreasuryEmission(k, amount)).value;
      && w1 == w.(vault := w.vault.(emissions := w1.vault.emissions)) && |w1.vault.emissions| == |w.vault.emissions|
      && w1.vault.emissions[k].treasuryEmission + amount == w.vault.emissions[k].treasuryEmission
      && w1.vault.emissions[k] == w.vault.emissions[k].(treasuryEmission := w1.vault.emissions[k].treasuryEmission)
      && forall j :: 0 <= j < |w.vault.emissions| && j != k ==> w1.vault.emissions[j] == w.vault.emissions[j]
  {
  }

  /** A stream is registered at the index reported for it, with nothing swept, after those there are. */
  lemma RegisterEmissionEffect(w: World, now: nat, sy: SyState)
    requires |w.positions| > 0
    ensures Perform(w, now, RegisterEmission(sy)).Ok? <==> |w.vault.emissions| < |sy.emissionIndexes|
    ensures Perform(w, now, RegisterEmission(sy)).Ok? ==>
      var w1 := Perform(w, now, RegisterEmission(sy)).value;
      var n := |w.vault.emissions|;
      && w1 == w.(vault := w.vault.(emissions := w1.vault.emissions)) && |w1.vault.emissions| == n + 1
      && w1.vault.emissions[..n] == w.vault.emissions
      && w1.vault.emissions[n].lastSeenIndex == w1.vault.emissions[n].finalIndex == sy.emissionIndexes[n]
      && w1.vault.emissions[n].treasuryEmission == 0
  {
  }

  /** Settings change the fee and the supply cap only, and never the fee above the whole. */
  lemma ChangeSettingsEffect(w: World, now: nat, fee: nat, cap: nat)
    requires |w.positions| > 0
    ensures Perform(w, now, ChangeSettings(fee, cap)).Ok? <==> fee <= 10000
    ensures Perform(w, now, ChangeSettings(fee, cap)).Ok? ==>
      var v1 := Perform(w, now, ChangeSettings(fee, cap)).value.vault;
      && v1.interestBpsFee == fee && v1.maxPySupply == cap
      && Perform(w, now, ChangeSettings(fee, cap)).value == w.(vault := v1)
      && v1.(interestBpsFee := w.vault.interestBpsFee, maxPySupply := w.vault.maxPySupply) == w.vault
  {
  }

  // ---------- where the SY went ----------

  /** SY stripped in, and paid out: redeemed, as interest (fee included), to the treasury for the robot's
      interest, and to the treasury for its own share. */
  datatype Flows = Flows(stripped: nat, redeemed: nat, interest: nat, robot: nat, treasury: nat)

  function FlowsAfter(w: World, e: Event, f: Flows): Flows
    requires |w.positions| > 0 && Perform(w, e.now, e.action).Ok?
  {
    match e.action
    case Strip(_, amountSy) => f.(stripped := f.stripped + amountSy)
    case Merge(sy, amountPy) => f.(redeemed := f.redeemed + Redeemed(w, e.now, sy, amountPy))
    case CollectUserInterest(user, amount) =>
      f.(interest := f.interest + InterestPaid(w, user, amount).0 + InterestPaid(w, user, amount).1)
    case TakeRobotSy(amount) => f.(robot := f.robot + amount)
    case TakeTreasurySy(amount) => f.(treasury := f.treasury + amount)
    case DepositYt(_, _, _) => f
    case WithdrawYt(_, _, _) => f
    case StageYield(_, _) => f
    case CollectUserEmission(_, _, _) => f
    case OpenPosition => f
    case TakeTreasuryEmission(_, _) => f
    case TakeRobotEmission(_, _) => f
    case RegisterEmission(_) => f
    case ChangeSettings(_, _) => f
  }

  function RunFlows(w: World, events: seq<Event>, f: Flows): Flows
    requires |w.positions| > 0
    decreases |events|
  {
    if events == [] then f
    else RunFlows(Step(w, events[0]), events[1..], if Commit(w, events[0]).Ok? then FlowsAfter(w, events[0], f) else f)
  }

  predicate EscrowAccounted(w: World, f: Flows) {
    w.vault.totalSyInEscrow + f.redeemed + f.interest + f.robot + f.treasury == f.stripped
  }

  lemma EscrowStep(w: World, e: Event, f: Flows, w1: World)
    requires |w.positions| > 0 && Perform(w, e.now, e.action) == Ok(w1) && EscrowAccounted(w, f)
    ensures EscrowAccounted(w1, FlowsAfter(w, e, f))
  {
    match e.action
    case Strip(sy, amountSy) => var py, x := StripEffect(w, e.now, sy, amountSy, w1);
    case Merge(sy, amountPy) => var x := MergeEffect(w, e.now, sy, amountPy, w1);
    case DepositYt(user, sy, amount) => var r, x := DepositYtEffect(w, e.now, user, sy, amount, w1);
    case WithdrawYt(user, sy, amount) => var r, x := WithdrawYtEffect(w, e.now, user, sy, amount, w1);
    case StageYield(user, sy) => var r, x := StageYieldEffect(w, e.now, user, sy, w1);
    case CollectUserInterest(user, amount) => var x := CollectInterestEffect(w, e.now, user, amount, w1);
    case TakeRobotSy(amount) => TakeRobotSyEffect(w, e.now, amount, w1);
    case TakeTreasurySy(amount) => TakeTreasurySyEffect(w, e.now, amount);
    case CollectUserEmission(_, _, _) =>
    case OpenPosition =>
    case TakeTreasuryEmission(_, _) =>
    case TakeRobotEmission(_, _) =>
    case RegisterEmission(_) =>
    case ChangeSettings(_, _) =>
  }

  lemma {:induction false} EscrowOverRun(w: World, events: seq<Event>, f: Flows)
    requires |w.positions| > 0 && EscrowAccounted(w, f)
    ensures EscrowAccounted(Run(w, events), RunFlows(w, events, f))
    decreases |events|
  {
    if events != [] {
      var e := events[0];
      if Commit(w, e).Ok? {
        EscrowStep(w, e, f, Perform(w, e.now, e.action).value);
      }
      EscrowOverRun(Step(w, e), events[1..], if Commit(w, e).Ok? then FlowsAfter(w, e, f) else f);
    }
  }

  /** In any run, whatever the rates, the escrow is all the SY stripped in less all that was handed
      out: redeemed, collected as interest, or taken by the treasury. */
  lemma EscrowIsWhatCameInLessWhatWentOut(startTs: nat, duration: nat, events: seq<Event>)
    ensures EscrowAccounted(Run(Genesis(startTs, duration), events),
                            RunFlows(Genesis(startTs, duration), events, Flows(0, 0, 0, 0, 0)))
  {
    EscrowOverRun(Genesis(startTs, duration), events, Flows(0, 0, 0, 0, 0));
  }

  // ---------- whose YT is whose ----------

  datatype YtMoves = YtMoves(deposited: nat, withdrawn: nat)

  function MovesAfter(e: Event, user: nat, m: YtMoves): YtMoves {
    if e.action.DepositYt? && e.action.user == user then m.(deposited := m.deposited + e.action.amount)
    else if e.action.WithdrawYt? && e.action.user == user then m.(withdrawn := m.withdrawn + e.action.amount)
    else m
  }

  function RunMoves(w: World, events: seq<Event>, user: nat, m: YtMoves): YtMoves
    requires |w.positions| > 0
    decreases |events|
  {
    if events == [] then m
    else RunMoves(Step(w, events[0]), events[1..], user, if Commit(w, events[0]).Ok? then MovesAfter(events[0], user, m) else m)
  }

  predicate OwnsItsMoves(w: World, user: nat, m: YtMoves) {
    if user < |w.positions| then w.positions[user].ytBalance + m.withdrawn == m.deposited else m == YtMoves(0, 0)
  }

  lemma MovesStep(w: World, e: Event, user: nat, m: YtMoves, w1: World)
    requires |w.positions| > 0 && user > 0 && Perform(w, e.now, e.action) == Ok(w1) && OwnsItsMoves(w, user, m)
    ensures OwnsItsMoves(w1, user, MovesAfter(e, user, m))
  {
    match e.action
    case Strip(sy, amountSy) => var py, x := StripEffect(w, e.now, sy, amountSy, w1);
    case Merge(sy, amountPy) => var x := MergeEffect(w, e.now, sy, amountPy, w1);
    case DepositYt(u, sy, amount) => var r, x := DepositYtEffect(w, e.now, u, sy, amount, w1);
    case WithdrawYt(u, sy, amount) => var r, x := WithdrawYtEffect(w, e.now, u, sy, amount, w1);
    case StageYield(u, sy) => var r, x := StageYieldEffect(w, e.now, u, sy, w1);
    case CollectUserInterest(u, amount) => var x := CollectInterestEffect(w, e.now, u, amount, w1);
    case CollectUserEmission(u, k, amount) => CollectEmissionEffect(w, e.now, u, k, amount, e.action);
    case TakeRobotEmission(k, amount) => CollectEmissionEffect(w, e.now, 0, k, amount, e.action);
    case TakeRobotSy(amount) => TakeRobotSyEffect(w, e.now, amount, w1);
    case TakeTreasurySy(amount) => TakeTreasurySyEffect(w, e.now, amount);
    case OpenPosition =>
    case TakeTreasuryEmission(_, _) =>
    case RegisterEmission(_) =>
    case ChangeSettings(_, _) =>
  }

  lemma {:induction false} MovesOverRun(w: World, events: seq<Event>, user: nat, m: YtMoves)
    requires |w.positions| > 0 && user > 0 && OwnsItsMoves(w, user, m)
    ensures OwnsItsMoves(Run(w, events), user, RunMoves(w, events, user, m))
    decreases |events|
  {
    if events != [] {
      var e := events[0];
      if Commit(w, e).Ok? {
        MovesStep(w, e, user, m, Perform(w, e.now, e.action).value);
      }
      MovesOverRun(Step(w, e), events[1..], user, if Commit(w, e).Ok? then MovesAfter(e, user, m) else m);
    }
  }

  /** In any run a user's YT is what they deposited less what they withdrew: nothing anybody else does
      touches it. */
  lemma YtIsWhatWasDepositedLessWithdrawn(startTs: nat, duration: nat, events: seq<Event>, user: nat)
    requires user > 0
    ensures OwnsItsMoves(Run(Genesis(startTs, duration), events), user,
                         RunMoves(Genesis(startTs, duration), events, user, YtMoves(0, 0)))
  {
    MovesOverRun(Genesis(startTs, duration), events, user, YtMoves(0, 0));
  }
}
