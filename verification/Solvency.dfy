/** What the invariant means for the people who hold PT, YT and staged interest. */
module Solvency {
  import opened Outcome
  import opened FixedPoint
  import opened Sums
  import opened VaultSpec
  import opened VaultRuns
  import opened VaultInvariant
  import opened VaultPreservation
  import opened VaultSafety

  /** The units that truncated reciprocals can cost, scaled by 10^12. */
  function Dust(w: World): nat {
    Sum(YtOf, w.positions) + w.mergedPy
  }

  lemma ClaimsAtFinalRate(v: Vault, ps: seq<Position>, k: nat, now: nat)
    requires Sound(v, ps, k, now) && !InEmergency(v) && v.finalRate > 0
    ensures Sum(YtOf, ps) * Reciprocal(v.finalRate) <= Sum(ClaimOf, ps)
  {
    var r := Reciprocal(v.finalRate);
    forall i | 0 <= i < |ps| ensures YtOf(ps[i]) * r <= ClaimOf(ps[i]) {
      if ps[i].ytBalance > 0 {
        ReciprocalAntitone(ps[i].interest.lastSeenIndex, v.finalRate);
        MulMono(r, Reciprocal(ps[i].interest.lastSeenIndex), ps[i].ytBalance);
      }
    }
    SumScaledAtMost(YtOf, ClaimOf, r, ps);
  }

  lemma MaturedArithmetic(worth: int, yt: nat, pt: nat, f: nat, k: nat, claims: nat)
    requires f > 0
    requires ONE * worth + ONE * ONE * (yt - pt) + f * k >= f * claims
    requires yt * Reciprocal(f) <= claims
    ensures ONE * worth + f * (k + yt) >= ONE * ONE * pt
  {
    ReciprocalBounds(f);
    MulMono(yt * Reciprocal(f), claims, f);
    MulMono(ONE * ONE, Reciprocal(f) * f + f, yt);
    assert yt * Reciprocal(f) * f == Reciprocal(f) * f * yt;
    assert (Reciprocal(f) * f + f) * yt == Reciprocal(f) * f * yt + f * yt;
    assert f * (k + yt) == f * k + f * yt;
  }

  lemma ActiveArithmetic(free: int, yt: nat, f: nat, k: nat, claims: nat)
    requires f > 0
    requires claims <= ONE * free + k
    requires yt * Reciprocal(f) <= claims
    ensures ONE * (free * f) + f * (k + yt) >= ONE * ONE * yt
  {
    ReciprocalBounds(f);
    MulMono(yt * Reciprocal(f), ONE * free + k, f);
    MulMono(ONE * ONE, Reciprocal(f) * f + f, yt);
    assert yt * Reciprocal(f) * f == Reciprocal(f) * f * yt;
    assert (Reciprocal(f) * f + f) * yt == Reciprocal(f) * f * yt + f * yt;
    assert (ONE * free + k) * f == ONE * (free * f) + f * k;
    assert f * (k + yt) == f * k + f * yt;
  }

  /** Outside an emergency the free SY is worth the whole PT supply, up to the dust. */
  lemma FreeSyCoversPt(v: Vault, ps: seq<Position>, k: nat, now: nat)
    requires Sound(v, ps, k, now) && !InEmergency(v) && v.finalRate > 0
    ensures v.finalRate <= v.lastSeenRate
    ensures ONE * Worth(Free(v), v.lastSeenRate, v.finalRate) + v.finalRate * (k + Sum(YtOf, ps)) >= ONE * ONE * v.ptSupply
  {
    ClaimsAtFinalRate(v, ps, k, now);
    if now <= Maturity(v) {
      ActiveArithmetic(Free(v), v.ptSupply, v.finalRate, k, Sum(ClaimOf, ps));
    } else {
      MaturedArithmetic(Worth(Free(v), v.lastSeenRate, v.finalRate), Sum(YtOf, ps), v.ptSupply, v.finalRate, k, Sum(ClaimOf, ps));
    }
  }

  /** The same in units of SY. */
  lemma FreeSyInUnits(free: int, last: nat, f: nat, dust: nat, pt: nat)
    requires 0 < f <= last
    requires ONE * Worth(free, last, f) + f * dust >= ONE * ONE * pt
    ensures ONE * ONE * pt <= (if free >= 0 then last else f) * (ONE * free + dust)
  {
    MulMono(f, last, dust);
    var rate := if free >= 0 then last else f;
    assert rate * (ONE * free + dust) == ONE * (free * rate) + rate * dust;
  }

  lemma BackingWithinFree(sfp: nat, free: int, last: nat, f: nat, dust: nat, pt: nat)
    requires 0 < f <= last
    requires ONE * ONE * pt <= (if free >= 0 then last else f) * (ONE * free + dust)
    requires sfp * last <= pt * ONE
    ensures ONE * sfp <= ONE * free + dust
  {
    var rate := if free >= 0 then last else f;
    MulMono(rate, last, sfp);
    assert ONE * sfp * rate <= ONE * ONE * pt;
    CancelFactor(ONE * sfp, ONE * free + dust, rate);
  }

  lemma InvariantMeansSolvent(w: World)
    requires Invariant(w)
    ensures ONE * (w.vault.syForPt + w.vault.treasurySy + w.vault.uncollectedSy) <= ONE * w.vault.totalSyInEscrow + Dust(w)
  {
    var v := w.vault;
    if v.finalRate > 0 && !InEmergency(v) {
      FreeSyCoversPt(v, w.positions, w.mergedPy, w.clock);
      FreeSyInUnits(Free(v), v.lastSeenRate, v.finalRate, Dust(w), v.ptSupply);
      BackingWithinFree(v.syForPt, Free(v), v.lastSeenRate, v.finalRate, Dust(w), v.ptSupply);
    }
  }

  /** Solvency over every run: any number of positions, any rates while active, dips included.
      The escrow is never short by more than the YT outstanding plus the PT merged before
      maturity, counted in units of 10^-12 SY; below 10^12 of those it is never short at all. */
  lemma SolventOverEveryRun(startTs: nat, duration: nat, events: seq<Event>)
    requires CalmRun(Genesis(startTs, duration), events)
    ensures
      var w := Run(Genesis(startTs, duration), events);
      var owed := w.vault.syForPt + w.vault.treasurySy + w.vault.uncollectedSy;
      && ONE * owed <= ONE * w.vault.totalSyInEscrow + Dust(w)
      && (Dust(w) < ONE ==> owed <= w.vault.totalSyInEscrow)
  {
    GenesisIsSound(startTs, duration);
    RunKeepsInvariant(Genesis(startTs, duration), events);
    InvariantMeansSolvent(Run(Genesis(startTs, duration), events));
  }

  // ---------- backing of PT ----------

  predicate Refreshes(a: Action) {
    a.Strip? || a.Merge? || a.DepositYt? || a.WithdrawYt? || a.StageYield?
  }

  /** Just set aside, the SY for PT is the face value rounded down, or within the dust of it. */
  lemma JustSetAside(v: Vault, ps: seq<Position>, k: nat, now: nat)
    requires Sound(v, ps, k, now) && !InEmergency(v) && v.finalRate > 0
    requires SetSyForPt(v) == Ok(v)
    ensures v.lastSeenRate > 0
    ensures v.syForPt <= DivFloor(v.ptSupply, v.lastSeenRate)
    ensures v.lastSeenRate * (ONE * (v.syForPt + 1) + k + Sum(YtOf, ps)) > ONE * ONE * v.ptSupply
    ensures k + Sum(YtOf, ps) < ONE ==> v.syForPt == DivFloor(v.ptSupply, v.lastSeenRate)
  {
    var dust := k + Sum(YtOf, ps);
    FreeSyCoversPt(v, ps, k, now);
    FreeSyInUnits(Free(v), v.lastSeenRate, v.finalRate, dust, v.ptSupply);
    SetAsideArithmetic(v.ptSupply, v.lastSeenRate, v.finalRate, Free(v), v.syForPt, dust);
  }

  lemma SetAsideArithmetic(pt: nat, last: nat, f: nat, free: int, sfp: nat, dust: nat)
    requires 0 < f <= last
    requires ONE * ONE * pt <= (if free >= 0 then last else f) * (ONE * free + dust)
    requires var active := if free >= 0 then free else 0;
      sfp == if DivFloor(pt, last) <= active then DivFloor(pt, last) else active
    ensures last * (ONE * (sfp + 1) + dust) > ONE * ONE * pt
    ensures dust < ONE ==> sfp == DivFloor(pt, last)
  {
    if sfp == DivFloor(pt, last) {
      DivBounds(pt * ONE, last);
      assert last * (ONE * (sfp + 1) + dust) == ONE * (sfp * last + last) + last * dust;
    } else if free >= 0 {
      assert last * (ONE * (sfp + 1) + dust) == last * (ONE * free + dust) + last * ONE;
    } else {
      MulMono(ONE * free + dust, dust, f);
      MulMono(f, last, dust);
      assert last * (ONE * (sfp + 1) + dust) == last * dust + last * ONE;
    }
    if dust < ONE {
      FallbackDoesNotBind(pt, last, f, free, dust);
    }
  }

  lemma FallbackDoesNotBind(pt: nat, last: nat, f: nat, free: int, dust: nat)
    requires 0 < f <= last && dust < ONE
    requires ONE * ONE * pt <= (if free >= 0 then last else f) * (ONE * free + dust)
    ensures 0 <= free && DivFloor(pt, last) <= free
  {
    if free < 0 {
      MulMono(ONE * free + dust, -1, f);
    } else {
      MulMono(ONE * free + dust, ONE * free + ONE - 1, last);
      assert last * (ONE * free + ONE - 1) == ONE * ((free + 1) * last) - last;
      DivIsAtMost(pt * ONE, last, free);
    }
  }

  lemma SetTwice(v: Vault, v1: Vault)
    requires SetSyForPt(v) == Ok(v1)
    ensures SetSyForPt(v1) == Ok(v1)
  {
  }

  lemma EarnedFromFinalRate(v: Vault, p: Position)
    requires Earn(v, p).Ok?
    ensures v.finalRate > 0 && Earn(v, p).value.0.finalRate == v.finalRate
  {
    var (v1, p1) := Earn(v, p).value;
    var a, e := EarnEffect(v, p, v1, p1);
  }

  predicate IsSet(v: Vault) {
    SetSyForPt(v) == Ok(v) && v.finalRate > 0
  }

  lemma StripSets(v: Vault, robot: Position, now: nat, sy: SyState, amount: nat)
    requires HandleStrip(v, robot, now, sy, amount).Ok?
    ensures IsSet(HandleStrip(v, robot, now, sy, amount).value.0)
  {
    EarnedFromFinalRate(UpdateFromSyState(v, sy, now).value, robot);
    var (v1, r1) := UpdateVaultYield(v, robot, now, sy).value;
    var py := SyToPy(v1.lastSeenRate, amount).value;
    SetTwice(v1.(totalSyInEscrow := v1.totalSyInEscrow + amount, ptSupply := v1.ptSupply + py),
      HandleStrip(v, robot, now, sy, amount).value.0);
  }

  lemma MergeSets(v: Vault, robot: Position, now: nat, sy: SyState, amount: nat)
    requires HandleMerge(v, robot, now, sy, amount).Ok?
    ensures IsSet(HandleMerge(v, robot, now, sy, amount).value.0)
  {
    EarnedFromFinalRate(UpdateFromSyState(v, sy, now).value, robot);
    var (v1, r1) := UpdateVaultYield(v, robot, now, sy).value;
    var paid := RedemptionAmount(v1, amount).value;
    SetTwice(v1.(totalSyInEscrow := v1.totalSyInEscrow - paid, ptSupply := v1.ptSupply - amount),
      HandleMerge(v, robot, now, sy, amount).value.0);
  }

  lemma DepositSets(v: Vault, robot: Position, user: Position, sy: SyState, now: nat, amount: nat)
    requires HandleDepositYt(v, robot, user, sy, now, amount).Ok?
    ensures IsSet(HandleDepositYt(v, robot, user, sy, now, amount).value.0)
  {
    EarnedFromFinalRate(UpdateFromSyState(v, sy, now).value, robot);
    var (v1, r1) := UpdateVaultYield(v, robot, now, sy).value;
    EarnedFromFinalRate(v1, user);
    SetTwice(Earn(v1, user).value.0, HandleDepositYt(v, robot, user, sy, now, amount).value.0);
  }

  lemma WithdrawSets(v: Vault, robot: Position, user: Position, sy: SyState, now: nat, amount: nat)
    requires HandleWithdrawYt(v, robot, user, sy, now, amount).Ok?
    ensures IsSet(HandleWithdrawYt(v, robot, user, sy, now, amount).value.0)
  {
    EarnedFromFinalRate(UpdateFromSyState(v, sy, now).value, robot);
    var (v1, r1) := UpdateVaultYield(v, robot, now, sy).value;
    EarnedFromFinalRate(v1, user);
    SetTwice(Earn(v1, user).value.0, HandleWithdrawYt(v, robot, user, sy, now, amount).value.0);
  }

  lemma StageSets(v: Vault, robot: Position, user: Position, sy: SyState, now: nat)
    requires HandleStageYield(v, robot, user, sy, now).Ok?
    ensures IsSet(HandleStageYield(v, robot, user, sy, now).value.0)
  {
    EarnedFromFinalRate(UpdateFromSyState(v, sy, now).value, robot);
    var (v1, r1) := UpdateVaultYield(v, robot, now, sy).value;
    EarnedFromFinalRate(v1, user);
    SetTwice(Earn(v1, user).value.0, HandleStageYield(v, robot, user, sy, now).value.0);
  }

  lemma CommittedIsSet(w: World, e: Event, w1: World)
    requires |w.positions| > 0 && Commit(w, e) == Ok(w1) && Refreshes(e.action)
    ensures IsSet(w1.vault)
  {
    var v, ps := w.vault, w.positions;
    match e.action
    case Strip(sy, amount) => StripSets(v, ps[0], e.now, sy, amount);
    case Merge(sy, amount) => MergeSets(v, ps[0], e.now, sy, amount);
    case DepositYt(user, sy, amount) => DepositSets(v, ps[0], ps[user], sy, e.now, amount);
    case WithdrawYt(user, sy, amount) => WithdrawSets(v, ps[0], ps[user], sy, e.now, amount);
    case StageYield(user, sy) => StageSets(v, ps[0], ps[user], sy, e.now);
  }

  /** Before and after maturity, whenever an instruction has just refreshed a vault that is not in
      an emergency, PT is backed by its face value at the current rate; the fallback to what is
      left in escrow binds by no more than the dust, and not at all below one unit of it. */
  lemma PtIsFullyBacked(startTs: nat, duration: nat, events: seq<Event>, e: Event, w1: World)
    requires CalmRun(Genesis(startTs, duration), events)
    requires Calm(Run(Genesis(startTs, duration), events), e)
    requires Commit(Run(Genesis(startTs, duration), events), e) == Ok(w1)
    requires Refreshes(e.action) && !InEmergency(w1.vault)
    ensures
      var v := w1.vault;
      && v.lastSeenRate > 0
      && v.syForPt <= DivFloor(v.ptSupply, v.lastSeenRate)
      && v.lastSeenRate * (ONE * (v.syForPt + 1) + Dust(w1)) > ONE * ONE * v.ptSupply
      && (Dust(w1) < ONE ==> v.syForPt == DivFloor(v.ptSupply, v.lastSeenRate))
  {
    GenesisIsSound(startTs, duration);
    RunKeepsInvariant(Genesis(startTs, duration), events);
    var w := Run(Genesis(startTs, duration), events);
    CommitKeeps(w, e, w1);
    CommittedIsSet(w, e, w1);
    JustSetAside(w1.vault, w1.positions, w1.mergedPy, w1.clock);
  }

  // ---------- what a merge pays ----------

  lemma ShareAtLeast(s: nat, m: nat, n: nat)
    requires m > 0
    ensures ONE * m * (MulFloor(Ratio(s, m), n) + 1) + m * n >= s * ONE * n
  {
    var q := Ratio(s, m);
    var paid := MulFloor(q, n);
    DivBounds(s * ONE, m);
    DivBounds(q * n, ONE);
    calc {
      s * ONE * n;
    <= { MulMono(s * ONE, q * m + m, n); }
      (q * m + m) * n;
      q * n * m + m * n;
    <= { MulMono(q * n, paid * ONE + ONE, m); }
      (paid * ONE + ONE) * m + m * n;
      ONE * m * (paid + 1) + m * n;
    }
  }

  /** `paid > amount/rate - 2 - amount/10^12 - (amount/pt) * dust/10^12`, multiplied out. */
  predicate PaysAlmost(rate: nat, pt: nat, amount: nat, paid: nat, dust: nat) {
    rate * (ONE * pt * (paid + 2) + pt * amount + amount * dust) > ONE * ONE * pt * amount
  }

  lemma MergePaysArithmetic(s: nat, pt: nat, m: nat, paid: nat, rate: nat, dust: nat)
    requires 0 < m <= pt
    requires ONE * pt * (paid + 1) + pt * m >= s * ONE * m
    requires rate * (ONE * (s + 1) + dust) > ONE * ONE * pt
    ensures rate * (ONE * pt * (paid + 2) + pt * m + m * dust) > ONE * ONE * pt * m
  {
    calc {
      ONE * ONE * pt * m;
    < { MulMono(ONE * ONE * pt + 1, rate * (ONE * (s + 1) + dust), m); }
      rate * (ONE * (s + 1) + dust) * m;
      rate * (s * ONE * m + ONE * m + m * dust);
    <= { MulMono(s * ONE * m + ONE * m + m * dust, ONE * pt * (paid + 1) + pt * m + ONE * pt + m * dust, rate); }
      rate * (ONE * pt * (paid + 1) + pt * m + ONE * pt + m * dust);
      rate * (ONE * pt * (paid + 2) + pt * m + m * dust);
    }
  }

  lemma RefreshedBacking(w: World, now: nat, sy: SyState, v1: Vault, r1: Position)
    requires Invariant(w) && now >= w.clock && (now > Maturity(w.vault) ==> !InEmergency(w.vault))
    requires UpdateVaultYield(w.vault, w.positions[0], now, sy) == Ok((v1, r1)) && !InEmergency(v1)
    ensures v1.ptSupply == w.vault.ptSupply && v1.lastSeenRate == sy.exchangeRate > 0
    ensures v1.syForPt * v1.lastSeenRate <= v1.ptSupply * ONE
    ensures Dust(w) < ONE ==> v1.syForPt == DivFloor(v1.ptSupply, v1.lastSeenRate)
    ensures v1.lastSeenRate * (ONE * (v1.syForPt + 1) + Dust(w)) > ONE * ONE * v1.ptSupply
  {
    var v0 := UpdateFromSyState(w.vault, sy, now).value;
    var swept := UpdateFrame(w.vault, sy, now, v0);
    TimePasses(w, now);
    RefreshNeedsStart(w, now, sy);
    var a, e := EarnEffect(v0, w.positions[0], v1, r1);
    RefreshKeeps(w.vault, w.positions, w.mergedPy, now, sy, v0);
    JustSetAside(v0, w.positions, w.mergedPy, now);
  }

  /** In any reached world a merge of `amount` PT pays at most its face value at the rate `r`, and
      more than `amount/r - 2 - amount/10^12` less the merged part's share of the dust. */
  lemma MergePaysFaceValue(w: World, now: nat, sy: SyState, amount: nat, v1: Vault, r1: Position, paid: nat)
    requires Invariant(w) && now >= w.clock && (now > Maturity(w.vault) ==> !InEmergency(w.vault))
    requires UpdateVaultYield(w.vault, w.positions[0], now, sy) == Ok((v1, r1)) && !InEmergency(v1)
    requires 0 < amount <= v1.ptSupply && RedemptionAmount(v1, amount) == Ok(paid)
    ensures paid * v1.lastSeenRate <= amount * ONE
    ensures PaysAlmost(v1.lastSeenRate, v1.ptSupply, amount, paid, Dust(w))
  {
    RefreshedBacking(w, now, sy, v1, r1);
    PaidForBacking(v1, amount, paid, Dust(w));
  }

  lemma PaidForBacking(v: Vault, amount: nat, paid: nat, dust: nat)
    requires v.syForPt * v.lastSeenRate <= v.ptSupply * ONE
    requires v.lastSeenRate * (ONE * (v.syForPt + 1) + dust) > ONE * ONE * v.ptSupply
    requires 0 < amount <= v.ptSupply && RedemptionAmount(v, amount) == Ok(paid)
    ensures paid * v.lastSeenRate <= amount * ONE
    ensures PaysAlmost(v.lastSeenRate, v.ptSupply, amount, paid, dust)
  {
    RedemptionBounds(v, amount, paid);
    ShareAtLeast(v.syForPt, v.ptSupply, amount);
    MergePaysArithmetic(v.syForPt, v.ptSupply, amount, paid, v.lastSeenRate, dust);
  }

  lemma DropCommonFactor(pt: nat, rate: nat, paid: nat, py: nat)
    requires pt > 0
    requires PaysAlmost(rate, pt, py, paid, 0)
    ensures rate * (ONE * (paid + 2) + py) > ONE * ONE * py
  {
    assert rate * (ONE * pt * (paid + 2) + pt * py) == rate * (ONE * (paid + 2) + py) * pt;
    if rate * (ONE * (paid + 2) + py) <= ONE * ONE * py {
      MulMono(rate * (ONE * (paid + 2) + py), ONE * ONE * py, pt);
    }
  }

  /** `paid > amountSy - 2 - 1/rate - py/10^12`, multiplied out. */
  predicate ReturnsAlmost(rate: nat, amountSy: nat, py: nat, paid: nat) {
    rate * (ONE * (paid + 2) + py) + ONE * ONE > ONE * (amountSy * rate)
  }

  lemma StripThenMergeAmounts(rate: nat, amountSy: nat, py: nat, v: Vault, paid: nat)
    requires rate > 0 && SyToPy(rate, amountSy) == Ok(py)
    requires v.lastSeenRate == rate && 0 < py <= v.ptSupply
    requires v.syForPt * rate <= v.ptSupply * ONE
    requires RedemptionAmount(v, py) == Ok(paid)
    ensures paid <= amountSy
    ensures v.syForPt == DivFloor(v.ptSupply, rate) ==>
      ReturnsAlmost(rate, amountSy, py, paid)
  {
    RedemptionBounds(v, py, paid);
    DivBounds(rate * amountSy, ONE);
    CancelFactor(paid, amountSy, rate);
    if v.syForPt == DivFloor(v.ptSupply, rate) {
      DivBounds(v.ptSupply * ONE, rate);
      PaidForBacking(v, py, paid, 0);
      DropCommonFactor(v.ptSupply, rate, paid, py);
    }
  }

  lemma StripMints(w: World, now: nat, sy: SyState, amountSy: nat, w1: World)
    requires |w.positions| > 0 && Perform(w, now, Strip(sy, amountSy)) == Ok(w1)
    ensures w1.vault.totalSyInEscrow == w.vault.totalSyInEscrow + amountSy
    ensures w1.vault.ptSupply >= w.vault.ptSupply
    ensures SyToPy(sy.exchangeRate, amountSy) == Ok(w1.vault.ptSupply - w.vault.ptSupply)
  {
    var v0 := UpdateFromSyState(w.vault, sy, now).value;
    var swept := UpdateFrame(w.vault, sy, now, v0);
    var (v1, r1) := Earn(v0, w.positions[0]).value;
    var a, e := EarnEffect(v0, w.positions[0], v1, r1);
  }

  lemma MergeRedeems(w: World, now: nat, sy: SyState, py: nat, w1: World)
    requires |w.positions| > 0 && Perform(w, now, Merge(sy, py)) == Ok(w1)
    ensures UpdateVaultYield(w.vault, w.positions[0], now, sy).Ok?
    ensures
      var v1 := UpdateVaultYield(w.vault, w.positions[0], now, sy).value.0;
      && !InEmergency(v1) && py <= v1.ptSupply
      && w1.vault.totalSyInEscrow <= v1.totalSyInEscrow == w.vault.totalSyInEscrow
      && RedemptionAmount(v1, py) == Ok(w.vault.totalSyInEscrow - w1.vault.totalSyInEscrow)
  {
    var v0 := UpdateFromSyState(w.vault, sy, now).value;
    var swept := UpdateFrame(w.vault, sy, now, v0);
    var (v1, r1) := Earn(v0, w.positions[0]).value;
    var a, e := EarnEffect(v0, w.positions[0], v1, r1);
  }

  lemma AfterStrip(w: World, now: nat, sy: SyState, amountSy: nat, w1: World)
    requires Commits(w, now, Strip(sy, amountSy), w1)
    ensures Invariant(w1.(clock := now)) && now <= Maturity(w1.vault)
    ensures w1.vault.totalSyInEscrow == w.vault.totalSyInEscrow + amountSy && w1.vault.ptSupply >= w.vault.ptSupply
    ensures SyToPy(sy.exchangeRate, amountSy) == Ok(w1.vault.ptSupply - w.vault.ptSupply)
  {
    StripKeepsDates(w, now, sy, amountSy);
    StripMints(w, now, sy, amountSy, w1);
    StripKeeps(w, now, sy, amountSy, w1);
  }

  lemma MergeAllMinted(w: World, now: nat, sy: SyState, amountSy: nat, py: nat, w1: World)
    requires Invariant(w) && w.clock <= now <= Maturity(w.vault) && py > 0
    requires SyToPy(sy.exchangeRate, amountSy) == Ok(py)
    requires Perform(w, now, Merge(sy, py)) == Ok(w1)
    ensures
      var paid := w.vault.totalSyInEscrow - w1.vault.totalSyInEscrow;
      && 0 <= paid <= amountSy
      && (Dust(w) < ONE ==> ReturnsAlmost(sy.exchangeRate, amountSy, py, paid))
  {
    MergeRedeems(w, now, sy, py, w1);
    var (v1, r1) := UpdateVaultYield(w.vault, w.positions[0], now, sy).value;
    RefreshedBacking(w, now, sy, v1, r1);
    StripThenMergeAmounts(sy.exchangeRate, amountSy, py, v1, w.vault.totalSyInEscrow - w1.vault.totalSyInEscrow);
  }

  /** Stripping `amountSy` in any reached world and merging all the py minted for it at once, at
      the same rate `r`, never takes out more than was put in; while the dust is below one unit it
      takes out more than `amountSy - 2 - 1/r - py/10^12`. */
  lemma StripThenMerge(w: World, now: nat, sy: SyState, amountSy: nat, py: nat, w1: World, held: World, w2: World)
    requires Commits(w, now, Strip(sy, amountSy), w1)
    requires py > 0 && w1.vault.ptSupply == w.vault.ptSupply + py
    requires held == w1.(clock := now)
    requires Perform(held, now, Merge(sy, py)) == Ok(w2)
    ensures
      var paid := held.vault.totalSyInEscrow - w2.vault.totalSyInEscrow;
      && held.vault.totalSyInEscrow == w.vault.totalSyInEscrow + amountSy
      && 0 <= paid <= amountSy
      && (Dust(held) < ONE ==> ReturnsAlmost(sy.exchangeRate, amountSy, py, paid))
  {
    AfterStrip(w, now, sy, amountSy, w1);
    MergeAllMinted(held, now, sy, amountSy, py, w2);
  }

  lemma StripKeepsDates(w: World, now: nat, sy: SyState, amountSy: nat)
    requires |w.positions| > 0 && Perform(w, now, Strip(sy, amountSy)).Ok?
    ensures now <= Maturity(w.vault) == Maturity(Perform(w, now, Strip(sy, amountSy)).value.vault)
  {
    var v0 := UpdateFromSyState(w.vault, sy, now).value;
    var swept := UpdateFrame(w.vault, sy, now, v0);
    var (v1, r1) := Earn(v0, w.positions[0]).value;
    var a, e := EarnEffect(v0, w.positions[0], v1, r1);
  }
}
