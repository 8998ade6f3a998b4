/** Each statement of an instruction keeps `Sound`; each committed instruction keeps `Invariant`. */
module VaultPreservation {
  import opened Outcome
  import opened FixedPoint
  import opened Sums
  import opened VaultSpec
  import opened VaultRuns
  import opened VaultInvariant

  lemma TotalsAfter(ps: seq<Position>, i: nat, p: Position)
    requires i < |ps|
    ensures Sum(YtOf, ps[i := p]) + YtOf(ps[i]) == Sum(YtOf, ps) + YtOf(p)
    ensures Sum(StagedOf, ps[i := p]) + StagedOf(ps[i]) == Sum(StagedOf, ps) + StagedOf(p)
    ensures Sum(ClaimOf, ps[i := p]) + ClaimOf(ps[i]) == Sum(ClaimOf, ps) + ClaimOf(p)
  {
    SumUpdate(YtOf, ps, i, p);
    SumUpdate(StagedOf, ps, i, p);
    SumUpdate(ClaimOf, ps, i, p);
  }

  // ---------- refreshing ----------

  lemma SetSyForPtKeeps(v: Vault, ps: seq<Position>, k: nat, now: nat, v1: Vault)
    requires Sound(v, ps, k, now)
    requires SetSyForPt(v) == Ok(v1)
    ensures Sound(v1, ps, k, now) && SetAside(v1, k)
    ensures v1 == v.(syForPt := v1.syForPt)
  {
    BackingIsAffordable(v.lastSeenRate, v.ptSupply, ActiveSy(v), v1.syForPt);
  }

  lemma SweepSyKeeps(v: Vault, now: nat, rate: nat, v1: Vault)
    requires v.lastSeenRate <= v.allTimeHigh && now > Maturity(v)
    requires rate >= v.allTimeHigh
    requires SweepSy(v, rate, now) == Ok(v1)
    ensures v1 == v.(treasurySy := v1.treasurySy)
    ensures Worth(Free(v1), rate, v.finalRate) >= Worth(Free(v), v.lastSeenRate, v.finalRate)
  {
    if rate > v.allTimeHigh && Free(v) >= 0 {
      SweepKeepsWorth(Free(v), v.lastSeenRate, rate, v1.treasurySy - v.treasurySy);
    }
  }

  lemma UpdateFrame(v: Vault, sy: SyState, now: nat, v1: Vault) returns (swept: Vault)
    requires UpdateFromSyState(v, sy, now) == Ok(v1)
    ensures SweepSy(v, sy.exchangeRate, now) == Ok(swept)
    ensures v1.startTs == v.startTs && v1.duration == v.duration
    ensures v1.totalSyInEscrow == v.totalSyInEscrow && v1.ptSupply == v.ptSupply
    ensures v1.uncollectedSy == v.uncollectedSy && v1.treasurySy == swept.treasurySy
    ensures v1.lastSeenRate == sy.exchangeRate
    ensures v1.allTimeHigh == if sy.exchangeRate >= v.allTimeHigh then sy.exchangeRate else v.allTimeHigh
    ensures v1.finalRate == if IsActive(v, now) then sy.exchangeRate else v.finalRate
    ensures SetSyForPt(v1) == Ok(v1)
  {
    swept := SweepSy(v, sy.exchangeRate, now).value;
  }

  lemma RefreshKeeps(v: Vault, ps: seq<Position>, k: nat, now: nat, sy: SyState, v1: Vault)
    requires Sound(v, ps, k, now) && v.startTs <= now
    requires UpdateFromSyState(v, sy, now) == Ok(v1)
    requires now > Maturity(v) ==> !InEmergency(v1)
    ensures Sound(v1, ps, k, now) && SetAside(v1, k)
  {
    var swept := UpdateFrame(v, sy, now, v1);
    if now > Maturity(v) {
      SweepSyKeeps(v, now, sy.exchangeRate, swept);
      assert Free(v1) == Free(swept);
    }
    SetSyForPtKeeps(v1, ps, k, now, v1);
  }

  // ---------- earning ----------

  lemma EarnEffect(v: Vault, p: Position, v1: Vault, p1: Position) returns (atFinal: nat, earned: nat)
    requires Earn(v, p) == Ok((v1, p1))
    ensures v.finalRate > 0
    ensures p1.ytBalance == p.ytBalance
    ensures v1 == v.(uncollectedSy := v.uncollectedSy + earned)
    ensures InEmergency(v) ==> p1.interest == p.interest && earned == 0
    ensures !InEmergency(v) ==>
      && CalcEarnedSy(p.ytBalance, p.interest.lastSeenIndex, v.finalRate) == Ok(atFinal)
      && ScaleToCurrentRate(atFinal, v.finalRate, v.lastSeenRate) == Ok(earned)
      && p1.interest == Tracker(v.finalRate, p.interest.staged + earned)
  {
    var q := p.(emissions := EnsureTrackers(p.emissions, |v.emissions|));
    var (v2, p2) := EarnSyInterest(v, q).value;
    assert EarnEmissions(v2, p2) == Ok(p1);
    if InEmergency(v) {
      atFinal, earned := 0, 0;
    } else {
      atFinal := CalcEarnedSy(p.ytBalance, p.interest.lastSeenIndex, v.finalRate).value;
      earned := EarnedInterest(v, q).value;
    }
  }

  lemma WorthCoversClaims(before: int, after: int, other: int, f: nat, atFinal: nat, claims: nat, claims1: nat)
    requires after + atFinal * f >= before
    requires ONE * before + other >= f * claims
    requires ONE * atFinal + claims1 <= claims
    ensures ONE * after + other >= f * claims1
  {
    MulMono(ONE * atFinal + claims1, claims, f);
    assert (ONE * atFinal + claims1) * f == ONE * (atFinal * f) + f * claims1;
  }

  /** The claim a position gives up pays for the SY staged for it. */
  lemma EarnKeepsBacking(v: Vault, ps: seq<Position>, i: nat, k: nat, now: nat, p1: Position, atFinal: nat, earned: nat)
    requires i < |ps| && v.finalRate > 0 && v.finalRate <= v.lastSeenRate
    requires now <= Maturity(v) ==> BackedWhileActive(v, ps, k)
    requires now > Maturity(v) ==> BackedAfterMaturity(v, ps, k)
    requires ScaleToCurrentRate(atFinal, v.finalRate, v.lastSeenRate) == Ok(earned)
    requires p1.ytBalance == ps[i].ytBalance
    requires ONE * atFinal + ClaimOf(p1) <= ClaimOf(ps[i])
    ensures
      var v1 := v.(uncollectedSy := v.uncollectedSy + earned);
      && (now <= Maturity(v) ==> BackedWhileActive(v1, ps[i := p1], k))
      && (now > Maturity(v) ==> BackedAfterMaturity(v1, ps[i := p1], k))
  {
    TotalsAfter(ps, i, p1);
    if now > Maturity(v) {
      ScalingKeepsValue(atFinal, v.finalRate, v.lastSeenRate, earned);
      WorthOfPaying(Free(v), earned, v.lastSeenRate, v.finalRate);
      var v1 := v.(uncollectedSy := v.uncollectedSy + earned);
      WorthCoversClaims(Worth(Free(v), v.lastSeenRate, v.finalRate), Worth(Free(v1), v.lastSeenRate, v.finalRate),
        ONE * ONE * (Sum(YtOf, ps) - v.ptSupply) + v.finalRate * k, v.finalRate, atFinal,
        Sum(ClaimOf, ps), Sum(ClaimOf, ps[i := p1]));
    }
  }

  lemma EarnKeeps(v: Vault, ps: seq<Position>, i: nat, k: nat, now: nat, v1: Vault, p1: Position)
    requires i < |ps| && Sound(v, ps, k, now)
    requires i != 0 ==> Settled(v, ps)
    requires Earn(v, ps[i]) == Ok((v1, p1))
    ensures v1 == v.(uncollectedSy := v1.uncollectedSy) && v.finalRate > 0
    ensures p1.ytBalance == ps[i].ytBalance
    ensures !InEmergency(v) ==> p1.interest.lastSeenIndex == v.finalRate
    ensures p1.interest.staged >= ps[i].interest.staged
    ensures Sound(v1, ps[i := p1], k, now) && Settled(v1, ps[i := p1])
  {
    var atFinal, earned := EarnEffect(v, ps[i], v1, p1);
    TotalsAfter(ps, i, p1);
    if !InEmergency(v) {
      EarnedIsClaimGivenUp(ps[i].ytBalance, ps[i].interest.lastSeenIndex, v.finalRate, atFinal);
      EarnKeepsBacking(v, ps, i, k, now, p1, atFinal, earned);
    }
  }

  /** The state in which every refreshing instruction goes on. */
  lemma UpdateVaultYieldKeeps(v: Vault, ps: seq<Position>, k: nat, now: nat, sy: SyState, v1: Vault, r1: Position)
    requires Sound(v, ps, k, now) && v.startTs <= now
    requires UpdateVaultYield(v, ps[0], now, sy) == Ok((v1, r1))
    requires now > Maturity(v) ==> !InEmergency(v1)
    ensures Sound(v1, ps[0 := r1], k, now) && Settled(v1, ps[0 := r1])
    ensures r1.ytBalance == ps[0].ytBalance && v1.ptSupply == v.ptSupply
    ensures v1.startTs == v.startTs && v1.duration == v.duration && v1.finalRate > 0
    ensures v1.syForPt * v1.lastSeenRate <= v1.ptSupply * ONE
    ensures v1.allTimeHigh >= v.allTimeHigh
  {
    var v0 := UpdateFromSyState(v, sy, now).value;
    var swept := UpdateFrame(v, sy, now, v0);
    assert v1.allTimeHigh == v0.allTimeHigh && v1.lastSeenRate == v0.lastSeenRate by {
      var a, e := EarnEffect(v0, ps[0], v1, r1);
    }
    RefreshKeeps(v, ps, k, now, sy, v0);
    EarnKeeps(v0, ps, 0, k, now, v1, r1);
  }

  // ---------- moving, minting and redeeming ----------

  lemma ClaimGrows(p: Position, amount: nat)
    ensures ClaimOf(p.(ytBalance := p.ytBalance + amount)) == ClaimOf(p) + amount * Reciprocal(p.interest.lastSeenIndex)
  {
  }

  lemma ClaimMoves(a: Position, b: Position, amount: nat, p: Position, q: Position)
    requires DecYt(a, amount) == Ok(p) && IncYt(b, amount) == Ok(q)
    requires amount > 0 ==> 0 < a.interest.lastSeenIndex <= b.interest.lastSeenIndex
    ensures ClaimOf(p) + ClaimOf(q) <= ClaimOf(a) + ClaimOf(b)
  {
    ClaimGrows(p, amount);
    ClaimGrows(b, amount);
    if amount > 0 {
      ReciprocalAntitone(a.interest.lastSeenIndex, b.interest.lastSeenIndex);
      MulMono(Reciprocal(b.interest.lastSeenIndex), Reciprocal(a.interest.lastSeenIndex), amount);
    }
  }

  lemma MovedClaim(ps: seq<Position>, from: nat, to: nat, amount: nat, p: Position, q: Position)
    requires from < |ps| && to < |ps| && from != to
    requires DecYt(ps[from], amount) == Ok(p) && IncYt(ps[to], amount) == Ok(q)
    requires amount > 0 ==> 0 < ps[from].interest.lastSeenIndex <= ps[to].interest.lastSeenIndex
    ensures Sum(ClaimOf, ps[from := p][to := q]) <= Sum(ClaimOf, ps)
    ensures Sum(YtOf, ps[from := p][to := q]) == Sum(YtOf, ps)
    ensures Sum(StagedOf, ps[from := p][to := q]) == Sum(StagedOf, ps)
  {
    TotalsAfter(ps, from, p);
    TotalsAfter(ps[from := p], to, q);
    ClaimMoves(ps[from], ps[to], amount, p, q);
  }

  lemma LowerClaimsKeep(v: Vault, ps: seq<Position>, qs: seq<Position>, k: nat, now: nat)
    requires Sound(v, ps, k, now) && |qs| == |ps| && Ordered(v, qs)
    requires qs[0].interest == ps[0].interest
    requires Sum(YtOf, qs) == Sum(YtOf, ps) && Sum(StagedOf, qs) == Sum(StagedOf, ps)
    requires Sum(ClaimOf, qs) <= Sum(ClaimOf, ps)
    ensures Sound(v, qs, k, now)
  {
    MulMono(Sum(ClaimOf, qs), Sum(ClaimOf, ps), v.finalRate);
  }

  /** YT only ever moves to a position whose index is at least as late. */
  lemma MoveYtKeeps(v: Vault, ps: seq<Position>, from: nat, to: nat, amount: nat, k: nat, now: nat, p: Position, q: Position)
    requires from < |ps| && to < |ps| && from != to && Sound(v, ps, k, now)
    requires DecYt(ps[from], amount) == Ok(p) && IncYt(ps[to], amount) == Ok(q)
    requires amount > 0 ==> ps[from].interest.lastSeenIndex <= ps[to].interest.lastSeenIndex <= ps[0].interest.lastSeenIndex
    ensures Sound(v, ps[from := p][to := q], k, now)
    ensures Settled(v, ps) ==> Settled(v, ps[from := p][to := q])
    ensures Sum(ClaimOf, ps[from := p][to := q]) <= Sum(ClaimOf, ps)
  {
    MovedClaim(ps, from, to, amount, p, q);
    var qs := ps[from := p][to := q];
    assert forall i :: 0 <= i < |ps| ==> qs[i].interest == ps[i].interest;
    LowerClaimsKeep(v, ps, qs, k, now);
  }

  lemma MintedClaimIsPaidFor(rate: nat, amountSy: nat, py: nat)
    requires rate > 0 && SyToPy(rate, amountSy) == Ok(py)
    ensures py * Reciprocal(rate) <= ONE * amountSy
  {
    var r := Reciprocal(rate);
    DivBounds(rate * amountSy, ONE);
    ReciprocalBounds(rate);
    calc {
      py * r * ONE;
      py * ONE * r;
    <= { MulMono(py * ONE, rate * amountSy, r); }
      rate * amountSy * r;
      r * rate * amountSy;
    <= { MulMono(r * rate, ONE * ONE, amountSy); }
      ONE * ONE * amountSy;
      ONE * amountSy * ONE;
    }
  }

  lemma MintKeeps(v: Vault, ps: seq<Position>, k: nat, now: nat, amountSy: nat, py: nat, v1: Vault, r1: Position)
    requires Sound(v, ps, k, now) && Settled(v, ps) && !InEmergency(v) && now <= Maturity(v) && v.finalRate > 0
    requires SyToPy(v.lastSeenRate, amountSy) == Ok(py) && IncYt(ps[0], py) == Ok(r1)
    requires v1 == v.(totalSyInEscrow := v.totalSyInEscrow + amountSy, ptSupply := v.ptSupply + py)
    ensures Sound(v1, ps[0 := r1], k, now) && Settled(v1, ps[0 := r1])
  {
    TotalsAfter(ps, 0, r1);
    MintedClaimIsPaidFor(v.lastSeenRate, amountSy, py);
    ClaimGrows(ps[0], py);
  }

  lemma RedeemedWithinClaim(rate: nat, amount: nat, paid: nat)
    requires rate > 0 && paid * rate <= amount * ONE
    ensures ONE * paid <= amount * Reciprocal(rate) + amount
  {
    var r := Reciprocal(rate);
    ReciprocalBounds(rate);
    calc {
      ONE * paid * rate;
      paid * rate * ONE;
    <=
      amount * ONE * ONE;
      ONE * ONE * amount;
    <= { MulMono(ONE * ONE, (r + 1) * rate, amount); }
      (r + 1) * rate * amount;
      (amount * r + amount) * rate;
    }
    CancelFactor(ONE * paid, amount * r + amount, rate);
  }

  lemma MergeActiveKeeps(v: Vault, ps: seq<Position>, k: nat, now: nat, amount: nat, paid: nat, v1: Vault, r1: Position)
    requires Sound(v, ps, k, now) && Settled(v, ps) && !InEmergency(v) && now <= Maturity(v) && v.finalRate > 0
    requires DecYt(ps[0], amount) == Ok(r1)
    requires paid * v.lastSeenRate <= amount * ONE
    requires paid <= v.totalSyInEscrow && amount <= v.ptSupply
    requires v1 == v.(totalSyInEscrow := v.totalSyInEscrow - paid, ptSupply := v.ptSupply - amount)
    ensures Sound(v1, ps[0 := r1], k + amount, now) && Settled(v1, ps[0 := r1])
  {
    TotalsAfter(ps, 0, r1);
    RedeemedWithinClaim(v.lastSeenRate, amount, paid);
    ClaimGrows(r1, amount);
  }

  lemma MergeMaturedKeeps(v: Vault, ps: seq<Position>, k: nat, now: nat, amount: nat, paid: nat, v1: Vault)
    requires Sound(v, ps, k, now) && now > Maturity(v)
    requires paid * v.lastSeenRate <= amount * ONE
    requires paid <= v.totalSyInEscrow && amount <= v.ptSupply
    requires v1 == v.(totalSyInEscrow := v.totalSyInEscrow - paid, ptSupply := v.ptSupply - amount)
    ensures Sound(v1, ps, k, now)
  {
    WorthOfPaying(Free(v), paid, v.lastSeenRate, v.finalRate);
    assert Free(v1) == Free(v) - paid;
  }

  lemma PayStagedKeeps(v: Vault, ps: seq<Position>, i: nat, k: nat, now: nat, amount: nat, v1: Vault, p1: Position)
    requires i < |ps| && Sound(v, ps, k, now)
    requires PayStaged(v, ps[i], amount) == Ok((v1, p1))
    ensures Sound(v1, ps[i := p1], k, now)
    ensures Settled(v, ps) ==> Settled(v1, ps[i := p1])
    ensures SetAside(v, k) ==> SetAside(v1, k)
    ensures v1 == v.(totalSyInEscrow := v1.totalSyInEscrow, uncollectedSy := v1.uncollectedSy)
  {
    TotalsAfter(ps, i, p1);
    assert Free(v1) == Free(v);
  }

  // ---------- time passing ----------

  lemma TimePasses(w: World, now: nat)
    requires Invariant(w) && now >= w.clock
    requires now > Maturity(w.vault) ==> !InEmergency(w.vault)
    ensures Sound(w.vault, w.positions, w.mergedPy, now)
  {
    var v := w.vault;
    if w.clock <= Maturity(v) < now {
      var f, claims := v.finalRate, Sum(ClaimOf, w.positions);
      assert claims <= ONE * Free(v) + w.mergedPy;
      MulMono(claims, ONE * Free(v) + w.mergedPy, f);
      assert (ONE * Free(v) + w.mergedPy) * f == ONE * (Free(v) * f) + f * w.mergedPy;
    }
  }

  /** Before the start, or with no final rate on record, a refresh never commits. */
  lemma RefreshNeedsStart(w: World, now: nat, sy: SyState)
    requires Invariant(w) && now >= w.clock
    requires UpdateVaultYield(w.vault, w.positions[0], now, sy).Ok?
    ensures w.vault.startTs <= now
  {
    var v0 := UpdateFromSyState(w.vault, sy, now).value;
    var swept := UpdateFrame(w.vault, sy, now, v0);
    var (v1, r1) := Earn(v0, w.positions[0]).value;
    var a, e := EarnEffect(v0, w.positions[0], v1, r1);
  }
}
