/** Emission streams over a run. A position earns on the SY it stands for, its staged interest
    plus its YT at the final rate, and it earns lazily; nothing in the code compares the credits
    with what the stream paid the vault. They never exceed it while rates do not fall and a
    stream is registered at index zero or before anyone holds YT. In a dip the same YT stands for
    more SY: what is pending is then priced at the depressed rate, and a dip is harmless when that
    price fits. An index that falls credits nobody and costs nothing: the budget counts its rises. */
module VaultEmissions {
  import opened Outcome
  import opened FixedPoint
  import opened Sums
  import opened VaultSpec
  import opened VaultInvariant
  import opened VaultPreservation

  /** A position's part of the escrow, scaled by 10^12: what it has staged and what its YT may
      still claim, with one last place per YT for the reciprocal. Settling never raises it. */
  function ShareOf(p: Position): nat {
    ONE * p.interest.staged + ClaimOf(p) + p.ytBalance
  }

  /** A missing tracker counts from index zero, which is where it will be created. */
  function TrackerAt(p: Position, k: nat): Tracker {
    if k < |p.emissions| then p.emissions[k] else Tracker(0, 0)
  }

  function StagedEmission(k: nat): Position -> nat {
    (p: Position) => TrackerAt(p, k).staged
  }

  /** The SY a position earns on. */
  function Balance(p: Position, f: nat): nat {
    p.interest.staged + if f == 0 then 0 else DivFloor(p.ytBalance, f)
  }

  /** What a position may be credited on: its share, or in a dip its balance at the depressed rate. */
  datatype Pricing = AtShare | InDip(rate: nat)

  function PricingOf(v: Vault): Pricing {
    if InEmergency(v) then InDip(v.finalRate) else AtShare
  }

  function ShareUnder(m: Pricing, p: Position): nat {
    match m
    case AtShare => ShareOf(p)
    case InDip(f) => ONE * Balance(p, f)
  }

  /** What settling stream `k` at index `x` could still credit, scaled by 10^24. */
  function PendingAt(m: Pricing, p: Position, k: nat, x: nat): nat {
    if TrackerAt(p, k).lastSeenIndex <= x
    then (x - TrackerAt(p, k).lastSeenIndex) * ShareUnder(m, p)
    else 0
  }

  function Pending(m: Pricing, k: nat, x: nat): Position -> nat {
    (p: Position) => PendingAt(m, p, k, x)
  }

  predicate Tracked(v: Vault, ps: seq<Position>) {
    forall i :: 0 <= i < |ps| ==> |ps[i].emissions| <= |v.emissions|
  }

  /** Everything staged, swept or paid for stream `k`, and everything still to be credited, is
      within `budget`, scaled by 10^24. */
  predicate Conserved(v: Vault, ps: seq<Position>, k: nat, paid: nat, budget: nat) {
    && k < |v.emissions|
    && Tracked(v, ps)
    && ONE * ONE * (Sum(StagedEmission(k), ps) + v.emissions[k].treasuryEmission + paid)
         + Sum(Pending(PricingOf(v), k, v.emissions[k].finalIndex), ps) <= budget
  }

  // ---------- one account changing ----------

  lemma StreamTotalsAfter(m: Pricing, ps: seq<Position>, i: nat, p: Position, k: nat, x: nat)
    requires i < |ps|
    ensures Sum(StagedEmission(k), ps[i := p]) + TrackerAt(ps[i], k).staged == Sum(StagedEmission(k), ps) + TrackerAt(p, k).staged
    ensures Sum(Pending(m, k, x), ps[i := p]) + PendingAt(m, ps[i], k, x) == Sum(Pending(m, k, x), ps) + PendingAt(m, p, k, x)
  {
    SumUpdate(StagedEmission(k), ps, i, p);
    SumUpdate(Pending(m, k, x), ps, i, p);
  }

  lemma SamePricing(v: Vault, v1: Vault, ps: seq<Position>, k: nat, paid: nat, budget: nat)
    requires Conserved(v, ps, k, paid, budget) && v1.emissions == v.emissions && PricingOf(v1) == PricingOf(v)
    ensures Conserved(v1, ps, k, paid, budget)
  {
  }

  /** Replacing a position by one whose credit is paid for out of what it had pending. */
  lemma ReplaceConserves(v: Vault, ps: seq<Position>, i: nat, p: Position, k: nat, paid: nat, budget: nat)
    requires i < |ps| && Conserved(v, ps, k, paid, budget)
    requires |p.emissions| <= |v.emissions|
    requires
      var m, x := PricingOf(v), v.emissions[k].finalIndex;
      ONE * ONE * TrackerAt(p, k).staged + PendingAt(m, p, k, x)
        <= ONE * ONE * TrackerAt(ps[i], k).staged + PendingAt(m, ps[i], k, x)
    ensures Conserved(v, ps[i := p], k, paid, budget)
  {
    StreamTotalsAfter(PricingOf(v), ps, i, p, k, v.emissions[k].finalIndex);
  }

  /** Once caught up, a position may gain or lose YT. */
  lemma CaughtUpMayChange(v: Vault, ps: seq<Position>, i: nat, p: Position, k: nat, paid: nat, budget: nat)
    requires i < |ps| && Conserved(v, ps, k, paid, budget)
    requires p.emissions == ps[i].emissions
    requires TrackerAt(ps[i], k).lastSeenIndex == v.emissions[k].finalIndex
    ensures Conserved(v, ps[i := p], k, paid, budget)
  {
    ReplaceConserves(v, ps, i, p, k, paid, budget);
  }

  // ---------- refreshing ----------

  lemma PendingRises(ps: seq<Position>, k: nat, x: nat, y: nat)
    requires x <= y
    ensures Sum(Pending(AtShare, k, y), ps) <= Sum(Pending(AtShare, k, x), ps) + (y - x) * Sum(ShareOf, ps)
  {
    forall i | 0 <= i < |ps|
      ensures Pending(AtShare, k, y)(ps[i]) <= Pending(AtShare, k, x)(ps[i]) + (y - x) * ShareOf(ps[i])
    {
      PendingOfOneMoves(ps[i], k, x, y);
    }
    SumAtMostPlus(Pending(AtShare, k, y), Pending(AtShare, k, x), y - x, ShareOf, ps);
  }

  lemma PendingFalls(ps: seq<Position>, k: nat, x: nat, y: nat)
    requires y <= x
    ensures Sum(Pending(AtShare, k, y), ps) <= Sum(Pending(AtShare, k, x), ps)
  {
    forall i | 0 <= i < |ps|
      ensures Pending(AtShare, k, y)(ps[i]) <= Pending(AtShare, k, x)(ps[i]) + 0 * ShareOf(ps[i])
    {
      PendingOfOneMoves(ps[i], k, x, y);
    }
    SumAtMostPlus(Pending(AtShare, k, y), Pending(AtShare, k, x), 0, ShareOf, ps);
  }

  lemma PendingOfOneMoves(p: Position, k: nat, x: nat, y: nat)
    ensures x <= y ==> PendingAt(AtShare, p, k, y) <= PendingAt(AtShare, p, k, x) + (y - x) * ShareOf(p)
    ensures y <= x ==> PendingAt(AtShare, p, k, y) <= PendingAt(AtShare, p, k, x)
  {
    var s, seen := ShareOf(p), TrackerAt(p, k).lastSeenIndex;
    if seen <= x <= y {
      assert (y - seen) * s == (x - seen) * s + (y - x) * s;
    } else if x < seen <= y {
      MulMono(y - seen, y - x, s);
    } else if seen <= y <= x {
      MulMono(y - seen, x - seen, s);
    }
  }

  lemma {:induction false} SharesAdd(ps: seq<Position>)
    ensures Sum(ShareOf, ps) == ONE * Sum(StagedOf, ps) + Sum(ClaimOf, ps) + Sum(YtOf, ps)
  {
    if ps != [] {
      SharesAdd(ps[1..]);
    }
  }

  /** The escrow at a refresh, scaled by 10^12, and the dust. */
  function Basis(v: Vault, ps: seq<Position>, k: nat): nat {
    ONE * v.totalSyInEscrow + Sum(YtOf, ps) + k
  }

  /** What an index moving from `last` to `x` accrues on `basis`; a fall accrues nothing. */
  function Rise(last: nat, x: nat, basis: nat): nat {
    if last <= x then (x - last) * basis else 0
  }

  /** What one refresh adds to the budget of stream `k`. */
  function Accrual(v: Vault, ps: seq<Position>, merged: nat, k: nat, sy: SyState): nat {
    if k < |v.emissions| && k < |sy.emissionIndexes|
    then Rise(v.emissions[k].lastSeenIndex, sy.emissionIndexes[k], Basis(v, ps, merged))
    else 0
  }

  lemma UpdatedStream(v: Vault, sy: SyState, now: nat, v1: Vault, k: nat)
    requires UpdateFromSyState(v, sy, now) == Ok(v1) && k < |v.emissions|
    ensures |v1.emissions| == |v.emissions|
    ensures k >= |sy.emissionIndexes| ==> v1.emissions[k] == v.emissions[k]
    ensures k < |sy.emissionIndexes| ==>
      var e, e1, x := v.emissions[k], v1.emissions[k], sy.emissionIndexes[k];
      && e1.lastSeenIndex == x
      && e1.finalIndex == (if IsActive(v, now) then x else e.finalIndex)
      && (!IsExpired(v, now) ==> e1.treasuryEmission == e.treasuryEmission)
      && (IsExpired(v, now) ==> SweepEmission(e, x, v.totalSyInEscrow) == Ok(e.(treasuryEmission := e1.treasuryEmission)))
  {
    var swept := SweepSy(v, sy.exchangeRate, now).value;
    var v2 := SweepAllEmissions(swept, sy, now).value;
    var v3 := RecordRates(v2, sy.exchangeRate, now);
    assert v1.emissions == RecordIndexes(v3.emissions, sy.emissionIndexes, IsActive(v, now));
  }

  lemma SweptWithinAccrual(lastIndex: nat, index: nat, escrow: nat, surplus: nat, dust: nat)
    requires lastIndex <= index
    requires ShareValue(lastIndex, index, escrow) == Ok(surplus)
    ensures ONE * ONE * surplus <= (index - lastIndex) * (ONE * escrow + dust)
  {
    var d := index - lastIndex;
    DivBounds(d * escrow, ONE);
    assert d * (ONE * escrow + dust) == ONE * (d * escrow) + d * dust;
  }

  lemma SharesWithinBasis(v: Vault, ps: seq<Position>, merged: nat, now: nat)
    requires Sound(v, ps, merged, now) && now <= Maturity(v)
    ensures Sum(ShareOf, ps) <= Basis(v, ps, merged)
  {
    SharesAdd(ps);
  }

  lemma RaisedIndex(v: Vault, ps: seq<Position>, v1: Vault, k: nat, paid: nat, budget: nat, x: nat, basis: nat)
    requires Conserved(v, ps, k, paid, budget) && |v1.emissions| == |v.emissions| && !InEmergency(v) && !InEmergency(v1)
    requires v.emissions[k].finalIndex <= x && Sum(ShareOf, ps) <= basis
    requires v1.emissions[k] == v.emissions[k].(lastSeenIndex := x, finalIndex := x)
    ensures Conserved(v1, ps, k, paid, budget + (x - v.emissions[k].finalIndex) * basis)
  {
    PendingRises(ps, k, v.emissions[k].finalIndex, x);
    MulMono(Sum(ShareOf, ps), basis, x - v.emissions[k].finalIndex);
  }

  /** While active an index moves for the whole escrow at once, and the shares fit in it. */
  lemma MovedIndex(v: Vault, ps: seq<Position>, v1: Vault, k: nat, paid: nat, budget: nat, x: nat, basis: nat)
    requires Conserved(v, ps, k, paid, budget) && |v1.emissions| == |v.emissions| && !InEmergency(v) && !InEmergency(v1)
    requires Sum(ShareOf, ps) <= basis
    requires v1.emissions[k] == v.emissions[k].(lastSeenIndex := x, finalIndex := x)
    ensures Conserved(v1, ps, k, paid, budget + Rise(v.emissions[k].finalIndex, x, basis))
  {
    if v.emissions[k].finalIndex <= x {
      RaisedIndex(v, ps, v1, k, paid, budget, x, basis);
    } else {
      PendingFalls(ps, k, v.emissions[k].finalIndex, x);
    }
  }

  /** After maturity the whole accrual goes to the treasury and nobody's pending moves. */
  lemma SweptIndex(v: Vault, ps: seq<Position>, v1: Vault, k: nat, paid: nat, budget: nat, x: nat, surplus: nat, dust: nat)
    requires Conserved(v, ps, k, paid, budget) && |v1.emissions| == |v.emissions| && PricingOf(v1) == PricingOf(v)
    requires ShareValue(v.emissions[k].lastSeenIndex, x, v.totalSyInEscrow) == Ok(surplus)
    requires v1.emissions[k] == v.emissions[k].(lastSeenIndex := x, treasuryEmission := v.emissions[k].treasuryEmission + surplus)
    ensures Conserved(v1, ps, k, paid, budget + Rise(v.emissions[k].lastSeenIndex, x, ONE * v.totalSyInEscrow + dust))
  {
    if v.emissions[k].lastSeenIndex <= x {
      SweptWithinAccrual(v.emissions[k].lastSeenIndex, x, v.totalSyInEscrow, surplus, dust);
    }
  }

  /** How a refresh will price what is pending, and the index it will leave, read before it. */
  function PricingAfter(v: Vault, sy: SyState, now: nat): Pricing {
    if sy.exchangeRate >= v.allTimeHigh then AtShare
    else InDip(if IsActive(v, now) then sy.exchangeRate else v.finalRate)
  }

  function IndexAfter(v: Vault, sy: SyState, now: nat, k: nat): nat
    requires k < |v.emissions|
  {
    if IsActive(v, now) && k < |sy.emissionIndexes| then sy.emissionIndexes[k] else v.emissions[k].finalIndex
  }

  /** At the new rate and index, all that is pending costs no more than before plus what the refresh
      brings in. */
  predicate PricedIn(v: Vault, ps: seq<Position>, merged: nat, now: nat, sy: SyState, k: nat)
    requires k < |v.emissions|
  {
    Sum(Pending(PricingAfter(v, sy, now), k, IndexAfter(v, sy, now, k)), ps)
      <= Sum(Pending(PricingOf(v), k, v.emissions[k].finalIndex), ps) + Accrual(v, ps, merged, k, sy)
  }

  predicate Steady(v: Vault, sy: SyState) {
    !InEmergency(v) && sy.exchangeRate >= v.allTimeHigh
  }

  lemma PricedRefresh(v: Vault, ps: seq<Position>, merged: nat, now: nat, sy: SyState, v1: Vault, k: nat, paid: nat, budget: nat)
    requires now <= Maturity(v) && v.startTs <= now && UpdateFromSyState(v, sy, now) == Ok(v1)
    requires Conserved(v, ps, k, paid, budget) && PricedIn(v, ps, merged, now, sy, k)
    ensures Conserved(v1, ps, k, paid, budget + Accrual(v, ps, merged, k, sy))
  {
    UpdatedStream(v, sy, now, v1, k);
    var swept := UpdateFrame(v, sy, now, v1);
    assert PricingOf(v1) == PricingAfter(v, sy, now);
    assert v1.emissions[k].finalIndex == IndexAfter(v, sy, now, k);
  }

  lemma SteadyRefresh(v: Vault, ps: seq<Position>, merged: nat, now: nat, sy: SyState, v1: Vault, k: nat, paid: nat, budget: nat)
    requires Sound(v, ps, merged, now) && v.startTs <= now && Steady(v, sy)
    requires UpdateFromSyState(v, sy, now) == Ok(v1)
    requires Conserved(v, ps, k, paid, budget)
    requires now <= Maturity(v) ==> v.emissions[k].finalIndex == v.emissions[k].lastSeenIndex
    ensures Conserved(v1, ps, k, paid, budget + Accrual(v, ps, merged, k, sy))
  {
    UpdatedStream(v, sy, now, v1, k);
    var swept := UpdateFrame(v, sy, now, v1);
    if k < |sy.emissionIndexes| {
      var e, x := v.emissions[k], sy.emissionIndexes[k];
      if now <= Maturity(v) {
        SharesWithinBasis(v, ps, merged, now);
        MovedIndex(v, ps, v1, k, paid, budget, x, Basis(v, ps, merged));
      } else {
        var surplus := v1.emissions[k].treasuryEmission - e.treasuryEmission;
        SweptIndex(v, ps, v1, k, paid, budget, x, surplus, Sum(YtOf, ps) + merged);
      }
    }
  }

  lemma RefreshConserves(v: Vault, ps: seq<Position>, merged: nat, now: nat, sy: SyState, v1: Vault, k: nat, paid: nat, budget: nat)
    requires Sound(v, ps, merged, now) && v.startTs <= now
    requires UpdateFromSyState(v, sy, now) == Ok(v1)
    requires now > Maturity(v) ==> !InEmergency(v1)
    requires Conserved(v, ps, k, paid, budget) && (Steady(v, sy) || PricedIn(v, ps, merged, now, sy, k))
    requires now <= Maturity(v) ==> v.emissions[k].finalIndex == v.emissions[k].lastSeenIndex
    ensures Conserved(v1, ps, k, paid, budget + Accrual(v, ps, merged, k, sy))
    ensures now <= Maturity(v) ==> v1.emissions[k].finalIndex == v1.emissions[k].lastSeenIndex
  {
    UpdatedStream(v, sy, now, v1, k);
    var swept := UpdateFrame(v, sy, now, v1);
    if now <= Maturity(v) && !Steady(v, sy) {
      PricedRefresh(v, ps, merged, now, sy, v1, k, paid, budget);
    } else {
      SteadyRefresh(v, ps, merged, now, sy, v1, k, paid, budget);
    }
  }

  // ---------- earning ----------

  lemma ScaledIsLess(amount: nat, finalRate: nat, lastRate: nat, scaled: nat)
    requires 0 < finalRate <= lastRate
    requires ScaleToCurrentRate(amount, finalRate, lastRate) == Ok(scaled)
    ensures scaled <= amount
  {
    ScalingKeepsValue(amount, finalRate, lastRate, scaled);
    MulMono(finalRate, lastRate, amount);
    CancelFactor(scaled, amount, lastRate);
  }

  lemma YtAtFinalRate(yt: nat, rate: nat)
    requires rate > 0
    ensures ONE * DivFloor(yt, rate) <= yt * Reciprocal(rate) + yt
  {
    DivBounds(yt * ONE, rate);
    RedeemedWithinClaim(rate, yt, DivFloor(yt, rate));
  }

  lemma CreditWithinPending(seen: nat, x: nat, balance: nat, share: nat, earned: nat)
    requires seen <= x
    requires ONE * balance <= share
    requires ShareValue(seen, x, balance) == Ok(earned)
    ensures ONE * ONE * earned <= (x - seen) * share
  {
    var d := x - seen;
    DivBounds(d * balance, ONE);
    MulMono(ONE * balance, share, d);
    assert d * (ONE * balance) == ONE * (d * balance);
  }

  /** The tracker of stream `k` after an earn, and the balance it was credited on. */
  lemma EarnedStream(v: Vault, p: Position, v1: Vault, p1: Position, k: nat) returns (balance: nat)
    requires Earn(v, p) == Ok((v1, p1)) && k < |v.emissions| && |p.emissions| <= |v.emissions|
    ensures |p1.emissions| == |v.emissions|
    ensures EarnTracker(TrackerAt(p, k), v.emissions[k], balance) == Ok(p1.emissions[k])
    ensures v.finalRate > 0 && balance == p1.interest.staged + DivFloor(p.ytBalance, v.finalRate)
  {
    var q := p.(emissions := EnsureTrackers(p.emissions, |v.emissions|));
    EnsuredLength(p.emissions, |v.emissions|);
    var (v2, p2) := EarnSyInterest(v, q).value;
    balance := TotalSyBalance(v2, p2).value;
    assert q.emissions[k] == TrackerAt(p, k);
  }

  lemma {:induction false} EnsuredLength(ts: seq<Tracker>, n: nat)
    requires |ts| <= n
    ensures |EnsureTrackers(ts, n)| == n
    decreases n - |ts|
  {
    if |ts| < n {
      EnsuredLength(ts + [Tracker(0, 0)], n);
    }
  }

  /** Settling interest never raises a position's share, and covers the balance it earns on. */
  lemma SettlingKeepsShare(v: Vault, p: Position, v1: Vault, p1: Position)
    requires Earn(v, p) == Ok((v1, p1)) && !InEmergency(v) && v.finalRate <= v.lastSeenRate
    requires p.ytBalance > 0 ==> 0 < p.interest.lastSeenIndex <= v.finalRate
    ensures ShareOf(p1) <= ShareOf(p)
    ensures v.finalRate > 0 && ONE * (p1.interest.staged + DivFloor(p.ytBalance, v.finalRate)) <= ShareOf(p1)
  {
    var atFinal, earned := EarnEffect(v, p, v1, p1);
    EarnedIsClaimGivenUp(p.ytBalance, p.interest.lastSeenIndex, v.finalRate, atFinal);
    ScaledIsLess(atFinal, v.finalRate, v.lastSeenRate, earned);
    YtAtFinalRate(p.ytBalance, v.finalRate);
  }

  /** What an earn credits, at full rate or in a dip, was pending. */
  lemma EarnedWithinPending(v: Vault, p: Position, v1: Vault, p1: Position, k: nat)
    requires Earn(v, p) == Ok((v1, p1)) && k < |v.emissions| && |p.emissions| <= |v.emissions|
    requires !InEmergency(v) ==>
      v.finalRate <= v.lastSeenRate && (p.ytBalance > 0 ==> 0 < p.interest.lastSeenIndex <= v.finalRate)
    ensures |p1.emissions| == |v.emissions| && TrackerAt(p1, k).lastSeenIndex == v.emissions[k].finalIndex
    ensures v1 == v.(uncollectedSy := v1.uncollectedSy)
    ensures PendingAt(PricingOf(v), p1, k, v.emissions[k].finalIndex) == 0
    ensures ONE * ONE * TrackerAt(p1, k).staged
         <= ONE * ONE * TrackerAt(p, k).staged + PendingAt(PricingOf(v), p, k, v.emissions[k].finalIndex)
  {
    var atFinal, earned := EarnEffect(v, p, v1, p1);
    var balance := EarnedStream(v, p, v1, p1, k);
    if !InEmergency(v) {
      SettlingKeepsShare(v, p, v1, p1);
    }
    var x, t, t1 := v.emissions[k].finalIndex, TrackerAt(p, k), TrackerAt(p1, k);
    if t.lastSeenIndex <= x {
      CreditWithinPending(t.lastSeenIndex, x, balance, ShareUnder(PricingOf(v), p), t1.staged - t.staged);
    }
  }

  lemma EarnConserves(v: Vault, ps: seq<Position>, i: nat, v1: Vault, p1: Position, k: nat, paid: nat, budget: nat)
    requires i < |ps| && Conserved(v, ps, k, paid, budget)
    requires Earn(v, ps[i]) == Ok((v1, p1))
    requires !InEmergency(v) ==>
      v.finalRate <= v.lastSeenRate && (ps[i].ytBalance > 0 ==> 0 < ps[i].interest.lastSeenIndex <= v.finalRate)
    ensures v1.emissions == v.emissions
    ensures Conserved(v1, ps[i := p1], k, paid, budget)
    ensures TrackerAt(p1, k).lastSeenIndex == v.emissions[k].finalIndex
  {
    EarnedWithinPending(v, ps[i], v1, p1, k);
    ReplaceConserves(v, ps, i, p1, k, paid, budget);
    SamePricing(v, v1, ps[i := p1], k, paid, budget);
  }
}
