/** How interest and the treasury's sweep depend on when the vault is looked at. */
module VaultInterest {
  import opened Outcome
  import opened FixedPoint
  import opened VaultSpec
  import opened VaultInvariant
  import opened VaultPreservation

  /** What can happen to a vault and to one position whose YT stays where it is. */
  datatype Touch = Refresh(now: nat, sy: SyState) | Settle

  function Touched(v: Vault, p: Position, t: Touch): (Vault, Position) {
    match t
    case Refresh(now, sy) =>
      (match UpdateFromSyState(v, sy, now) case Ok(v1) => (v1, p) case Reverted(_) => (v, p))
    case Settle =>
      (match Earn(v, p) case Ok(both) => both case Reverted(_) => (v, p))
  }

  function AfterTouches(v: Vault, p: Position, ts: seq<Touch>): (Vault, Position)
    decreases |ts|
  {
    if ts == [] then (v, p)
    else
      var (v1, p1) := Touched(v, p, ts[0]);
      AfterTouches(v1, p1, ts[1..])
  }

  function Settles(ts: seq<Touch>): nat {
    if ts == [] then 0 else (if ts[0].Settle? then 1 else 0) + Settles(ts[1..])
  }

  predicate WhileActive(v: Vault, ts: seq<Touch>) {
    forall i :: 0 <= i < |ts| && ts[i].Refresh? ==> IsActive(v, ts[i].now)
  }

  /** An active vault and a position that has seen an index no later than the all-time high. */
  predicate Running(v: Vault, p: Position) {
    && v.finalRate == v.lastSeenRate <= v.allTimeHigh
    && 0 < p.interest.lastSeenIndex <= v.allTimeHigh
  }

  /** What one touch credits, between the indexes before and after it. */
  lemma TouchCredits(v: Vault, p: Position, t: Touch)
    requires Running(v, p) && (t.Refresh? ==> IsActive(v, t.now))
    ensures
      var (v1, p1) := Touched(v, p, t);
      && Running(v1, p1) && Maturity(v1) == Maturity(v) && v1.startTs == v.startTs
      && p1.ytBalance == p.ytBalance
      && p.interest.lastSeenIndex <= p1.interest.lastSeenIndex
      && p1.interest.staged >= p.interest.staged
      && v1.allTimeHigh == (if t.Refresh? && UpdateFromSyState(v, t.sy, t.now).Ok? && t.sy.exchangeRate >= v.allTimeHigh
                            then t.sy.exchangeRate else v.allTimeHigh)
      && Credited(p, p1, if t.Settle? then 1 else 0)
  {
    match t
    case Refresh(now, sy) =>
      if UpdateFromSyState(v, sy, now).Ok? {
        var swept := UpdateFrame(v, sy, now, Touched(v, p, t).0);
      }
    case Settle =>
      if Earn(v, p).Ok? {
        var (v1, p1) := Earn(v, p).value;
        var atFinal, earned := EarnEffect(v, p, v1, p1);
        if !InEmergency(v) {
          EarnedWithinOne(p.ytBalance, p.interest.lastSeenIndex, v.finalRate, earned);
        }
      }
  }

  /** The SY credited on the way from `p` to `q` is the claim given up, short by less than one unit
      for each of `calls`. */
  predicate Credited(p: Position, q: Position, calls: nat) {
    var given := p.ytBalance * Reciprocal(p.interest.lastSeenIndex) - p.ytBalance * Reciprocal(q.interest.lastSeenIndex);
    var paid := q.interest.staged - p.interest.staged;
    && ONE * paid <= given <= ONE * (paid + calls)
    && (calls > 0 ==> given < ONE * (paid + calls))
  }

  lemma EarnedWithinOne(yt: nat, index: nat, rate: nat, earned: nat)
    requires 0 < index <= rate && CalcEarnedSy(yt, index, rate) == Ok(earned)
    ensures ONE * earned <= yt * Reciprocal(index) - yt * Reciprocal(rate) < ONE * earned + ONE
  {
    if yt > 0 && index < rate {
      ReciprocalAntitone(index, rate);
      var d := Reciprocal(index) - Reciprocal(rate);
      DivBounds(d * yt, ONE);
      assert d * yt == yt * Reciprocal(index) - yt * Reciprocal(rate);
    }
  }

  lemma {:induction false} TouchesCredit(v: Vault, p: Position, ts: seq<Touch>)
    requires Running(v, p) && WhileActive(v, ts)
    ensures
      var (v1, p1) := AfterTouches(v, p, ts);
      && Running(v1, p1) && p1.ytBalance == p.ytBalance
      && p.interest.lastSeenIndex <= p1.interest.lastSeenIndex
      && p1.interest.staged >= p.interest.staged
      && Credited(p, p1, Settles(ts))
    decreases |ts|
  {
    if ts != [] {
      TouchCredits(v, p, ts[0]);
      var (v1, p1) := Touched(v, p, ts[0]);
      forall i | 0 <= i < |ts[1..]| && ts[1..][i].Refresh? ensures IsActive(v1, ts[1..][i].now) {
        assert ts[1..][i] == ts[i + 1];
      }
      TouchesCredit(v1, p1, ts[1..]);
    }
  }

  /** Interest is path independent while the vault is active: however often it is refreshed and
      the position settled, dips included, the SY credited is at most what one settlement from the
      first index to the last would give, and falls short by less than one unit per settlement. */
  lemma InterestIsPathIndependent(v: Vault, p: Position, ts: seq<Touch>, once: nat)
    requires Running(v, p) && WhileActive(v, ts)
    requires CalcEarnedSy(p.ytBalance, p.interest.lastSeenIndex, AfterTouches(v, p, ts).1.interest.lastSeenIndex) == Ok(once)
    ensures
      var paid := AfterTouches(v, p, ts).1.interest.staged - p.interest.staged;
      && paid <= once
      && (Settles(ts) > 0 ==> once < paid + Settles(ts))
      && (Settles(ts) == 0 ==> once == paid)
  {
    TouchesCredit(v, p, ts);
    var q := AfterTouches(v, p, ts).1;
    EarnedWithinOne(p.ytBalance, p.interest.lastSeenIndex, q.interest.lastSeenIndex, once);
    OnceAgainstMany(p.ytBalance * Reciprocal(p.interest.lastSeenIndex) - p.ytBalance * Reciprocal(q.interest.lastSeenIndex),
      once, q.interest.staged - p.interest.staged, Settles(ts));
  }

  lemma OnceAgainstMany(given: int, once: nat, paid: nat, calls: nat)
    requires ONE * once <= given < ONE * once + ONE
    requires ONE * paid <= given <= ONE * (paid + calls)
    requires calls > 0 ==> given < ONE * (paid + calls)
    ensures paid <= once <= paid + calls
    ensures calls > 0 ==> once < paid + calls
  {
  }

  /** A fall and a recovery that stay at or below the all-time high credit nothing to a position
      that has seen it. */
  lemma {:induction false} RecoveryCreditsNothing(v: Vault, p: Position, ts: seq<Touch>)
    requires Running(v, p) && WhileActive(v, ts)
    requires p.interest.lastSeenIndex == v.allTimeHigh
    requires forall i :: 0 <= i < |ts| && ts[i].Refresh? ==> ts[i].sy.exchangeRate <= v.allTimeHigh
    ensures AfterTouches(v, p, ts).1.interest == p.interest
    decreases |ts|
  {
    if ts != [] {
      TouchCredits(v, p, ts[0]);
      var (v1, p1) := Touched(v, p, ts[0]);
      assert v1.allTimeHigh == v.allTimeHigh;
      forall i | 0 <= i < |ts[1..]| && ts[1..][i].Refresh?
        ensures IsActive(v1, ts[1..][i].now) && ts[1..][i].sy.exchangeRate <= v1.allTimeHigh
      {
        assert ts[1..][i] == ts[i + 1];
      }
      RecoveryCreditsNothing(v1, p1, ts[1..]);
    }
  }

  // ---------- the sweep after maturity ----------

  function AfterRefreshes(v: Vault, rs: seq<(nat, SyState)>): Result<Vault>
    decreases |rs|
  {
    if rs == [] then Ok(v)
    else
      var v1 :- UpdateFromSyState(v, rs[0].1, rs[0].0);
      AfterRefreshes(v1, rs[1..])
  }

  function RateTotal(rs: seq<(nat, SyState)>): nat {
    if rs == [] then 0 else rs[0].1.exchangeRate + RateTotal(rs[1..])
  }

  /** Each refresh comes after maturity with a rate above every one before it. */
  predicate Climbing(maturity: nat, high: nat, rs: seq<(nat, SyState)>)
    decreases |rs|
  {
    rs != [] ==> rs[0].0 > maturity && rs[0].1.exchangeRate > high && Climbing(maturity, rs[0].1.exchangeRate, rs[1..])
  }

  /** The sweep of post-maturity appreciation to the treasury leaves the value of the rest: over any
      climb it never falls, and grows by less than one SY unit's value per refresh. */
  lemma {:induction false} SweepsKeepValue(v: Vault, rs: seq<(nat, SyState)>, v1: Vault)
    requires v.treasurySy + v.uncollectedSy <= v.totalSyInEscrow && v.lastSeenRate <= v.allTimeHigh
    requires Climbing(Maturity(v), v.allTimeHigh, rs)
    requires AfterRefreshes(v, rs) == Ok(v1)
    ensures ActiveSy(v) * v.lastSeenRate <= ActiveSy(v1) * v1.lastSeenRate
    ensures ActiveSy(v1) * v1.lastSeenRate <= ActiveSy(v) * v.lastSeenRate + RateTotal(rs)
    ensures rs != [] ==> ActiveSy(v1) * v1.lastSeenRate < ActiveSy(v) * v.lastSeenRate + RateTotal(rs)
    decreases |rs|
  {
    if rs != [] {
      var (now, sy) := rs[0];
      var v0 := UpdateFromSyState(v, sy, now).value;
      var swept := UpdateFrame(v, sy, now, v0);
      SweepKeepsWorth(ActiveSy(v), v.lastSeenRate, sy.exchangeRate, swept.treasurySy - v.treasurySy);
      assert ActiveSy(v0) == ActiveSy(v) - (swept.treasurySy - v.treasurySy);
      SweepsKeepValue(v0, rs[1..], v1);
    }
  }
}
