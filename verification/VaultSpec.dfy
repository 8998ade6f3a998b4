/** The vault, its yield positions and the instruction bodies, as functions on snapshots.
    `Reverted` means the transaction is undone. Module VaultProgram performs the same
    instructions step by step on mutable accounts and is proved against these functions. */
module VaultSpec {
  import opened Outcome
  import opened FixedPoint

  /** An index seen by one position, and what it may withdraw. */
  datatype Tracker = Tracker(lastSeenIndex: nat, staged: nat)

  datatype Position = Position(ytBalance: nat, interest: Tracker, emissions: seq<Tracker>)

  datatype EmissionInfo = EmissionInfo(lastSeenIndex: nat, finalIndex: nat, treasuryEmission: nat)

  /** What the SY program reports when asked. */
  datatype SyState = SyState(exchangeRate: nat, emissionIndexes: seq<nat>)

  datatype Vault = Vault(
    startTs: nat,
    duration: nat,
    lastSeenRate: nat,
    allTimeHigh: nat,
    finalRate: nat,
    totalSyInEscrow: nat,
    syForPt: nat,
    ptSupply: nat,
    treasurySy: nat,
    uncollectedSy: nat,
    interestBpsFee: nat,
    maxPySupply: nat,
    emissions: seq<EmissionInfo>)

  // ---------- phases ----------

  function Maturity(v: Vault): nat {
    v.startTs + v.duration
  }

  predicate IsExpired(v: Vault, now: nat) {
    now > Maturity(v)
  }

  predicate IsActive(v: Vault, now: nat) {
    v.startTs <= now && !IsExpired(v, now)
  }

  predicate InEmergency(v: Vault) {
    v.allTimeHigh > v.lastSeenRate
  }

  // ---------- conversions ----------

  function PyToSy(rate: nat, amount: nat): Result<nat> {
    if rate == 0 then Reverted(DivisionByZero) else ToU64(DivFloor(amount, rate))
  }

  function SyToPy(rate: nat, amount: nat): Result<nat> {
    ToU64(MulFloor(rate, amount))
  }

  function ShareValue(lastIndex: nat, index: nat, shares: nat): Result<nat> {
    if index <= lastIndex then Ok(0) else ToU64(MulFloor(index - lastIndex, shares))
  }

  // ---------- SY set aside ----------

  /** Neither the treasury's nor the YT holders'; an underflow counts as nothing. */
  function ActiveSy(v: Vault): nat {
    if v.treasurySy + v.uncollectedSy <= v.totalSyInEscrow
    then v.totalSyInEscrow - v.treasurySy - v.uncollectedSy
    else 0
  }

  function SyBackingForPt(rate: nat, ptSupply: nat, syInEscrow: nat): Result<nat> {
    if rate == 0 then Ok(0)
    else
      var normal :- ToU64(DivFloor(ptSupply, rate));
      Ok(if normal <= syInEscrow then normal else syInEscrow)
  }

  function SetSyForPt(v: Vault): Result<Vault> {
    var backing :- SyBackingForPt(v.lastSeenRate, v.ptSupply, ActiveSy(v));
    Ok(v.(syForPt := backing))
  }

  // ---------- refreshing from the SY program ----------

  function SyAppreciation(lastRate: nat, rate: nat, balance: nat): Result<nat> {
    if rate <= lastRate then Ok(0)
    else ToU64(Quotient((rate - lastRate) * balance, rate) / ONE)
  }

  /** After maturity, appreciation above the all-time high goes to the treasury. */
  function SweepSy(v: Vault, rate: nat, now: nat): Result<Vault> {
    if IsExpired(v, now) && rate > v.allTimeHigh then
      var surplus :- SyAppreciation(v.lastSeenRate, rate, ActiveSy(v));
      var treasury :- CheckedAdd(v.treasurySy, surplus);
      Ok(v.(treasurySy := treasury))
    else Ok(v)
  }

  function SweepEmission(e: EmissionInfo, index: nat, escrow: nat): Result<EmissionInfo> {
    var surplus :- ShareValue(e.lastSeenIndex, index, escrow);
    var treasury :- CheckedAdd(e.treasuryEmission, surplus);
    Ok(e.(treasuryEmission := treasury))
  }

  /** The first `n` streams swept to the treasury, the rest as they were. */
  function SweepEmissions(es: seq<EmissionInfo>, indexes: seq<nat>, escrow: nat, n: nat): (r: Result<seq<EmissionInfo>>)
    requires n <= |es| && n <= |indexes|
    ensures r.Ok? ==> |r.value| == |es|
    ensures r.Ok? ==> forall k :: n <= k < |es| ==> r.value[k] == es[k]
    ensures r.Ok? ==> forall k :: 0 <= k < n ==> SweepEmission(es[k], indexes[k], escrow) == Ok(r.value[k])
  {
    if n == 0 then Ok(es)
    else
      var before :- SweepEmissions(es, indexes, escrow, n - 1);
      var e :- SweepEmission(es[n - 1], indexes[n - 1], escrow);
      Ok(before[n - 1 := e])
  }

  function SweptStreams(v: Vault, sy: SyState): nat {
    if |v.emissions| <= |sy.emissionIndexes| then |v.emissions| else |sy.emissionIndexes|
  }

  function SweepAllEmissions(v: Vault, sy: SyState, now: nat): Result<Vault> {
    if IsExpired(v, now) then
      var es :- SweepEmissions(v.emissions, sy.emissionIndexes, v.totalSyInEscrow, SweptStreams(v, sy));
      Ok(v.(emissions := es))
    else Ok(v)
  }

  function RecordIndex(e: EmissionInfo, index: nat, active: bool): EmissionInfo {
    e.(lastSeenIndex := index, finalIndex := if active then index else e.finalIndex)
  }

  function RecordIndexes(es: seq<EmissionInfo>, indexes: seq<nat>, active: bool): (r: seq<EmissionInfo>)
    ensures |r| == |es|
    ensures forall k :: 0 <= k < |es| ==>
      r[k] == if k < |indexes| then RecordIndex(es[k], indexes[k], active) else es[k]
  {
    seq(|es|, k requires 0 <= k < |es| =>
      if k < |indexes| then RecordIndex(es[k], indexes[k], active) else es[k])
  }

  function RecordRates(v: Vault, rate: nat, now: nat): Vault {
    v.(lastSeenRate := rate,
       allTimeHigh := if rate >= v.allTimeHigh then rate else v.allTimeHigh,
       finalRate := if IsActive(v, now) then rate else v.finalRate)
  }

  function UpdateFromSyState(v: Vault, sy: SyState, now: nat): Result<Vault> {
    if Maturity(v) > U32_MAX then Reverted(Overflow)
    else
      var v1 :- SweepSy(v, sy.exchangeRate, now);
      var v2 :- SweepAllEmissions(v1, sy, now);
      var v3 := RecordRates(v2, sy.exchangeRate, now);
      if |sy.emissionIndexes| > |v3.emissions| then Reverted(MissingEmission)
      else SetSyForPt(v3.(emissions := RecordIndexes(v3.emissions, sy.emissionIndexes, IsActive(v, now))))
  }

  // ---------- earning ----------

  function CalcEarnedSy(ytBalance: nat, lastIndex: nat, rate: nat): Result<nat> {
    if lastIndex >= rate || ytBalance == 0 || lastIndex == 0 then Ok(0)
    else
      ReciprocalAntitone(lastIndex, rate);
      ToU64(MulFloor(Reciprocal(lastIndex) - Reciprocal(rate), ytBalance))
  }

  /** Interest is priced at the final rate; once SY is worth more, it takes less SY to pay it. */
  function ScaleToCurrentRate(amount: nat, finalRate: nat, currentRate: nat): Result<nat> {
    if currentRate <= finalRate then Ok(amount)
    else ToU64(MulFloor(Quotient(finalRate, currentRate), amount))
  }

  function EarnedInterest(v: Vault, p: Position): Result<nat> {
    var atFinal :- CalcEarnedSy(p.ytBalance, p.interest.lastSeenIndex, v.finalRate);
    ScaleToCurrentRate(atFinal, v.finalRate, v.lastSeenRate)
  }

  function EarnSyInterest(v: Vault, p: Position): Result<(Vault, Position)> {
    if InEmergency(v) then Ok((v, p))
    else
      var earned :- EarnedInterest(v, p);
      var staged :- CheckedAdd(p.interest.staged, earned);
      var uncollected :- CheckedAdd(v.uncollectedSy, earned);
      Ok((v.(uncollectedSy := uncollected), p.(interest := Tracker(v.finalRate, staged))))
  }

  function EnsureTrackers(ts: seq<Tracker>, n: nat): (r: seq<Tracker>)
    ensures |r| >= n && ts <= r
    ensures |ts| >= n ==> r == ts
    ensures forall k :: |ts| <= k < |r| ==> r[k] == Tracker(0, 0)
    decreases n - |ts|
  {
    if |ts| >= n then ts else EnsureTrackers(ts + [Tracker(0, 0)], n)
  }

  function EarnTracker(t: Tracker, e: EmissionInfo, balance: nat): Result<Tracker> {
    var earned :- ShareValue(t.lastSeenIndex, e.finalIndex, balance);
    var staged :- CheckedAdd(t.staged, earned);
    Ok(Tracker(e.finalIndex, staged))
  }

  /** The first `n` trackers brought up to their streams' final indexes. */
  function EarnTrackers(ts: seq<Tracker>, es: seq<EmissionInfo>, balance: nat, n: nat): (r: Result<seq<Tracker>>)
    requires n <= |es| && n <= |ts|
    ensures r.Ok? ==> |r.value| == |ts|
    ensures r.Ok? ==> forall k :: n <= k < |ts| ==> r.value[k] == ts[k]
    ensures r.Ok? ==> forall k :: 0 <= k < n ==> EarnTracker(ts[k], es[k], balance) == Ok(r.value[k])
  {
    if n == 0 then Ok(ts)
    else
      var before :- EarnTrackers(ts, es, balance, n - 1);
      var t :- EarnTracker(ts[n - 1], es[n - 1], balance);
      Ok(before[n - 1 := t])
  }

  /** The SY a position stands for: what it may collect, plus its YT at the final rate. */
  function TotalSyBalance(v: Vault, p: Position): Result<nat> {
    var sy :- PyToSy(v.finalRate, p.ytBalance);
    CheckedAdd(p.interest.staged, sy)
  }

  function EarnEmissions(v: Vault, p: Position): Result<Position>
    requires |p.emissions| >= |v.emissions|
  {
    var balance :- TotalSyBalance(v, p);
    var ts :- EarnTrackers(p.emissions, v.emissions, balance, |v.emissions|);
    Ok(p.(emissions := ts))
  }

  function Earn(v: Vault, p: Position): Result<(Vault, Position)> {
    var q := p.(emissions := EnsureTrackers(p.emissions, |v.emissions|));
    var (v1, p1) :- EarnSyInterest(v, q);
    var p2 :- EarnEmissions(v1, p1);
    Ok((v1, p2))
  }

  function UpdateVaultYield(v: Vault, robot: Position, now: nat, sy: SyState): Result<(Vault, Position)> {
    var v1 :- UpdateFromSyState(v, sy, now);
    Earn(v1, robot)
  }

  // ---------- instruction bodies ----------

  function IncYt(p: Position, amount: nat): Result<Position> {
    var balance :- CheckedAdd(p.ytBalance, amount);
    Ok(p.(ytBalance := balance))
  }

  function DecYt(p: Position, amount: nat): Result<Position> {
    var balance :- CheckedSub(p.ytBalance, amount);
    Ok(p.(ytBalance := balance))
  }

  function IncPtSupply(v: Vault, amount: nat): Result<Vault> {
    var supply :- CheckedAdd(v.ptSupply, amount);
    if supply > v.maxPySupply then Reverted(SupplyCapExceeded) else Ok(v.(ptSupply := supply))
  }

  function HandleStrip(v: Vault, robot: Position, now: nat, sy: SyState, amountSy: nat): Result<(Vault, Position, nat)> {
    var (v1, r1) :- UpdateVaultYield(v, robot, now, sy);
    if InEmergency(v1) then Reverted(VaultInEmergencyMode)
    else
      var amountPy :- SyToPy(v1.lastSeenRate, amountSy);
      var escrow :- CheckedAdd(v1.totalSyInEscrow, amountSy);
      var v2 :- IncPtSupply(v1.(totalSyInEscrow := escrow), amountPy);
      var r2 :- IncYt(r1, amountPy);
      var v3 :- SetSyForPt(v2);
      Ok((v3, r2, amountPy))
  }

  /** What `amount` of PT redeems for: its share of the SY set aside. */
  function RedemptionAmount(v: Vault, amount: nat): Result<nat> {
    ToU64(MulFloor(Ratio(v.syForPt, v.ptSupply), amount))
  }

  function HandleMerge(v: Vault, robot: Position, now: nat, sy: SyState, amountPy: nat): Result<(Vault, Position, nat)> {
    var (v1, r1) :- UpdateVaultYield(v, robot, now, sy);
    if InEmergency(v1) then Reverted(VaultInEmergencyMode)
    else
      var r2 :- if IsActive(v1, now) then DecYt(r1, amountPy) else Ok(r1);
      var amountSy :- RedemptionAmount(v1, amountPy);
      var escrow :- CheckedSub(v1.totalSyInEscrow, amountSy);
      var supply :- CheckedSub(v1.ptSupply, amountPy);
      var v2 :- SetSyForPt(v1.(totalSyInEscrow := escrow, ptSupply := supply));
      Ok((v2, r2, amountSy))
  }

  function HandleDepositYt(v: Vault, robot: Position, user: Position, sy: SyState, now: nat, amount: nat)
    : Result<(Vault, Position, Position)>
  {
    var (v1, r1) :- UpdateVaultYield(v, robot, now, sy);
    if InEmergency(v1) then Reverted(VaultInEmergencyMode)
    else
      var (v2, u1) :- Earn(v1, user);
      var u2 :- IncYt(u1, amount);
      var r2 :- DecYt(r1, amount);
      var v3 :- SetSyForPt(v2);
      Ok((v3, r2, u2))
  }

  /** The one refreshing instruction that an emergency does not stop. */
  function HandleWithdrawYt(v: Vault, robot: Position, user: Position, sy: SyState, now: nat, amount: nat)
    : Result<(Vault, Position, Position)>
  {
    var (v1, r1) :- UpdateVaultYield(v, robot, now, sy);
    var (v2, u1) :- Earn(v1, user);
    var u2 :- DecYt(u1, amount);
    var r2 :- IncYt(r1, amount);
    var v3 :- SetSyForPt(v2);
    Ok((v3, r2, u2))
  }

  function HandleStageYield(v: Vault, robot: Position, user: Position, sy: SyState, now: nat)
    : Result<(Vault, Position, Position)>
  {
    var (v1, r1) :- UpdateVaultYield(v, robot, now, sy);
    if InEmergency(v1) then Reverted(VaultInEmergencyMode)
    else
      var (v2, u1) :- Earn(v1, user);
      var v3 :- SetSyForPt(v2);
      Ok((v3, r1, u1))
  }

  /** The owner's part and the treasury's fee, rounded up and cast to u64. */
  function SplitInterest(amount: nat, bpsFee: nat): Result<(nat, nat)> {
    var fee := (amount * bpsFee + 9999) / 10000 % (U64_MAX + 1);
    var user :- CheckedSub(amount, fee);
    Ok((user, fee))
  }

  /** Take `amount` of staged SY out of a position and out of the escrow. */
  function PayStaged(v: Vault, p: Position, amount: nat): Result<(Vault, Position)> {
    var escrow :- CheckedSub(v.totalSyInEscrow, amount);
    var staged :- CheckedSub(p.interest.staged, amount);
    var uncollected :- CheckedSub(v.uncollectedSy, amount);
    Ok((v.(totalSyInEscrow := escrow, uncollectedSy := uncollected),
        p.(interest := p.interest.(staged := staged))))
  }

  function HandleCollectInterest(v: Vault, p: Position, amount: nat): Result<(Vault, Position, nat, nat)> {
    var (user, fee) :- SplitInterest(amount, v.interestBpsFee);
    var (v1, p1) :- PayStaged(v, p, amount);
    Ok((v1, p1, user, fee))
  }

  /** The whole instruction: `amount` is checked against what was staged before earning, and the
      vault is not refreshed. */
  function CollectInterest(v: Vault, p: Position, amount: nat): Result<(Vault, Position, nat, nat)> {
    if amount > p.interest.staged then Reverted(AmountTooLarge)
    else
      var (v1, p1) :- Earn(v, p);
      HandleCollectInterest(v1, p1, amount)
  }

  function CollectStagedEmission(p: Position, k: nat, amount: nat): Result<Position> {
    if k >= |p.emissions| then Reverted(MissingEmission)
    else if amount > p.emissions[k].staged then Reverted(AmountTooLarge)
    else Ok(p.(emissions := p.emissions[k := p.emissions[k].(staged := p.emissions[k].staged - amount)]))
  }

  function CollectTreasurySy(v: Vault, amount: nat): Result<Vault> {
    if amount > v.treasurySy then Reverted(AmountTooLarge)
    else
      var escrow :- CheckedSub(v.totalSyInEscrow, amount);
      Ok(v.(treasurySy := v.treasurySy - amount, totalSyInEscrow := escrow))
  }

  function CollectTreasuryEmission(v: Vault, k: nat, amount: nat): Result<Vault> {
    if k >= |v.emissions| then Reverted(MissingEmission)
    else if amount > v.emissions[k].treasuryEmission then Reverted(AmountTooLarge)
    else Ok(v.(emissions := v.emissions[k :=
        v.emissions[k].(treasuryEmission := v.emissions[k].treasuryEmission - amount)]))
  }

  /** A stream starts at whatever index the SY program reports for it. */
  function AddEmission(v: Vault, sy: SyState): Result<Vault> {
    if |v.emissions| >= |sy.emissionIndexes| then Reverted(MissingEmission)
    else
      var index := sy.emissionIndexes[|v.emissions|];
      Ok(v.(emissions := v.emissions + [EmissionInfo(index, index, 0)]))
  }
}
