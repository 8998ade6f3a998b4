/** Rewards for staked LP tokens, as functions on snapshots: a per-share index for every market
    emission and every farm, and lazily settled trackers in each position. */
module LpSpec {
  import opened Outcome
  import opened FixedPoint

  datatype YieldTracker = YieldTracker(lastSeenIndex: nat, staged: nat)

  datatype LpPosition = LpPosition(lpBalance: nat, emissions: seq<YieldTracker>, farms: seq<YieldTracker>)

  datatype MarketEmission = MarketEmission(lpShareIndex: nat, lastSeenStaged: nat)

  datatype Farm = Farm(mint: nat, tokenRate: nat, expiryTs: nat, index: nat)

  datatype LpMarket = LpMarket(
    lpEscrowAmount: nat,
    emissions: seq<MarketEmission>,
    farmsSeenTs: nat,
    farms: seq<Farm>)

  // ---------- market emissions ----------

  /** What the SY program now owes the market on a stream, shared out over the staked LP. */
  function SyncEmission(e: MarketEmission, claimable: nat, lpStaked: nat): Result<MarketEmission> {
    var difference :- CheckedSub(claimable, e.lastSeenStaged);
    Ok(MarketEmission(e.lpShareIndex + Ratio(difference, lpStaked), claimable))
  }

  function SyncEmissions(es: seq<MarketEmission>, claimable: seq<nat>, lpStaked: nat, n: nat): (r: Result<seq<MarketEmission>>)
    requires n <= |es| && n <= |claimable|
    ensures r.Ok? ==> |r.value| == |es|
    ensures r.Ok? ==> forall k :: n <= k < |es| ==> r.value[k] == es[k]
    ensures r.Ok? ==> forall k :: 0 <= k < n ==> SyncEmission(es[k], claimable[k], lpStaked) == Ok(r.value[k])
  {
    if n == 0 then Ok(es)
    else
      var before :- SyncEmissions(es, claimable, lpStaked, n - 1);
      var e :- SyncEmission(es[n - 1], claimable[n - 1], lpStaked);
      Ok(before[n - 1 := e])
  }

  /** A claimable amount for a stream the market does not know is out of range. */
  function SyncAllEmissions(m: LpMarket, claimable: seq<nat>): Result<LpMarket> {
    if |claimable| > |m.emissions| then Reverted(MissingEmission)
    else
      var es :- SyncEmissions(m.emissions, claimable, m.lpEscrowAmount, |claimable|);
      Ok(m.(emissions := es))
  }

  // ---------- farms ----------

  /** Seconds of emission between two looks at a farm, none of them after its expiry. */
  function DeltaTimeFarm(expiryTs: nat, lastSeenTs: nat, currentTs: nat): nat {
    if lastSeenTs >= Min(expiryTs, currentTs) then 0 else Min(expiryTs, currentTs) - lastSeenTs
  }

  function TokensEmitted(f: Farm, lastSeenTs: nat, currentTs: nat): nat {
    f.tokenRate * DeltaTimeFarm(f.expiryTs, lastSeenTs, currentTs)
  }

  function SyncFarm(f: Farm, lastSeenTs: nat, currentTs: nat, lpStaked: nat): Result<Farm> {
    var tokens :- ToU64(TokensEmitted(f, lastSeenTs, currentTs));
    Ok(f.(index := f.index + Ratio(tokens, lpStaked)))
  }

  function SyncFarms(fs: seq<Farm>, lastSeenTs: nat, currentTs: nat, lpStaked: nat, n: nat): (r: Result<seq<Farm>>)
    requires n <= |fs|
    ensures r.Ok? ==> |r.value| == |fs|
    ensures r.Ok? ==> forall k :: n <= k < |fs| ==> r.value[k] == fs[k]
    ensures r.Ok? ==> forall k :: 0 <= k < n ==> SyncFarm(fs[k], lastSeenTs, currentTs, lpStaked) == Ok(r.value[k])
  {
    if n == 0 then Ok(fs)
    else
      var before :- SyncFarms(fs, lastSeenTs, currentTs, lpStaked, n - 1);
      var f :- SyncFarm(fs[n - 1], lastSeenTs, currentTs, lpStaked);
      Ok(before[n - 1 := f])
  }

  function IncreaseShareIndexes(m: LpMarket, now: nat): Result<LpMarket> {
    var fs :- SyncFarms(m.farms, m.farmsSeenTs, now, m.lpEscrowAmount, |m.farms|);
    Ok(m.(farms := fs, farmsSeenTs := now))
  }

  // ---------- positions ----------

  function EnsureTrackers(ts: seq<YieldTracker>, n: nat): (r: seq<YieldTracker>)
    ensures |r| >= n && ts <= r
    ensures |ts| <= n ==> |r| == n
    ensures forall k :: |ts| <= k < |r| ==> r[k] == YieldTracker(0, 0)
    decreases n - |ts|
  {
    if |ts| >= n then ts else EnsureTrackers(ts + [YieldTracker(0, 0)], n)
  }

  function EarnTracker(t: YieldTracker, index: nat, lpBalance: nat): Result<YieldTracker> {
    if index < t.lastSeenIndex then Reverted(Underflow)
    else
      var earned :- ToU64(MulFloor(index - t.lastSeenIndex, lpBalance));
      var staged :- CheckedAdd(t.staged, earned);
      Ok(YieldTracker(index, staged))
  }

  function EarnAll(ts: seq<YieldTracker>, indexes: seq<nat>, lpBalance: nat, n: nat): (r: Result<seq<YieldTracker>>)
    requires n <= |ts| && n <= |indexes|
    ensures r.Ok? ==> |r.value| == |ts|
    ensures r.Ok? ==> forall k :: n <= k < |ts| ==> r.value[k] == ts[k]
    ensures r.Ok? ==> forall k :: 0 <= k < n ==> EarnTracker(ts[k], indexes[k], lpBalance) == Ok(r.value[k])
  {
    if n == 0 then Ok(ts)
    else
      var before :- EarnAll(ts, indexes, lpBalance, n - 1);
      var t :- EarnTracker(ts[n - 1], indexes[n - 1], lpBalance);
      Ok(before[n - 1 := t])
  }

  function EnsureTrackersAndEarnAll(ts: seq<YieldTracker>, indexes: seq<nat>, lpBalance: nat): Result<seq<YieldTracker>> {
    EarnAll(EnsureTrackers(ts, |indexes|), indexes, lpBalance, |indexes|)
  }

  function EmissionIndexes(m: LpMarket): (r: seq<nat>)
    ensures |r| == |m.emissions|
    ensures forall k :: 0 <= k < |r| ==> r[k] == m.emissions[k].lpShareIndex
  {
    seq(|m.emissions|, k requires 0 <= k < |m.emissions| => m.emissions[k].lpShareIndex)
  }

  function FarmIndexes(m: LpMarket): (r: seq<nat>)
    ensures |r| == |m.farms|
    ensures forall k :: 0 <= k < |r| ==> r[k] == m.farms[k].index
  {
    seq(|m.farms|, k requires 0 <= k < |m.farms| => m.farms[k].index)
  }

  function StageAll(m: LpMarket, p: LpPosition): Result<LpPosition> {
    var es :- EnsureTrackersAndEarnAll(p.emissions, EmissionIndexes(m), p.lpBalance);
    var fs :- EnsureTrackersAndEarnAll(p.farms, FarmIndexes(m), p.lpBalance);
    Ok(p.(emissions := es, farms := fs))
  }

  /** Starts at today's indexes with nothing staked. */
  function NewFromMarket(m: LpMarket): (p: LpPosition)
    ensures |p.emissions| == |m.emissions| && |p.farms| == |m.farms| && p.lpBalance == 0
    ensures forall k :: 0 <= k < |p.emissions| ==> p.emissions[k] == YieldTracker(m.emissions[k].lpShareIndex, 0)
    ensures forall k :: 0 <= k < |p.farms| ==> p.farms[k] == YieldTracker(m.farms[k].index, 0)
  {
    LpPosition(0,
      seq(|m.emissions|, k requires 0 <= k < |m.emissions| => YieldTracker(m.emissions[k].lpShareIndex, 0)),
      seq(|m.farms|, k requires 0 <= k < |m.farms| => YieldTracker(m.farms[k].index, 0)))
  }

  // ---------- instructions ----------

  /** Bring both kinds of index up to date, then settle the position. */
  function Settle(m: LpMarket, p: LpPosition, now: nat, claimable: seq<nat>): Result<(LpMarket, LpPosition)> {
    var m1 :- SyncAllEmissions(m, claimable);
    var m2 :- IncreaseShareIndexes(m1, now);
    var p1 :- StageAll(m2, p);
    Ok((m2, p1))
  }

  function DepositLp(m: LpMarket, p: LpPosition, now: nat, claimable: seq<nat>, amount: nat): Result<(LpMarket, LpPosition)> {
    var (m1, p1) :- Settle(m, p, now, claimable);
    var escrow :- CheckedAdd(m1.lpEscrowAmount, amount);
    var balance :- CheckedAdd(p1.lpBalance, amount);
    Ok((m1.(lpEscrowAmount := escrow), p1.(lpBalance := balance)))
  }

  function WithdrawLp(m: LpMarket, p: LpPosition, now: nat, claimable: seq<nat>, amount: nat): Result<(LpMarket, LpPosition)> {
    var (m1, p1) :- Settle(m, p, now, claimable);
    var balance :- CheckedSub(p1.lpBalance, amount);
    var escrow :- CheckedSub(m1.lpEscrowAmount, amount);
    Ok((m1.(lpEscrowAmount := escrow), p1.(lpBalance := balance)))
  }

  /** Pays out everything staged on one stream and takes it off the market's record. */
  function CollectEmission(m: LpMarket, p: LpPosition, k: nat): Result<(LpMarket, LpPosition)> {
    if k >= |p.emissions| || k >= |m.emissions| then Reverted(MissingEmission)
    else
      var amount := p.emissions[k].staged;
      var left :- CheckedSub(m.emissions[k].lastSeenStaged, amount);
      Ok((m.(emissions := m.emissions[k := m.emissions[k].(lastSeenStaged := left)]),
          p.(emissions := p.emissions[k := p.emissions[k].(staged := 0)])))
  }

  function ClaimFarm(p: LpPosition, k: nat, amount: nat): Result<LpPosition> {
    if k >= |p.farms| then Reverted(MissingEmission)
    else if amount > p.farms[k].staged then Reverted(AmountTooLarge)
    else Ok(p.(farms := p.farms[k := p.farms[k].(staged := p.farms[k].staged - amount)]))
  }

  function AddFarm(m: LpMarket, now: nat, mint: nat, tokenRate: nat, untilTs: nat): Result<LpMarket> {
    if exists k :: 0 <= k < |m.farms| && m.farms[k].mint == mint then Reverted(AssertionFailed)
    else
      var m1 :- IncreaseShareIndexes(m, now);
      if untilTs < now then Reverted(Underflow)
      else
        var needed :- ToU64((untilTs - now) * tokenRate);
        Ok(m1.(farms := m1.farms + [Farm(mint, tokenRate, untilTs, 0)]))
  }

  /** A farm may change its rate and expiry once its index is up to date. */
  function ModifyFarm(m: LpMarket, now: nat, k: nat, tokenRate: nat, expiryTs: nat): Result<LpMarket> {
    var m1 :- IncreaseShareIndexes(m, now);
    if k >= |m1.farms| then Reverted(MissingEmission)
    else Ok(m1.(farms := m1.farms[k := m1.farms[k].(tokenRate := tokenRate, expiryTs := expiryTs)]))
  }

  function AddMarketEmission(m: LpMarket): LpMarket {
    m.(emissions := m.emissions + [MarketEmission(0, 0)])
  }

  // ---------- farm time ----------

  /** Total seconds credited over a schedule of looks at a farm. */
  function SecondsCredited(expiryTs: nat, lastSeenTs: nat, times: seq<nat>): nat
    decreases |times|
  {
    if times == [] then 0
    else DeltaTimeFarm(expiryTs, lastSeenTs, times[0]) + SecondsCredited(expiryTs, times[0], times[1..])
  }

  predicate Nondecreasing(t0: nat, times: seq<nat>)
    decreases |times|
  {
    times != [] ==> t0 <= times[0] && Nondecreasing(times[0], times[1..])
  }

  function LastOf(t0: nat, times: seq<nat>): nat {
    if times == [] then t0 else times[|times| - 1]
  }

  /** However often a farm is looked at, its total emission depends only on the end points. */
  lemma {:induction false} EmissionIsScheduleIndependent(expiryTs: nat, t0: nat, times: seq<nat>)
    requires Nondecreasing(t0, times)
    ensures t0 <= LastOf(t0, times)
    ensures SecondsCredited(expiryTs, t0, times) == Min(expiryTs, LastOf(t0, times)) - Min(expiryTs, t0)
    decreases |times|
  {
    if times != [] {
      EmissionIsScheduleIndependent(expiryTs, times[0], times[1..]);
      assert LastOf(times[0], times[1..]) == LastOf(t0, times);
    }
  }
}
