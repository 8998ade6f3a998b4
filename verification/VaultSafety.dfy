/** Every committed instruction keeps the invariant, hence so does every run. */
module VaultSafety {
  import opened Outcome
  import opened FixedPoint
  import opened Sums
  import opened VaultSpec
  import opened VaultRuns
  import opened VaultInvariant
  import opened VaultPreservation

  /** The hypotheses common to the instruction lemmas: `w` is reached, and `a` commits at `now`. */
  predicate Commits(w: World, now: nat, a: Action, w1: World) {
    && Invariant(w)
    && now >= w.clock
    && (now > Maturity(w.vault) ==> !InEmergency(w.vault))
    && Perform(w, now, a) == Ok(w1)
  }

  lemma Closing(w: World, now: nat)
    requires Sound(w.vault, w.positions, w.mergedPy, now) && Settled(w.vault, w.positions)
    requires SetAside(w.vault, w.mergedPy)
    requires w.vault.finalRate > 0 && w.vault.startTs <= now
    ensures Invariant(w.(clock := now))
  {
  }

  /** What a committed strip did, after the refresh. */
  lemma StripParts(w: World, now: nat, sy: SyState, amountSy: nat, w1: World)
    returns (v1: Vault, r1: Position, py: nat, v2: Vault)
    requires |w.positions| > 0 && Perform(w, now, Strip(sy, amountSy)) == Ok(w1)
    ensures UpdateVaultYield(w.vault, w.positions[0], now, sy) == Ok((v1, r1)) && !InEmergency(v1)
    ensures IsActive(w.vault, now)
    ensures SyToPy(v1.lastSeenRate, amountSy) == Ok(py) && IncYt(r1, py) == Ok(w1.positions[0])
    ensures v2 == v1.(totalSyInEscrow := v1.totalSyInEscrow + amountSy, ptSupply := v1.ptSupply + py)
    ensures SetSyForPt(v2) == Ok(w1.vault)
    ensures w1.positions == w.positions[0 := w1.positions[0]] && w1.mergedPy == w.mergedPy
  {
    var res := UpdateVaultYield(w.vault, w.positions[0], now, sy).value;
    v1, r1 := res.0, res.1;
    py := SyToPy(v1.lastSeenRate, amountSy).value;
    v2 := v1.(totalSyInEscrow := v1.totalSyInEscrow + amountSy, ptSupply := v1.ptSupply + py);
  }

  lemma StripKeeps(w: World, now: nat, sy: SyState, amountSy: nat, w1: World)
    requires Commits(w, now, Strip(sy, amountSy), w1)
    ensures Invariant(w1.(clock := now))
  {
    var ps, k := w.positions, w.mergedPy;
    var v1, r1, py, v2 := StripParts(w, now, sy, amountSy, w1);
    TimePasses(w, now);
    UpdateVaultYieldKeeps(w.vault, ps, k, now, sy, v1, r1);
    MintKeeps(v1, ps[0 := r1], k, now, amountSy, py, v2, w1.positions[0]);
    assert w1.positions == ps[0 := r1][0 := w1.positions[0]];
    SetSyForPtKeeps(v2, w1.positions, k, now, w1.vault);
    Closing(w1, now);
  }

  /** What a committed merge did, after the refresh. */
  lemma MergeParts(w: World, now: nat, sy: SyState, amountPy: nat, w1: World)
    returns (v1: Vault, r1: Position, paid: nat, v2: Vault)
    requires Commits(w, now, Merge(sy, amountPy), w1)
    ensures UpdateVaultYield(w.vault, w.positions[0], now, sy) == Ok((v1, r1)) && !InEmergency(v1)
    ensures w.vault.startTs <= now && v1.startTs == w.vault.startTs && v1.duration == w.vault.duration && v1.finalRate > 0
    ensures Sound(v1, w.positions[0 := r1], w.mergedPy, now) && Settled(v1, w.positions[0 := r1])
    ensures amountPy <= v1.ptSupply && paid <= v1.totalSyInEscrow && paid * v1.lastSeenRate <= amountPy * ONE
    ensures v2 == v1.(totalSyInEscrow := v1.totalSyInEscrow - paid, ptSupply := v1.ptSupply - amountPy)
    ensures SetSyForPt(v2) == Ok(w1.vault)
    ensures now <= Maturity(w.vault) ==>
      DecYt(r1, amountPy) == Ok(w1.positions[0]) && w1.mergedPy == w.mergedPy + amountPy
    ensures now > Maturity(w.vault) ==> w1.positions[0] == r1 && w1.mergedPy == w.mergedPy
    ensures w1.positions == w.positions[0 := w1.positions[0]]
  {
    var res := UpdateVaultYield(w.vault, w.positions[0], now, sy).value;
    v1, r1 := res.0, res.1;
    TimePasses(w, now);
    RefreshNeedsStart(w, now, sy);
    UpdateVaultYieldKeeps(w.vault, w.positions, w.mergedPy, now, sy, v1, r1);
    paid := RedemptionAmount(v1, amountPy).value;
    RedemptionBounds(v1, amountPy, paid);
    v2 := v1.(totalSyInEscrow := v1.totalSyInEscrow - paid, ptSupply := v1.ptSupply - amountPy);
  }

  lemma MergeKeeps(w: World, now: nat, sy: SyState, amountPy: nat, w1: World)
    requires Commits(w, now, Merge(sy, amountPy), w1)
    ensures Invariant(w1.(clock := now))
  {
    var ps, k := w.positions, w.mergedPy;
    var v1, r1, paid, v2 := MergeParts(w, now, sy, amountPy, w1);
    if now <= Maturity(w.vault) {
      MergeActiveKeeps(v1, ps[0 := r1], k, now, amountPy, paid, v2, w1.positions[0]);
      assert w1.positions == ps[0 := r1][0 := w1.positions[0]];
    } else {
      MergeMaturedKeeps(v1, ps[0 := r1], k, now, amountPy, paid, v2);
    }
    SetSyForPtKeeps(v2, w1.positions, w1.mergedPy, now, w1.vault);
    Closing(w1, now);
  }

  /** The part shared by the three instructions that settle the robot and then one user. */
  lemma BothSettled(w: World, now: nat, sy: SyState, user: nat, v1: Vault, r1: Position, v2: Vault, u1: Position)
    requires Invariant(w) && now >= w.clock && IsUser(w, user)
    requires now > Maturity(w.vault) ==> !InEmergency(w.vault) && !InEmergency(v1)
    requires UpdateVaultYield(w.vault, w.positions[0], now, sy) == Ok((v1, r1))
    requires Earn(v1, w.positions[user]) == Ok((v2, u1))
    ensures
      var qs := w.positions[0 := r1][user := u1];
      && Sound(v2, qs, w.mergedPy, now) && Settled(v2, qs)
      && v2.finalRate > 0 && v2.startTs <= now && v2.startTs == w.vault.startTs
      && (!InEmergency(v2) ==> u1.interest.lastSeenIndex == r1.interest.lastSeenIndex)
  {
    TimePasses(w, now);
    RefreshNeedsStart(w, now, sy);
    UpdateVaultYieldKeeps(w.vault, w.positions, w.mergedPy, now, sy, v1, r1);
    EarnKeeps(v1, w.positions[0 := r1], user, w.mergedPy, now, v2, u1);
  }

  lemma DepositYtKeeps(w: World, now: nat, user: nat, sy: SyState, amount: nat, w1: World)
    requires Commits(w, now, DepositYt(user, sy, amount), w1)
    ensures Invariant(w1.(clock := now))
  {
    var ps := w.positions;
    var (v1, r1) := UpdateVaultYield(w.vault, ps[0], now, sy).value;
    var (v2, u1) := Earn(v1, ps[user]).value;
    BothSettled(w, now, sy, user, v1, r1, v2, u1);
    var qs := ps[0 := r1][user := u1];
    var r2, u2 := DecYt(r1, amount).value, IncYt(u1, amount).value;
    MoveYtKeeps(v2, qs, 0, user, amount, w.mergedPy, now, r2, u2);
    assert w1.positions == qs[0 := r2][user := u2];
    SetSyForPtKeeps(v2, w1.positions, w.mergedPy, now, w1.vault);
    Closing(w1, now);
  }

  lemma WithdrawYtKeeps(w: World, now: nat, user: nat, sy: SyState, amount: nat, w1: World)
    requires Commits(w, now, WithdrawYt(user, sy, amount), w1)
    ensures Invariant(w1.(clock := now))
  {
    var ps := w.positions;
    var (v1, r1) := UpdateVaultYield(w.vault, ps[0], now, sy).value;
    var (v2, u1) := Earn(v1, ps[user]).value;
    BothSettled(w, now, sy, user, v1, r1, v2, u1);
    var qs := ps[0 := r1][user := u1];
    var u2, r2 := DecYt(u1, amount).value, IncYt(r1, amount).value;
    MoveYtKeeps(v2, qs, user, 0, amount, w.mergedPy, now, u2, r2);
    assert w1.positions == qs[user := u2][0 := r2];
    SetSyForPtKeeps(v2, w1.positions, w.mergedPy, now, w1.vault);
    Closing(w1, now);
  }

  lemma StageYieldKeeps(w: World, now: nat, user: nat, sy: SyState, w1: World)
    requires Commits(w, now, StageYield(user, sy), w1)
    ensures Invariant(w1.(clock := now))
  {
    var ps := w.positions;
    var (v1, r1) := UpdateVaultYield(w.vault, ps[0], now, sy).value;
    var (v2, u1) := Earn(v1, ps[user]).value;
    BothSettled(w, now, sy, user, v1, r1, v2, u1);
    SetSyForPtKeeps(v2, w1.positions, w.mergedPy, now, w1.vault);
    Closing(w1, now);
  }

  lemma CollectUserInterestKeeps(w: World, now: nat, user: nat, amount: nat, w1: World)
    requires Commits(w, now, CollectUserInterest(user, amount), w1)
    ensures Invariant(w1.(clock := now))
  {
    var v, ps, k := w.vault, w.positions, w.mergedPy;
    var (v1, u1) := Earn(v, ps[user]).value;
    TimePasses(w, now);
    EarnKeeps(v, ps, user, k, now, v1, u1);
    var (v2, u2) := PayStaged(v1, u1, amount).value;
    assert SetAside(v1, k) by {
      var a, e := EarnEffect(v, ps[user], v1, u1);
    }
    PayStagedKeeps(v1, ps[user := u1], user, k, now, amount, v2, u2);
    assert w1.positions == ps[user := u1][user := u2];
    Closing(w1, now);
  }

  lemma SameInterest(ps: seq<Position>, i: nat, p: Position)
    requires i < |ps| && p.ytBalance == ps[i].ytBalance && p.interest == ps[i].interest
    ensures Sum(YtOf, ps[i := p]) == Sum(YtOf, ps)
    ensures Sum(StagedOf, ps[i := p]) == Sum(StagedOf, ps)
    ensures Sum(ClaimOf, ps[i := p]) == Sum(ClaimOf, ps)
  {
    TotalsAfter(ps, i, p);
  }

  lemma OpenPositionKeeps(w: World, now: nat, w1: World)
    requires Commits(w, now, OpenPosition, w1)
    ensures Invariant(w1.(clock := now))
  {
    TimePasses(w, now);
    SumAppend(YtOf, w.positions, EMPTY_POSITION);
    SumAppend(StagedOf, w.positions, EMPTY_POSITION);
    SumAppend(ClaimOf, w.positions, EMPTY_POSITION);
  }

  lemma TakeRobotSyKeeps(w: World, now: nat, amount: nat, w1: World)
    requires Commits(w, now, TakeRobotSy(amount), w1)
    ensures Invariant(w1.(clock := now))
  {
    var v, ps, k := w.vault, w.positions, w.mergedPy;
    TimePasses(w, now);
    PayStagedKeeps(v, ps, 0, k, now, amount, w1.vault, w1.positions[0]);
    assert w1.positions == ps[0 := w1.positions[0]];
  }

  lemma TakeTreasurySyKeeps(w: World, now: nat, amount: nat, w1: World)
    requires Commits(w, now, TakeTreasurySy(amount), w1)
    ensures Invariant(w1.(clock := now))
  {
    TimePasses(w, now);
    assert Free(w1.vault) == Free(w.vault);
  }

  /** The vault changes only in its emissions or settings, and one position only in its emissions. */
  lemma InterestUntouched(w: World, now: nat, i: nat, w1: World)
    requires Invariant(w) && now >= w.clock && (now > Maturity(w.vault) ==> !InEmergency(w.vault))
    requires i < |w.positions| == |w1.positions| && w1.positions == w.positions[i := w1.positions[i]]
    requires w1.positions[i] == w.positions[i].(emissions := w1.positions[i].emissions)
    requires w1.vault == w.vault.(emissions := w1.vault.emissions, interestBpsFee := w1.vault.interestBpsFee,
                                  maxPySupply := w1.vault.maxPySupply)
    requires w1.mergedPy == w.mergedPy
    ensures Invariant(w1.(clock := now))
  {
    TimePasses(w, now);
    SameInterest(w.positions, i, w1.positions[i]);
  }

  /** The instructions that touch only emissions or settings. */
  lemma OthersKeep(w: World, now: nat, a: Action, w1: World)
    requires Commits(w, now, a, w1)
    requires a.CollectUserEmission? || a.TakeTreasuryEmission? || a.TakeRobotEmission? || a.RegisterEmission? || a.ChangeSettings?
    ensures Invariant(w1.(clock := now))
  {
    InterestUntouched(w, now, if a.CollectUserEmission? then a.user else 0, w1);
  }

  lemma CommitKeeps(w: World, e: Event, w1: World)
    requires Invariant(w) && Calm(w, e) && Commit(w, e) == Ok(w1)
    ensures Invariant(w1)
  {
    var w0 := Perform(w, e.now, e.action).value;
    match e.action
    case Strip(sy, amountSy) => StripKeeps(w, e.now, sy, amountSy, w0);
    case Merge(sy, amountPy) => MergeKeeps(w, e.now, sy, amountPy, w0);
    case DepositYt(user, sy, amount) => DepositYtKeeps(w, e.now, user, sy, amount, w0);
    case WithdrawYt(user, sy, amount) => WithdrawYtKeeps(w, e.now, user, sy, amount, w0);
    case StageYield(user, sy) => StageYieldKeeps(w, e.now, user, sy, w0);
    case CollectUserInterest(user, amount) => CollectUserInterestKeeps(w, e.now, user, amount, w0);
    case OpenPosition => OpenPositionKeeps(w, e.now, w0);
    case TakeTreasurySy(amount) => TakeTreasurySyKeeps(w, e.now, amount, w0);
    case TakeRobotSy(amount) => TakeRobotSyKeeps(w, e.now, amount, w0);
    case _ => OthersKeep(w, e.now, e.action, w0);
  }

  lemma GenesisIsSound(startTs: nat, duration: nat)
    ensures Invariant(Genesis(startTs, duration))
  {
  }

  /** The invariant holds at the end of every run that crosses maturity calmly. */
  lemma {:induction false} RunKeepsInvariant(w: World, events: seq<Event>)
    requires Invariant(w) && CalmRun(w, events)
    ensures Invariant(Run(w, events))
    decreases |events|
  {
    if events != [] {
      var r := Commit(w, events[0]);
      if r.Ok? {
        CommitKeeps(w, events[0], r.value);
      }
      RunKeepsInvariant(Step(w, events[0]), events[1..]);
    }
  }
}
