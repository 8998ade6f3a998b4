/** Runs of one vault: its robot position, any number of user positions, any order of
    instructions, any rate and any indexes reported by the SY program at each refresh. */
module VaultRuns {
  import opened Outcome
  import opened VaultSpec

  /** `positions[0]` is the vault's own robot. `mergedPy` is history: the PT merged before
      maturity so far. `clock` is the time of the last committed instruction. */
  datatype World = World(vault: Vault, positions: seq<Position>, clock: nat, mergedPy: nat)

  datatype Action =
    | Strip(sy: SyState, amountSy: nat)
    | Merge(sy: SyState, amountPy: nat)
    | DepositYt(user: nat, sy: SyState, amount: nat)
    | WithdrawYt(user: nat, sy: SyState, amount: nat)
    | StageYield(user: nat, sy: SyState)
    | CollectUserInterest(user: nat, amount: nat)
    | CollectUserEmission(user: nat, stream: nat, amount: nat)
    | OpenPosition
    | TakeTreasurySy(amount: nat)
    | TakeRobotSy(amount: nat)
    | TakeTreasuryEmission(stream: nat, amount: nat)
    | TakeRobotEmission(stream: nat, amount: nat)
    | RegisterEmission(sy: SyState)
    | ChangeSettings(interestBpsFee: nat, maxPySupply: nat)

  datatype Event = Event(now: nat, action: Action)

  const EMPTY_POSITION := Position(0, Tracker(0, 0), [])

  /** A vault just created: every rate and balance is zero. */
  function Genesis(startTs: nat, duration: nat): World {
    World(Vault(startTs, duration, 0, 0, 0, 0, 0, 0, 0, 0, 0, U64_MAX, []), [EMPTY_POSITION], 0, 0)
  }

  predicate IsUser(w: World, user: nat) {
    0 < user < |w.positions|
  }

  function WithRobot(w: World, v: Vault, robot: Position): World
    requires |w.positions| > 0
  {
    w.(vault := v, positions := w.positions[0 := robot])
  }

  function WithUser(w: World, v: Vault, user: nat, p: Position): World
    requires user < |w.positions|
  {
    w.(vault := v, positions := w.positions[user := p])
  }

  function WithBoth(w: World, v: Vault, robot: Position, user: nat, p: Position): World
    requires IsUser(w, user)
  {
    w.(vault := v, positions := w.positions[0 := robot][user := p])
  }

  /** One instruction at time `now`, its own checks included. */
  function Perform(w: World, now: nat, a: Action): Result<World>
    requires |w.positions| > 0
  {
    var v := w.vault;
    var robot := w.positions[0];
    match a
    case Strip(sy, amountSy) =>
      if !IsActive(v, now) then Reverted(VaultNotActive)
      else
        var (v1, r1, py) :- HandleStrip(v, robot, now, sy, amountSy);
        Ok(WithRobot(w, v1, r1))
    case Merge(sy, amountPy) =>
      var (v1, r1, paid) :- HandleMerge(v, robot, now, sy, amountPy);
      var merged := if IsActive(v, now) then w.mergedPy + amountPy else w.mergedPy;
      Ok(WithRobot(w, v1, r1).(mergedPy := merged))
    case DepositYt(user, sy, amount) =>
      if !IsUser(w, user) then Reverted(UnknownAccount)
      else if !IsActive(v, now) then Reverted(VaultNotActive)
      else
        var (v1, r1, u1) :- HandleDepositYt(v, robot, w.positions[user], sy, now, amount);
        Ok(WithBoth(w, v1, r1, user, u1))
    case WithdrawYt(user, sy, amount) =>
      if !IsUser(w, user) then Reverted(UnknownAccount)
      else if !IsActive(v, now) then Reverted(VaultNotActive)
      else
        var (v1, r1, u1) :- HandleWithdrawYt(v, robot, w.positions[user], sy, now, amount);
        Ok(WithBoth(w, v1, r1, user, u1))
    case StageYield(user, sy) =>
      if !IsUser(w, user) then Reverted(UnknownAccount)
      else
        var (v1, r1, u1) :- HandleStageYield(v, robot, w.positions[user], sy, now);
        Ok(WithBoth(w, v1, r1, user, u1))
    case CollectUserInterest(user, amount) =>
      if !IsUser(w, user) then Reverted(UnknownAccount)
      else
        var (v1, u1, toUser, fee) :- CollectInterest(v, w.positions[user], amount);
        Ok(WithUser(w, v1, user, u1))
    case CollectUserEmission(user, stream, amount) =>
      if !IsUser(w, user) then Reverted(UnknownAccount)
      else
        var u1 :- CollectStagedEmission(w.positions[user], stream, amount);
        Ok(WithUser(w, v, user, u1))
    case OpenPosition =>
      Ok(w.(positions := w.positions + [EMPTY_POSITION]))
    case TakeTreasurySy(amount) =>
      var v1 :- CollectTreasurySy(v, amount);
      Ok(w.(vault := v1))
    case TakeRobotSy(amount) =>
      if amount > robot.interest.staged then Reverted(AmountTooLarge)
      else
        var (v1, r1) :- PayStaged(v, robot, amount);
        Ok(WithRobot(w, v1, r1))
    case TakeTreasuryEmission(stream, amount) =>
      var v1 :- CollectTreasuryEmission(v, stream, amount);
      Ok(w.(vault := v1))
    case TakeRobotEmission(stream, amount) =>
      var r1 :- CollectStagedEmission(robot, stream, amount);
      Ok(WithRobot(w, v, r1))
    case RegisterEmission(sy) =>
      var v1 :- AddEmission(v, sy);
      Ok(w.(vault := v1))
    case ChangeSettings(fee, cap) =>
      if fee > 10000 then Reverted(AssertionFailed)
      else Ok(w.(vault := v.(interestBpsFee := fee, maxPySupply := cap)))
  }

  /** The runtime's clock never runs backwards. */
  function Commit(w: World, e: Event): Result<World>
    requires |w.positions| > 0
  {
    if e.now < w.clock then Reverted(AssertionFailed)
    else
      var w1 :- Perform(w, e.now, e.action);
      Ok(w1.(clock := e.now))
  }

  /** A reverted transaction changes nothing. */
  function Step(w: World, e: Event): (w': World)
    requires |w.positions| > 0
    ensures |w'.positions| >= |w.positions|
  {
    match Commit(w, e)
    case Ok(w1) => w1
    case Reverted(_) => w
  }

  function Run(w: World, events: seq<Event>): (w': World)
    requires |w.positions| > 0
    ensures |w'.positions| >= |w.positions|
    decreases |events|
  {
    if events == [] then w else Run(Step(w, events[0]), events[1..])
  }

  predicate AllCommit(w: World, events: seq<Event>)
    requires |w.positions| > 0
    decreases |events|
  {
    events != [] ==> Commit(w, events[0]).Ok? && AllCommit(Step(w, events[0]), events[1..])
  }

  lemma {:induction false} RunsJoin(w: World, a: seq<Event>, b: seq<Event>)
    requires |w.positions| > 0
    ensures Run(w, a + b) == Run(Run(w, a), b)
    ensures AllCommit(w, a + b) <==> AllCommit(w, a) && AllCommit(Run(w, a), b)
    decreases |a|
  {
    if a == [] {
      assert a + b == b;
    } else {
      assert (a + b)[1..] == a[1..] + b;
      RunsJoin(Step(w, a[0]), a[1..], b);
    }
  }

  /** Everyone from `i` on collects nothing, which only settles their interest. */
  function SettleUsers(now: nat, i: nat, n: nat): seq<Event>
    decreases n - i
  {
    if i >= n then [] else [Event(now, CollectUserInterest(i, 0))] + SettleUsers(now, i + 1, n)
  }

  /** The vault does not cross maturity with a depressed rate on record. */
  predicate Calm(w: World, e: Event) {
    e.now > Maturity(w.vault) ==> !InEmergency(w.vault)
  }

  ghost predicate CalmRun(w: World, events: seq<Event>)
    requires |w.positions| > 0
    decreases |events|
  {
    events != [] ==>
      && (Commit(w, events[0]).Ok? ==> Calm(w, events[0]))
      && CalmRun(Step(w, events[0]), events[1..])
  }
}
