/** Runs of one market's rewards: any number of positions, any interleaving of deposits,
    withdrawals, collections, new positions, added and modified farms. */
module LpRuns {
  import opened Outcome
  import opened LpSpec

  datatype World = World(market: LpMarket, positions: seq<LpPosition>, clock: nat)

  datatype Action =
    | Deposit(user: nat, claimable: seq<nat>, amount: nat)
    | Withdraw(user: nat, claimable: seq<nat>, amount: nat)
    | Collect(user: nat, stream: nat)
    | Claim(user: nat, farm: nat, amount: nat)
    | Open
    | NewFarm(mint: nat, tokenRate: nat, untilTs: nat)
    | ChangeFarm(farm: nat, tokenRate: nat, expiryTs: nat)
    | NewEmission

  datatype Event = Event(now: nat, action: Action)

  const GENESIS := World(LpMarket(0, [], 0, []), [], 0)

  function With(w: World, m: LpMarket, user: nat, p: LpPosition): World
    requires user < |w.positions|
  {
    w.(market := m, positions := w.positions[user := p])
  }

  function Perform(w: World, now: nat, a: Action): Result<World> {
    match a
    case Deposit(user, claimable, amount) =>
      if user >= |w.positions| then Reverted(UnknownAccount)
      else
        var (m1, p1) :- DepositLp(w.market, w.positions[user], now, claimable, amount);
        Ok(With(w, m1, user, p1))
    case Withdraw(user, claimable, amount) =>
      if user >= |w.positions| then Reverted(UnknownAccount)
      else
        var (m1, p1) :- WithdrawLp(w.market, w.positions[user], now, claimable, amount);
        Ok(With(w, m1, user, p1))
    case Collect(user, stream) =>
      if user >= |w.positions| then Reverted(UnknownAccount)
      else
        var (m1, p1) :- CollectEmission(w.market, w.positions[user], stream);
        Ok(With(w, m1, user, p1))
    case Claim(user, farm, amount) =>
      if user >= |w.positions| then Reverted(UnknownAccount)
      else
        var p1 :- ClaimFarm(w.positions[user], farm, amount);
        Ok(With(w, w.market, user, p1))
    case Open => Ok(w.(positions := w.positions + [NewFromMarket(w.market)]))
    case NewFarm(mint, tokenRate, untilTs) =>
      var m1 :- AddFarm(w.market, now, mint, tokenRate, untilTs);
      Ok(w.(market := m1))
    case ChangeFarm(farm, tokenRate, expiryTs) =>
      var m1 :- ModifyFarm(w.market, now, farm, tokenRate, expiryTs);
      Ok(w.(market := m1))
    case NewEmission => Ok(w.(market := AddMarketEmission(w.market)))
  }

  /** A reverted transaction changes nothing; the clock never runs backwards. */
  function Step(w: World, e: Event): World {
    if e.now < w.clock then w
    else
      match Perform(w, e.now, e.action)
      case Ok(w1) => w1.(clock := e.now)
      case Reverted(_) => w
  }

  function Run(w: World, events: seq<Event>): World
    decreases |events|
  {
    if events == [] then w else Run(Step(w, events[0]), events[1..])
  }

  /** Tokens of one farm: emitted by the clock, and claimed. */
  datatype FarmLedger = FarmLedger(emitted: nat, claimed: nat)

  predicate SyncsFarms(a: Action) {
    a.Deposit? || a.Withdraw? || a.NewFarm? || a.ChangeFarm?
  }

  function Book(w: World, e: Event, k: nat, l: FarmLedger): FarmLedger {
    if SyncsFarms(e.action) && k < |w.market.farms| then
      l.(emitted := l.emitted + TokensEmitted(w.market.farms[k], w.market.farmsSeenTs, e.now))
    else if e.action.Claim? && e.action.farm == k then l.(claimed := l.claimed + e.action.amount)
    else l
  }

  function Committed(w: World, e: Event): bool {
    e.now >= w.clock && Perform(w, e.now, e.action).Ok?
  }

  function RunLedger(w: World, events: seq<Event>, k: nat, l: FarmLedger): FarmLedger
    decreases |events|
  {
    if events == [] then l
    else RunLedger(Step(w, events[0]), events[1..], k, if Committed(w, events[0]) then Book(w, events[0], k, l) else l)
  }
}
