/** Runs of the market's instructions beside the vault they strip and merge through: any number of
    traders, any curve, any rates. */
module MarketRuns {
  import opened Outcome
  import opened Sums
  import opened VaultSpec
  import opened VaultPreservation
  import opened MarketLedger

  datatype Exchange = Exchange(book: Book, vault: Vault, robot: Position, wallets: seq<Wallet>, feeBps: nat)

  /** The amounts of liquidity are what the formula answers. */
  datatype Instruction =
    | Trading(netTraderPt: int, syConstraint: int, curve: CurveOutput)
    | BuyingYt(syIn: nat, syToStrip: nat, sy: SyState, curve: CurveOutput)
    | SellingYt(ytIn: nat, minSyOut: nat, sy: SyState, curve: CurveOutput)
    | Providing(ptIn: nat, syIn: nat, lpOut: nat, maxLp: nat)
    | Removing(lpIn: nat, ptOut: nat, syOut: nat)
    | Stripping(amountSy: nat, sy: SyState)
    | Merging(amountPy: nat, sy: SyState)

  datatype Event = Event(now: nat, who: nat, instruction: Instruction)

  // ---------- single instructions ----------

  function TradedTo(b: Book, t: Trade): Book
    requires t.pt <= b.ptBalance && t.pt <= b.ptEscrow
    requires t.sy + t.fee <= b.syBalance && t.sy + t.fee <= b.syPosition
  {
    b.(ptBalance := b.ptBalance - t.pt, ptEscrow := b.ptEscrow - t.pt, syBalance := b.syBalance - t.sy - t.fee,
       syPosition := b.syPosition - t.sy - t.fee, feeTreasury := b.feeTreasury + t.fee)
  }

  function Trades(x: Exchange, who: nat, netTraderPt: int, syConstraint: int, curve: CurveOutput): Result<Exchange>
    requires who < |x.wallets|
  {
    var w := x.wallets[who];
    if !Tradable(x.book, w, netTraderPt, syConstraint, curve, x.feeBps) then Reverted(AssertionFailed)
    else
      var t := TradeOf(netTraderPt, curve, x.feeBps).value;
      Ok(x.(book := TradedTo(x.book, t), wallets := x.wallets[who := w.(pt := w.pt + t.pt, sy := w.sy + t.sy)]))
  }

  function BuysYt(x: Exchange, now: nat, who: nat, syIn: nat, syToStrip: nat, sy: SyState, curve: CurveOutput): Result<Exchange>
    requires who < |x.wallets|
  {
    var (v1, r1, minted) :- HandleStrip(x.vault, x.robot, now, sy, syToStrip);
    var b, w := x.book, x.wallets[who];
    if !Buyable(b, w, syIn, syToStrip, minted, curve, x.feeBps) then Reverted(AssertionFailed)
    else
      var t := TradeOf(0 - minted, curve, x.feeBps).value;
      var borrowed := syToStrip - syIn;
      Ok(x.(book := b.(ptBalance := b.ptBalance + minted, ptEscrow := b.ptEscrow + minted,
                       syBalance := b.syBalance - t.sy - t.fee, syPosition := b.syPosition - borrowed - t.fee,
                       feeTreasury := b.feeTreasury + t.fee, flash := false),
            vault := v1, robot := r1, wallets := x.wallets[who := w.(sy := w.sy - syIn, yt := w.yt + minted)]))
  }

  function SellsYt(x: Exchange, now: nat, who: nat, ytIn: nat, minSyOut: nat, sy: SyState, curve: CurveOutput): Result<Exchange>
    requires who < |x.wallets|
  {
    var (v1, r1, paid) :- HandleMerge(x.vault, x.robot, now, sy, ytIn);
    var b, w := x.book, x.wallets[who];
    if !Sellable(b, w, ytIn, minSyOut, paid, curve, x.feeBps) then Reverted(AssertionFailed)
    else
      var t := TradeOf(ytIn, curve, x.feeBps).value;
      Ok(x.(book := TradedTo(b.(flash := false), t), vault := v1, robot := r1,
            wallets := x.wallets[who := w.(sy := w.sy + paid + t.sy, yt := w.yt - ytIn)]))
  }

  function Provides(x: Exchange, who: nat, ptIn: nat, syIn: nat, lpOut: nat, maxLp: nat): Result<Exchange>
    requires who < |x.wallets|
  {
    var b, w := x.book, x.wallets[who];
    if b.ptBalance + ptIn > U64_MAX || b.syBalance + syIn > U64_MAX || b.lpSupply + lpOut > maxLp || ptIn > w.pt || syIn > w.sy
    then Reverted(AssertionFailed)
    else
      Ok(x.(book := b.(ptBalance := b.ptBalance + ptIn, ptEscrow := b.ptEscrow + ptIn, syBalance := b.syBalance + syIn,
                       syPosition := b.syPosition + syIn, lpSupply := b.lpSupply + lpOut),
            wallets := x.wallets[who := w.(pt := w.pt - ptIn, sy := w.sy - syIn, lp := w.lp + lpOut)]))
  }

  function Removes(x: Exchange, who: nat, lpIn: nat, ptOut: nat, syOut: nat): Result<Exchange>
    requires who < |x.wallets|
  {
    var b, w := x.book, x.wallets[who];
    if lpIn > b.lpSupply || lpIn > w.lp || ptOut > b.ptBalance || ptOut > b.ptEscrow || syOut > b.syBalance || syOut > b.syPosition
    then Reverted(AssertionFailed)
    else
      Ok(x.(book := b.(ptBalance := b.ptBalance - ptOut, ptEscrow := b.ptEscrow - ptOut, syBalance := b.syBalance - syOut,
                       syPosition := b.syPosition - syOut, lpSupply := b.lpSupply - lpIn),
            wallets := x.wallets[who := w.(pt := w.pt + ptOut, sy := w.sy + syOut, lp := w.lp - lpIn)]))
  }

  function Strips(x: Exchange, now: nat, who: nat, amountSy: nat, sy: SyState): Result<Exchange>
    requires who < |x.wallets|
  {
    var w := x.wallets[who];
    var (v1, r1, minted) :- HandleStrip(x.vault, x.robot, now, sy, amountSy);
    var left :- CheckedSub(w.sy, amountSy);
    Ok(x.(vault := v1, robot := r1, wallets := x.wallets[who := w.(sy := left, pt := w.pt + minted, yt := w.yt + minted)]))
  }

  function Merges(x: Exchange, now: nat, who: nat, amountPy: nat, sy: SyState): Result<Exchange>
    requires who < |x.wallets|
  {
    var w := x.wallets[who];
    var (v1, r1, paid) :- HandleMerge(x.vault, x.robot, now, sy, amountPy);
    var pt :- CheckedSub(w.pt, amountPy);
    var yt :- if IsActive(x.vault, now) then CheckedSub(w.yt, amountPy) else Ok(w.yt);
    Ok(x.(vault := v1, robot := r1, wallets := x.wallets[who := w.(sy := w.sy + paid, pt := pt, yt := yt)]))
  }

  /** The market closes when its vault does; PT may be redeemed and liquidity withdrawn after that. */
  function Do(x: Exchange, e: Event): Result<Exchange> {
    if e.who >= |x.wallets| then Reverted(UnknownAccount)
    else if !IsActive(x.vault, e.now) && !e.instruction.Merging? && !e.instruction.Removing? then Reverted(VaultNotActive)
    else
      match e.instruction
      case Trading(netTraderPt, syConstraint, curve) => Trades(x, e.who, netTraderPt, syConstraint, curve)
      case BuyingYt(syIn, syToStrip, sy, curve) => BuysYt(x, e.now, e.who, syIn, syToStrip, sy, curve)
      case SellingYt(ytIn, minSyOut, sy, curve) => SellsYt(x, e.now, e.who, ytIn, minSyOut, sy, curve)
      case Providing(ptIn, syIn, lpOut, maxLp) => Provides(x, e.who, ptIn, syIn, lpOut, maxLp)
      case Removing(lpIn, ptOut, syOut) => Removes(x, e.who, lpIn, ptOut, syOut)
      case Stripping(amountSy, sy) => Strips(x, e.now, e.who, amountSy, sy)
      case Merging(amountPy, sy) => Merges(x, e.now, e.who, amountPy, sy)
  }

  function Step(x: Exchange, e: Event): Exchange {
    match Do(x, e)
    case Ok(x1) => x1
    case Reverted(_) => x
  }

  function Run(x: Exchange, events: seq<Event>): Exchange
    decreases |events|
  {
    if events == [] then x else Run(Step(x, events[0]), events[1..])
  }

  // ---------- what everybody holds together ----------

  function PtIn(w: Wallet): nat {
    w.pt
  }

  function SyIn(w: Wallet): nat {
    w.sy
  }

  function YtIn(w: Wallet): nat {
    w.yt
  }

  function LpIn(w: Wallet): nat {
    w.lp
  }

  /** SY wherever it is: in the pool, its pass-through account, the fee account, wallets, the vault. */
  function AllSy(x: Exchange): nat {
    x.book.syPosition + x.book.syEscrow + x.book.feeTreasury + Sum(SyIn, x.wallets) + x.vault.totalSyInEscrow
  }

  /** PT held is PT issued, YT held is what the vault's robot stands for, LP held is LP issued, and
      the pool's record of PT is what it holds. */
  predicate Balanced(x: Exchange) {
    && x.book.ptEscrow + Sum(PtIn, x.wallets) == x.vault.ptSupply
    && Sum(LpIn, x.wallets) == x.book.lpSupply
    && x.book.ptBalance == x.book.ptEscrow
  }

  predicate YtBalanced(x: Exchange) {
    Sum(YtIn, x.wallets) == x.robot.ytBalance
  }

  lemma WalletsAfter(ws: seq<Wallet>, who: nat, w: Wallet)
    requires who < |ws|
    ensures Sum(PtIn, ws[who := w]) + ws[who].pt == Sum(PtIn, ws) + w.pt
    ensures Sum(SyIn, ws[who := w]) + ws[who].sy == Sum(SyIn, ws) + w.sy
    ensures Sum(YtIn, ws[who := w]) + ws[who].yt == Sum(YtIn, ws) + w.yt
    ensures Sum(LpIn, ws[who := w]) + ws[who].lp == Sum(LpIn, ws) + w.lp
  {
    SumUpdate(PtIn, ws, who, w);
    SumUpdate(SyIn, ws, who, w);
    SumUpdate(YtIn, ws, who, w);
    SumUpdate(LpIn, ws, who, w);
  }

  lemma RefreshMovesNothing(v: Vault, robot: Position, now: nat, sy: SyState, v1: Vault, r1: Position)
    requires UpdateVaultYield(v, robot, now, sy) == Ok((v1, r1))
    ensures v1.totalSyInEscrow == v.totalSyInEscrow && v1.ptSupply == v.ptSupply && r1.ytBalance == robot.ytBalance
    ensures v1.startTs == v.startTs && v1.duration == v.duration
  {
    var v0 := UpdateFromSyState(v, sy, now).value;
    var swept := UpdateFrame(v, sy, now, v0);
    var a, e := EarnEffect(v0, robot, v1, r1);
  }

  lemma StripMoves(v: Vault, robot: Position, now: nat, sy: SyState, amount: nat, v1: Vault, r1: Position, minted: nat)
    requires HandleStrip(v, robot, now, sy, amount) == Ok((v1, r1, minted))
    ensures v1.totalSyInEscrow == v.totalSyInEscrow + amount && v1.ptSupply == v.ptSupply + minted
    ensures r1.ytBalance == robot.ytBalance + minted
  {
    var (v0, r0) := UpdateVaultYield(v, robot, now, sy).value;
    RefreshMovesNothing(v, robot, now, sy, v0, r0);
  }

  lemma MergeMoves(v: Vault, robot: Position, now: nat, sy: SyState, amount: nat, v1: Vault, r1: Position, paid: nat)
    requires HandleMerge(v, robot, now, sy, amount) == Ok((v1, r1, paid))
    ensures v1.totalSyInEscrow == v.totalSyInEscrow - paid && v1.ptSupply == v.ptSupply - amount
    ensures r1.ytBalance == robot.ytBalance - if IsActive(v, now) then amount else 0
  {
    var (v0, r0) := UpdateVaultYield(v, robot, now, sy).value;
    RefreshMovesNothing(v, robot, now, sy, v0, r0);
  }

  /** What every instruction keeps. */
  predicate Kept(x: Exchange, e: Event, x1: Exchange) {
    && AllSy(x1) == AllSy(x)
    && (Balanced(x) ==> Balanced(x1))
    && (YtBalanced(x) ==> YtBalanced(x1))
  }

  lemma TradingKeeps(x: Exchange, e: Event, x1: Exchange)
    requires Do(x, e) == Ok(x1) && e.instruction.Trading?
    ensures Kept(x, e, x1)
  {
    WalletsAfter(x.wallets, e.who, x1.wallets[e.who]);
  }

  lemma BuyingKeeps(x: Exchange, e: Event, x1: Exchange)
    requires Do(x, e) == Ok(x1) && e.instruction.BuyingYt?
    ensures Kept(x, e, x1)
  {
    var i := e.instruction;
    var (v1, r1, minted) := HandleStrip(x.vault, x.robot, e.now, i.sy, i.syToStrip).value;
    StripMoves(x.vault, x.robot, e.now, i.sy, i.syToStrip, v1, r1, minted);
    WalletsAfter(x.wallets, e.who, x1.wallets[e.who]);
  }

  lemma SellingKeeps(x: Exchange, e: Event, x1: Exchange)
    requires Do(x, e) == Ok(x1) && e.instruction.SellingYt?
    ensures Kept(x, e, x1)
  {
    var i := e.instruction;
    var (v1, r1, paid) := HandleMerge(x.vault, x.robot, e.now, i.sy, i.ytIn).value;
    MergeMoves(x.vault, x.robot, e.now, i.sy, i.ytIn, v1, r1, paid);
    WalletsAfter(x.wallets, e.who, x1.wallets[e.who]);
  }

  lemma LiquidityKeeps(x: Exchange, e: Event, x1: Exchange)
    requires Do(x, e) == Ok(x1) && (e.instruction.Providing? || e.instruction.Removing?)
    ensures Kept(x, e, x1)
  {
    WalletsAfter(x.wallets, e.who, x1.wallets[e.who]);
  }

  lemma StrippingKeeps(x: Exchange, e: Event, x1: Exchange)
    requires Do(x, e) == Ok(x1) && e.instruction.Stripping?
    ensures Kept(x, e, x1)
  {
    var i := e.instruction;
    var (v1, r1, minted) := HandleStrip(x.vault, x.robot, e.now, i.sy, i.amountSy).value;
    StripMoves(x.vault, x.robot, e.now, i.sy, i.amountSy, v1, r1, minted);
    WalletsAfter(x.wallets, e.who, x1.wallets[e.who]);
  }

  lemma MergingKeeps(x: Exchange, e: Event, x1: Exchange)
    requires Do(x, e) == Ok(x1) && e.instruction.Merging?
    ensures Kept(x, e, x1)
  {
    var i := e.instruction;
    var (v1, r1, paid) := HandleMerge(x.vault, x.robot, e.now, i.sy, i.amountPy).value;
    MergeMoves(x.vault, x.robot, e.now, i.sy, i.amountPy, v1, r1, paid);
    WalletsAfter(x.wallets, e.who, x1.wallets[e.who]);
  }

  lemma StepKeeps(x: Exchange, e: Event)
    ensures Kept(x, e, Step(x, e))
  {
    if Do(x, e).Ok? {
      var x1 := Do(x, e).value;
      match e.instruction
      case Trading(_, _, _) => TradingKeeps(x, e, x1);
      case BuyingYt(_, _, _, _) => BuyingKeeps(x, e, x1);
      case SellingYt(_, _, _, _) => SellingKeeps(x, e, x1);
      case Providing(_, _, _, _) => LiquidityKeeps(x, e, x1);
      case Removing(_, _, _) => LiquidityKeeps(x, e, x1);
      case Stripping(_, _) => StrippingKeeps(x, e, x1);
      case Merging(_, _) => MergingKeeps(x, e, x1);
    }
  }

  /** Over any run of trades, flash swaps, liquidity changes, strips and merges by any number of
      traders, at any rates and whatever the curve answers: no SY is created or lost between the pool,
      its fee account, the wallets and the vault; all PT issued is held; and so are all YT and LP. */
  lemma {:induction false} TokensAreConserved(x: Exchange, events: seq<Event>)
    requires Balanced(x) && YtBalanced(x)
    ensures AllSy(Run(x, events)) == AllSy(x) && Balanced(Run(x, events)) && YtBalanced(Run(x, events))
    decreases |events|
  {
    if events != [] {
      StepKeeps(x, events[0]);
      TokensAreConserved(Step(x, events[0]), events[1..]);
    }
  }

  // ---------- the record and the holdings ----------

  /** Every instruction moves the book as the ledger says: what the account methods promise. */
  lemma InstructionMovesBook(x: Exchange, e: Event, x1: Exchange) returns (ms: seq<Move>)
    requires Do(x, e) == Ok(x1)
    ensures |ms| <= 1
    ensures ms == [] ==> x1.book == x.book
    ensures ms != [] ==> Moves(x.book, ms[0], x1.book)
    ensures e.instruction.BuyingYt? ==> ms != [] && ms[0].BoughtYt? && ms[0].borrowed == e.instruction.syToStrip - e.instruction.syIn
  {
    match e.instruction
    case Trading(netTraderPt, _, curve) => ms := [Traded(TradeOf(netTraderPt, curve, x.feeBps).value)];
    case BuyingYt(syIn, syToStrip, sy, curve) =>
      var (v1, r1, minted) := HandleStrip(x.vault, x.robot, e.now, sy, syToStrip).value;
      var t := TradeOf(0 - minted, curve, x.feeBps).value;
      ms := [BoughtYt(syToStrip - syIn, t.sy, minted, t.fee)];
    case SellingYt(ytIn, _, _, curve) => ms := [SoldYt(TradeOf(ytIn, curve, x.feeBps).value)];
    case Providing(ptIn, syIn, lpOut, _) => ms := [Provided(ptIn, syIn, lpOut)];
    case Removing(lpIn, ptOut, syOut) => ms := [Removed(ptOut, syOut, lpIn)];
    case Stripping(_, _) => ms := [];
    case Merging(_, _) => ms := [];
  }

  /** Over any run of instructions the pool holds the PT it records, and the SY it records plus what
      the YT purchases left behind, which only grows. */
  lemma {:induction false} PoolHoldsWhatItRecords(x: Exchange, events: seq<Event>, leftovers: nat) returns (after: nat)
    requires InOrder(x.book, leftovers)
    ensures leftovers <= after && InOrder(Run(x, events).book, after)
    decreases |events|
  {
    after := leftovers;
    if events != [] {
      var r := Do(x, events[0]);
      if r.Ok? {
        var ms := InstructionMovesBook(x, events[0], r.value);
        if ms != [] {
          after := after + Leftover(ms[0]);
        }
      }
      after := PoolHoldsWhatItRecords(Step(x, events[0]), events[1..], after);
    }
  }
}
