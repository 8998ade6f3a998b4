/** The market's recorded balances beside the tokens it really holds. The curve is whatever it
    is: trades are taken with any output that passes the handler's own assertions. */
module MarketLedger {
  import opened Outcome
  import opened FixedPoint

  /** What the market records (`ptBalance`, `syBalance`), what it holds (`ptEscrow`, and `syPosition`
      at the SY program), its pass-through SY account, its fee account and its LP supply. */
  datatype Book = Book(
    ptBalance: nat,
    syBalance: nat,
    ptEscrow: nat,
    syPosition: nat,
    syEscrow: nat,
    feeTreasury: nat,
    lpSupply: nat,
    flash: bool)

  datatype Wallet = Wallet(pt: nat, sy: nat, yt: nat, lp: nat)

  /** Amounts of one PT trade: `pt` and `sy` are the changes to the trader. */
  datatype Trade = Trade(pt: int, sy: int, fee: nat)

  /** What the curve answers to a trade. */
  datatype CurveOutput = CurveOutput(netTraderSy: int, syFee: nat)

  // ---------- net effects ----------

  /** A trade moves PT and SY one way each, on record and for real alike, and the fee leaves the
      pool in both. */
  predicate TradedBook(b: Book, b1: Book, t: Trade) {
    && b1.ptBalance == b.ptBalance - t.pt && b1.ptEscrow == b.ptEscrow - t.pt
    && b1.syBalance == b.syBalance - t.sy - t.fee && b1.syPosition == b.syPosition - t.sy - t.fee
    && b1.feeTreasury == b.feeTreasury + t.fee
    && b1 == b.(ptBalance := b1.ptBalance, syBalance := b1.syBalance, ptEscrow := b1.ptEscrow,
                syPosition := b1.syPosition, feeTreasury := b1.feeTreasury)
  }

  predicate TradedWallet(w: Wallet, w1: Wallet, t: Trade) {
    w1.pt == w.pt + t.pt && w1.sy == w.sy + t.sy && w1 == w.(pt := w1.pt, sy := w1.sy)
  }

  predicate OppositeSigns(t: Trade) {
    (t.pt > 0 && t.sy < 0) || (t.pt < 0 && t.sy > 0)
  }

  /** Buying YT: the pool takes in all the PT minted; it pays out what was borrowed, but takes the
      whole proceeds of the sale off its record. */
  predicate BoughtBook(b: Book, b1: Book, borrowed: nat, received: nat, pt: nat, fee: nat) {
    && borrowed <= received
    && b1.ptBalance == b.ptBalance + pt && b1.ptEscrow == b.ptEscrow + pt
    && b1.syBalance == b.syBalance - received - fee
    && b1.syPosition == b.syPosition - borrowed - fee
    && b1.feeTreasury == b.feeTreasury + fee
    && b1 == b.(ptBalance := b1.ptBalance, syBalance := b1.syBalance, ptEscrow := b1.ptEscrow,
                syPosition := b1.syPosition, feeTreasury := b1.feeTreasury, flash := false)
  }

  /** Liquidity of both kinds in or out, with the LP minted or burned for it. */
  predicate LiquidityBook(b: Book, b1: Book, pt: int, sy: int, lp: int) {
    && b1.ptBalance == b.ptBalance + pt && b1.ptEscrow == b.ptEscrow + pt
    && b1.syBalance == b.syBalance + sy && b1.syPosition == b.syPosition + sy
    && b1.lpSupply == b.lpSupply + lp
    && b1 == b.(ptBalance := b1.ptBalance, syBalance := b1.syBalance, ptEscrow := b1.ptEscrow,
                syPosition := b1.syPosition, lpSupply := b1.lpSupply)
  }

  /** Everything a trade needs to go through: the record covers it, and so do the tokens. */
  predicate CanTrade(b: Book, w: Wallet, t: Trade, syConstraint: int) {
    && OppositeSigns(t) && t.sy >= syConstraint
    && (t.pt > 0 ==>
          && t.pt <= b.ptBalance && b.syBalance - t.sy <= U64_MAX
          && t.pt <= b.ptEscrow && t.fee <= -t.sy <= w.sy)
    && (t.pt < 0 ==>
          && b.ptBalance - t.pt <= U64_MAX && t.sy + t.fee <= b.syBalance
          && -t.pt <= w.pt && t.sy + t.fee <= b.syPosition)
  }

  /** The trade a curve output stands for; the treasury's share must fit before it is divided. */
  function TradeOf(netTraderPt: int, curve: CurveOutput, feeBps: nat): Result<Trade> {
    var scaled :- ToU64(curve.syFee * feeBps);
    Ok(Trade(netTraderPt, curve.netTraderSy, scaled / 10000))
  }

  predicate Tradable(b: Book, w: Wallet, netTraderPt: int, syConstraint: int, curve: CurveOutput, feeBps: nat) {
    var t := TradeOf(netTraderPt, curve, feeBps);
    t.Ok? && CanTrade(b, w, t.value, syConstraint)
  }

  /** What a purchase of YT needs: some SY of the trader's own, the loan, and the sale of all the PT for at least
      the loan. Repaying never fails. */
  predicate Buyable(b: Book, w: Wallet, syIn: nat, syToStrip: nat, minted: nat, curve: CurveOutput, feeBps: nat) {
    && 0 < syIn < syToStrip && syToStrip - syIn <= I64_MAX && minted <= I64_MAX
    && syToStrip - syIn <= b.syPosition && syIn <= w.sy
    && Tradable(b.(syPosition := b.syPosition - (syToStrip - syIn), flash := true),
                w.(pt := w.pt + minted, sy := w.sy - syIn, yt := w.yt + minted),
                0 - minted, syToStrip - syIn, curve, feeBps)
  }

  /** What a sale of YT needs: twice the PT on record, the YT, and PT bought back for at most the SY of
      the merge less the seller's minimum. Repaying never fails. */
  predicate Sellable(b: Book, w: Wallet, ytIn: nat, minSyOut: nat, merged: nat, curve: CurveOutput, feeBps: nat) {
    && ytIn * 2 <= b.ptBalance && ytIn <= b.ptEscrow && ytIn <= w.yt && ytIn <= I64_MAX && merged <= I64_MAX
    && Tradable(b.(ptEscrow := b.ptEscrow - ytIn, flash := true), w.(sy := w.sy + merged, yt := w.yt - ytIn),
                ytIn, minSyOut - merged, curve, feeBps)
  }

  // ---------- the instructions, token by token ----------

  class TraderAccount {
    var pt: nat
    var sy: nat
    var yt: nat
    var lp: nat

    function View(): Wallet
      reads this
    {
      Wallet(pt, sy, yt, lp)
    }
  }

  class MarketAccount {
    var ptBalance: nat
    var syBalance: nat
    var ptEscrow: nat
    var syPosition: nat
    var syEscrow: nat
    var feeTreasury: nat
    var lpSupply: nat
    var flash: bool
    var feeBps: nat

    function View(): Book
      reads this
    {
      Book(ptBalance, syBalance, ptEscrow, syPosition, syEscrow, feeTreasury, lpSupply, flash)
    }

    constructor (pt: nat, sy: nat, lp: nat, feeBps: nat)
      ensures View() == Book(pt, sy, pt, sy, 0, 0, lp, false) && this.feeBps == feeBps
    {
      ptBalance, syBalance, ptEscrow, syPosition := pt, sy, pt, sy;
      syEscrow, feeTreasury, lpSupply, flash, this.feeBps := 0, 0, lp, false, feeBps;
    }

    /** `MarketFinancials::trade_pt`: only the record. */
    method RecordTrade(netTraderPt: int, curve: CurveOutput) returns (r: Result<Trade>)
      modifies this`ptBalance, this`syBalance
      ensures var t := TradeOf(netTraderPt, curve, feeBps);
              r.Ok? <==>
                && t.Ok?
                && (netTraderPt > 0 ==>
                      && netTraderPt <= old(ptBalance) && old(syBalance) + Abs(t.value.sy) <= U64_MAX
                      && t.value.fee <= old(syBalance) + Abs(t.value.sy))
                && (netTraderPt <= 0 ==>
                      old(ptBalance) - netTraderPt <= U64_MAX && Abs(t.value.sy) + t.value.fee <= old(syBalance))
      ensures r.Ok? ==>
        && r == TradeOf(netTraderPt, curve, feeBps) && ptBalance == old(ptBalance) - netTraderPt
        && (netTraderPt > 0 ==> syBalance == old(syBalance) + Abs(r.value.sy) - r.value.fee)
        && (netTraderPt <= 0 ==> syBalance == old(syBalance) - Abs(r.value.sy) - r.value.fee)
    {
      var change := Abs(curve.netTraderSy);
      var scaled :- ToU64(curve.syFee * feeBps);
      var fee := scaled / 10000;
      if netTraderPt > 0 {
        ptBalance :- CheckedSub(ptBalance, netTraderPt);
        syBalance :- CheckedAdd(syBalance, change);
      } else {
        ptBalance :- CheckedAdd(ptBalance, -netTraderPt);
        syBalance :- CheckedSub(syBalance, change);
      }
      syBalance :- CheckedSub(syBalance, fee);
      return Ok(Trade(netTraderPt, curve.netTraderSy, fee));
    }

    /** Deposit the pass-through account's SY with the SY program. */
    method DepositSy(amount: nat) returns (r: Result<()>)
      modifies this`syEscrow, this`syPosition
      ensures r.Ok? <==> amount <= old(syEscrow)
      ensures r.Ok? ==> syEscrow == old(syEscrow) - amount && syPosition == old(syPosition) + amount
    {
      syEscrow :- CheckedSub(syEscrow, amount);
      syPosition := syPosition + amount;
      return Ok(());
    }

    method WithdrawSy(amount: nat) returns (r: Result<()>)
      modifies this`syEscrow, this`syPosition
      ensures r.Ok? <==> amount <= old(syPosition)
      ensures r.Ok? ==> syEscrow == old(syEscrow) + amount && syPosition == old(syPosition) - amount
    {
      syPosition :- CheckedSub(syPosition, amount);
      syEscrow := syEscrow + amount;
      return Ok(());
    }

    method TransferSy(trader: TraderAccount, isBuy: bool, amount: nat, fee: nat) returns (r: Result<()>)
      modifies this`syEscrow, this`syPosition, this`feeTreasury, trader`sy
      ensures r.Ok? <==> if isBuy then fee <= amount <= old(trader.sy) else amount + fee <= old(syPosition)
      ensures r.Ok? ==>
        && syEscrow == old(syEscrow) && feeTreasury == old(feeTreasury) + fee
        && (isBuy ==> trader.sy == old(trader.sy) - amount && syPosition == old(syPosition) + amount - fee)
        && (!isBuy ==> trader.sy == old(trader.sy) + amount && syPosition == old(syPosition) - amount - fee)
    {
      if isBuy {
        var toDeposit :- CheckedSub(amount, fee);
        trader.sy :- CheckedSub(trader.sy, toDeposit);
        syEscrow := syEscrow + toDeposit;
        var _ := DepositSy(toDeposit);
        trader.sy :- CheckedSub(trader.sy, fee);
        feeTreasury := feeTreasury + fee;
      } else {
        var _ :- WithdrawSy(amount + fee);
        syEscrow := syEscrow - amount;
        trader.sy := trader.sy + amount;
        syEscrow := syEscrow - fee;
        feeTreasury := feeTreasury + fee;
      }
      return Ok(());
    }

    method TradePt(trader: TraderAccount, netTraderPt: int, syConstraint: int, curve: CurveOutput, active: bool)
      returns (r: Result<Trade>)
      modifies this, trader
      ensures r.Ok? <==> active && Tradable(old(View()), old(trader.View()), netTraderPt, syConstraint, curve, old(feeBps))
      ensures r.Ok? ==>
        && r == TradeOf(netTraderPt, curve, feeBps)
        && TradedBook(old(View()), View(), r.value) && TradedWallet(old(trader.View()), trader.View(), r.value)
        && OppositeSigns(r.value) && r.value.pt == netTraderPt && r.value.sy >= syConstraint
        && feeBps == old(feeBps)
    {
      if !active {
        return Reverted(AssertionFailed);
      }
      var t :- RecordTrade(netTraderPt, curve);
      if !OppositeSigns(t) || t.sy < syConstraint {
        return Reverted(AssertionFailed);
      }
      var amount := Abs(t.pt);
      if t.pt > 0 {
        ptEscrow :- CheckedSub(ptEscrow, amount);
        trader.pt := trader.pt + amount;
      } else {
        trader.pt :- CheckedSub(trader.pt, amount);
        ptEscrow := ptEscrow + amount;
      }
      var _ :- TransferSy(trader, t.pt > 0, Abs(t.sy), t.fee);
      return Ok(t);
    }

    /** The loan of SY and its stripping into PT and YT. */
    method BorrowAndStrip(trader: TraderAccount, syIn: nat, borrowed: nat, minted: nat) returns (r: Result<()>)
      modifies this, trader
      ensures r.Ok? <==> borrowed <= old(syPosition) && syIn <= old(trader.sy)
      ensures r.Ok? ==>
        && View() == old(View()).(syPosition := old(syPosition) - borrowed) && feeBps == old(feeBps)
        && trader.View() == old(trader.View()).(pt := old(trader.pt) + minted, sy := old(trader.sy) - syIn,
                                                yt := old(trader.yt) + minted)
    {
      var _ :- WithdrawSy(borrowed);
      syEscrow := syEscrow - borrowed;
      trader.sy := trader.sy + borrowed;
      trader.sy :- CheckedSub(trader.sy, syIn + borrowed);
      trader.pt := trader.pt + minted;
      trader.yt := trader.yt + minted;
      return Ok(());
    }

    /** Borrow SY, strip it, sell all the PT, repay everything received. `minted` is what the vault's
        strip returns. */
    method BuyYt(trader: TraderAccount, syIn: nat, syToStrip: nat, minted: nat, curve: CurveOutput, active: bool)
      returns (r: Result<Trade>)
      modifies this, trader
      ensures r.Ok? <==> active && Buyable(old(View()), old(trader.View()), syIn, syToStrip, minted, curve, old(feeBps))
      ensures r.Ok? ==>
        && 0 < syIn < syToStrip && r.value.sy >= 0 && feeBps == old(feeBps)
        && r == TradeOf(0 - minted, curve, feeBps)
        && BoughtBook(old(View()), View(), syToStrip - syIn, r.value.sy, minted, r.value.fee)
        && trader.View() == old(trader.View()).(sy := trader.sy, yt := trader.yt)
        && trader.sy == old(trader.sy) - syIn
        && trader.yt == old(trader.yt) + minted
    {
      if syToStrip <= syIn {
        return Reverted(AssertionFailed);
      }
      var borrowed := syToStrip - syIn;
      if borrowed >= syToStrip {
        return Reverted(AssertionFailed);
      }
      if syToStrip - borrowed > syIn {
        return Reverted(AssertionFailed);
      }
      var _ :- BorrowAndStrip(trader, syIn, borrowed, minted);

      flash := true;
      var before := syBalance;
      var ptSell :- ToI64(minted);
      var atLeast :- ToI64(borrowed);
      var t :- TradePt(trader, 0 - ptSell, atLeast, curve, active);
      var received := t.sy;
      if received < borrowed {
        return Reverted(AssertionFailed);
      }
      flash := false;
      if syBalance > before - received {
        return Reverted(AssertionFailed);
      }
      var toRepay := borrowed + (received - borrowed);
      trader.sy :- CheckedSub(trader.sy, toRepay);
      syEscrow := syEscrow + toRepay;
      var _ := DepositSy(toRepay);
      return Ok(t);
    }

    /** Borrow PT, merge it with YT, buy the PT back with the SY, repay. `merged` is what the vault's
        merge returns. */
    method SellYt(trader: TraderAccount, ytIn: nat, minSyOut: nat, merged: nat, curve: CurveOutput, active: bool)
      returns (r: Result<Trade>)
      modifies this, trader
      ensures r.Ok? <==> active && Sellable(old(View()), old(trader.View()), ytIn, minSyOut, merged, curve, old(feeBps))
      ensures r.Ok? ==>
        var t := r.value;
        && r == TradeOf(ytIn, curve, feeBps) && feeBps == old(feeBps)
        && t.pt == ytIn && t.sy < 0
        && TradedBook(old(View()).(flash := false), View(), t)
        && trader.View() == old(trader.View()).(sy := trader.sy, yt := trader.yt)
        && trader.yt == old(trader.yt) - ytIn
        && trader.sy == old(trader.sy) + merged + t.sy
        && trader.sy >= old(trader.sy) + minSyOut
    {
      if ptBalance < ytIn * 2 {
        return Reverted(AssertionFailed);
      }
      ptEscrow :- CheckedSub(ptEscrow, ytIn);
      trader.pt := trader.pt + ytIn;

      trader.pt := trader.pt - ytIn;
      trader.yt :- CheckedSub(trader.yt, ytIn);
      trader.sy := trader.sy + merged;

      var atMost :- ToI64(merged);
      flash := true;
      var ptBuy :- ToI64(ytIn);
      var t :- TradePt(trader, ptBuy, 0 - atMost, curve, active);
      flash := false;
      var left := merged - Abs(t.sy);
      if left < minSyOut {
        return Reverted(AssertionFailed);
      }
      trader.pt := trader.pt - ytIn;
      ptEscrow := ptEscrow + ytIn;
      return Ok(t);
    }

    /** `ptIn`, `syIn` and `lpOut` are what the liquidity formula answers. */
    method DepositLiquidity(provider: TraderAccount, ptIn: nat, syIn: nat, lpOut: nat, minLpOut: nat, maxLp: nat,
                            active: bool)
      returns (r: Result<()>)
      modifies this, provider
      ensures r.Ok? <==>
        && active && old(ptBalance) + ptIn <= U64_MAX && old(syBalance) + syIn <= U64_MAX
        && minLpOut <= lpOut && old(lpSupply) + lpOut <= maxLp
        && ptIn <= old(provider.pt) && syIn <= old(provider.sy)
      ensures r.Ok? ==>
        && LiquidityBook(old(View()), View(), ptIn, syIn, lpOut)
        && provider.View() == old(provider.View()).(pt := provider.pt, sy := provider.sy, lp := provider.lp)
        && provider.pt == old(provider.pt) - ptIn && provider.sy == old(provider.sy) - syIn
        && provider.lp == old(provider.lp) + lpOut && lpOut >= minLpOut && lpSupply <= maxLp
    {
      if !active {
        return Reverted(VaultNotActive);
      }
      ptBalance :- CheckedAdd(ptBalance, ptIn);
      syBalance :- CheckedAdd(syBalance, syIn);
      if lpOut < minLpOut {
        return Reverted(AmountTooLarge);
      }
      provider.pt :- CheckedSub(provider.pt, ptIn);
      ptEscrow := ptEscrow + ptIn;
      provider.sy :- CheckedSub(provider.sy, syIn);
      syEscrow := syEscrow + syIn;
      lpSupply := lpSupply + lpOut;
      provider.lp := provider.lp + lpOut;
      var _ := DepositSy(syIn);
      if lpSupply > maxLp {
        return Reverted(SupplyCapExceeded);
      }
      return Ok(());
    }

    method WithdrawLiquidity(provider: TraderAccount, lpIn: nat, ptOut: nat, syOut: nat, minPtOut: nat, minSyOut: nat)
      returns (r: Result<()>)
      modifies this, provider
      ensures r.Ok? <==>
        && lpIn <= old(lpSupply) && lpIn <= old(provider.lp)
        && minPtOut <= ptOut && minSyOut <= syOut
        && ptOut <= old(ptBalance) && ptOut <= old(ptEscrow) && syOut <= old(syBalance) && syOut <= old(syPosition)
      ensures r.Ok? ==>
        && LiquidityBook(old(View()), View(), 0 - ptOut, 0 - syOut, 0 - lpIn)
        && provider.View() == old(provider.View()).(pt := provider.pt, sy := provider.sy, lp := provider.lp)
        && provider.pt == old(provider.pt) + ptOut && provider.sy == old(provider.sy) + syOut
        && provider.lp == old(provider.lp) - lpIn && ptOut >= minPtOut && syOut >= minSyOut
    {
      if lpIn > lpSupply {
        return Reverted(AssertionFailed);
      }
      ptBalance :- CheckedSub(ptBalance, ptOut);
      syBalance :- CheckedSub(syBalance, syOut);
      if syOut < minSyOut || ptOut < minPtOut {
        return Reverted(AmountTooLarge);
      }
      provider.lp :- CheckedSub(provider.lp, lpIn);
      lpSupply := lpSupply - lpIn;
      var _ :- WithdrawSy(syOut);
      ptEscrow :- CheckedSub(ptEscrow, ptOut);
      provider.pt := provider.pt + ptOut;
      syEscrow := syEscrow - syOut;
      provider.sy := provider.sy + syOut;
      return Ok(());
    }
  }

  // ---------- runs ----------

  /** One committed instruction, by its net effect on the book. */
  datatype Move =
    | Traded(t: Trade)
    | BoughtYt(borrowed: nat, received: nat, pt: nat, fee: nat)
    | SoldYt(t: Trade)
    | Provided(pt: nat, sy: nat, lp: nat)
    | Removed(pt: nat, sy: nat, lp: nat)

  predicate Moves(b: Book, m: Move, b1: Book) {
    match m
    case Traded(t) => TradedBook(b, b1, t)
    case BoughtYt(borrowed, received, pt, fee) => BoughtBook(b, b1, borrowed, received, pt, fee)
    case SoldYt(t) => TradedBook(b.(flash := false), b1, t)
    case Provided(pt, sy, lp) => LiquidityBook(b, b1, pt, sy, lp)
    case Removed(pt, sy, lp) => LiquidityBook(b, b1, 0 - pt, 0 - sy, 0 - lp)
  }

  /** SY a purchase of YT leaves in the pool without recording it. */
  function Leftover(m: Move): nat {
    if m.BoughtYt? && m.borrowed <= m.received then m.received - m.borrowed else 0
  }

  function Leftovers(ms: seq<Move>): nat {
    if ms == [] then 0 else Leftover(ms[0]) + Leftovers(ms[1..])
  }

  predicate Linked(books: seq<Book>, ms: seq<Move>) {
    |books| == |ms| + 1 && forall i :: 0 <= i < |ms| ==> Moves(books[i], ms[i], books[i + 1])
  }

  /** The record of PT is the PT held; the SY held is the SY recorded and every leftover so far. */
  predicate InOrder(b: Book, leftovers: nat) {
    b.ptBalance == b.ptEscrow && b.syPosition == b.syBalance + leftovers && b.syEscrow == 0
  }

  /** Over any run of trades, flash swaps and liquidity changes, whatever the curve answered, the
      recorded PT is exactly the PT held, and the SY held is the SY recorded plus the leftovers of
      the YT purchases: the pool can always pay what it records. */
  lemma {:induction false} RecordMatchesHoldings(books: seq<Book>, ms: seq<Move>, leftovers: nat)
    requires Linked(books, ms) && InOrder(books[0], leftovers)
    ensures InOrder(books[|ms|], leftovers + Leftovers(ms))
    decreases |ms|
  {
    if ms != [] {
      assert InOrder(books[1], leftovers + Leftover(ms[0]));
      forall i | 0 <= i < |ms[1..]| ensures Moves(books[1..][i], ms[1..][i], books[1..][i + 1]) {
        assert Moves(books[i + 1], ms[i + 1], books[i + 2]);
      }
      RecordMatchesHoldings(books[1..], ms[1..], leftovers + Leftover(ms[0]));
    }
  }

  /** Tokens in: liquidity and trades. The pool's own gain and the fees account for every token. */
  function SyTaken(m: Move): int {
    match m
    case Traded(t) => -t.sy
    case BoughtYt(borrowed, _, _, _) => 0 - borrowed
    case SoldYt(t) => -t.sy
    case Provided(_, sy, _) => sy
    case Removed(_, sy, _) => 0 - sy
  }

  function SyTakenAll(ms: seq<Move>): int {
    if ms == [] then 0 else SyTaken(ms[0]) + SyTakenAll(ms[1..])
  }

  /** No SY is created or lost: what the pool and its treasury hold changes by what traders and
      providers put in or took out. */
  lemma {:induction false} SyIsConserved(books: seq<Book>, ms: seq<Move>)
    requires Linked(books, ms)
    ensures books[|ms|].syPosition + books[|ms|].syEscrow + books[|ms|].feeTreasury
         == books[0].syPosition + books[0].syEscrow + books[0].feeTreasury + SyTakenAll(ms)
    decreases |ms|
  {
    if ms != [] {
      assert Moves(books[0], ms[0], books[1]);
      forall i | 0 <= i < |ms[1..]| ensures Moves(books[1..][i], ms[1..][i], books[1..][i + 1]) {
        assert Moves(books[i + 1], ms[i + 1], books[i + 2]);
      }
      SyIsConserved(books[1..], ms[1..]);
    }
  }

  /** In an orderly book the record is the only limit: a trade that it allows, and that the trader can
      pay for, never fails for want of the pool's tokens. */
  lemma RecordIsTheOnlyLimit(b: Book, leftovers: nat, w: Wallet, t: Trade, syConstraint: int)
    requires InOrder(b, leftovers)
    ensures CanTrade(b, w, t, syConstraint) <==>
      && OppositeSigns(t) && t.sy >= syConstraint
      && (t.pt > 0 ==> t.pt <= b.ptBalance && b.syBalance - t.sy <= U64_MAX && t.fee <= -t.sy <= w.sy)
      && (t.pt < 0 ==> b.ptBalance - t.pt <= U64_MAX && t.sy + t.fee <= b.syBalance && -t.pt <= w.pt)
  {
  }
}
