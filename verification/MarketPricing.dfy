/** A trade against the market's own books: the curve is real-valued, while balances, SY amounts
    and fees are integers, rounded where the market rounds them. */
module MarketPricing {
  import opened Outcome
  import opened FixedPoint
  import opened Curve
  import Liquidity
  import MarketLedger

  datatype Pool = Pool(pt: nat, sy: nat, lnRate: Option<real>)

  /** `netSy` is the change to the trader; `feeTaken` is the part of the fee that leaves the pool. */
  datatype Traded = Traded(pool: Pool, netSy: int, syFee: nat, feeTaken: nat)

  function AssetFloor(t: Terms, sy: nat): nat {
    MulFloor(t.syRate, sy)
  }

  function CeilU64(raw: nat): nat {
    (raw + ONE - 1) / ONE
  }

  function AssetCeil(t: Terms, sy: nat): nat {
    CeilU64(t.syRate * sy)
  }

  /** The curve's present anchor, from the last implied rate and the asset rounded down. */
  function CurrentAnchor(t: Terms, pool: Pool): Option<real>
    requires Open(t)
  {
    FindRateAnchor(t, pool.pt, AssetFloor(t, pool.sy), pool.lnRate)
  }

  /** SY for an asset amount: floored away from the trader before it is made an integer, then
      rounded up when the trader pays and down when the trader is paid. */
  function SyFromAsset(t: Terms, netTraderAsset: real): Result<int>
    requires t.syRate > 0
  {
    var floored := netTraderAsset.Floor;
    if netTraderAsset < 0.0 then
      var asset :- ToU64(-floored);
      var sy :- ToI64(CeilU64(Quotient(asset * ONE, t.syRate)));
      Ok(0 - sy)
    else
      var asset :- ToU64(floored);
      ToI64(DivFloor(asset, t.syRate))
  }

  function SyFromFee(t: Terms, assetFee: real): Result<nat>
    requires t.syRate > 0
  {
    var floored := (assetFee / (t.syRate as real / ONE as real)).Floor;
    if floored < 0 then Reverted(Overflow) else ToU64(floored)
  }

  /** Balances, fee and implied rate once the curve has answered. */
  function Settle(t: Terms, pool: Pool, anchor: real, netTraderPt: int, quote: Quote): Result<Traded>
    requires Open(t)
  {
    var netSy :- SyFromAsset(t, quote.netTraderAsset);
    var syFee :- SyFromFee(t, quote.assetFee);
    var scaled :- ToU64(syFee * t.feeBps);
    var feeTaken := scaled / 10000;
    var pt :- if netTraderPt > 0 then CheckedSub(pool.pt, netTraderPt) else CheckedAdd(pool.pt, 0 - netTraderPt);
    var moved :- if netTraderPt > 0 then CheckedAdd(pool.sy, Abs(netSy)) else CheckedSub(pool.sy, Abs(netSy));
    var sy :- CheckedSub(moved, feeTaken);
    var assetAfter :- ToU64(AssetFloor(t, sy));
    Ok(Traded(Pool(pt, sy, LnImpliedRate(t, pt, assetAfter, anchor)), netSy, syFee, feeTaken))
  }

  function PriceTrade(t: Terms, pool: Pool, netTraderPt: int, flash: bool): Result<Traded>
    requires Open(t)
  {
    var asset :- ToU64(if netTraderPt > 0 then AssetCeil(t, pool.sy) else AssetFloor(t, pool.sy));
    var anchor := CurrentAnchor(t, pool);
    if anchor.None? then Reverted(AssertionFailed)
    else
      var quote :- Trade(t, pool.pt, asset, anchor.value, netTraderPt, flash);
      Settle(t, pool, anchor.value, netTraderPt, quote)
  }

  /** The market's own record, updated in place. */
  class MarketFinancials {
    var ptBalance: nat
    var syBalance: nat
    var lastLnImpliedRate: Option<real>

    function View(): Pool
      reads this
    {
      Pool(ptBalance, syBalance, lastLnImpliedRate)
    }

    constructor (pt: nat, sy: nat, lnRate: real)
      ensures View() == Pool(pt, sy, Some(lnRate))
    {
      ptBalance, syBalance, lastLnImpliedRate := pt, sy, Some(lnRate);
    }

    /** The balance changes of a trade, in the order they are made. */
    method BookTrade(t: Terms, anchor: real, netTraderPt: int, quote: Quote) returns (r: Result<Traded>)
      requires Open(t)
      modifies this
      ensures r.Ok? <==> Settle(t, old(View()), anchor, netTraderPt, quote).Ok?
      ensures r.Ok? ==> r == Settle(t, old(View()), anchor, netTraderPt, quote) && View() == r.value.pool
    {
      var netSy :- SyFromAsset(t, quote.netTraderAsset);
      var change := Abs(netSy);
      var syFee :- SyFromFee(t, quote.assetFee);
      var scaled :- ToU64(syFee * t.feeBps);
      var feeTaken := scaled / 10000;
      if netTraderPt > 0 {
        ptBalance :- CheckedSub(ptBalance, netTraderPt);
        syBalance :- CheckedAdd(syBalance, change);
      } else {
        ptBalance :- CheckedAdd(ptBalance, 0 - netTraderPt);
        syBalance :- CheckedSub(syBalance, change);
      }
      syBalance :- CheckedSub(syBalance, feeTaken);
      var assetAfter :- ToU64(AssetFloor(t, syBalance));
      lastLnImpliedRate := LnImpliedRate(t, ptBalance, assetAfter, anchor);
      return Ok(Traded(View(), netSy, syFee, feeTaken));
    }

    method TradePt(t: Terms, netTraderPt: int, flash: bool) returns (r: Result<Traded>)
      requires Open(t)
      modifies this
      ensures r.Ok? <==> PriceTrade(t, old(View()), netTraderPt, flash).Ok?
      ensures r.Ok? ==> r == PriceTrade(t, old(View()), netTraderPt, flash) && View() == r.value.pool
    {
      var isBuy := netTraderPt > 0;
      var asset :- ToU64(if isBuy then AssetCeil(t, syBalance) else AssetFloor(t, syBalance));
      var anchor := CurrentAnchor(t, View());
      if anchor.None? {
        return Reverted(AssertionFailed);
      }
      var quote :- Trade(t, ptBalance, asset, anchor.value, netTraderPt, flash);
      r := BookTrade(t, anchor.value, netTraderPt, quote);
    }

    method AddLiquidity(syIntent: nat, ptIntent: nat, lpSupply: nat) returns (r: Result<Liquidity.Added>)
      requires Liquidity.Live(Liquidity.Reserves(syBalance, ptBalance, lpSupply))
      modifies this`ptBalance, this`syBalance
      ensures var added := Liquidity.AddLiquidity(Liquidity.Reserves(old(syBalance), old(ptBalance), lpSupply), syIntent, ptIntent);
              r.Ok? <==> old(ptBalance) + added.ptIn <= U64_MAX && old(syBalance) + added.syIn <= U64_MAX
      ensures r.Ok? ==>
        && r.value == Liquidity.AddLiquidity(Liquidity.Reserves(old(syBalance), old(ptBalance), lpSupply), syIntent, ptIntent)
        && ptBalance == old(ptBalance) + r.value.ptIn && syBalance == old(syBalance) + r.value.syIn
    {
      var added := Liquidity.AddLiquidity(Liquidity.Reserves(syBalance, ptBalance, lpSupply), syIntent, ptIntent);
      ptBalance :- CheckedAdd(ptBalance, added.ptIn);
      syBalance :- CheckedAdd(syBalance, added.syIn);
      return Ok(added);
    }

    method RmLiquidity(lpIn: nat, lpSupply: nat) returns (r: Result<Liquidity.Removed>)
      requires lpSupply > 0 && ptBalance <= U64_MAX && syBalance <= U64_MAX
      modifies this`ptBalance, this`syBalance
      ensures r.Ok? <==> lpIn <= lpSupply
      ensures r.Ok? ==>
        && r.value.syOut == old(syBalance) * lpIn / lpSupply && r.value.ptOut == old(ptBalance) * lpIn / lpSupply
        && ptBalance == old(ptBalance) - r.value.ptOut && syBalance == old(syBalance) - r.value.syOut
    {
      if lpIn > lpSupply {
        return Reverted(AssertionFailed);
      }
      var p := Liquidity.Reserves(syBalance, ptBalance, lpSupply);
      Liquidity.RemoveIsFair(p, lpIn);
      var removed := Liquidity.RemoveLiquidity(p, lpIn).value;
      ptBalance := ptBalance - removed.ptOut;
      syBalance := syBalance - removed.syOut;
      return Ok(removed);
    }
  }

  // ---------- one trade ----------

  /** A trade does not move the anchor: the curve it leaves behind, read again in the same second, is
      the curve it was priced on. When the new rate is undefined, every further trade reverts. */
  lemma TradeKeepsAnchor(t: Terms, pool: Pool, netTraderPt: int, flash: bool, traded: Traded)
    requires Open(t) && Logarithm(t.ln, t.exp) && PriceTrade(t, pool, netTraderPt, flash) == Ok(traded)
    ensures CurrentAnchor(t, traded.pool) == if traded.pool.lnRate.Some? then CurrentAnchor(t, pool) else None
  {
    var after := traded.pool;
    if after.lnRate.Some? {
      AnchorRecoversRate(t, after.pt, AssetFloor(t, after.sy), CurrentAnchor(t, pool).value);
    }
  }

  /** A priced trade with the signs the handler insists on is a trade of the ledger: the balances the
      curve works on move by exactly the PT, SY and fee that change hands. */
  lemma PricedTradeFitsLedger(t: Terms, pool: Pool, netTraderPt: int, flash: bool, r: Traded)
    requires Open(t) && PriceTrade(t, pool, netTraderPt, flash) == Ok(r)
    requires MarketLedger.OppositeSigns(MarketLedger.Trade(netTraderPt, r.netSy, r.feeTaken))
    ensures MarketLedger.TradeOf(netTraderPt, MarketLedger.CurveOutput(r.netSy, r.syFee), t.feeBps)
         == Ok(MarketLedger.Trade(netTraderPt, r.netSy, r.feeTaken))
    ensures r.pool.pt == pool.pt - netTraderPt && r.pool.sy == pool.sy - r.netSy - r.feeTaken
  {
    var asset := if netTraderPt > 0 then AssetCeil(t, pool.sy) else AssetFloor(t, pool.sy);
    var anchor := CurrentAnchor(t, pool).value;
    var quote := Trade(t, pool.pt, asset, anchor, netTraderPt, flash).value;
    assert Settle(t, pool, anchor, netTraderPt, quote) == Ok(r);
  }

  // ---------- there and back ----------

  /** Being paid less asset than was paid in never pays more SY, whatever the roundings. */
  lemma PaidIsAtLeastReceived(t: Terms, paid: real, received: real)
    requires t.syRate > 0 && SyFromAsset(t, paid).Ok? && SyFromAsset(t, received).Ok?
    requires paid < 0.0 && received <= -paid
    ensures SyFromAsset(t, paid).value + SyFromAsset(t, received).value <= 0
  {
    if received >= 0.0 {
      var owed: nat, given: nat := -paid.Floor, received.Floor;
      assert given <= owed;
      MulMono(given, owed, ONE);
      DivBounds(given * ONE, t.syRate);
      DivIsAtLeast(owed * ONE, t.syRate, DivFloor(given, t.syRate));
      RoundingUpIsNoLess(owed, t.syRate);
    }
  }

  /** A rounded-up quotient is never below the rounded-down one, though it is truncated first. */
  lemma RoundingUpIsNoLess(asset: nat, rate: nat)
    requires rate > 0
    ensures CeilU64(Quotient(asset * ONE, rate)) >= DivFloor(asset, rate)
  {
    TruncateTwice(asset * ONE, rate);
  }

  lemma CeilCovers(raw: nat)
    ensures CeilU64(raw) * ONE >= raw
  {
    DivBounds(raw + ONE - 1, ONE);
  }

  /** After buying `n`, either the price of selling them back is no better, or the pool took in more
      than `2n` of asset for them. */
  lemma EitherWorseOrOverpaid(pt: nat, n: nat, c: nat, f: nat)
    requires n < pt && f < c + 2 * n
    ensures (pt - n) * (pt - n + f) <= pt * (pt + c)
  {
    MulMono(pt - n + f, pt + n + c, pt - n);
    assert (pt - n) * (pt + n + c) == pt * (pt + c) - n * n - n * c;
  }

  /** The asset the market sees after taking in SY, against what it saw before. */
  lemma AssetTakenIn(t: Terms, sy: nat, added: nat, sy1: nat)
    requires sy1 <= sy + added
    ensures (AssetFloor(t, sy1) - AssetCeil(t, sy)) * ONE <= added * t.syRate
  {
    CeilCovers(t.syRate * sy);
    DivBounds(t.syRate * sy1, ONE);
    MulMono(sy1, sy + added, t.syRate);
  }

  lemma RatesFollowProportions(t: Terms, anchor: real, a: nat, b: nat, c: nat, d: nat)
    requires Open(t) && Logarithm(t.ln, t.exp)
    requires 0 < a < b && 0 < c < d && a * d <= c * b
    ensures RateAt(t, anchor, a, b) <= RateAt(t, anchor, c, d)
  {
    assert (a * d) as real == a as real * d as real && (c * b) as real == c as real * b as real;
    FractionOrder(a as real, b as real, c as real, d as real);
    FractionOrder(c as real, d as real, 1.0, 1.0);
    RateRises(t, anchor, a as real / b as real, c as real / d as real);
  }

  /** The exchange rate where PT is `a` of `b`. */
  function RateAt(t: Terms, anchor: real, a: nat, b: nat): real
    requires Open(t) && a < b
  {
    FractionOrder(a as real, b as real, 1.0, 1.0);
    assert a as real / b as real < 1.0;
    ExchangeRate(t, anchor, a as real / b as real)
  }

  predicate SameAnchor(t: Terms, pool: Pool, anchor: real, r: Traded)
    requires Open(t)
  {
    CurrentAnchor(t, pool) == Some(anchor) && (CurrentAnchor(t, r.pool) == Some(anchor) || CurrentAnchor(t, r.pool) == None)
  }

  /** One purchase: what the curve quoted, and the books it leaves. */
  predicate Bought(t: Terms, pool: Pool, n: nat, anchor: real, net: real, er: real, r: Traded)
    requires Open(t)
  {
    var c := AssetCeil(t, pool.sy);
    && n < pool.pt && er > 1.0
    && pool.pt - n < pool.pt + c && er == RateAt(t, anchor, pool.pt - n, pool.pt + c)
    && net <= -(n as real) / er && SyFromAsset(t, net) == Ok(r.netSy) && r.netSy <= 0
    && r.pool.pt == pool.pt - n && r.pool.sy == pool.sy - r.netSy - r.feeTaken
  }

  /** One sale. */
  predicate Sold(t: Terms, pool: Pool, n: nat, anchor: real, net: real, fee: real, er: real, r: Traded)
    requires Open(t)
  {
    var f := AssetFloor(t, pool.sy);
    && 0 < pool.pt && er > 1.0 && fee >= 0.0
    && pool.pt + n < pool.pt + f && er == RateAt(t, anchor, pool.pt + n, pool.pt + f)
    && net + fee == n as real / er && SyFromAsset(t, net) == Ok(r.netSy) && SyFromFee(t, fee) == Ok(r.syFee)
    && r.feeTaken == r.syFee * t.feeBps / 10000
    && r.pool.pt == pool.pt + n && r.pool.sy == pool.sy - Abs(r.netSy) - r.feeTaken
  }

  lemma PurchaseQuote(t: Terms, pt: nat, c: nat, anchor: real, n: nat, flash: bool, quote: Quote) returns (er: real)
    requires Open(t) && n > 0 && Trade(t, pt, c, anchor, n, flash) == Ok(quote)
    ensures n < pt && er > 1.0 && pt - n < pt + c && er == RateAt(t, anchor, pt - n, pt + c)
    ensures quote.netTraderAsset <= -(n as real) / er < 0.0
  {
    QuoteIsAgainstTheTrader(t, pt, c, anchor, n, flash);
    er := PostTradeRate(t, pt, c, anchor, n);
    CheaperAtHigherRate(n, er, er);
  }

  lemma SaleQuote(t: Terms, pt: nat, f: nat, anchor: real, n: nat, flash: bool, quote: Quote) returns (er: real)
    requires Open(t) && n > 0 && pt + f > 0 && Trade(t, pt, f, anchor, 0 - n, flash) == Ok(quote)
    ensures er > 1.0 && quote.assetFee >= 0.0 && pt + n < pt + f && er == RateAt(t, anchor, pt + n, pt + f)
    ensures quote.netTraderAsset + quote.assetFee == n as real / er
  {
    QuoteIsAgainstTheTrader(t, pt, f, anchor, 0 - n, flash);
    er := PostTradeRate(t, pt, f, anchor, 0 - n);
    if pt + f <= pt + n {
      FractionOrder(1.0, 1.0, (pt + n) as real, (pt + f) as real);
    }
    assert -((0 - n) as real) == n as real;
  }

  lemma QuoteOf(t: Terms, pool: Pool, netTraderPt: int, flash: bool, r: Traded) returns (anchor: real, quote: Quote)
    requires Open(t) && Logarithm(t.ln, t.exp) && PriceTrade(t, pool, netTraderPt, flash) == Ok(r)
    ensures SameAnchor(t, pool, anchor, r) && pool.pt > 0
    ensures Settle(t, pool, anchor, netTraderPt, quote) == Ok(r)
    ensures var asset := if netTraderPt > 0 then AssetCeil(t, pool.sy) else AssetFloor(t, pool.sy);
            Trade(t, pool.pt, asset, anchor, netTraderPt, flash) == Ok(quote)
  {
    TradeKeepsAnchor(t, pool, netTraderPt, flash, r);
    anchor := CurrentAnchor(t, pool).value;
    var asset := if netTraderPt > 0 then AssetCeil(t, pool.sy) else AssetFloor(t, pool.sy);
    quote := Trade(t, pool.pt, asset, anchor, netTraderPt, flash).value;
  }

  lemma BuyLeg(t: Terms, pool: Pool, n: nat, flash: bool, r: Traded) returns (anchor: real, net: real, er: real)
    requires Open(t) && Logarithm(t.ln, t.exp) && n > 0 && PriceTrade(t, pool, n, flash) == Ok(r)
    ensures SameAnchor(t, pool, anchor, r) && Bought(t, pool, n, anchor, net, er, r)
  {
    var quote: Quote;
    anchor, quote := QuoteOf(t, pool, n, flash, r);
    er := PurchaseQuote(t, pool.pt, AssetCeil(t, pool.sy), anchor, n, flash, quote);
    net := quote.netTraderAsset;
  }

  lemma SellLeg(t: Terms, pool: Pool, n: nat, flash: bool, r: Traded)
    returns (anchor: real, net: real, fee: real, er: real)
    requires Open(t) && Logarithm(t.ln, t.exp) && n > 0 && PriceTrade(t, pool, 0 - n, flash) == Ok(r)
    ensures SameAnchor(t, pool, anchor, r) && Sold(t, pool, n, anchor, net, fee, er, r)
  {
    var quote: Quote;
    anchor, quote := QuoteOf(t, pool, 0 - n, flash, r);
    er := SaleQuote(t, pool.pt, AssetFloor(t, pool.sy), anchor, n, flash, quote);
    net, fee := quote.netTraderAsset, quote.assetFee;
  }

  /** Asset worth less than `n` buys fewer SY than cover `2n`. */
  lemma ReceivedFallsShort(t: Terms, net: real, n: nat, sy: nat)
    requires t.syRate > 0 && SyFromAsset(t, net).Ok? && net < n as real && 2 * n * ONE <= sy * t.syRate
    ensures SyFromAsset(t, net).value <= sy
  {
    if net >= 0.0 {
      var given: nat := net.Floor;
      assert given <= n;
      DivBounds(given * ONE, t.syRate);
      var received := DivFloor(given, t.syRate);
      CancelFactor(received, sy, t.syRate);
    }
  }

  /** Buying PT and selling the same amount back in the same second never gains SY: not through the
      fee kept in the pool, not through any rounding, and not inside a flash swap. */
  lemma BuyThenSellNeverProfits(t: Terms, pool: Pool, n: nat, flash: bool, flashBack: bool, bought: Traded, sold: Traded)
    requires Open(t) && Logarithm(t.ln, t.exp) && n > 0
    requires PriceTrade(t, pool, n, flash) == Ok(bought)
    requires PriceTrade(t, bought.pool, 0 - n, flashBack) == Ok(sold)
    ensures sold.pool.pt == pool.pt && bought.netSy + sold.netSy <= 0
  {
    var anchor, net1, er1 := BuyLeg(t, pool, n, flash, bought);
    var again, net2, fee, er2 := SellLeg(t, bought.pool, n, flashBack, sold);
    BuyBackBound(t, pool, n, anchor, net1, net2, fee, er1, er2, bought, sold);
  }

  lemma BuyBackBound(t: Terms, pool: Pool, n: nat, anchor: real, net1: real, net2: real, fee: real, er1: real, er2: real,
                     bought: Traded, sold: Traded)
    requires Open(t) && Logarithm(t.ln, t.exp) && n > 0
    requires Bought(t, pool, n, anchor, net1, er1, bought)
    requires Sold(t, bought.pool, n, anchor, net2, fee, er2, sold)
    ensures sold.pool.pt == pool.pt && bought.netSy + sold.netSy <= 0
  {
    var c, f := AssetCeil(t, pool.sy), AssetFloor(t, bought.pool.sy);
    if f < c + 2 * n {
      EitherWorseOrOverpaid(pool.pt, n, c, f);
      RatesFollowProportions(t, anchor, pool.pt - n, pool.pt + c, pool.pt, pool.pt - n + f);
      NetsOrdered(n, er1, er2, net1, net2, fee);
      PaidIsAtLeastReceived(t, net1, net2);
    } else {
      OverpaidCoversFace(t, pool.sy, 0 - bought.netSy, bought.pool.sy, n, net2, fee, er2);
    }
  }

  lemma OverpaidCoversFace(t: Terms, sy: nat, paid: nat, sy1: nat, n: nat, net: real, fee: real, er: real)
    requires t.syRate > 0 && n > 0 && er > 1.0 && fee >= 0.0 && net + fee == n as real / er
    requires SyFromAsset(t, net).Ok? && sy1 <= sy + paid && AssetCeil(t, sy) + 2 * n <= AssetFloor(t, sy1)
    ensures SyFromAsset(t, net).value <= paid
  {
    AssetTakenIn(t, sy, paid, sy1);
    MulMono(2 * n, AssetFloor(t, sy1) - AssetCeil(t, sy), ONE);
    CheaperAtHigherRate(n, 1.0, er);
    ReceivedFallsShort(t, net, n, paid);
  }

  /** At a rate no lower, selling brings no more than buying cost. */
  lemma NetsOrdered(n: nat, buyRate: real, sellRate: real, paid: real, received: real, fee: real)
    requires n > 0 && 1.0 < buyRate <= sellRate && fee >= 0.0
    requires paid <= -(n as real) / buyRate && received + fee == n as real / sellRate
    ensures paid < 0.0 && received <= -paid
  {
    CheaperAtHigherRate(n, buyRate, sellRate);
  }

  lemma CheaperAtHigherRate(n: nat, er1: real, er2: real)
    requires n > 0 && 0.0 < er1 <= er2
    ensures 0.0 < n as real / er2 <= n as real / er1 && (er1 < er2 ==> n as real / er2 < n as real / er1)
    ensures -(n as real) / er1 == -(n as real / er1)
  {
    FractionOrder(n as real, er2, n as real, er1);
  }

  /** What a sale takes out of the pool, treasury share included, is worth less than the PT sold. */
  lemma SaleTakesLessThanFace(t: Terms, n: nat, net: real, fee: real, er: real, sy: nat, syFee: nat, feeTaken: nat)
    requires t.syRate > 0 && er > 1.0 && n > 0 && net + fee == n as real / er
    requires SyFromAsset(t, net) == Ok(sy) && net >= 0.0 && SyFromFee(t, fee) == Ok(syFee) && feeTaken <= syFee
    ensures (sy + feeTaken) * t.syRate <= n * ONE
  {
    CheaperAtHigherRate(n, 1.0, er);
    var asset: nat := net.Floor;
    DivBounds(asset * ONE, t.syRate);
    assert sy * t.syRate <= asset * ONE;
    var rate := t.syRate as real / ONE as real;
    assert syFee as real <= fee / rate;
    assert syFee as real * rate <= fee by {
      assert fee / rate * rate == fee;
      ProductAtLeastZero(fee / rate - syFee as real, rate);
    }
    assert (syFee * t.syRate) as real == syFee as real * rate * ONE as real;
    MulMono(feeTaken, syFee, t.syRate);
    assert (sy * t.syRate) as real <= net * ONE as real;
  }

  /** Selling PT and buying the same amount back in the same second never gains SY either, as long as
      the treasury's share of a fee is not more than the fee. */
  lemma SellThenBuyNeverProfits(t: Terms, pool: Pool, n: nat, flash: bool, flashBack: bool, sold: Traded, bought: Traded)
    requires Open(t) && Logarithm(t.ln, t.exp) && n > 0 && t.feeBps <= 10000
    requires PriceTrade(t, pool, 0 - n, flash) == Ok(sold)
    requires PriceTrade(t, sold.pool, n, flashBack) == Ok(bought)
    ensures bought.pool.pt == pool.pt && sold.netSy + bought.netSy <= 0
  {
    var anchor, net1, fee, er1 := SellLeg(t, pool, n, flash, sold);
    var again, net2, er2 := BuyLeg(t, sold.pool, n, flashBack, bought);
    SellBackBound(t, pool, n, anchor, net1, net2, fee, er1, er2, sold, bought);
  }

  lemma ShareOfFee(fee: nat, bps: nat)
    requires bps <= 10000
    ensures fee * bps / 10000 <= fee
  {
    MulMono(bps, 10000, fee);
  }

  lemma SellBackBound(t: Terms, pool: Pool, n: nat, anchor: real, net1: real, net2: real, fee: real, er1: real, er2: real,
                      sold: Traded, bought: Traded)
    requires Open(t) && Logarithm(t.ln, t.exp) && n > 0 && t.feeBps <= 10000
    requires Sold(t, pool, n, anchor, net1, fee, er1, sold)
    requires Bought(t, sold.pool, n, anchor, net2, er2, bought)
    ensures bought.pool.pt == pool.pt && sold.netSy + bought.netSy <= 0
  {
    if sold.netSy > 0 {
      var after := sold.pool;
      var f, c := AssetFloor(t, pool.sy), AssetCeil(t, after.sy);
      ShareOfFee(sold.syFee, t.feeBps);
      SaleTakesLessThanFace(t, n, net1, fee, er1, sold.netSy, sold.syFee, sold.feeTaken);
      AssetLeft(t, pool.sy, after.sy, sold.netSy + sold.feeTaken, n);
      EmptierPoolPricesHigher(pool.pt, n, f, c);
      RatesFollowProportions(t, anchor, pool.pt, after.pt + c, pool.pt + n, pool.pt + f);
      NetsOrdered(n, er2, er1, net2, net1, fee);
      PaidIsAtLeastReceived(t, net2, net1);
    }
  }

  lemma EmptierPoolPricesHigher(pt: nat, n: nat, f: nat, c: nat)
    requires f <= n + c
    ensures pt * (pt + f) <= (pt + n) * (pt + n + c)
  {
    MulMono(pt + f, pt + n + c, pt);
    MulMono(pt, pt + n, pt + n + c);
  }

  lemma AssetLeft(t: Terms, sy: nat, left: nat, out: nat, n: nat)
    requires left + out == sy && out * t.syRate <= n * ONE
    ensures AssetFloor(t, sy) <= n + AssetCeil(t, left)
  {
    CeilCovers(t.syRate * left);
    DivBounds(t.syRate * sy, ONE);
    assert t.syRate * sy == t.syRate * left + out * t.syRate;
  }

  // ---------- what a trade moves ----------

  /** The SY for an asset amount at the SY rate: a payment is of the asset rounded up, and less than one
      SY above its value; a receipt is of the asset rounded down, and less than one SY below it. */
  predicate FairSy(rate: nat, net: real, netSy: int) {
    if net < 0.0 then
      var asset, paid := -net.Floor, 0 - netSy;
      && paid >= 0 && (asset - 1) as real < -net <= asset as real
      && (paid - 1) * rate < asset * ONE && asset * (ONE * ONE) < paid * rate * ONE + rate
    else
      var asset := net.Floor;
      && netSy >= 0 && asset as real <= net < (asset + 1) as real
      && netSy * rate <= asset * ONE < (netSy + 1) * rate
  }

  /** The fee in SY, and the treasury's share of it, are each rounded down by less than one SY. */
  predicate FairFee(rate: nat, bps: nat, fee: real, syFee: nat, feeTaken: nat) {
    && (syFee * rate) as real <= fee * ONE as real < ((syFee + 1) * rate) as real
    && feeTaken * 10000 <= syFee * bps < (feeTaken + 1) * 10000
  }

  lemma CeilBounds(raw: nat)
    ensures CeilU64(raw) * ONE >= raw && (raw > 0 ==> (CeilU64(raw) - 1) * ONE < raw) && (raw == 0 ==> CeilU64(raw) == 0)
  {
    DivBounds(raw + ONE - 1, ONE);
  }

  /** Rounding the truncated quotient up stays within one of the exact one. */
  lemma PaymentRounds(asset: nat, rate: nat)
    requires rate > 0 && asset > 0
    ensures var paid := CeilU64(Quotient(asset * ONE, rate));
            (paid - 1) * rate < asset * ONE && asset * (ONE * ONE) < paid * rate * ONE + rate
  {
    var raw := Quotient(asset * ONE, rate);
    var paid := CeilU64(raw);
    CeilBounds(raw);
    DivBounds(asset * ONE * ONE, rate);
    PaymentArithmetic(asset * ONE, rate, raw, paid);
  }

  lemma PaymentArithmetic(a: nat, rate: nat, raw: nat, paid: nat)
    requires rate > 0 && a > 0 && raw * rate <= a * ONE < raw * rate + rate
    requires raw <= paid * ONE && (raw > 0 ==> (paid - 1) * ONE < raw) && (raw == 0 ==> paid == 0)
    ensures (paid - 1) * rate < a && a * ONE < paid * rate * ONE + rate
  {
    MulMono(raw, paid * ONE, rate);
    assert paid * ONE * rate == paid * rate * ONE;
    if raw > 0 {
      MulMono((paid - 1) * ONE + 1, raw, rate);
      assert ((paid - 1) * ONE + 1) * rate == (paid - 1) * rate * ONE + rate;
    }
  }

  lemma SyIsFair(t: Terms, net: real, netSy: int)
    requires t.syRate > 0 && SyFromAsset(t, net) == Ok(netSy)
    ensures FairSy(t.syRate, net, netSy)
  {
    if net < 0.0 {
      PaymentRounds(-net.Floor, t.syRate);
    } else {
      DivBounds(net.Floor * ONE, t.syRate);
    }
  }

  lemma FeeIsFair(t: Terms, fee: real, syFee: nat)
    requires t.syRate > 0 && fee >= 0.0 && SyFromFee(t, fee) == Ok(syFee)
    ensures FairFee(t.syRate, t.feeBps, fee, syFee, syFee * t.feeBps / 10000)
  {
    DivBounds(syFee * t.feeBps, 10000);
    FeeInSy(t.syRate as real, fee, syFee as real, (syFee + 1) as real);
    Liquidity.IntsInReals(syFee, t.syRate);
    Liquidity.IntsInReals(syFee + 1, t.syRate);
  }

  lemma FeeInSy(rate: real, fee: real, syFee: real, next: real)
    requires rate > 0.0 && next == syFee + 1.0
    requires syFee <= fee / (rate / ONE as real) < next
    ensures syFee * rate <= fee * ONE as real < next * rate
  {
    var unit := rate / ONE as real;
    var q := fee / unit;
    assert unit * ONE as real == rate && q * unit == fee;
    assert q * rate == q * unit * ONE as real == fee * ONE as real;
    ProductInOrder(syFee, q, next, rate);
  }

  lemma ProductInOrder(a: real, b: real, c: real, rate: real)
    requires rate > 0.0 && a <= b < c
    ensures a * rate <= b * rate < c * rate
  {
    ProductAtLeastZero(b - a, rate);
    assert (c - b) * rate > 0.0;
  }

  /** `asset` is what `sy` is worth at the SY rate, rounded up or down. */
  predicate AssetOf(rate: nat, sy: nat, up: bool, asset: nat) {
    if up then rate * sy <= asset * ONE < rate * sy + ONE
    else asset * ONE <= rate * sy < asset * ONE + ONE
  }

  /** The last implied rate and the asset rounded down give the anchor. */
  ghost predicate AnchoredAt(t: Terms, pool: Pool, asset: nat, anchor: real)
    requires Open(t)
  {
    && pool.lnRate.Some? && pool.pt > 0 && asset > 0
    && Implied(t, anchor, pool.lnRate.value, pool.pt, asset)
  }

  lemma AnchorOf(t: Terms, pool: Pool, anchor: real)
    requires Open(t) && Logarithm(t.ln, t.exp) && CurrentAnchor(t, pool) == Some(anchor)
    ensures AnchoredAt(t, pool, AssetFloor(t, pool.sy), anchor)
  {
    AnchorExists(t, pool.pt, AssetFloor(t, pool.sy), pool.lnRate);
    AnchorPassesThroughRate(t, pool.pt, AssetFloor(t, pool.sy), pool.lnRate.value, anchor);
  }

  /** After the trade the pool's implied rate is again where the same curve puts its balances; it is
      lost exactly when the curve has no positive rate there. */
  ghost predicate RateKept(t: Terms, pool: Pool, anchor: real, asset: nat)
    requires Open(t)
  {
    && (pool.lnRate.Some? <==> pool.pt > 0 && asset > 0 && StillBelow(t, anchor, 0.0, pool.pt, asset))
    && (pool.lnRate.Some? ==> Implied(t, anchor, pool.lnRate.value, pool.pt, asset))
  }

  lemma RateIsKept(t: Terms, pool: Pool, anchor: real, asset: nat)
    requires Open(t) && Logarithm(t.ln, t.exp)
    requires pool.lnRate == LnImpliedRate(t, pool.pt, asset, anchor)
    ensures RateKept(t, pool, anchor, asset)
  {
    RateIsOnCurve(t, pool, anchor, asset);
    RateExists(t, pool, anchor, asset);
  }

  lemma RateIsOnCurve(t: Terms, pool: Pool, anchor: real, asset: nat)
    requires Open(t) && Logarithm(t.ln, t.exp)
    requires pool.lnRate == LnImpliedRate(t, pool.pt, asset, anchor)
    ensures pool.lnRate.Some? ==> Implied(t, anchor, pool.lnRate.value, pool.pt, asset)
  {
    if pool.lnRate.Some? {
      ImpliedRateIsOnCurve(t, pool.pt, asset, anchor, pool.lnRate.value);
    }
  }

  lemma RateExists(t: Terms, pool: Pool, anchor: real, asset: nat)
    requires Open(t) && Logarithm(t.ln, t.exp)
    requires pool.lnRate == LnImpliedRate(t, pool.pt, asset, anchor)
    ensures pool.lnRate.Some? <==> pool.pt > 0 && asset > 0 && StillBelow(t, anchor, 0.0, pool.pt, asset)
  {
    ImpliedRateExists(t, pool.pt, asset, anchor);
  }

  lemma AssetRounds(t: Terms, sy: nat)
    ensures AssetOf(t.syRate, sy, true, AssetCeil(t, sy)) && AssetOf(t.syRate, sy, false, AssetFloor(t, sy))
  {
    CeilBounds(t.syRate * sy);
    DivBounds(t.syRate * sy, ONE);
  }

  /** The whole of a trade: the curve is anchored at the last implied rate on the asset rounded down,
      the quote is fair on it at the asset rounded against the trader, the SY and the fee that change
      hands are the quote's at the SY rate, the balances move by just those, and the new implied rate
      lies on the same curve. */
  lemma TradeMovesItsQuote(t: Terms, pool: Pool, netTraderPt: int, flash: bool, r: Traded)
    returns (anchor: real, before: nat, priced: nat, quote: Quote, er: real, after: nat)
    requires Open(t) && Logarithm(t.ln, t.exp) && PriceTrade(t, pool, netTraderPt, flash) == Ok(r)
    ensures AssetOf(t.syRate, pool.sy, false, before) && AnchoredAt(t, pool, before, anchor)
    ensures AssetOf(t.syRate, pool.sy, netTraderPt > 0, priced)
    ensures FairQuote(t, pool.pt, priced, anchor, netTraderPt, flash, quote, er)
    ensures FairSy(t.syRate, quote.netTraderAsset, r.netSy)
    ensures FairFee(t.syRate, t.feeBps, quote.assetFee, r.syFee, r.feeTaken)
    ensures r.pool.pt == pool.pt - netTraderPt
    ensures r.pool.sy == pool.sy + (if netTraderPt > 0 then Abs(r.netSy) else 0 - Abs(r.netSy)) - r.feeTaken
    ensures AssetOf(t.syRate, r.pool.sy, false, after) && RateKept(t, r.pool, anchor, after)
  {
    anchor, quote := QuoteOf(t, pool, netTraderPt, flash, r);
    priced := if netTraderPt > 0 then AssetCeil(t, pool.sy) else AssetFloor(t, pool.sy);
    before, after := AssetFloor(t, pool.sy), AssetFloor(t, r.pool.sy);
    AnchorOf(t, pool, anchor);
    AssetRounds(t, pool.sy);
    AssetRounds(t, r.pool.sy);
    er := TradeIsPricedFairly(t, pool.pt, priced, anchor, netTraderPt, flash, quote);
    SettledAsQuoted(t, pool, anchor, netTraderPt, quote, r);
    QuoteIsAgainstTheTrader(t, pool.pt, priced, anchor, netTraderPt, flash);
    FeeIsFair(t, quote.assetFee, r.syFee);
    RateIsKept(t, r.pool, anchor, after);
  }

  lemma SettledAsQuoted(t: Terms, pool: Pool, anchor: real, netTraderPt: int, quote: Quote, r: Traded)
    requires Open(t) && Settle(t, pool, anchor, netTraderPt, quote) == Ok(r)
    ensures FairSy(t.syRate, quote.netTraderAsset, r.netSy)
    ensures SyFromFee(t, quote.assetFee) == Ok(r.syFee) && r.feeTaken == r.syFee * t.feeBps / 10000
    ensures r.pool.pt == pool.pt - netTraderPt
    ensures r.pool.sy == pool.sy + (if netTraderPt > 0 then Abs(r.netSy) else 0 - Abs(r.netSy)) - r.feeTaken
    ensures r.pool.lnRate == LnImpliedRate(t, r.pool.pt, AssetFloor(t, r.pool.sy), anchor)
  {
    SyIsFair(t, quote.netTraderAsset, r.netSy);
  }
}
