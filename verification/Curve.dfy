/** The time curve that prices PT in asset, over exact reals. `ln` and `exp` are any two functions
    that are inverse to each other with `ln` increasing; the reals have no NaN or infinity, so where
    the formulas leave the domain of `ln` the trade is refused, as the comparison with NaN does. */
module Curve {
  import opened Outcome

  const YEAR_SEC: nat := 86400 * 365

  datatype Option<+T> = None | Some(value: T)

  /** What stays fixed during one second of a market: the curve's parameters, the time left, the
      SY rate (raw) and the treasury's share of the fee. */
  datatype Terms = Terms(
    ln: real -> real,
    exp: real -> real,
    rateScalarRoot: real,
    lnFeeRateRoot: real,
    secRemaining: nat,
    syRate: nat,
    feeBps: nat)

  predicate Open(t: Terms) {
    t.secRemaining > 0 && t.rateScalarRoot > 0.0 && t.syRate > 0
  }

  ghost predicate Logarithm(ln: real -> real, exp: real -> real) {
    && (forall x, y :: 0.0 < x < y ==> ln(x) < ln(y))
    && (forall x :: 0.0 < x ==> exp(ln(x)) == x)
    && (forall x :: 0.0 < exp(x) && ln(exp(x)) == x)
  }

  function Years(t: Terms): real {
    t.secRemaining as real / YEAR_SEC as real
  }

  function RateScalar(t: Terms): real
    requires Open(t)
  {
    t.rateScalarRoot / Years(t)
  }

  function FeeRate(t: Terms): real {
    t.exp(t.lnFeeRateRoot * Years(t))
  }

  function Proportion(pt: nat, asset: nat): real
    requires pt + asset > 0
  {
    pt as real / (pt as real + asset as real)
  }

  function Logit(t: Terms, p: real): real
    requires p < 1.0
  {
    t.ln(p / (1.0 - p))
  }

  function ExchangeRate(t: Terms, anchor: real, p: real): real
    requires Open(t) && p < 1.0
  {
    Logit(t, p) / RateScalar(t) + anchor
  }

  /** The anchor that makes the curve pass through the last implied rate at the present balances. */
  function FindRateAnchor(t: Terms, pt: nat, asset: nat, lnRate: Option<real>): Option<real>
    requires Open(t)
  {
    if lnRate.None? || pt == 0 || asset == 0 then None
    else Some(t.exp(lnRate.value * Years(t)) - Logit(t, Proportion(pt, asset)) / RateScalar(t))
  }

  function LnImpliedRate(t: Terms, pt: nat, asset: nat, anchor: real): Option<real>
    requires Open(t)
  {
    if pt == 0 || asset == 0 then None
    else
      var rate := ExchangeRate(t, anchor, Proportion(pt, asset));
      if rate <= 0.0 then None else Some(t.ln(rate) / Years(t))
  }

  function Magnitude(x: real): real {
    if x < 0.0 then -x else x
  }

  function AssetFee(netTraderAsset: real, feeRate: real): (fee: real)
    requires feeRate >= 1.0
    ensures fee >= 0.0
  {
    ProductAtLeastZero(Magnitude(netTraderAsset), feeRate - 1.0);
    QuotientMono(0.0, Magnitude(netTraderAsset) * (feeRate - 1.0), feeRate);
    if netTraderAsset > 0.0 then netTraderAsset * (feeRate - 1.0)
    else -netTraderAsset * (feeRate - 1.0) / feeRate
  }

  /** What the fee is charged on: the asset that moves, or in a flash swap the yield on the face value. */
  function FeeBase(netTraderPt: real, er: real, flash: bool): real
    requires er > 0.0
  {
    if flash then (1.0 - 1.0 / er) * Magnitude(netTraderPt) else -netTraderPt / er
  }

  datatype Quote = Quote(netTraderAsset: real, assetFee: real)

  /** The proportion of PT in the pool after the trade, before any asset has moved. */
  function ProportionAfter(pt: nat, asset: nat, netTraderPt: int): real
    requires pt + asset > 0
  {
    (pt - netTraderPt) as real / (pt as real + asset as real)
  }

  predicate Priced(pt: nat, asset: nat, netTraderPt: int) {
    netTraderPt < pt && 0 < pt + asset && ProportionAfter(pt, asset, netTraderPt) < 1.0
  }

  function PostTradeRate(t: Terms, pt: nat, asset: nat, anchor: real, netTraderPt: int): real
    requires Open(t) && Priced(pt, asset, netTraderPt)
  {
    ExchangeRate(t, anchor, ProportionAfter(pt, asset, netTraderPt))
  }

  function Trade(t: Terms, pt: nat, asset: nat, anchor: real, netTraderPt: int, flash: bool): Result<Quote>
    requires Open(t)
  {
    if !Priced(pt, asset, netTraderPt) || FeeRate(t) < 1.0 then Reverted(AssertionFailed)
    else
      var er := PostTradeRate(t, pt, asset, anchor, netTraderPt);
      if er <= 1.0 then Reverted(AssertionFailed)
      else
        var beforeFee := -(netTraderPt as real) / er;
        var fee := AssetFee(FeeBase(netTraderPt as real, er, flash), FeeRate(t));
        Ok(Quote(beforeFee - fee, fee))
  }

  // ---------- real arithmetic ----------

  lemma ProductAtLeastZero(a: real, b: real)
    requires a >= 0.0 && b >= 0.0
    ensures a * b >= 0.0
  {
  }

  lemma QuotientMono(a: real, b: real, c: real)
    requires a <= b && c > 0.0
    ensures a / c <= b / c
  {
    assert a / c * c == a && b / c * c == b;
  }

  lemma FractionOrder(a: real, b: real, c: real, d: real)
    requires b > 0.0 && d > 0.0 && a * d <= c * b
    ensures a / b <= c / d
  {
    var x, y := a / b, c / d;
    assert a == x * b && c == y * d;
    assert x * (b * d) <= y * (b * d);
  }

  /** The rate rises with the proportion of PT in the pool. */
  lemma RateRises(t: Terms, anchor: real, p: real, q: real)
    requires Open(t) && Logarithm(t.ln, t.exp) && 0.0 < p <= q < 1.0
    ensures ExchangeRate(t, anchor, p) <= ExchangeRate(t, anchor, q)
  {
    var x, y := p / (1.0 - p), q / (1.0 - q);
    FractionOrder(p, 1.0 - p, q, 1.0 - q);
    assert x > 0.0;
    assert t.ln(x) <= t.ln(y);
    QuotientMono(t.ln(x), t.ln(y), RateScalar(t));
  }

  /** A trade moves at the price of the pool it leaves behind, PT is always worth less than the
      asset, and the fee goes against the trader on either side, flash swap or not. */
  lemma QuoteIsAgainstTheTrader(t: Terms, pt: nat, asset: nat, anchor: real, netTraderPt: int, flash: bool)
    requires Open(t) && Trade(t, pt, asset, anchor, netTraderPt, flash).Ok?
    ensures Priced(pt, asset, netTraderPt)
    ensures var er := PostTradeRate(t, pt, asset, anchor, netTraderPt);
            var quote := Trade(t, pt, asset, anchor, netTraderPt, flash).value;
            && er > 1.0 && quote.assetFee >= 0.0
            && quote.netTraderAsset + quote.assetFee == -(netTraderPt as real) / er
            && quote.netTraderAsset <= -(netTraderPt as real) / er
  {
    var er := PostTradeRate(t, pt, asset, anchor, netTraderPt);
    assert AssetFee(FeeBase(netTraderPt as real, er, flash), FeeRate(t)) >= 0.0;
  }

  /** Pricing at the anchor found from an implied rate gives that rate back. */
  lemma AnchorRecoversRate(t: Terms, pt: nat, asset: nat, anchor: real)
    requires Open(t) && Logarithm(t.ln, t.exp)
    requires LnImpliedRate(t, pt, asset, anchor).Some?
    ensures FindRateAnchor(t, pt, asset, LnImpliedRate(t, pt, asset, anchor)) == Some(anchor)
  {
    var rate := ExchangeRate(t, anchor, Proportion(pt, asset));
    var lnRate := t.ln(rate) / Years(t);
    assert lnRate * Years(t) == t.ln(rate);
    assert t.exp(t.ln(rate)) == rate;
  }

  // ---------- what the formulas mean ----------

  /** Proportion of time left, steepness and fee: the steepness grows and the fee rate falls to one
      as maturity nears. */
  lemma TermsMean(t: Terms)
    requires Open(t) && Logarithm(t.ln, t.exp)
    ensures Years(t) * YEAR_SEC as real == t.secRemaining as real && Years(t) > 0.0
    ensures RateScalar(t) * Years(t) == t.rateScalarRoot && RateScalar(t) > 0.0
    ensures t.ln(FeeRate(t)) == t.lnFeeRateRoot * Years(t) && FeeRate(t) > 0.0
  {
    QuotientIsPositive(t.secRemaining as real, YEAR_SEC as real);
    QuotientIsPositive(t.rateScalarRoot, Years(t));
  }

  lemma QuotientIsPositive(a: real, b: real)
    requires a > 0.0 && b > 0.0
    ensures a / b > 0.0 && a / b * b == a
  {
  }

  /** `rate` is where the curve of this anchor puts a pool of `pt` against `asset`. */
  ghost predicate OnCurve(t: Terms, anchor: real, rate: real, pt: int, asset: int)
    requires Open(t)
  {
    t.exp((rate - anchor) * RateScalar(t)) * asset as real == pt as real
  }

  /** `lnRate`, compounded over the time left, is where the curve of this anchor puts the pool. */
  ghost predicate Implied(t: Terms, anchor: real, lnRate: real, pt: int, asset: int)
    requires Open(t)
  {
    OnCurve(t, anchor, t.exp(lnRate * Years(t)), pt, asset)
  }

  lemma OddsOfProportion(a: int, b: int)
    requires a > 0 && b > 0
    ensures var p := a as real / (a as real + b as real); 0.0 < p < 1.0 && p / (1.0 - p) == a as real / b as real
  {
    var x, y := a as real, b as real;
    var p := x / (x + y);
    assert p * (x + y) == x;
    assert (1.0 - p) * (x + y) == y;
    assert p < 1.0 by {
      if p >= 1.0 {
        ProductAtLeastZero(p - 1.0, x + y);
      }
    }
    QuotientIsPositive(x, x + y);
    FractionOrder(p, 1.0 - p, x, y);
    FractionOrder(x, y, p, 1.0 - p);
  }

  lemma RateFromLogit(logit: real, k: real, anchor: real, rate: real)
    requires k > 0.0
    ensures rate == logit / k + anchor <==> (rate - anchor) * k == logit
  {
    assert logit / k * k == logit;
    if (rate - anchor) * k == logit {
      CancelReal(rate - anchor, logit / k, k);
    }
  }

  lemma ScaledOdds(e: real, odds: real, asset: real, pt: real)
    requires asset > 0.0 && odds * asset == pt
    ensures e == odds <==> e * asset == pt
  {
    if e * asset == pt {
      CancelReal(e, odds, asset);
    }
  }

  lemma CancelReal(a: real, b: real, c: real)
    requires c > 0.0 && a * c == b * c
    ensures a == b
  {
    assert (a - b) * c == 0.0;
  }

  /** The curve's rate solves the curve's equation, and is the only rate that does. */
  lemma RateSolvesCurve(t: Terms, anchor: real, pt: int, asset: int, rate: real)
    requires Open(t) && Logarithm(t.ln, t.exp) && pt > 0 && asset > 0
    ensures var p := pt as real / (pt as real + asset as real);
            p < 1.0 && (rate == ExchangeRate(t, anchor, p) <==> OnCurve(t, anchor, rate, pt, asset))
  {
    OddsOfProportion(pt, asset);
    var odds := pt as real / asset as real;
    QuotientIsPositive(pt as real, asset as real);
    RateAtOdds(t, anchor, pt as real / (pt as real + asset as real), odds, rate);
    ScaledOdds(t.exp((rate - anchor) * RateScalar(t)), odds, asset as real, pt as real);
  }

  lemma RateAtOdds(t: Terms, anchor: real, p: real, odds: real, rate: real)
    requires Open(t) && Logarithm(t.ln, t.exp) && p < 1.0 && odds > 0.0 && p / (1.0 - p) == odds
    ensures rate == ExchangeRate(t, anchor, p) <==> t.exp((rate - anchor) * RateScalar(t)) == odds
  {
    QuotientIsPositive(t.secRemaining as real, YEAR_SEC as real);
    QuotientIsPositive(t.rateScalarRoot, Years(t));
    RateFromLogit(t.ln(odds), RateScalar(t), anchor, rate);
    ExpInverts(t, (rate - anchor) * RateScalar(t), odds);
  }

  lemma ExpInverts(t: Terms, z: real, y: real)
    requires Logarithm(t.ln, t.exp) && y > 0.0
    ensures t.ln(y) == z <==> y == t.exp(z)
  {
    assert t.ln(t.exp(z)) == z && t.exp(t.ln(y)) == y;
  }

  lemma ExpOrder(t: Terms, z: real, y: real)
    requires Logarithm(t.ln, t.exp) && y > 0.0
    ensures t.ln(y) > z <==> y > t.exp(z)
  {
    assert t.ln(t.exp(z)) == z;
  }

  lemma RateFromLogitOrder(logit: real, k: real, anchor: real, bound: real)
    requires k > 0.0
    ensures logit / k + anchor > bound <==> logit > (bound - anchor) * k
  {
    var q := logit / k;
    assert q * k == logit;
    assert (q - (bound - anchor)) * k == logit - (bound - anchor) * k;
    if q > bound - anchor {
      assert (q - (bound - anchor)) * k > 0.0;
    } else {
      ProductAtLeastZero(bound - anchor - q, k);
    }
  }

  lemma ScaledOddsOrder(e: real, odds: real, asset: real, pt: real)
    requires asset > 0.0 && odds * asset == pt
    ensures odds > e <==> pt > e * asset
  {
    assert (odds - e) * asset == pt - e * asset;
    if odds > e {
      assert (odds - e) * asset > 0.0;
    } else {
      ProductAtLeastZero(e - odds, asset);
    }
  }

  /** On the curve of this anchor, a pool at rate `bound` holds less than `pt` against `asset`. */
  ghost predicate StillBelow(t: Terms, anchor: real, bound: real, pt: int, asset: int)
    requires Open(t)
  {
    t.exp((bound - anchor) * RateScalar(t)) * asset as real < pt as real
  }

  /** When the curve's rate is above a bound. */
  lemma RateAbove(t: Terms, anchor: real, pt: int, asset: int, bound: real)
    requires Open(t) && Logarithm(t.ln, t.exp) && pt > 0 && asset > 0
    ensures var p := pt as real / (pt as real + asset as real);
            && p < 1.0
            && (ExchangeRate(t, anchor, p) > bound) == StillBelow(t, anchor, bound, pt, asset)
  {
    OddsOfProportion(pt, asset);
    QuotientIsPositive(t.secRemaining as real, YEAR_SEC as real);
    QuotientIsPositive(t.rateScalarRoot, Years(t));
    var odds := pt as real / asset as real;
    QuotientIsPositive(pt as real, asset as real);
    RateFromLogitOrder(t.ln(odds), RateScalar(t), anchor, bound);
    ExpOrder(t, (bound - anchor) * RateScalar(t), odds);
    ScaledOddsOrder(t.exp((bound - anchor) * RateScalar(t)), odds, asset as real, pt as real);
  }

  /** The anchor is found exactly when there is a last rate and both sides are in the pool. */
  lemma AnchorExists(t: Terms, pt: nat, asset: nat, lnRate: Option<real>)
    requires Open(t)
    ensures FindRateAnchor(t, pt, asset, lnRate).Some? <==> lnRate.Some? && pt > 0 && asset > 0
  {
  }

  /** The anchor makes the curve pass through the last implied rate at the present balances. */
  lemma AnchorPassesThroughRate(t: Terms, pt: nat, asset: nat, lnRate: real, anchor: real)
    requires Open(t) && Logarithm(t.ln, t.exp) && FindRateAnchor(t, pt, asset, Some(lnRate)) == Some(anchor)
    ensures Implied(t, anchor, lnRate, pt, asset)
  {
    ProportionBelowOne(pt, asset);
    AnchorGivesRate(t, anchor, pt, asset, t.exp(lnRate * Years(t)));
  }

  lemma AnchorGivesRate(t: Terms, anchor: real, pt: nat, asset: nat, rate: real)
    requires Open(t) && Logarithm(t.ln, t.exp) && pt > 0 && asset > 0 && Proportion(pt, asset) < 1.0
    requires anchor == rate - Logit(t, Proportion(pt, asset)) / RateScalar(t)
    ensures OnCurve(t, anchor, rate, pt, asset)
  {
    SameRate(t, anchor, pt, asset, ExchangeRate(t, anchor, Proportion(pt, asset)), rate);
  }

  lemma ProportionBelowOne(pt: nat, asset: nat)
    requires pt > 0 && asset > 0
    ensures 0.0 < Proportion(pt, asset) < 1.0
  {
    OddsOfProportion(pt, asset);
  }

  /** The implied rate exists exactly when both sides are in the pool and the curve's rate there is
      positive. */
  lemma ImpliedRateExists(t: Terms, pt: nat, asset: nat, anchor: real)
    requires Open(t) && Logarithm(t.ln, t.exp)
    ensures LnImpliedRate(t, pt, asset, anchor).Some?
       <==> pt > 0 && asset > 0 && StillBelow(t, anchor, 0.0, pt, asset)
  {
    if pt > 0 && asset > 0 {
      RateAbove(t, anchor, pt, asset, 0.0);
    }
  }

  /** Compounded over the time left, the implied rate is the curve's rate at the balances. */
  lemma ImpliedRateIsOnCurve(t: Terms, pt: nat, asset: nat, anchor: real, lnRate: real)
    requires Open(t) && Logarithm(t.ln, t.exp) && LnImpliedRate(t, pt, asset, anchor) == Some(lnRate)
    ensures Implied(t, anchor, lnRate, pt, asset)
  {
    ProportionBelowOne(pt, asset);
    var rate := ExchangeRate(t, anchor, Proportion(pt, asset));
    Compounded(t, rate, lnRate);
    SameRate(t, anchor, pt, asset, rate, t.exp(lnRate * Years(t)));
  }

  lemma SameRate(t: Terms, anchor: real, pt: nat, asset: nat, rate: real, again: real)
    requires Open(t) && Logarithm(t.ln, t.exp) && pt > 0 && asset > 0 && Proportion(pt, asset) < 1.0
    requires rate == ExchangeRate(t, anchor, Proportion(pt, asset)) && again == rate
    ensures OnCurve(t, anchor, again, pt, asset)
  {
    RateSolvesCurve(t, anchor, pt, asset, rate);
  }

  lemma Compounded(t: Terms, rate: real, lnRate: real)
    requires Open(t) && Logarithm(t.ln, t.exp) && rate > 0.0 && lnRate == t.ln(rate) / Years(t)
    ensures t.exp(lnRate * Years(t)) == rate
  {
    QuotientIsPositive(t.secRemaining as real, YEAR_SEC as real);
    QuotientTimes(t.ln(rate), Years(t));
  }

  lemma QuotientTimes(a: real, b: real)
    requires b > 0.0
    ensures a / b * b == a
  {
  }

  // ---------- what a trade costs ----------

  /** The fee on PT of a face value and a worth in asset: a seller pays `feeRate - 1` on the worth, a
      buyer `1 - 1 / feeRate`, and a flash swap of either side pays `feeRate - 1` on the yield, the
      part of the face value the PT is not worth. */
  predicate FeeOf(selling: bool, flash: bool, face: real, worth: real, feeRate: real, fee: real)
    requires feeRate > 0.0
  {
    if flash then fee == (face - worth) * (feeRate - 1.0)
    else if selling then fee == worth * (feeRate - 1.0)
    else fee == worth * (1.0 - 1.0 / feeRate)
  }

  /** A quote: the rate of the curve at the balances the trade leaves, every PT at that rate, and the
      fee on top. */
  ghost predicate FairQuote(t: Terms, pt: nat, asset: nat, anchor: real, netTraderPt: int, flash: bool, quote: Quote, er: real)
    requires Open(t)
  {
    && netTraderPt < pt && 0 < asset + netTraderPt && er > 1.0 && FeeRate(t) >= 1.0
    && OnCurve(t, anchor, er, pt - netTraderPt, asset + netTraderPt)
    && (quote.netTraderAsset + quote.assetFee) * er == -(netTraderPt as real)
    && FeeOf(netTraderPt < 0, flash, Magnitude(netTraderPt as real), Magnitude(quote.netTraderAsset + quote.assetFee),
             FeeRate(t), quote.assetFee)
  }

  lemma TradeIsPricedFairly(t: Terms, pt: nat, asset: nat, anchor: real, netTraderPt: int, flash: bool, quote: Quote)
    returns (er: real)
    requires Open(t) && Logarithm(t.ln, t.exp) && Trade(t, pt, asset, anchor, netTraderPt, flash) == Ok(quote)
    ensures FairQuote(t, pt, asset, anchor, netTraderPt, flash, quote, er)
  {
    er := PostTradeRate(t, pt, asset, anchor, netTraderPt);
    AfterTradeOnCurve(t, pt, asset, anchor, netTraderPt);
    QuoteIsAgainstTheTrader(t, pt, asset, anchor, netTraderPt, flash);
    FeeOfQuote(t, pt, asset, anchor, netTraderPt, flash, quote, er);
    PartsAreFair(t, pt, asset, anchor, netTraderPt, flash, quote, er);
  }

  lemma FeeOfQuote(t: Terms, pt: nat, asset: nat, anchor: real, netTraderPt: int, flash: bool, quote: Quote, er: real)
    requires Open(t) && Trade(t, pt, asset, anchor, netTraderPt, flash) == Ok(quote)
    requires er == PostTradeRate(t, pt, asset, anchor, netTraderPt)
    ensures er > 1.0 && FeeRate(t) >= 1.0
    ensures quote.assetFee == AssetFee(FeeBase(netTraderPt as real, er, flash), FeeRate(t))
  {
  }

  lemma PartsAreFair(t: Terms, pt: nat, asset: nat, anchor: real, netTraderPt: int, flash: bool, quote: Quote, er: real)
    requires Open(t) && netTraderPt < pt && 0 < asset + netTraderPt && er > 1.0 && FeeRate(t) >= 1.0
    requires OnCurve(t, anchor, er, pt - netTraderPt, asset + netTraderPt)
    requires quote.netTraderAsset + quote.assetFee == -(netTraderPt as real) / er
    requires quote.assetFee == AssetFee(FeeBase(netTraderPt as real, er, flash), FeeRate(t))
    ensures FairQuote(t, pt, asset, anchor, netTraderPt, flash, quote, er)
  {
    QuoteFormulas(netTraderPt as real, er, FeeRate(t), flash, quote.netTraderAsset, quote.assetFee);
  }

  lemma QuoteFormulas(n: real, er: real, feeRate: real, flash: bool, net: real, fee: real)
    requires er > 1.0 && feeRate >= 1.0 && net + fee == -n / er
    requires fee == AssetFee(FeeBase(n, er, flash), feeRate)
    ensures (net + fee) * er == -n
    ensures FeeOf(n < 0.0, flash, Magnitude(n), Magnitude(net + fee), feeRate, fee)
  {
    WorthOfPt(n, er);
    if flash {
      FlashFee(n, er, feeRate, net + fee, fee);
    } else {
      PlainFee(n, er, feeRate, net + fee, fee);
    }
  }

  lemma AfterTradeOnCurve(t: Terms, pt: nat, asset: nat, anchor: real, netTraderPt: int)
    requires Open(t) && Logarithm(t.ln, t.exp) && Priced(pt, asset, netTraderPt)
    ensures netTraderPt < pt && 0 < asset + netTraderPt
    ensures OnCurve(t, anchor, PostTradeRate(t, pt, asset, anchor, netTraderPt), pt - netTraderPt, asset + netTraderPt)
  {
    PricedMeans(pt, asset, netTraderPt);
    RateSolvesCurve(t, anchor, pt - netTraderPt, asset + netTraderPt, PostTradeRate(t, pt, asset, anchor, netTraderPt));
  }

  lemma PricedMeans(pt: nat, asset: nat, netTraderPt: int)
    ensures Priced(pt, asset, netTraderPt) <==> netTraderPt < pt && 0 < asset + netTraderPt
    ensures Priced(pt, asset, netTraderPt) ==>
      var left, right := pt - netTraderPt, asset + netTraderPt;
      ProportionAfter(pt, asset, netTraderPt) == left as real / (left as real + right as real)
  {
    if netTraderPt < pt && 0 < pt + asset {
      var x, y := (pt - netTraderPt) as real, pt as real + asset as real;
      assert x / y * y == x;
      if 0 < asset + netTraderPt {
        OddsOfProportion(pt - netTraderPt, asset + netTraderPt);
      } else {
        FractionOrder(1.0, 1.0, x, y);
      }
    }
  }

  lemma FlashFee(n: real, er: real, feeRate: real, beforeFee: real, fee: real)
    requires er > 1.0 && feeRate >= 1.0 && beforeFee == -n / er
    requires fee == AssetFee((1.0 - 1.0 / er) * Magnitude(n), feeRate)
    ensures fee == (Magnitude(n) - Magnitude(beforeFee)) * (feeRate - 1.0)
  {
    WorthOfPt(n, er);
    YieldOfFace(Magnitude(n), er);
    SellersFee((1.0 - 1.0 / er) * Magnitude(n), feeRate);
  }

  lemma PlainFee(n: real, er: real, feeRate: real, beforeFee: real, fee: real)
    requires er > 1.0 && feeRate >= 1.0 && beforeFee == -n / er && fee == AssetFee(beforeFee, feeRate)
    ensures n < 0.0 ==> fee == Magnitude(beforeFee) * (feeRate - 1.0)
    ensures n >= 0.0 ==> fee == Magnitude(beforeFee) * (1.0 - 1.0 / feeRate)
  {
    WorthOfPt(n, er);
    if n < 0.0 {
      SellersFee(beforeFee, feeRate);
    } else {
      BuyersFee(0.0 - beforeFee, feeRate);
    }
  }

  lemma WorthOfPt(n: real, er: real)
    requires er > 1.0
    ensures Magnitude(-n / er) == Magnitude(n) / er && -n / er * er == -n
    ensures n < 0.0 ==> -n / er >= 0.0
    ensures n >= 0.0 ==> -n / er <= 0.0
  {
    NegatedQuotient(n, er);
    if n < 0.0 {
      QuotientMono(0.0, -n, er);
    } else {
      QuotientMono(0.0, n, er);
    }
  }

  lemma YieldOfFace(face: real, er: real)
    requires er > 1.0 && face >= 0.0
    ensures (1.0 - 1.0 / er) * face == face - face / er >= 0.0
  {
    QuotientMono(face, face * er, er);
    var i := 1.0 / er;
    assert i * er == 1.0;
    CancelReal(i * face, face / er, er);
    QuotientMono(1.0, er, er);
    ProductAtLeastZero(1.0 - i, face);
  }

  lemma NegatedQuotient(a: real, b: real)
    requires b > 0.0
    ensures -a / b == -(a / b)
  {
    CancelReal(-a / b, -(a / b), b);
  }

  lemma SellersFee(worth: real, feeRate: real)
    requires worth >= 0.0 && feeRate >= 1.0
    ensures AssetFee(worth, feeRate) == worth * (feeRate - 1.0)
  {
    if worth == 0.0 {
      assert -worth * (feeRate - 1.0) == 0.0;
    }
  }

  lemma BuyersFee(worth: real, feeRate: real)
    requires worth >= 0.0 && feeRate >= 1.0
    ensures AssetFee(-worth, feeRate) == worth * (1.0 - 1.0 / feeRate)
  {
    var i := 1.0 / feeRate;
    assert i * feeRate == 1.0;
    assert worth * (1.0 - i) * feeRate == worth * (feeRate - 1.0);
    CancelReal(worth * (feeRate - 1.0) / feeRate, worth * (1.0 - i), feeRate);
  }

  /** The fee as a rate: selling, the worth and the fee together are the worth at the fee rate; buying,
      what is left of the worth after the fee is, at the fee rate, the worth. */
  lemma FeeIsTheRate(netTraderAsset: real, feeRate: real)
    requires feeRate >= 1.0
    ensures var fee, worth := AssetFee(netTraderAsset, feeRate), Magnitude(netTraderAsset);
            && 0.0 <= fee
            && (netTraderAsset > 0.0 ==> worth + fee == worth * feeRate)
            && (netTraderAsset <= 0.0 ==> (worth - fee) * feeRate == worth)
  {
    if netTraderAsset > 0.0 {
      SellersFee(netTraderAsset, feeRate);
    } else {
      BuyersFee(0.0 - netTraderAsset, feeRate);
      LeftAfterFee(0.0 - netTraderAsset, feeRate);
    }
  }

  lemma LeftAfterFee(worth: real, feeRate: real)
    requires feeRate >= 1.0
    ensures (worth - worth * (1.0 - 1.0 / feeRate)) * feeRate == worth
  {
    var i := 1.0 / feeRate;
    assert i * feeRate == 1.0;
    assert worth - worth * (1.0 - i) == worth * i;
    assert worth * i * feeRate == worth * (i * feeRate);
  }

  /** A trade is quoted exactly when the pool has the PT and keeps asset against it, the fee rate is
      not below one, and PT is still worth less than the asset on the curve it leaves. */
  lemma QuotedExactlyWhen(t: Terms, pt: nat, asset: nat, anchor: real, netTraderPt: int, flash: bool)
    requires Open(t) && Logarithm(t.ln, t.exp)
    ensures Trade(t, pt, asset, anchor, netTraderPt, flash).Ok?
       <==> && netTraderPt < pt && 0 < asset + netTraderPt
            && t.ln(1.0) <= t.lnFeeRateRoot * Years(t)
            && StillBelow(t, anchor, 1.0, pt - netTraderPt, asset + netTraderPt)
  {
    PricedMeans(pt, asset, netTraderPt);
    TermsMean(t);
    ExpOrder(t, t.lnFeeRateRoot * Years(t), 1.0);
    if Priced(pt, asset, netTraderPt) {
      RateAbove(t, anchor, pt - netTraderPt, asset + netTraderPt, 1.0);
    }
  }
}
