/** Adding and removing liquidity: the formulas in exact reals, with `to_u64` as the truncating,
    saturating cast, and what they mean for the holders of LP. */
module Liquidity {
  import opened Outcome
  import opened FixedPoint

  datatype Reserves = Reserves(sy: nat, pt: nat, lp: nat)

  predicate Live(p: Reserves) {
    p.sy > 0 && p.pt > 0 && p.lp > 0
  }

  function CastU64(x: real): (r: nat)
    ensures r <= U64_MAX
    ensures 0.0 <= x ==> r as real <= x
  {
    if x < 0.0 then 0 else if x.Floor <= U64_MAX then x.Floor else U64_MAX
  }

  datatype Added = Added(lpOut: nat, syIn: nat, ptIn: nat)

  /** `whole * part / total`, exactly. */
  function Share(whole: nat, part: nat, total: nat): real
    requires total > 0
  {
    whole as real * part as real / total as real
  }

  /** What the side that does not bind is charged for `x` LP, `x` not yet cast. */
  function Charge(reserve: nat, x: real, lp: nat): nat
    requires lp > 0
  {
    CastU64((reserve as real * x + lp as real - 1.0) / lp as real)
  }

  function AddLiquidity(p: Reserves, syIntent: nat, ptIntent: nat): Added
    requires Live(p)
  {
    var fromPt := Share(p.lp, ptIntent, p.pt);
    var fromSy := Share(p.lp, syIntent, p.sy);
    if fromPt < fromSy then
      Added(CastU64(fromPt), Charge(p.sy, fromPt, p.lp), CastU64(ptIntent as real))
    else
      Added(CastU64(fromSy), CastU64(syIntent as real), Charge(p.pt, fromSy, p.lp))
  }

  datatype Removed = Removed(syOut: nat, ptOut: nat)

  function RemoveLiquidity(p: Reserves, lpIn: nat): Result<Removed>
    requires p.lp > 0
  {
    if lpIn > p.lp then Reverted(AssertionFailed)
    else Ok(Removed(CastU64(Share(p.sy, lpIn, p.lp)), CastU64(Share(p.pt, lpIn, p.lp))))
  }

  // ---------- the formulas in integers ----------

  function FloorShare(whole: nat, part: nat, total: nat): nat
    requires total > 0
  {
    whole * part / total
  }

  function CeilDiv(a: nat, b: nat): nat
    requires b > 0
  {
    (a + b - 1) / b
  }

  lemma QuotientAtLeast(a: real, b: real, c: real)
    requires b > 0.0
    ensures c * b <= a <==> c <= a / b
  {
    var q := a / b;
    assert q * b == a;
    assert (q - c) * b == a - c * b;
    if c <= q {
      assert (q - c) * b >= 0.0;
    }
  }

  lemma CastReaches(x: real, k: nat)
    requires k as real <= x && k <= U64_MAX
    ensures k <= CastU64(x)
  {
  }

  lemma IntsInReals(a: nat, b: nat)
    ensures (a * b) as real == a as real * b as real
  {
  }

  lemma FloorOfQuotient(a: nat, b: nat)
    requires b > 0
    ensures (a as real / b as real).Floor == a / b
  {
    var q := a / b;
    DivBounds(a, b);
    IntsInReals(q, b);
    IntsInReals(q + 1, b);
    QuotientAtLeast(a as real, b as real, q as real);
    QuotientAtLeast(a as real, b as real, (q + 1) as real);
  }

  /** Casting an exact quotient is dividing the integers. */
  lemma CastIsDivision(a: nat, b: nat)
    requires b > 0
    ensures CastU64(a as real / b as real) == Min(a / b, U64_MAX)
  {
    FloorOfQuotient(a, b);
    QuotientAtLeast(a as real, b as real, 0.0);
  }

  // ---------- one change ----------

  lemma ShareFloors(whole: nat, part: nat, total: nat)
    requires total > 0
    ensures Share(whole, part, total) >= 0.0 && Share(whole, part, total).Floor == FloorShare(whole, part, total)
    ensures CastU64(Share(whole, part, total)) == Min(FloorShare(whole, part, total), U64_MAX)
  {
    IntsInReals(whole, part);
    FloorOfQuotient(whole * part, total);
    CastIsDivision(whole * part, total);
    QuotientAtLeast((whole * part) as real, total as real, 0.0);
  }

  lemma FloorShareBound(whole: nat, part: nat, total: nat)
    requires total > 0
    ensures FloorShare(whole, part, total) * total <= whole * part
    ensures part <= total ==> FloorShare(whole, part, total) <= whole
  {
    DivBounds(whole * part, total);
    if part <= total {
      MulMono(part, total, whole);
      DivIsAtMost(whole * part, total, whole);
    }
  }

  /** Rounding up by adding just under one share: it covers any whole amount up to `z`, and it does
      not pass a whole bound. */
  lemma RoundUp(z: real, lp: nat, intent: nat, m: nat, k: nat, y: real)
    requires lp > 0 && intent <= U64_MAX && m as real <= z <= (lp * intent) as real
    requires k == CeilDiv(m, lp) && y == (z + lp as real - 1.0) / lp as real
    ensures k as real <= y < (intent + 1) as real && m <= k * lp
  {
    var top := z + lp as real - 1.0;
    DivBounds(m + lp - 1, lp);
    IntsInReals(k, lp);
    IntsInReals(intent + 1, lp);
    WholeBounds(top, m, lp, intent, k);
    QuotientAtLeast(top, lp as real, k as real);
    QuotientAtLeast(top, lp as real, (intent + 1) as real);
  }

  lemma CastRoundUp(z: real, lp: nat, intent: nat, m: nat)
    requires lp > 0 && intent <= U64_MAX && m as real <= z <= (lp * intent) as real
    ensures var taken := CastU64((z + lp as real - 1.0) / lp as real); taken <= intent && m <= taken * lp
  {
    var k := CeilDiv(m, lp);
    var y := (z + lp as real - 1.0) / lp as real;
    RoundUp(z, lp, intent, m, k, y);
    CastReaches(y, k);
    MulMono(k, CastU64(y), lp);
  }

  lemma WholeBounds(top: real, m: nat, lp: nat, intent: nat, k: nat)
    requires lp > 0 && (m + lp - 1) as real <= top <= (lp * intent) as real + lp as real - 1.0
    requires k * lp <= m + lp - 1
    ensures (k * lp) as real <= top < ((intent + 1) * lp) as real
  {
    assert (intent + 1) * lp == lp * intent + lp;
  }

  lemma ScaledFloor(reserve: nat, x: real)
    requires x >= 0.0
    ensures (reserve * CastU64(x)) as real <= reserve as real * x
  {
    IntsInReals(reserve, CastU64(x));
    assert reserve as real * (x - CastU64(x) as real) >= 0.0;
  }

  lemma ShareScales(whole: nat, part: nat, total: nat, x: real)
    requires total > 0 && x <= Share(whole, part, total)
    ensures total as real * x <= (whole * part) as real
  {
    IntsInReals(whole, part);
    QuotientAtLeast((whole * part) as real, total as real, x);
  }

  /** In exact reals a charge is within one token of the share of the reserve that `intent` is of the
      binding reserve. */
  lemma RealCharge(lp: real, binding: real, share: real, z: real, y: real, below: real, taken: real, above: real)
    requires lp >= 1.0 && binding > 0.0 && z * binding == share * lp
    requires y * lp == z + lp - 1.0 && taken <= y < above && below == taken - 1.0
    ensures below * binding < share < above * binding
  {
    assert below * lp == taken * lp - lp;
    if taken < y {
      StrictlyScaled(taken, y, lp);
    }
    StrictlyScaled(y, above, lp);
    StrictlyScaled(below * lp, z, binding);
    StrictlyScaled(z, above * lp, binding);
    CancelLess(below * binding, share, lp);
    CancelLess(share, above * binding, lp);
  }

  lemma StrictlyScaled(a: real, b: real, k: real)
    requires k > 0.0 && a < b
    ensures a * k < b * k
  {
    assert (b - a) * k > 0.0;
  }

  lemma CancelLess(a: real, b: real, k: real)
    requires k > 0.0 && a * k < b * k
    ensures a < b
  {
    var d := b - a;
    assert d * k == b * k - a * k;
    assert d > 0.0;
  }

  /** The side that does not bind is charged its share, to within one token either way. */
  lemma ChargeIsShare(reserve: nat, lp: nat, binding: nat, intent: nat, x: real, cap: nat)
    requires lp > 0 && binding > 0 && x >= 0.0 && x * binding as real == lp as real * intent as real
    requires cap <= U64_MAX && reserve as real * x <= (lp * cap) as real
    ensures (Charge(reserve, x, lp) - 1) * binding < reserve * intent < (Charge(reserve, x, lp) + 1) * binding
  {
    ReserveScaled(reserve as real, x, binding as real, lp as real, intent as real);
    ProductNotNegative(reserve as real, x);
    ChargeOf(reserve, lp, binding, intent, reserve as real * x, cap, Charge(reserve, x, lp));
  }

  lemma ChargeOf(reserve: nat, lp: nat, binding: nat, intent: nat, z: real, cap: nat, taken: nat)
    requires lp > 0 && binding > 0 && cap <= U64_MAX && 0.0 <= z <= (lp * cap) as real
    requires z * binding as real == reserve as real * intent as real * lp as real
    requires taken == CastU64((z + lp as real - 1.0) / lp as real)
    ensures (taken - 1) * binding < reserve * intent < (taken + 1) * binding
  {
    var y := (z + lp as real - 1.0) / lp as real;
    ChargeRounds(z, lp, cap, y);
    RealCharge(lp as real, binding as real, reserve as real * intent as real, z, y,
               taken as real - 1.0, taken as real, (taken + 1) as real);
    BackToInts(reserve, intent, binding, taken);
  }

  lemma ReserveScaled(reserve: real, x: real, binding: real, lp: real, intent: real)
    requires x * binding == lp * intent
    ensures reserve * x * binding == reserve * intent * lp
  {
    assert reserve * x * binding == reserve * (x * binding);
  }

  lemma ProductNotNegative(a: real, b: real)
    requires a >= 0.0 && b >= 0.0
    ensures a * b >= 0.0
  {
  }

  lemma ChargeRounds(z: real, lp: nat, cap: nat, y: real)
    requires lp > 0 && cap <= U64_MAX && 0.0 <= z <= (lp * cap) as real && y == (z + lp as real - 1.0) / lp as real
    ensures y * lp as real == z + lp as real - 1.0 && CastU64(y) as real <= y < (CastU64(y) + 1) as real
  {
    RoundedUp(z, lp, y);
    NotSaturated(z, lp, cap, y);
  }

  lemma ShareScaled(lp: nat, intent: nat, binding: nat, x: real)
    requires binding > 0 && x == Share(lp, intent, binding)
    ensures x >= 0.0 && x * binding as real == lp as real * intent as real
  {
    ShareFloors(lp, intent, binding);
  }

  lemma RoundedUp(z: real, lp: nat, y: real)
    requires lp > 0 && y == (z + lp as real - 1.0) / lp as real
    ensures y * lp as real == z + lp as real - 1.0
  {
  }

  lemma BackToInts(reserve: nat, intent: nat, binding: nat, taken: nat)
    requires (taken as real - 1.0) * binding as real < reserve as real * intent as real < (taken + 1) as real * binding as real
    ensures (taken - 1) * binding < reserve * intent < (taken + 1) * binding
  {
    IntsInReals(reserve, intent);
    IntsInReals(taken + 1, binding);
    IntInReals(taken - 1, binding);
  }

  lemma IntInReals(a: int, b: nat)
    ensures (a * b) as real == a as real * b as real
  {
  }

  lemma NotSaturated(z: real, lp: nat, cap: nat, y: real)
    requires lp > 0 && cap <= U64_MAX && 0.0 <= z <= (lp * cap) as real && y * lp as real == z + lp as real - 1.0
    ensures CastU64(y) as real <= y < (CastU64(y) + 1) as real
  {
    IntsInReals(lp, cap);
    CancelLess(y, (cap + 1) as real, lp as real);
  }

  /** The side of a deposit that does not bind. */
  lemma OtherSide(reserve: nat, lp: nat, intent: nat, x: real)
    requires reserve > 0 && lp > 0 && intent <= U64_MAX && 0.0 <= x <= Share(lp, intent, reserve)
    ensures Charge(reserve, x, lp) <= intent && reserve * CastU64(x) <= Charge(reserve, x, lp) * lp
  {
    ShareScales(lp, intent, reserve, x);
    ScaledFloor(reserve, x);
    CastRoundUp(reserve as real * x, lp, intent, reserve * CastU64(x));
  }

  /** The side that binds covers the LP it is given. */
  lemma BindingSide(reserve: nat, lp: nat, intent: nat)
    requires reserve > 0 && lp > 0 && intent <= U64_MAX
    ensures CastU64(intent as real) == intent && reserve * CastU64(Share(lp, intent, reserve)) <= intent * lp
  {
    ShareFloors(lp, intent, reserve);
    FloorShareBound(lp, intent, reserve);
    MulMono(CastU64(Share(lp, intent, reserve)), FloorShare(lp, intent, reserve), reserve);
  }

  /** Neither token is taken beyond what was offered, and each covers the share of its reserve that is
      minted. The side that binds is taken in full; the other side is charged, to within one token
      either way, the share of its reserve that the binding side is of its own. */
  predicate FairAdd(p: Reserves, syIntent: nat, ptIntent: nat, r: Added) {
    && r.syIn <= syIntent && r.ptIn <= ptIntent
    && p.sy * r.lpOut <= r.syIn * p.lp && p.pt * r.lpOut <= r.ptIn * p.lp
    && (syIntent * p.pt <= ptIntent * p.sy ==>
          r.syIn == syIntent && (r.ptIn - 1) * p.sy < p.pt * syIntent < (r.ptIn + 1) * p.sy)
    && (syIntent * p.pt > ptIntent * p.sy ==>
          r.ptIn == ptIntent && (r.syIn - 1) * p.pt < p.sy * ptIntent < (r.syIn + 1) * p.pt)
  }

  /** Which side binds, in integers. */
  lemma WhichBinds(p: Reserves, syIntent: nat, ptIntent: nat)
    requires Live(p)
    ensures Share(p.lp, ptIntent, p.pt) < Share(p.lp, syIntent, p.sy) <==> ptIntent * p.sy < syIntent * p.pt
  {
    var a, b := Share(p.lp, ptIntent, p.pt), Share(p.lp, syIntent, p.sy);
    ShareScaled(p.lp, ptIntent, p.pt, a);
    ShareScaled(p.lp, syIntent, p.sy, b);
    IntsInReals(ptIntent, p.sy);
    IntsInReals(syIntent, p.pt);
    CrossedShares(a, b, p.lp as real, ptIntent as real, p.pt as real, syIntent as real, p.sy as real);
  }

  lemma CrossedShares(a: real, b: real, lp: real, m: real, pt: real, n: real, sy: real)
    requires lp > 0.0 && pt > 0.0 && sy > 0.0 && a * pt == lp * m && b * sy == lp * n
    ensures a < b <==> m * sy < n * pt
  {
    var k := pt * sy;
    assert k > 0.0;
    assert a * k == a * pt * sy == m * sy * lp;
    assert b * k == b * sy * pt == n * pt * lp;
    if a < b {
      StrictlyScaled(a, b, k);
      CancelLess(m * sy, n * pt, lp);
    }
    if m * sy < n * pt {
      StrictlyScaled(m * sy, n * pt, lp);
      CancelLess(a, b, k);
    }
  }

  /** A deposit mints the smaller of the two proportional shares, and is fair to those already in. */
  lemma AddIsFair(p: Reserves, syIntent: nat, ptIntent: nat)
    requires Live(p) && syIntent <= U64_MAX && ptIntent <= U64_MAX
    ensures var r := AddLiquidity(p, syIntent, ptIntent);
            && r.lpOut == Min(Min(FloorShare(p.lp, ptIntent, p.pt), FloorShare(p.lp, syIntent, p.sy)), U64_MAX)
            && FairAdd(p, syIntent, ptIntent, r)
  {
    var fromPt, fromSy := Share(p.lp, ptIntent, p.pt), Share(p.lp, syIntent, p.sy);
    ShareFloors(p.lp, ptIntent, p.pt);
    ShareFloors(p.lp, syIntent, p.sy);
    WhichBinds(p, syIntent, ptIntent);
    if fromPt < fromSy {
      SidesAreFair(p.pt, p.sy, p.lp, ptIntent, syIntent);
    } else {
      SidesAreFair(p.sy, p.pt, p.lp, syIntent, ptIntent);
    }
  }

  /** The binding side and the other one. */
  lemma SidesAreFair(binding: nat, reserve: nat, lp: nat, intent: nat, cap: nat)
    requires binding > 0 && reserve > 0 && lp > 0 && intent <= U64_MAX && cap <= U64_MAX
    requires Share(lp, intent, binding) <= Share(lp, cap, reserve)
    ensures CastU64(intent as real) == intent && binding * CastU64(Share(lp, intent, binding)) <= intent * lp
    ensures var taken := Charge(reserve, Share(lp, intent, binding), lp);
            && taken <= cap && reserve * CastU64(Share(lp, intent, binding)) <= taken * lp
            && (taken - 1) * binding < reserve * intent < (taken + 1) * binding
  {
    var x := Share(lp, intent, binding);
    ShareFloors(lp, intent, binding);
    BindingSide(binding, lp, intent);
    OtherSide(reserve, lp, cap, x);
    ShareScales(lp, cap, reserve, x);
    ShareScaled(lp, intent, binding, x);
    ChargeIsShare(reserve, lp, binding, intent, x, cap);
  }

  /** A withdrawal pays the floor of each proportional share. */
  lemma RemoveIsFair(p: Reserves, lpIn: nat)
    requires 0 < p.lp && lpIn <= p.lp && p.sy <= U64_MAX && p.pt <= U64_MAX
    ensures var r := RemoveLiquidity(p, lpIn);
            && r == Ok(Removed(FloorShare(p.sy, lpIn, p.lp), FloorShare(p.pt, lpIn, p.lp)))
            && r.value.syOut <= p.sy && r.value.ptOut <= p.pt
            && r.value.syOut * p.lp <= p.sy * lpIn && r.value.ptOut * p.lp <= p.pt * lpIn
  {
    ShareFloors(p.sy, lpIn, p.lp);
    ShareFloors(p.pt, lpIn, p.lp);
    FloorShareBound(p.sy, lpIn, p.lp);
    FloorShareBound(p.pt, lpIn, p.lp);
  }

  // ---------- over runs ----------

  datatype Change = Add(syIntent: nat, ptIntent: nat) | Remove(lpIn: nat)

  function After(p: Reserves, c: Change): Result<Reserves>
    requires Live(p)
  {
    match c
    case Add(syIntent, ptIntent) =>
      var r := AddLiquidity(p, syIntent, ptIntent);
      var sy :- CheckedAdd(p.sy, r.syIn);
      var pt :- CheckedAdd(p.pt, r.ptIn);
      var lp :- CheckedAdd(p.lp, r.lpOut);
      Ok(Reserves(sy, pt, lp))
    case Remove(lpIn) =>
      var r :- RemoveLiquidity(p, lpIn);
      var sy :- CheckedSub(p.sy, r.syOut);
      var pt :- CheckedSub(p.pt, r.ptOut);
      Ok(Reserves(sy, pt, p.lp - lpIn))
  }

  predicate InU64(p: Reserves) {
    p.sy <= U64_MAX && p.pt <= U64_MAX && p.lp <= U64_MAX
  }

  predicate Offered(c: Change) {
    c.Add? ==> c.syIntent <= U64_MAX && c.ptIntent <= U64_MAX
  }

  /** One LP is worth at least as much of each token in `q` as in `p`. */
  predicate NotDiluted(p: Reserves, q: Reserves) {
    p.sy * q.lp <= q.sy * p.lp && p.pt * q.lp <= q.pt * p.lp
  }

  lemma ChangeDoesNotDilute(p: Reserves, c: Change)
    requires Live(p) && InU64(p) && Offered(c) && After(p, c).Ok?
    ensures NotDiluted(p, After(p, c).value) && InU64(After(p, c).value)
  {
    match c
    case Add(syIntent, ptIntent) =>
      AddIsFair(p, syIntent, ptIntent);
      var r := AddLiquidity(p, syIntent, ptIntent);
      GrowsAtLeastInShare(p.sy, p.lp, r.syIn, r.lpOut);
      GrowsAtLeastInShare(p.pt, p.lp, r.ptIn, r.lpOut);
    case Remove(lpIn) =>
      RemoveIsFair(p, lpIn);
      var r := RemoveLiquidity(p, lpIn).value;
      ShrinksAtMostInShare(p.sy, p.lp, r.syOut, lpIn);
      ShrinksAtMostInShare(p.pt, p.lp, r.ptOut, lpIn);
  }

  lemma GrowsAtLeastInShare(reserve: nat, lp: nat, taken: nat, minted: nat)
    requires reserve * minted <= taken * lp
    ensures reserve * (lp + minted) <= (reserve + taken) * lp
  {
  }

  lemma ShrinksAtMostInShare(reserve: nat, lp: nat, paid: nat, burned: nat)
    requires paid <= reserve && burned <= lp && paid * lp <= reserve * burned
    ensures reserve * (lp - burned) <= (reserve - paid) * lp
  {
  }

  predicate LiquidityRun(states: seq<Reserves>, cs: seq<Change>) {
    && |states| == |cs| + 1 && (forall i :: 0 <= i < |cs| ==> Live(states[i]))
    && forall i :: 0 <= i < |cs| ==> Offered(cs[i]) && After(states[i], cs[i]) == Ok(states[i + 1])
  }

  /** Over any run of deposits and withdrawals by anyone, the SY and the PT behind one LP never
      fall; the last withdrawal may empty the pool. */
  lemma {:induction false} HoldersAreNeverDiluted(states: seq<Reserves>, cs: seq<Change>)
    requires LiquidityRun(states, cs) && InU64(states[0])
    ensures NotDiluted(states[0], states[|cs|])
    decreases |cs|
  {
    if cs != [] {
      assert Offered(cs[0]) && After(states[0], cs[0]) == Ok(states[0 + 1]);
      ChangeDoesNotDilute(states[0], cs[0]);
      var rest, later := states[1..], cs[1..];
      forall i | 0 <= i < |later| ensures Offered(later[i]) && After(rest[i], later[i]) == Ok(rest[i + 1]) {
        assert Offered(cs[i + 1]) && After(states[i + 1], cs[i + 1]) == Ok(states[i + 2]);
      }
      forall i | 0 <= i < |later| ensures Live(rest[i]) {
        assert Live(states[i + 1]);
      }
      HoldersAreNeverDiluted(rest, later);
      var p, q, r := states[0], states[1], states[|cs|];
      if later != [] {
        assert Live(states[1]);
        ShareChains(p.sy, p.lp, q.sy, q.lp, r.sy, r.lp);
        ShareChains(p.pt, p.lp, q.pt, q.lp, r.pt, r.lp);
      }
    }
  }

  lemma ShareChains(a: nat, la: nat, b: nat, lb: nat, c: nat, lc: nat)
    requires lb > 0 && a * lb <= b * la && b * lc <= c * lb
    ensures a * lc <= c * la
  {
    calc {
      a * lc * lb;
      a * lb * lc;
    <= { MulMono(a * lb, b * la, lc); }
      b * la * lc;
      b * lc * la;
    <= { MulMono(b * lc, c * lb, la); }
      c * lb * la;
      c * la * lb;
    }
    CancelFactor(a * lc, c * la, lb);
  }

  // ---------- in and out again ----------

  /** Depositing and then burning the LP just minted returns at most what was put in, of each token. */
  lemma AddThenRemoveNeverProfits(p: Reserves, syIntent: nat, ptIntent: nat)
    requires Live(p) && InU64(p) && syIntent <= U64_MAX && ptIntent <= U64_MAX
    requires After(p, Add(syIntent, ptIntent)).Ok?
    ensures var r := AddLiquidity(p, syIntent, ptIntent);
            var back := RemoveLiquidity(After(p, Add(syIntent, ptIntent)).value, r.lpOut);
            back.Ok? && back.value.syOut <= r.syIn && back.value.ptOut <= r.ptIn
  {
    var r := AddLiquidity(p, syIntent, ptIntent);
    var q := After(p, Add(syIntent, ptIntent)).value;
    AddIsFair(p, syIntent, ptIntent);
    RemoveIsFair(q, r.lpOut);
    var back := RemoveLiquidity(q, r.lpOut).value;
    BoughtShareReturnsLess(p.sy, p.lp, r.syIn, r.lpOut, back.syOut);
    BoughtShareReturnsLess(p.pt, p.lp, r.ptIn, r.lpOut, back.ptOut);
  }

  lemma BoughtShareReturnsLess(reserve: nat, lp: nat, taken: nat, minted: nat, paid: nat)
    requires lp > 0 && reserve * minted <= taken * lp && paid * (lp + minted) <= (reserve + taken) * minted
    ensures paid <= taken
  {
    assert (reserve + taken) * minted <= taken * (lp + minted);
    CancelFactor(paid, taken, lp + minted);
  }

  /** Withdrawing and then depositing exactly the proceeds mints at most the LP burned. */
  lemma RemoveThenAddNeverProfits(p: Reserves, lpIn: nat)
    requires Live(p) && InU64(p) && After(p, Remove(lpIn)).Ok? && Live(After(p, Remove(lpIn)).value)
    ensures var r := RemoveLiquidity(p, lpIn).value;
            AddLiquidity(After(p, Remove(lpIn)).value, r.syOut, r.ptOut).lpOut <= lpIn
  {
    var r := RemoveLiquidity(p, lpIn).value;
    var q := After(p, Remove(lpIn)).value;
    RemoveIsFair(p, lpIn);
    AddIsFair(q, r.syOut, r.ptOut);
    FloorShareBound(q.lp, r.syOut, q.sy);
    RestoredShareIsLess(p.sy, p.lp, r.syOut, lpIn, FloorShare(q.lp, r.syOut, q.sy));
  }

  lemma RestoredShareIsLess(reserve: nat, lp: nat, paid: nat, burned: nat, minted: nat)
    requires paid < reserve && burned <= lp && paid * lp <= reserve * burned
    requires minted * (reserve - paid) <= (lp - burned) * paid
    ensures minted <= burned
  {
    assert (lp - burned) * paid <= burned * (reserve - paid);
    CancelFactor(minted, burned, reserve - paid);
  }
}
