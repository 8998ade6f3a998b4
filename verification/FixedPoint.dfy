/** `Number` as a natural scaled by 10^12, with division truncating at the last place.
    A rate or an index is held as its raw scaled value. */
module FixedPoint {

  const ONE: nat := 1_000_000_000_000

  function Abs(x: int): nat {
    if x < 0 then -x else x
  }

  function Min(a: nat, b: nat): nat {
    if a <= b then a else b
  }

  /** `(number * natural).floor_u64()` before the u64 check. */
  function MulFloor(raw: nat, n: nat): nat {
    raw * n / ONE
  }

  /** `number / number`. */
  function Quotient(a: nat, b: nat): nat
    requires b > 0
  {
    a * ONE / b
  }

  /** `(natural / number).floor_u64()` before the u64 check. */
  function DivFloor(n: nat, raw: nat): nat
    requires raw > 0
  {
    n * ONE / raw
  }

  /** `Number::ONE / number`; zero stands in for the reciprocal nobody asks for. */
  function Reciprocal(raw: nat): nat {
    if raw == 0 then 0 else ONE * ONE / raw
  }

  /** `Number::from_ratio(n, m)`, where a zero denominator gives zero. */
  function Ratio(n: nat, m: nat): nat {
    if m == 0 then 0 else n * ONE / m
  }

  // ---------- division facts ----------

  lemma DivBounds(a: nat, b: nat)
    requires b > 0
    ensures a / b * b <= a < a / b * b + b
  {
    assert a == b * (a / b) + a % b;
  }

  lemma MulMono(a: int, b: int, c: nat)
    requires a <= b
    ensures a * c <= b * c
  {
  }

  lemma DivIsAtLeast(a: nat, b: nat, q: nat)
    requires b > 0 && q * b <= a
    ensures q <= a / b
  {
    DivBounds(a, b);
    if q > a / b {
      MulMono(a / b + 1, q, b);
    }
  }

  lemma DivIsAtMost(a: nat, b: nat, q: nat)
    requires b > 0 && a < (q + 1) * b
    ensures a / b <= q
  {
    DivBounds(a, b);
    if q + 1 <= a / b {
      MulMono(q + 1, a / b, b);
    }
  }

  lemma ReciprocalBounds(r: nat)
    requires r > 0
    ensures Reciprocal(r) * r <= ONE * ONE < Reciprocal(r) * r + r
    ensures Reciprocal(r) * r + (ONE * ONE) % r == ONE * ONE
  {
    DivBounds(ONE * ONE, r);
  }

  lemma ReciprocalAntitone(a: nat, b: nat)
    requires 0 < a <= b
    ensures Reciprocal(b) <= Reciprocal(a)
  {
    ReciprocalBounds(b);
    MulMono(a, b, Reciprocal(b));
    DivIsAtLeast(ONE * ONE, a, Reciprocal(b));
  }

  lemma CancelFactor(a: int, b: int, c: nat)
    requires c > 0 && a * c <= b * c
    ensures a <= b
  {
    if b < a {
      MulMono(b + 1, a, c);
    }
  }

  /** Truncating to the last place first does not move the floor. */
  lemma TruncateTwice(x: nat, r: nat)
    requires r > 0
    ensures x * ONE / r / ONE == x / r
  {
    var y := x * ONE / r;
    var q := x / r;
    DivBounds(x * ONE, r);
    DivBounds(x, r);
    assert q * ONE <= y by {
      assert q * ONE * r == q * r * ONE;
      DivIsAtLeast(x * ONE, r, q * ONE);
    }
    assert y < (q + 1) * ONE by {
      assert (q + 1) * ONE * r == (q * r + r) * ONE;
      if (q + 1) * ONE <= y {
        MulMono((q + 1) * ONE, y, r);
      }
    }
  }

  /** A part `n` of `m` shares of `s`, priced through a truncated ratio. */
  lemma ShareOfTotal(s: nat, m: nat, n: nat)
    requires m > 0
    ensures MulFloor(Ratio(s, m), n) * m <= s * n
  {
    var q := Ratio(s, m);
    var paid := MulFloor(q, n);
    DivBounds(s * ONE, m);
    DivBounds(q * n, ONE);
    calc {
      paid * m * ONE;
      paid * ONE * m;
    <= { MulMono(paid * ONE, q * n, m); }
      q * n * m;
      q * m * n;
    <= { MulMono(q * m, s * ONE, n); }
      s * ONE * n;
      s * n * ONE;
    }
  }
}
