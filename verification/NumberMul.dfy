/** `Number` as it is stored, four 64-bit words in little endian, and its multiplication that never
    leaves 128 bits. */
module NumberMul {
  import opened Outcome
  import opened FixedPoint

  const TWO64: nat := 0x1_0000_0000_0000_0000
  const TWO128: nat := TWO64 * TWO64

  type Word = x: nat | x < TWO64

  datatype Number = Number(w0: Word, w1: Word, w2: Word, w3: Word)

  /** The scaled integer the four words spell. */
  function Raw(n: Number): nat {
    n.w0 + TWO64 * (n.w1 + TWO64 * (n.w2 + TWO64 * n.w3))
  }

  /** `raw_u128`: refuses a number whose upper words are in use. */
  function RawU128(n: Number): (r: Result<nat>)
    ensures r.Ok? <==> Raw(n) < TWO128
    ensures r.Ok? ==> r.value == Raw(n)
  {
    if n.w2 == 0 && n.w3 == 0 then Ok(n.w0 + n.w1 * TWO64) else Reverted(AssertionFailed)
  }

  /** `from_raw_u128`. */
  function FromRawU128(raw: nat): (n: Number)
    requires raw < TWO128
    ensures Raw(n) == raw && RawU128(n) == Ok(raw)
  {
    Number(raw % TWO64, raw / TWO64, 0, 0)
  }

  /** `checked_mul` and `checked_add` on u128. */
  function Mul128(x: nat, y: nat): Result<nat> {
    if x * y < TWO128 then Ok(x * y) else Reverted(Overflow)
  }

  function Add128(x: nat, y: nat): Result<nat> {
    if x + y < TWO128 then Ok(x + y) else Reverted(Overflow)
  }

  /** The cross terms and the low product each bring a carry; every step is checked. */
  function SplitMul(aHi: nat, aLo: nat, bHi: nat, bLo: nat): Result<nat> {
    var d2 :- Mul128(ONE, ONE);
    var c0 :- Mul128(aHi, bLo);
    var c1 :- Mul128(aLo, bHi);
    var cross :- Add128(c0, c1);
    var lo :- Mul128(aLo, bLo);
    var c2 :- Mul128(cross % ONE, ONE);
    var c3 :- Add128(c2, lo);
    var carry := c3 / d2;
    var hi :- Mul128(aHi, bHi);
    var r0 :- Add128(hi, cross / ONE);
    var r1 :- Add128(r0, carry);
    ToU64(r1)
  }

  /** Each factor is split at the point. */
  function FastMulFloor(x: Number, y: Number): Result<nat> {
    var a :- RawU128(x);
    var b :- RawU128(y);
    SplitMul(a / ONE, a % ONE, b / ONE, b % ONE)
  }

  /** `floor(a * b / 10^24)` on the raw values. */
  function FloorOfProduct(x: Number, y: Number): nat {
    Raw(x) * Raw(y) / (ONE * ONE)
  }

  /** What the split adds up to before any width is checked. */
  function SplitProduct(aHi: nat, aLo: nat, bHi: nat, bLo: nat): nat {
    var cross := aHi * bLo + aLo * bHi;
    aHi * bHi + cross / ONE + (cross % ONE * ONE + aLo * bLo) / (ONE * ONE)
  }

  lemma SplitExpands(aHi: nat, aLo: nat, bHi: nat, bLo: nat)
    ensures (aHi * ONE + aLo) * (bHi * ONE + bLo)
         == aHi * bHi * (ONE * ONE) + (aHi * bLo + aLo * bHi) * ONE + aLo * bLo
  {
  }

  lemma SplitIsExact(aHi: nat, aLo: nat, bHi: nat, bLo: nat)
    ensures SplitProduct(aHi, aLo, bHi, bLo) == (aHi * ONE + aLo) * (bHi * ONE + bLo) / (ONE * ONE)
  {
    SplitExpands(aHi, aLo, bHi, bLo);
    var cross := aHi * bLo + aLo * bHi;
    var low := cross % ONE * ONE + aLo * bLo;
    DivBounds(cross, ONE);
    DivBounds(low, ONE * ONE);
    var q := SplitProduct(aHi, aLo, bHi, bLo);
    var p := (aHi * ONE + aLo) * (bHi * ONE + bLo);
    assert p == (aHi * bHi + cross / ONE) * (ONE * ONE) + low;
    DivIsAtLeast(p, ONE * ONE, q);
    DivIsAtMost(p, ONE * ONE, q);
  }

  /** A product that fits the result leaves every intermediate value inside 128 bits. */
  lemma IntermediatesFit(aHi: nat, aLo: nat, bHi: nat, bLo: nat)
    requires aLo < ONE && bLo < ONE
    requires SplitProduct(aHi, aLo, bHi, bLo) <= U64_MAX
    ensures aHi * bHi <= U64_MAX
    ensures aHi * bLo + aLo * bHi < (U64_MAX + 1) * ONE < TWO128
    ensures aLo * bLo < ONE * ONE
  {
    var cross := aHi * bLo + aLo * bHi;
    DivBounds(cross, ONE);
    MulMono(aLo, ONE - 1, bLo);
    MulMono(bLo, ONE - 1, ONE - 1);
  }

  lemma SplitMulIsSplitProduct(aHi: nat, aLo: nat, bHi: nat, bLo: nat)
    requires aLo < ONE && bLo < ONE
    ensures SplitMul(aHi, aLo, bHi, bLo).Ok? <==> SplitProduct(aHi, aLo, bHi, bLo) <= U64_MAX
    ensures SplitMul(aHi, aLo, bHi, bLo).Ok? ==> SplitMul(aHi, aLo, bHi, bLo).value == SplitProduct(aHi, aLo, bHi, bLo)
  {
    var cross := aHi * bLo + aLo * bHi;
    assert ONE * ONE < TWO128;
    if SplitProduct(aHi, aLo, bHi, bLo) <= U64_MAX {
      IntermediatesFit(aHi, aLo, bHi, bLo);
      assert cross % ONE * ONE <= (ONE - 1) * ONE;
      assert Mul128(aHi, bLo).Ok? && Mul128(aLo, bHi).Ok? && Add128(aHi * bLo, aLo * bHi) == Ok(cross);
      assert Mul128(aLo, bLo) == Ok(aLo * bLo) && Mul128(cross % ONE, ONE) == Ok(cross % ONE * ONE);
    }
  }

  /** The fast product is exactly the floor of the product, and it is returned if and only if both
      factors fit 128 bits and that floor fits 64: no intermediate overflow ever rejects a
      representable result. */
  lemma FastMulFloorIsExact(x: Number, y: Number)
    ensures FastMulFloor(x, y).Ok? <==> Raw(x) < TWO128 && Raw(y) < TWO128 && FloorOfProduct(x, y) <= U64_MAX
    ensures FastMulFloor(x, y).Ok? ==> FastMulFloor(x, y).value == FloorOfProduct(x, y)
  {
    var a, b := Raw(x), Raw(y);
    var aHi, aLo, bHi, bLo := a / ONE, a % ONE, b / ONE, b % ONE;
    assert a == aHi * ONE + aLo && b == bHi * ONE + bLo;
    SplitIsExact(aHi, aLo, bHi, bLo);
    SplitMulIsSplitProduct(aHi, aLo, bHi, bLo);
  }
}
