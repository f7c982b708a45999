/** The six measuring ranges of the YMCS0004/5 picoammeter (RangeEnum) and
    the conversion of a raw ADC count into amperes. */
module RangeTable {

  /** A RangeEnum ordinal: RANGE_1 = 0, ..., RANGE_6 = 5. */
  type Range = r: int | 0 <= r <= 5

  /** The raw count that stands for the upper limit of a range. */
  const FULL_SCALE: nat := 262144000

  /** One femtoampere, in amperes. */
  const FEMTO: real := 1e-15

  function Pow10(n: nat): (p: nat)
    ensures p >= 1
  {
    if n == 0 then 1 else 10 * Pow10(n - 1)
  }

  /** The powers up to the last range's stay within 10^5. */
  lemma Pow10Bounds(n: nat)
    requires n <= 5
    ensures Pow10(n) <= 100000
    decreases 5 - n
  {
    if n < 5 {
      Pow10Bounds(n + 1);
    } else {
      assert Pow10(5) == 100000;
    }
  }

  /** RangeEnum.min: the lower limit of the range, in fA. */
  function MinFA(r: Range): (m: nat)
    ensures 100 <= m <= 10000000
  {
    Pow10Bounds(r);
    100 * Pow10(r)
  }

  /** RangeEnum.max: the upper limit of the range, in fA. */
  function MaxFA(r: Range): (m: nat)
    ensures 1000000 <= m <= 100000000000
  {
    Pow10Bounds(r);
    1000000 * Pow10(r)
  }

  /** RangeEnum.to_amperes: the current in A that a raw count stands for.
      The raw count is not clamped. */
  function ToAmperes(r: Range, raw: int): (a: real)
    ensures a == 0.0 <==> raw == 0
    ensures a > 0.0 <==> raw > 0
  {
    MaxFA(r) as real / FULL_SCALE as real * raw as real * FEMTO
  }

  /** The amperes one raw count is worth in range r. */
  function AmperesPerCount(r: Range): (g: real)
    ensures g > 0.0
  {
    MaxFA(r) as real / FULL_SCALE as real * FEMTO
  }

  /** Every range spans four decades: max(r) = 10^4 * min(r). */
  lemma MaxIsTenThousandTimesMin(r: Range)
    ensures MaxFA(r) == 10000 * MinFA(r)
    ensures MinFA(r) < MaxFA(r)
  {
  }

  /** Each range's limits are ten times those of the range below it. */
  lemma {:induction false} NextRangeIsTenfold(r: Range)
    requires r < 5
    ensures MaxFA(r + 1) == 10 * MaxFA(r)
    ensures MinFA(r + 1) == 10 * MinFA(r)
  {
    assert Pow10(r + 1) == 10 * Pow10(r);
  }

  /** The conversion is linear in the raw count. */
  lemma ToAmperesIsLinear(r: Range, raw: int)
    ensures ToAmperes(r, raw) == AmperesPerCount(r) * raw as real
  {
    var m := MaxFA(r) as real / FULL_SCALE as real;
    calc {
      ToAmperes(r, raw);
      m * raw as real * FEMTO;
      { MulCommutes3(m, raw as real, FEMTO); }
      m * FEMTO * raw as real;
    }
  }

  lemma MulCommutes3(a: real, b: real, c: real)
    ensures a * b * c == a * c * b
  {
  }

  /** A zero count is zero amperes and a full-scale count is the upper limit. */
  lemma ToAmperesEndpoints(r: Range)
    ensures ToAmperes(r, 0) == 0.0
    ensures ToAmperes(r, FULL_SCALE) == MaxFA(r) as real * FEMTO
  {
    ToAmperesIsLinear(r, FULL_SCALE);
    var m := MaxFA(r) as real;
    var f := FULL_SCALE as real;
    assert m / f * FEMTO * f == m * FEMTO;
  }

  /** A larger count never converts to a smaller current. */
  lemma ToAmperesMonotone(r: Range, a: int, b: int)
    requires a <= b
    ensures ToAmperes(r, a) <= ToAmperes(r, b)
  {
    ToAmperesIsLinear(r, a);
    ToAmperesIsLinear(r, b);
    var g := AmperesPerCount(r);
    assert g * (b as real) - g * (a as real) == g * (b as real - a as real);
  }

  /** A count on the instrument's scale converts to a current within the range. */
  lemma ToAmperesWithinRange(r: Range, raw: int)
    requires 0 <= raw <= FULL_SCALE
    ensures 0.0 <= ToAmperes(r, raw) <= MaxFA(r) as real * FEMTO
  {
    ToAmperesEndpoints(r);
    ToAmperesMonotone(r, 0, raw);
    ToAmperesMonotone(r, raw, FULL_SCALE);
  }

  /** The same count reads ten times as much current one range up. */
  lemma ToAmperesNextRange(r: Range, raw: int)
    requires r < 5
    ensures ToAmperes(r + 1, raw) == 10.0 * ToAmperes(r, raw)
  {
    NextRangeIsTenfold(r);
    ToAmperesIsLinear(r, raw);
    ToAmperesIsLinear(r + 1, raw);
    var m := MaxFA(r) as real;
    var f := FULL_SCALE as real;
    assert AmperesPerCount(r + 1) == 10.0 * m / f * FEMTO;
    assert AmperesPerCount(r + 1) == 10.0 * AmperesPerCount(r);
  }

  /** RANGE_1 tops out at 1 nA. */
  lemma FirstRangeFullScale()
    ensures ToAmperes(0, FULL_SCALE) == 1e-9
  {
    ToAmperesEndpoints(0);
  }
}
