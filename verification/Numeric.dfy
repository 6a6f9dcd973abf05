/** Money arithmetic. The engine's Decimal amounts are modelled as exact reals; the two places
    where it rounds (`quantize`, half to even) or truncates (`int(...)`) are written out here. */
module Numeric {

  datatype Option<+T> = None | Some(value: T)

  function Min(a: real, b: real): real { if a <= b then a else b }

  function Max(a: real, b: real): real { if a >= b then a else b }

  function Clamp(v: real, lo: real, hi: real): real { Max(lo, Min(hi, v)) }

  function MinNat(a: nat, b: nat): nat { if a <= b then a else b }

  /** The nearest integer, a tie going to the even neighbour. */
  function RoundHalfEven(x: real): int {
    var low := x.Floor;
    var rest := x - low as real;
    if rest < 0.5 then low
    else if rest > 0.5 then low + 1
    else if low % 2 == 0 then low else low + 1
  }

  /** Decimal.quantize(Decimal("0.01")). */
  function Cents(x: real): real { RoundHalfEven(x * 100.0) as real / 100.0 }

  /** Python's `int(...)` of a Decimal: towards zero. */
  function Trunc(x: real): int { if x >= 0.0 then x.Floor else -((-x).Floor) }

  /** Decimal(10) ** n */
  function Pow10(n: nat): (p: real)
    ensures p > 0.0
  {
    if n == 0 then 1.0 else 10.0 * Pow10(n - 1)
  }

  /** A billion lamports to one SOL, ten times as many raw units with each decimal, a million microseconds to a
      second. */
  lemma UnitsOfMeasure(n: nat)
    ensures Pow10(0) == 1.0 && Pow10(n + 1) == 10.0 * Pow10(n) && Pow10(9) == 1000000000.0 && SECOND == 1000 * 1000
  {
    assert Pow10(5) == 100000.0;
  }

  /** A moment or a span, in microseconds. */
  type Time = int

  const SECOND: Time := 1000000

  /** int(span.total_seconds()) */
  function WholeSeconds(span: Time): int { Trunc(span as real / SECOND as real) }

  /** int(usd / price * 10 ** decimals), nothing without a price. */
  function UnitsFor(usd: real, price: real, scale: real): int {
    if price > 0.0 then Trunc(usd / price * scale) else 0
  }

  function Ui(raw: nat, decimals: nat): real { raw as real / Pow10(decimals) }

  lemma CentsNear(x: real)
    ensures -0.005 <= Cents(x) - x <= 0.005
    ensures x >= 0.0 ==> Cents(x) >= 0.0
  {
    var y := x * 100.0;
    assert -0.5 <= RoundHalfEven(y) as real - y <= 0.5;
  }

  lemma RoundMonotone(x: real, y: real)
    requires x <= y
    ensures RoundHalfEven(x) <= RoundHalfEven(y)
  {
    assert x.Floor <= y.Floor;
  }

  lemma CentsMonotone(x: real, y: real)
    requires x <= y
    ensures Cents(x) <= Cents(y)
  {
    RoundMonotone(x * 100.0, y * 100.0);
  }

  lemma MulMono(k: real, x: real, y: real)
    requires k >= 0.0 && x <= y
    ensures k * x <= k * y && x * k <= y * k
  {
  }

  lemma MulOrder(a: real, b: real, x: real, y: real)
    requires 0.0 <= a <= b && 0.0 <= x <= y
    ensures 0.0 <= a * x <= b * y
  {
    MulMono(x, 0.0, a);
    MulMono(x, a, b);
    MulMono(b, x, y);
  }

  /** An amount times a multiplier. */
  function Scaled(x: real, k: real): real { x * k }

  lemma ScaledTwice(x: real, k: real, l: real)
    ensures Scaled(x, Scaled(k, l)) == Scaled(Scaled(x, k), l)
  {
    assert x * (k * l) == (x * k) * l;
  }

  lemma ScaledAdds(x: real, y: real, k: real)
    ensures Scaled(x + y, k) == Scaled(x, k) + Scaled(y, k)
  {
  }

  lemma ScaledOrder(x: real, y: real, k: real, l: real)
    requires 0.0 <= x <= y && 0.0 <= k <= l
    ensures 0.0 <= Scaled(x, k) <= Scaled(y, l)
  {
    MulOrder(x, y, k, l);
  }

  lemma Distributes(x: real, y: real, k: real)
    ensures (x + y) * k == x * k + y * k
  {
  }

  lemma Quotient(x: real, k: real)
    requires k > 0.0
    ensures (x / k) * k == x
  {
  }

  /** Dividing the same amount by more gives less. */
  lemma QuotientOrder(x: real, k: real, l: real)
    requires 0.0 < k <= l && x >= 0.0
    ensures 0.0 <= x / l <= x / k
  {
    Quotient(x, k);
    Quotient(x, l);
    if x / l > x / k {
      MulLess(x / k, x / l, k);
      MulMono(x / l, k, l);
    }
  }

  lemma MulCancel(a: real, b: real, k: real)
    requires k > 0.0 && a * k == b * k
    ensures a == b
  {
    if a < b { MulLess(a, b, k); }
    if a > b { MulLess(b, a, k); }
  }

  lemma MulLess(a: real, b: real, k: real)
    requires k > 0.0 && a < b
    ensures a * k < b * k
  {
    assert (b - a) * k > 0.0;
  }

  function Percent(x: real, pct: real): real { x * pct / 100.0 }

  lemma PercentOrder(x: real, y: real, pct: real)
    requires pct >= 0.0 && x <= y
    ensures Percent(x, pct) <= Percent(y, pct)
  {
    MulMono(pct, x, y);
  }

  lemma PercentIsPart(x: real, pct: real)
    requires x >= 0.0 && 0.0 <= pct <= 100.0
    ensures 0.0 <= Percent(x, pct) <= x
  {
    MulMono(x, 0.0, pct);
    MulMono(x, pct, 100.0);
  }

  lemma PercentSplits(x: real, y: real, pct: real)
    ensures Percent(x + y, pct) == Percent(x, pct) + Percent(y, pct)
  {
    assert (x + y) * pct == x * pct + y * pct;
  }

  /** The maximum of a first value and the values that follow it. */
  ghost predicate IsMaximum(m: real, start: real, xs: seq<real>) {
    && (m == start || m in xs)
    && m >= start && forall i :: 0 <= i < |xs| ==> xs[i] <= m
  }

  lemma MaximumOfMore(m: real, start: real, x: real, xs: seq<real>)
    requires IsMaximum(m, Max(start, x), xs)
    ensures IsMaximum(m, start, [x] + xs)
  {
    assert ([x] + xs)[0] == x;
    assert forall y :: y in xs ==> y in [x] + xs;
  }
}
