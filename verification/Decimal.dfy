/** src/shared/decimal/decimal.js: numbers held as a coefficient and a scale,
    the four operations, the four rounding modes and quantisation to a step.
    A number's meaning is the real number coefficient / 10^scale. */
module Decimal {
  import opened Common

  datatype Parts = Parts(coefficient: int, scale: nat)

  datatype Rounding = DOWN | HALF_UP | FLOOR | CEIL

  datatype DecimalError =
    | InvalidText | ExponentOutOfRange | InvalidExponent | DivisionByZero | InvalidScale | NonPositiveStep

  const MAX_POW10: int := 10_000
  const MAX_DIVISION_SCALE: int := 100

  function Pow10(e: nat): (p: int)
    ensures p > 0
  {
    if e == 0 then 1 else 10 * Pow10(e - 1)
  }

  function PowReal(e: nat): (p: real)
    ensures p > 0.0
  {
    Pow10(e) as real
  }

  function Value(p: Parts): (x: real) { p.coefficient as real / PowReal(p.scale) }

  // ---- powers of ten -------------------------------------------------------

  lemma {:induction false} PowAdd(a: nat, b: nat)
    ensures Pow10(a + b) == Pow10(a) * Pow10(b)
  {
    if a != 0 {
      PowAdd(a - 1, b);
      assert Pow10(a + b) == 10 * Pow10(a + b - 1);
      assert 10 * (Pow10(a - 1) * Pow10(b)) == (10 * Pow10(a - 1)) * Pow10(b);
    }
  }

  /** The cache behind pow10: entry i, once present, is the i-th power of ten. */
  class Pow10Cache {
    var powers: seq<int>

    ghost predicate Valid()
      reads this
    {
      |powers| >= 1 && forall i :: 0 <= i < |powers| ==> powers[i] == Pow10(i)
    }

    constructor ()
      ensures Valid() && powers == [1]
    {
      powers := [1];
    }

    method Get(exponent: int) returns (r: Result<int, DecimalError>)
      requires Valid()
      modifies this
      ensures Valid() && old(powers) <= powers
      ensures r == if 0 <= exponent <= MAX_POW10 then Ok(Pow10(exponent)) else Err(InvalidExponent)
      ensures r.Ok? ==> exponent < |powers|
    {
      if exponent < 0 || exponent > MAX_POW10 {
        return Err(InvalidExponent);
      }
      for index := |powers| to Max(|powers|, exponent + 1)
        invariant Valid() && |powers| == index && old(powers) <= powers
      {
        powers := powers + [powers[index - 1] * 10];
      }
      r := Ok(powers[exponent]);
    }
  }

  // ---- normal form ---------------------------------------------------------

  predicate Canonical(p: Parts) {
    && (p.coefficient == 0 ==> p.scale == 0)
    && (p.scale > 0 ==> p.coefficient % 10 != 0)
  }

  function Normalize(p: Parts): (n: Parts)
    ensures Canonical(n) && n.scale <= p.scale
    decreases p.scale
  {
    if p.coefficient == 0 then Parts(0, 0)
    else if p.scale > 0 && p.coefficient % 10 == 0 then Normalize(Parts(p.coefficient / 10, p.scale - 1))
    else p
  }

  /** The trailing-zero loop. The division is exact whenever it is reached, so
      truncating and flooring agree on it. */
  method NormalizeParts(p: Parts) returns (n: Parts)
    ensures n == Normalize(p) && Canonical(n) && Value(n) == Value(p)
  {
    NormalizeKeepsValue(p);
    if p.coefficient == 0 {
      return Parts(0, 0);
    }
    var coefficient, scale := p.coefficient, p.scale;
    while scale > 0 && coefficient % 10 == 0
      invariant coefficient != 0
      invariant Normalize(Parts(coefficient, scale)) == Normalize(p)
    {
      coefficient, scale := coefficient / 10, scale - 1;
    }
    n := Parts(coefficient, scale);
  }

  lemma DivIs(a: real, b: real, x: real)
    requires b > 0.0
    ensures a / b == x <==> a == x * b
  {
    assert (a / b) * b == a;
  }

  lemma RatioScale(c: real, p: real, k: real)
    requires p > 0.0 && k > 0.0
    ensures p * k > 0.0 && (c * k) / (p * k) == c / p
  {
    var x := c / p;
    DivIs(c, p, x);
    assert (x * p) * k == x * (p * k);
    DivIs(c * k, p * k, x);
  }

  lemma RatioProduct(c: real, p: real, d: real, q: real)
    requires p > 0.0 && q > 0.0
    ensures p * q > 0.0 && (c * d) / (p * q) == (c / p) * (d / q)
  {
    var x, y := c / p, d / q;
    DivIs(c, p, x);
    DivIs(d, q, y);
    ProductOfProducts(x, p, y, q);
    DivIs(c * d, p * q, x * y);
  }

  lemma ProductOfProducts(x: real, p: real, y: real, q: real)
    ensures (x * p) * (y * q) == (x * y) * (p * q)
  {
    calc {
      (x * p) * (y * q);
      x * (p * (y * q));
      x * (y * (p * q));
      (x * y) * (p * q);
    }
  }

  lemma Rescale(p: Parts, k: nat)
    ensures Value(Parts(p.coefficient * Pow10(k), p.scale + k)) == Value(p)
  {
    PowAdd(p.scale, k);
    RatioOfProducts(p.coefficient, Pow10(k), Pow10(p.scale));
  }

  lemma RatioOfProducts(c: int, k: int, p: int)
    requires k > 0 && p > 0
    ensures p * k > 0 && (c * k) as real / (p * k) as real == c as real / p as real
  {
    RatioScale(c as real, p as real, k as real);
    ProductAsReal(c, k);
    ProductAsReal(p, k);
  }

  lemma ProductOfRatios(c: int, p: int, d: int, q: int)
    requires p > 0 && q > 0
    ensures p * q > 0 && (c * d) as real / (p * q) as real == (c as real / p as real) * (d as real / q as real)
  {
    RatioProduct(c as real, p as real, d as real, q as real);
    ProductAsReal(c, d);
    ProductAsReal(p, q);
  }

  lemma ProductAsReal(a: int, b: int)
    ensures (a * b) as real == a as real * b as real
  {
  }

  lemma {:induction false} NormalizeKeepsValue(p: Parts)
    ensures Value(Normalize(p)) == Value(p)
    decreases p.scale
  {
    if p.coefficient == 0 {
      DivIs(0.0, PowReal(p.scale), 0.0);
      DivIs(0.0, PowReal(0), 0.0);
    } else if p.scale > 0 && p.coefficient % 10 == 0 {
      var q := Parts(p.coefficient / 10, p.scale - 1);
      assert Pow10(1) == 10 * Pow10(0);
      Rescale(q, 1);
      assert Parts(q.coefficient * Pow10(1), q.scale + 1) == p;
      NormalizeKeepsValue(q);
    }
  }

  /** A normal form is unique: two of them with the same value are the same parts. */
  lemma CanonicalUnique(p: Parts, q: Parts)
    requires Canonical(p) && Canonical(q) && Value(p) == Value(q)
    ensures p == q
  {
    if q.scale < p.scale {
      CanonicalScales(p, q);
    } else {
      CanonicalScales(q, p);
    }
  }

  lemma CanonicalScales(p: Parts, q: Parts)
    requires Canonical(p) && Canonical(q) && Value(p) == Value(q) && q.scale <= p.scale
    ensures p == q
  {
    var k := p.scale - q.scale;
    Rescale(q, k);
    var lifted := q.coefficient * Pow10(k);
    assert Value(Parts(lifted, p.scale)) == Value(p);
    DivIs(lifted as real, PowReal(p.scale), Value(p));
    DivIs(p.coefficient as real, PowReal(p.scale), Value(p));
    assert lifted == p.coefficient;
    if k > 0 {
      TimesTen(q.coefficient, Pow10(k - 1));
      assert false;
    }
  }

  lemma TimesTen(c: int, t: int)
    ensures c * (10 * t) == 10 * (c * t) && (c * (10 * t)) % 10 == 0
  {
    assert c * (10 * t) == 10 * (c * t);
  }

  // ---- addition, subtraction, multiplication, comparison --------------------

  datatype Aligned = Aligned(scale: nat, a: int, b: int)

  /** pow10 refuses exponents above MAX_POW10, so operands whose scales are
      further apart than that cannot be aligned. */
  function Align(a: Parts, b: Parts): (r: Result<Aligned, DecimalError>) {
    var scale := Max(a.scale, b.scale);
    if scale - a.scale > MAX_POW10 || scale - b.scale > MAX_POW10 then Err(InvalidExponent)
    else Ok(Aligned(scale, a.coefficient * Pow10(scale - a.scale), b.coefficient * Pow10(scale - b.scale)))
  }

  predicate Alignable(a: Parts, b: Parts) {
    a.scale <= b.scale + MAX_POW10 && b.scale <= a.scale + MAX_POW10
  }

  function Add(a: Parts, b: Parts): (r: Result<Parts, DecimalError>) {
    var x :- Align(a, b);
    Ok(Normalize(Parts(x.a + x.b, x.scale)))
  }

  function Subtract(a: Parts, b: Parts): (r: Result<Parts, DecimalError>) {
    var x :- Align(a, b);
    Ok(Normalize(Parts(x.a - x.b, x.scale)))
  }

  function Multiply(a: Parts, b: Parts): (r: Parts) {
    Normalize(Parts(a.coefficient * b.coefficient, a.scale + b.scale))
  }

  function Compare(a: Parts, b: Parts): (r: Result<int, DecimalError>) {
    var x :- Align(a, b);
    Ok(if x.a == x.b then 0 else if x.a > x.b then 1 else -1)
  }

  lemma AlignValues(a: Parts, b: Parts)
    ensures Align(a, b).Ok? <==> Alignable(a, b)
    ensures Align(a, b).Ok? ==>
      var x := Align(a, b).value;
      && x.a as real == Value(a) * PowReal(x.scale)
      && x.b as real == Value(b) * PowReal(x.scale)
  {
    hide Value, PowReal, Pow10;
    if Align(a, b).Ok? {
      var x := Align(a, b).value;
      Lift(a, x.scale);
      Lift(b, x.scale);
    }
  }

  lemma Lift(p: Parts, scale: nat)
    requires p.scale <= scale
    ensures (p.coefficient * Pow10(scale - p.scale)) as real == Value(p) * PowReal(scale)
  {
    var lifted := p.coefficient * Pow10(scale - p.scale);
    Rescale(p, scale - p.scale);
    DivIs(lifted as real, PowReal(scale), Value(p));
  }

  lemma AddExact(a: Parts, b: Parts)
    ensures Add(a, b).Ok? <==> Alignable(a, b)
    ensures Add(a, b).Ok? ==> Canonical(Add(a, b).value) && Value(Add(a, b).value) == Value(a) + Value(b)
  {
    hide Pow10;
    AlignValues(a, b);
    if Alignable(a, b) {
      var x := Align(a, b).value;
      SumOver(x.a, x.b, PowReal(x.scale), Value(a), Value(b));
      NormalizeKeepsValue(Parts(x.a + x.b, x.scale));
    }
  }

  lemma SubtractExact(a: Parts, b: Parts)
    ensures Subtract(a, b).Ok? <==> Alignable(a, b)
    ensures Subtract(a, b).Ok? ==> Canonical(Subtract(a, b).value) && Value(Subtract(a, b).value) == Value(a) - Value(b)
  {
    hide Pow10;
    AlignValues(a, b);
    if Alignable(a, b) {
      var x := Align(a, b).value;
      SumOver(x.a, -x.b, PowReal(x.scale), Value(a), -Value(b));
      NormalizeKeepsValue(Parts(x.a - x.b, x.scale));
    }
  }

  lemma SumOver(m: int, n: int, s: real, x: real, y: real)
    requires s > 0.0 && m as real == x * s && n as real == y * s
    ensures (m + n) as real / s == x + y
  {
    assert x * s + y * s == (x + y) * s;
    DivIs((m + n) as real, s, x + y);
  }

  lemma MultiplyExact(a: Parts, b: Parts)
    ensures Canonical(Multiply(a, b)) && Value(Multiply(a, b)) == Value(a) * Value(b)
  {
    hide Pow10;
    PowAdd(a.scale, b.scale);
    ProductOfRatios(a.coefficient, Pow10(a.scale), b.coefficient, Pow10(b.scale));
    NormalizeKeepsValue(Parts(a.coefficient * b.coefficient, a.scale + b.scale));
  }

  lemma CompareExact(a: Parts, b: Parts)
    ensures Compare(a, b).Ok? <==> Alignable(a, b)
    ensures Compare(a, b).Ok? ==>
      Compare(a, b).value == if Value(a) == Value(b) then 0 else if Value(a) > Value(b) then 1 else -1
  {
    hide Pow10;
    AlignValues(a, b);
    if Alignable(a, b) {
      var x := Align(a, b).value;
      CompareScaled(x.a, x.b, PowReal(x.scale), Value(a), Value(b));
    }
  }

  lemma CompareScaled(m: int, n: int, s: real, x: real, y: real)
    requires s > 0.0 && m as real == x * s && n as real == y * s
    ensures m == n <==> x == y
    ensures m > n <==> x > y
  {
    ScaleOrder(x, y, s);
    ScaleOrder(y, x, s);
  }

  lemma ScaleOrder(x: real, y: real, s: real)
    requires s > 0.0
    ensures x < y <==> x * s < y * s
    ensures x == y <==> x * s == y * s
  {
    if x < y {
      assert (y - x) * s > 0.0;
    } else if y < x {
      assert (x - y) * s > 0.0;
    }
  }
}
