/** Division, rounding and step quantisation of src/shared/decimal/decimal.js,
    against rounding of the real quotient. */
module DecimalDivision {
  import opened Common
  import opened Decimal

  /** The rounding modes on real numbers; HALF_UP sends ties away from zero. */
  function RoundReal(x: real, mode: Rounding): (n: int) {
    match mode
    case DOWN => if x >= 0.0 then x.Floor else -((-x).Floor)
    case HALF_UP => if x >= 0.0 then (x + 0.5).Floor else -((-x + 0.5).Floor)
    case FLOOR => x.Floor
    case CEIL => -((-x).Floor)
  }

  /** x rounded to `scale` decimal places. */
  function RoundAt(x: real, scale: nat, mode: Rounding): (y: real) {
    RoundReal(x * PowReal(scale), mode) as real / PowReal(scale)
  }

  /** x rounded to a multiple of the step. */
  function Quantize(x: real, step: real, mode: Rounding): (y: real)
    requires step != 0.0
  {
    RoundReal(x / step, mode) as real * step
  }

  // ---- the algorithm -------------------------------------------------------

  predicate RoundsUp(remainder: nat, denominator: nat, negative: bool, mode: Rounding) {
    match mode
    case DOWN => false
    case HALF_UP => remainder * 2 >= denominator
    case FLOOR => negative
    case CEIL => !negative
  }

  function RoundedQuotient(numerator: nat, denominator: nat, negative: bool, mode: Rounding): (q: int)
    requires denominator > 0
  {
    var quotient, remainder := numerator / denominator, numerator % denominator;
    var magnitude := if remainder != 0 && RoundsUp(remainder, denominator, negative, mode) then quotient + 1
        else quotient;
    if negative then -magnitude else magnitude
  }

  function Magnitude(c: int): (m: nat) { if c < 0 then -c else c }

  function QuotientUnits(a: int, b: int, exponent: int, mode: Rounding): (q: int)
    requires b != 0
  {
    var numerator := Magnitude(a) * Pow10(Pos(exponent));
    var denominator := Magnitude(b) * Pow10(Pos(-exponent));
    RoundedQuotient(numerator, denominator, (a < 0) != (b < 0), mode)
  }

  function Divide(a: Parts, b: Parts, scale: int, mode: Rounding): (r: Result<Parts, DecimalError>) {
    if scale < 0 || scale > MAX_DIVISION_SCALE then Err(InvalidScale)
    else if b.coefficient == 0 then Err(DivisionByZero)
    else if a.coefficient == 0 then Ok(Parts(0, 0))
    else
      var exponent := b.scale + scale - a.scale;
      if exponent > MAX_POW10 || exponent < -MAX_POW10 then Err(InvalidExponent)
      else
        Ok(Normalize(Parts(QuotientUnits(a.coefficient, b.coefficient, exponent, mode), scale)))
  }

  function QuantizeToStep(value: Parts, step: Parts, mode: Rounding): (r: Result<Parts, DecimalError>) {
    var units :- Divide(value, step, 0, mode);
    Ok(Multiply(units, step))
  }

  function IsStepAligned(value: Parts, step: Parts): (r: Result<bool, DecimalError>) {
    if step.coefficient <= 0 then Err(NonPositiveStep)
    else
      var x :- Align(value, step);
      if x.b == 0 then Err(DivisionByZero) else Ok(x.a % x.b == 0)
  }

  // ---- rounding of reals ---------------------------------------------------

  lemma FloorOfRatio(n: int, d: int)
    requires d > 0
    ensures (n as real / d as real).Floor == n / d
    ensures n as real / d as real == (n / d) as real + (n % d) as real / d as real
  {
    var q, r := n / d, n % d;
    var dr := d as real;
    assert n == q * d + r;
    ProductAsReal(q, d);
    DivIs(r as real, dr, r as real / dr);
    assert (q as real + r as real / dr) * dr == q as real * dr + r as real;
    DivIs(n as real, dr, q as real + r as real / dr);
    UnitRatio(r as real, dr);
  }

  lemma UnitRatio(r: real, d: real)
    requires 0.0 <= r < d
    ensures 0.0 <= r / d < 1.0
    ensures r / d >= 0.5 <==> r * 2.0 >= d
    ensures r / d == 0.0 <==> r == 0.0
  {
    RatioOrder(r, d, 0.0);
    RatioOrder(r, d, 0.5);
    RatioOrder(r, d, 1.0);
  }

  lemma RatioOrder(r: real, d: real, k: real)
    requires d > 0.0
    ensures r / d < k <==> r < k * d
    ensures r / d == k <==> r == k * d
  {
    var x := r / d;
    DivIs(r, d, x);
    assert r == x * d;
    ScaleOrder(x, k, d);
  }

  lemma RoundedQuotientIsRounding(n: nat, d: nat, negative: bool, mode: Rounding)
    requires d > 0
    ensures var x := n as real / d as real;
      RoundedQuotient(n, d, negative, mode) == RoundReal(if negative then -x else x, mode)
  {
    FloorOfRatio(n, d);
    UnitRatio((n % d) as real, d as real);
    var q, f := n / d, (n % d) as real / d as real;
    assert n / d >= 0;
    assert (n as real / d as real) == q as real + f;
    assert ((q as real + f) + 0.5).Floor == if f >= 0.5 then q + 1 else q;
    assert (-(q as real + f)).Floor == if f == 0.0 then -q else -q - 1;
  }

  /** Each mode's side, its error, and that it fixes whole numbers. */
  lemma RoundRealMeaning(x: real)
    ensures RoundReal(x, FLOOR) as real <= x < RoundReal(x, FLOOR) as real + 1.0
    ensures RoundReal(x, CEIL) as real - 1.0 < x <= RoundReal(x, CEIL) as real
    ensures AbsReal(RoundReal(x, DOWN) as real) <= AbsReal(x) < AbsReal(RoundReal(x, DOWN) as real) + 1.0
    ensures x >= 0.0 ==> RoundReal(x, DOWN) >= 0
    ensures x <= 0.0 ==> RoundReal(x, DOWN) <= 0
    ensures AbsReal(RoundReal(x, HALF_UP) as real - x) <= 0.5
    ensures AbsReal(RoundReal(x, HALF_UP) as real - x) == 0.5 ==> AbsReal(RoundReal(x, HALF_UP) as real) > AbsReal(x)
    ensures x >= 0.0 ==> RoundReal(x, HALF_UP) >= 0
  {
  }

  lemma RoundAtError(x: real, scale: nat, mode: Rounding)
    ensures -1.0 < (RoundAt(x, scale, mode) - x) * PowReal(scale) < 1.0
    ensures mode == HALF_UP ==> -0.5 <= (RoundAt(x, scale, mode) - x) * PowReal(scale) <= 0.5
    ensures mode == FLOOR ==> RoundAt(x, scale, mode) <= x
    ensures mode == CEIL ==> x <= RoundAt(x, scale, mode)
    ensures mode == DOWN && x >= 0.0 ==> 0.0 <= RoundAt(x, scale, mode) <= x
    ensures mode == DOWN && x <= 0.0 ==> x <= RoundAt(x, scale, mode) <= 0.0
  {
    RoundAtScaled(x, scale, mode);
    RoundingError(x, x * PowReal(scale), RoundAt(x, scale, mode), PowReal(scale), mode);
  }

  lemma RoundingError(x: real, xs: real, y: real, s: real, mode: Rounding)
    requires s > 0.0 && xs == x * s && y * s == RoundReal(xs, mode) as real
    ensures -1.0 < (y - x) * s < 1.0
    ensures mode == HALF_UP ==> -0.5 <= (y - x) * s <= 0.5
    ensures mode == FLOOR ==> y <= x
    ensures mode == CEIL ==> x <= y
    ensures mode == DOWN && x >= 0.0 ==> 0.0 <= y <= x
    ensures mode == DOWN && x <= 0.0 ==> x <= y <= 0.0
  {
    RoundRealMeaning(xs);
    Distribute(y, x, s);
    SideOf(x, y, s, xs, y * s);
    SideOf(y, 0.0, s, y * s, 0.0);
    SideOf(x, 0.0, s, xs, 0.0);
  }

  lemma SideOf(x: real, y: real, s: real, xs: real, ys: real)
    requires s > 0.0 && xs == x * s && ys == y * s
    ensures x <= y <==> xs <= ys
    ensures y <= x <==> ys <= xs
  {
    ScaleOrder(x, y, s);
    ScaleOrder(y, x, s);
  }

  lemma RoundAtScaled(x: real, scale: nat, mode: Rounding)
    ensures RoundAt(x, scale, mode) * PowReal(scale) == RoundReal(x * PowReal(scale), mode) as real
  {
    DivIs(RoundReal(x * PowReal(scale), mode) as real, PowReal(scale), RoundAt(x, scale, mode));
  }

  lemma Distribute(y: real, x: real, s: real)
    ensures (y - x) * s == y * s - x * s
  {
  }

  /** Rounding to `scale` places never changes the sign, and keeps zero. */
  lemma RoundAtSign(x: real, scale: nat, mode: Rounding)
    ensures x >= 0.0 ==> RoundAt(x, scale, mode) >= 0.0
    ensures x <= 0.0 ==> RoundAt(x, scale, mode) <= 0.0
    ensures RoundAt(0.0, scale, mode) == 0.0
  {
    hide RoundAt, Pow10, PowReal;
    var s := PowReal(scale);
    var y := RoundAt(x, scale, mode);
    RoundAtScaled(x, scale, mode);
    RoundRealMeaning(x * s);
    ScaleOrder(x, 0.0, s);
    ScaleOrder(0.0, y, s);
    ScaleOrder(y, 0.0, s);
    RoundAtScaled(0.0, scale, mode);
    ScaleOrder(RoundAt(0.0, scale, mode), 0.0, s);
  }

  // ---- division ------------------------------------------------------------

  function Pos(e: int): (n: nat) { if e >= 0 then e else 0 }

  lemma ScaledQuotient(a: Parts, b: Parts, scale: nat, e: int, n: int, d: int)
    requires b.coefficient != 0 && e == b.scale + scale - a.scale
    requires n == a.coefficient * Pow10(Pos(e)) && d == b.coefficient * Pow10(Pos(-e))
    ensures d != 0 && Value(b) != 0.0
    ensures n as real / d as real == (Value(a) / Value(b)) * PowReal(scale)
  {
    hide Pow10;
    var m := b.scale + scale;
    PowAdd(b.scale, scale);
    ExponentBalance(m, a.scale);
    assert m - a.scale == e && a.scale - m == -e;
    QuotientOfRatios(a.coefficient, Pow10(a.scale), b.coefficient, Pow10(b.scale), Pow10(scale),
                     Pow10(m), Pow10(Pos(e)), Pow10(Pos(-e)), n, d);
  }

  lemma ExponentBalance(m: nat, p: nat)
    ensures Pow10(m) * Pow10(Pos(p - m)) == Pow10(p) * Pow10(Pos(m - p))
  {
    PowAdd(m, Pos(p - m));
    PowAdd(p, Pos(m - p));
    assert m + Pos(p - m) == p + Pos(m - p);
  }

  /** (a/p) / (b/q) * s == (a*u) / (b*v) when q*s*v == p*u. */
  lemma QuotientOfRatios(a: int, p: int, b: int, q: int, s: int, qs: int, u: int, v: int, n: int, d: int)
    requires p > 0 && q > 0 && s > 0 && u > 0 && v > 0 && b != 0 && qs == q * s && qs * v == p * u
    requires n == a * u && d == b * v
    ensures d != 0 && b as real / q as real != 0.0
    ensures n as real / d as real == ((a as real / p as real) / (b as real / q as real)) * s as real
  {
    var x, y := a as real / p as real, b as real / q as real;
    DivIs(a as real, p as real, x);
    DivIs(b as real, q as real, y);
    ScaleOrder(y, 0.0, q as real);
    var z := x / y;
    assert z * y == x;
    NonZeroProduct(b, v);
    CrossMultiply(x, y, z, p as real, q as real, s as real, u as real, v as real) by {
      ProductAsReal(q, s);
      ProductAsReal(q * s, v);
      ProductAsReal(p, u);
    }
    ProductAsReal(a, u);
    ProductAsReal(b, v);
    assert (a * u) as real == (z * s as real) * (b * v) as real;
  }

  lemma NonZeroProduct(b: int, v: int)
    requires b != 0 && v > 0
    ensures b * v != 0
  {
  }

  lemma CrossMultiply(x: real, y: real, z: real, p: real, q: real, s: real, u: real, v: real)
    requires z * y == x && q * s * v == p * u
    ensures (x * p) * u == (z * s) * ((y * q) * v)
  {
    calc {
      (x * p) * u;
      x * (p * u);
      (z * y) * (q * s * v);
      z * (y * (q * s * v));
      { assert y * (q * s * v) == s * ((y * q) * v); }
      z * (s * ((y * q) * v));
      (z * s) * ((y * q) * v);
    }
  }

  /** divideDecimal refuses exactly a bad scale, a zero divisor, and nonzero
      dividends whose scales are too far apart for pow10. */
  lemma DivideDomain(a: Parts, b: Parts, scale: int, mode: Rounding)
    ensures Divide(a, b, scale, mode).Ok? <==>
      && 0 <= scale <= MAX_DIVISION_SCALE
      && b.coefficient != 0
      && (a.coefficient == 0 || -MAX_POW10 <= b.scale + scale - a.scale <= MAX_POW10)
  {
  }

  /** Whenever divideDecimal answers, it has rounded the true quotient, in every
      mode and at every scale. */
  lemma DivideExact(a: Parts, b: Parts, scale: int, mode: Rounding)
    requires Divide(a, b, scale, mode).Ok?
    ensures Value(b) != 0.0
    ensures Canonical(Divide(a, b, scale, mode).value)
    ensures Value(Divide(a, b, scale, mode).value) == RoundAt(Value(a) / Value(b), scale, mode)
  {
    PositiveValue(b);
    var e := b.scale + scale - a.scale;
    if a.coefficient == 0 {
      PositiveValue(a);
      ZeroDividend(Value(a) / Value(b), scale, mode);
    } else {
      UnitsExact(a, b, scale, e, mode);
      NormalizeKeepsValue(Parts(QuotientUnits(a.coefficient, b.coefficient, e, mode), scale));
    }
  }

  lemma UnitsExact(a: Parts, b: Parts, scale: nat, e: int, mode: Rounding)
    requires a.coefficient != 0 && b.coefficient != 0 && e == b.scale + scale - a.scale
    requires Value(b) != 0.0
    ensures Value(Parts(QuotientUnits(a.coefficient, b.coefficient, e, mode), scale))
        == RoundAt(Value(a) / Value(b), scale, mode)
  {
    hide *;
    var x := ScaledUnits(a, b, scale, e, mode);
    RoundAtFromUnits(Value(a) / Value(b), scale, x, QuotientUnits(a.coefficient, b.coefficient, e, mode), mode);
  }

  lemma ScaledUnits(a: Parts, b: Parts, scale: nat, e: int, mode: Rounding) returns (x: real)
    requires a.coefficient != 0 && b.coefficient != 0 && e == b.scale + scale - a.scale
    requires Value(b) != 0.0
    ensures x == (Value(a) / Value(b)) * PowReal(scale)
    ensures QuotientUnits(a.coefficient, b.coefficient, e, mode) == RoundReal(x, mode)
  {
    var n, d := a.coefficient * Pow10(Pos(e)), b.coefficient * Pow10(Pos(-e));
    ScaledQuotient(a, b, scale, e, n, d);
    x := n as real / d as real;
    SignedRounding(a.coefficient, b.coefficient, e, n, d, mode);
  }

  lemma RoundAtFromUnits(q: real, scale: nat, x: real, units: int, mode: Rounding)
    requires x == q * PowReal(scale) && units == RoundReal(x, mode)
    ensures Value(Parts(units, scale)) == RoundAt(q, scale, mode)
  {
  }

  lemma PositiveValue(p: Parts)
    ensures Value(p) > 0.0 <==> p.coefficient > 0
    ensures Value(p) == 0.0 <==> p.coefficient == 0
  {
    var s := PowReal(p.scale);
    DivIs(p.coefficient as real, s, Value(p));
    ScaleOrder(0.0, Value(p), s);
    ScaleOrder(Value(p), 0.0, s);
  }

  lemma ZeroDividend(q: real, scale: nat, mode: Rounding)
    requires q == 0.0
    ensures Value(Parts(0, 0)) == RoundAt(q, scale, mode)
  {
    RoundAtSign(0.0, scale, mode);
    DivIs(0.0, PowReal(0), 0.0);
  }

  lemma SignedRounding(a: int, b: int, e: int, n: int, d: int, mode: Rounding)
    requires a != 0 && b != 0 && d != 0
    requires n == a * Pow10(Pos(e)) && d == b * Pow10(Pos(-e))
    ensures QuotientUnits(a, b, e, mode) == RoundReal(n as real / d as real, mode)
  {
    var up, down := Pow10(Pos(e)), Pow10(Pos(-e));
    SignedQuotient(a, b, up, down);
    RoundedQuotientIsRounding(Magnitude(a) * up, Magnitude(b) * down, (a < 0) != (b < 0), mode);
  }

  lemma SignedQuotient(a: int, b: int, up: int, down: int)
    requires a != 0 && b != 0 && up > 0 && down > 0
    ensures b * down != 0 && Magnitude(b) * down > 0 && Magnitude(a) * up > 0
    ensures
      var x := (Magnitude(a) * up) as real / (Magnitude(b) * down) as real;
      (a * up) as real / (b * down) as real == if (a < 0) != (b < 0) then -x else x
  {
    SignOfProduct(a, up);
    SignOfProduct(b, down);
    var n, d := (Magnitude(a) * up) as real, (Magnitude(b) * down) as real;
    var x := n / d;
    assert x * d == n;
    assert (-x) * d == -n && (-x) * (-d) == n && x * (-d) == -n;
    assert (-n) / d == -x && n / (-d) == -x && (-n) / (-d) == x;
  }

  lemma SignOfProduct(a: int, k: int)
    requires a != 0 && k > 0
    ensures Magnitude(a) * k > 0
    ensures a * k == if a < 0 then -(Magnitude(a) * k) else Magnitude(a) * k
  {
  }

  // ---- quantisation --------------------------------------------------------

  ghost predicate MultipleOf(x: real, step: real) {
    exists k: int :: IsTimes(x, k, step)
  }

  ghost predicate IsTimes(x: real, k: int, step: real) { x == k as real * step }

  lemma AlignedMeansMultiple(value: Parts, step: Parts)
    ensures IsStepAligned(value, step).Ok? <==> step.coefficient > 0 && Alignable(value, step)
    ensures IsStepAligned(value, step).Ok? ==>
      (IsStepAligned(value, step).value <==> MultipleOf(Value(value), Value(step)))
  {
    hide Value, Pow10, PowReal, MultipleOf;
    AlignValues(value, step);
    PositiveValue(step);
    if step.coefficient > 0 && Alignable(value, step) {
      var x := Align(value, step).value;
      ScaleOrder(0.0, Value(step), PowReal(x.scale));
      DivisibleIffMultiple(Value(value), Value(step), PowReal(x.scale), x.a, x.b);
    }
  }

  lemma DivisibleIffMultiple(v: real, step: real, s: real, a: int, b: int)
    requires s > 0.0 && a as real == v * s && b as real == step * s && b > 0
    ensures a % b == 0 <==> MultipleOf(v, step)
  {
    if a % b == 0 {
      CommonFactor(v, step, s, a, b, a / b);
    }
    if MultipleOf(v, step) {
      var k: int :| IsTimes(v, k, step);
      CommonFactor(v, step, s, a, b, k);
      DivisibleProduct(a, b, k);
    }
  }

  lemma CommonFactor(v: real, step: real, s: real, a: int, b: int, k: int)
    requires s > 0.0 && a as real == v * s && b as real == step * s
    ensures a == k * b <==> v == k as real * step
    ensures b > 0 && a % b == 0 && k == a / b ==> IsTimes(v, k, step)
  {
    assert (k as real * step) * s == k as real * (step * s);
    ProductAsReal(k, b);
    ScaleOrder(v, k as real * step, s);
    if b > 0 && a % b == 0 && k == a / b {
      assert a == b * (a / b) + a % b;
    }
  }

  lemma DivisibleProduct(a: int, b: int, k: int)
    requires b > 0 && a == k * b
    ensures a % b == 0
  {
    var q, r := a / b, a % b;
    assert a == q * b + r;
    DistributeInt(k, q, b);
    if k > q {
      SameFactorOrder(1, k - q, b);
    } else if k < q {
      SameFactorOrder(k - q, -1, b);
    }
  }

  lemma DistributeInt(k: int, q: int, b: int)
    ensures (k - q) * b == k * b - q * b
  {
  }

  lemma SameFactorOrder(m: int, n: int, b: int)
    requires m <= n && b > 0
    ensures m * b <= n * b
  {
    assert (n - m) * b >= 0;
  }

  /** quantizeToStep computes Quantize. */
  lemma QuantizeExact(value: Parts, step: Parts, mode: Rounding)
    requires QuantizeToStep(value, step, mode).Ok?
    ensures Value(step) != 0.0
    ensures Canonical(QuantizeToStep(value, step, mode).value)
    ensures Value(QuantizeToStep(value, step, mode).value) == Quantize(Value(value), Value(step), mode)
  {
    hide Value, Divide, Multiply, Quantize, RoundAt;
    DivideExact(value, step, 0, mode);
    var units := Divide(value, step, 0, mode).value;
    MultiplyExact(units, step);
    QuantizeValues(Value(value), Value(step), Value(units), mode);
  }

  lemma QuantizeValues(x: real, step: real, units: real, mode: Rounding)
    requires step != 0.0 && units == RoundAt(x / step, 0, mode)
    ensures units * step == Quantize(x, step, mode)
  {
    hide RoundAt;
    RoundAtUnits(x / step, mode);
  }

  lemma RoundAtUnits(q: real, mode: Rounding)
    ensures RoundAt(q, 0, mode) == RoundReal(q, mode) as real
  {
    assert PowReal(0) == 1.0;
  }

  /** Every mode gives a multiple of the step; FLOOR and CEIL are within one
      step on their own side, which a negative step swaps. */
  lemma QuantizeBounds(x: real, step: real)
    requires step != 0.0
    ensures forall mode :: MultipleOf(Quantize(x, step, mode), step)
    ensures step > 0.0 ==> Quantize(x, step, FLOOR) <= x < Quantize(x, step, FLOOR) + step
    ensures step > 0.0 ==> Quantize(x, step, CEIL) - step < x <= Quantize(x, step, CEIL)
    ensures step < 0.0 ==> Quantize(x, step, FLOOR) >= x > Quantize(x, step, FLOOR) + step
    ensures step < 0.0 ==> Quantize(x, step, CEIL) - step > x >= Quantize(x, step, CEIL)
  {
    forall mode ensures MultipleOf(Quantize(x, step, mode), step) {
      QuantizedMultiple(x, step, mode);
    }
    FloorBounds(x, step);
    CeilBounds(x, step);
  }

  lemma QuantizedMultiple(x: real, step: real, mode: Rounding)
    requires step != 0.0
    ensures MultipleOf(Quantize(x, step, mode), step)
  {
    hide RoundReal;
    assert IsTimes(Quantize(x, step, mode), RoundReal(x / step, mode), step);
  }

  lemma FloorBounds(x: real, step: real)
    requires step != 0.0
    ensures step > 0.0 ==> Quantize(x, step, FLOOR) <= x < Quantize(x, step, FLOOR) + step
    ensures step < 0.0 ==> Quantize(x, step, FLOOR) >= x > Quantize(x, step, FLOOR) + step
  {
    hide RoundReal;
    var q := x / step;
    Quotient(x, step, q);
    RoundRealMeaning(q);
    StepBounds(x, q, step, RoundReal(q, FLOOR) as real, Quantize(x, step, FLOOR));
  }

  lemma CeilBounds(x: real, step: real)
    requires step != 0.0
    ensures step > 0.0 ==> Quantize(x, step, CEIL) - step < x <= Quantize(x, step, CEIL)
    ensures step < 0.0 ==> Quantize(x, step, CEIL) - step > x >= Quantize(x, step, CEIL)
  {
    hide RoundReal;
    var q := x / step;
    Quotient(x, step, q);
    RoundRealMeaning(q);
    StepBounds(x, q, step, RoundReal(q, CEIL) as real, Quantize(x, step, CEIL));
  }

  lemma Quotient(x: real, step: real, q: real)
    requires step != 0.0 && q == x / step
    ensures q * step == x
  {
  }

  /** Where q = x / step lies between whole numbers, x lies between multiples. */
  lemma StepBounds(x: real, q: real, step: real, n: real, ns: real)
    requires step != 0.0 && x == q * step && ns == n * step
    ensures n <= q < n + 1.0 && step > 0.0 ==> ns <= x < ns + step
    ensures n <= q < n + 1.0 && step < 0.0 ==> ns >= x > ns + step
    ensures n - 1.0 < q <= n && step > 0.0 ==> ns - step < x <= ns
    ensures n - 1.0 < q <= n && step < 0.0 ==> ns - step > x >= ns
  {
    NextMultiple(n, step, ns);
    SignedOrder(q, n, step, x, ns);
    SignedOrder(q, n + 1.0, step, x, ns + step);
    SignedOrder(q, n - 1.0, step, x, ns - step);
  }

  lemma NextMultiple(n: real, step: real, ns: real)
    requires ns == n * step
    ensures (n + 1.0) * step == ns + step && (n - 1.0) * step == ns - step
  {
  }

  lemma SignedOrder(x: real, y: real, step: real, xs: real, ys: real)
    requires step != 0.0 && xs == x * step && ys == y * step
    ensures step > 0.0 ==> (x < y <==> xs < ys)
    ensures step < 0.0 ==> (x < y <==> xs > ys)
    ensures x == y <==> xs == ys
  {
    if step > 0.0 {
      SideOf(x, y, step, xs, ys);
    } else {
      Negate(x, step);
      Negate(y, step);
      SideOf(x, y, -step, -xs, -ys);
    }
  }

  lemma Negate(x: real, step: real)
    ensures x * (-step) == -(x * step)
  {
  }

  /** No multiple of a positive step lies strictly between the quantised value
      and the value: FLOOR is greatest from below, CEIL least from above. */
  lemma QuantizeBest(x: real, step: real, multiple: real)
    requires step > 0.0 && MultipleOf(multiple, step)
    ensures multiple <= x ==> multiple <= Quantize(x, step, FLOOR)
    ensures multiple >= x ==> multiple >= Quantize(x, step, CEIL)
  {
    var k: int :| IsTimes(multiple, k, step);
    var q := x / step;
    Quotient(x, step, q);
    RoundRealMeaning(q);
    BestFloor(x, q, step, k, multiple, RoundReal(q, FLOOR), Quantize(x, step, FLOOR));
    BestCeil(x, q, step, k, multiple, RoundReal(q, CEIL), Quantize(x, step, CEIL));
  }

  lemma BestFloor(x: real, q: real, step: real, k: int, ks: real, n: int, ns: real)
    requires step > 0.0 && x == q * step && ks == k as real * step && ns == n as real * step
    requires n as real <= q < n as real + 1.0
    ensures ks <= x ==> ks <= ns
  {
    if ks <= x {
      assert k as real <= q by { SideOf(k as real, q, step, ks, x); }
      assert k <= n;
      SideOf(k as real, n as real, step, ks, ns);
    }
  }

  lemma BestCeil(x: real, q: real, step: real, k: int, ks: real, n: int, ns: real)
    requires step > 0.0 && x == q * step && ks == k as real * step && ns == n as real * step
    requires n as real - 1.0 < q <= n as real
    ensures ks >= x ==> ks >= ns
  {
    if x <= ks {
      assert q <= k as real by { SideOf(q, k as real, step, x, ks); }
      assert n <= k;
      SideOf(n as real, k as real, step, ns, ks);
    }
  }

  /** A multiple of the step is quantised to itself, in every mode. */
  lemma QuantizeFixesMultiples(x: real, step: real, mode: Rounding)
    requires step != 0.0 && MultipleOf(x, step)
    ensures Quantize(x, step, mode) == x
  {
    var k: int :| IsTimes(x, k, step);
    var q := x / step;
    Quotient(x, step, q);
    SignedOrder(q, k as real, step, x, x);
    assert RoundReal(q, mode) == k;
  }

  /** FLOOR stays at or below the value exactly when the step is positive or
      the value is already a multiple of it. */
  lemma FloorBelowIff(x: real, step: real)
    requires step != 0.0
    ensures Quantize(x, step, FLOOR) <= x <==> step > 0.0 || MultipleOf(x, step)
  {
    QuantizeBounds(x, step);
    if MultipleOf(x, step) {
      QuantizeFixesMultiples(x, step, FLOOR);
    }
  }

  /** CEIL stays at or above the value exactly on the same condition. */
  lemma CeilAboveIff(x: real, step: real)
    requires step != 0.0
    ensures Quantize(x, step, CEIL) >= x <==> step > 0.0 || MultipleOf(x, step)
  {
    QuantizeBounds(x, step);
    if MultipleOf(x, step) {
      QuantizeFixesMultiples(x, step, CEIL);
    }
  }

  /** With a step of minus two, FLOOR of one is two and CEIL of one is zero. */
  lemma NegativeStepSwapsSides()
    ensures Quantize(1.0, -2.0, FLOOR) == 2.0 && Quantize(1.0, -2.0, CEIL) == 0.0
  {
    assert 1.0 / -2.0 == -0.5;
  }

  /** isStepAligned accepts whatever quantizeToStep returns for a positive step
      that pow10 can bring to a whole number. */
  lemma QuantizedIsAligned(value: Parts, step: Parts, mode: Rounding)
    requires step.coefficient > 0 && step.scale <= MAX_POW10
    requires QuantizeToStep(value, step, mode).Ok?
    ensures IsStepAligned(QuantizeToStep(value, step, mode).value, step) == Ok(true)
  {
    hide Value;
    var r := QuantizeToStep(value, step, mode).value;
    QuantizedScale(value, step, mode);
    QuantizeExact(value, step, mode);
    QuantizeBounds(Value(value), Value(step));
    AlignedMeansMultiple(r, step);
  }

  /** A quantized value has no more decimal places than the step. */
  lemma QuantizedScale(value: Parts, step: Parts, mode: Rounding)
    requires QuantizeToStep(value, step, mode).Ok?
    ensures QuantizeToStep(value, step, mode).value.scale <= step.scale
  {
    hide QuotientUnits;
    assert Divide(value, step, 0, mode).value.scale == 0;
  }

  ghost predicate AlwaysAligned(step: Parts) {
    forall value, mode :: QuantizeToStep(value, step, mode).Ok? ==>
      IsStepAligned(QuantizeToStep(value, step, mode).value, step) == Ok(true)
  }

  /** That condition is exact: a step of more places rejects the zero it made. */
  lemma AlwaysAlignedIff(step: Parts)
    requires step.coefficient > 0
    ensures AlwaysAligned(step) <==> step.scale <= MAX_POW10
  {
    if step.scale <= MAX_POW10 {
      forall value, mode | QuantizeToStep(value, step, mode).Ok?
        ensures IsStepAligned(QuantizeToStep(value, step, mode).value, step) == Ok(true)
      {
        QuantizedIsAligned(value, step, mode);
      }
    } else {
      assert QuantizeToStep(Parts(0, 0), step, FLOOR) == Ok(Parts(0, 0));
      assert IsStepAligned(Parts(0, 0), step).Err?;
    }
  }
}
