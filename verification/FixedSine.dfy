/** Sine and cosine in 16.16 fixed point (`vesc_firmware/src/utils.rs`), against the polynomial they
    compute. A fixed-point number is an integer that counts units of 1/65536.
  */
module FixedSine {

  const ONE: int := 65536
  const PI: int := 205887           // I16F16::PI
  const FRAC_PI_2: int := 102943    // I16F16::FRAC_PI_2
  const TAU: int := 411774          // I16F16::TAU

  /** `*` of two `I16F16`: the product is cut off below, towards negative infinity. */
  function Mul(a: int, b: int): int {
    (a * b) / ONE
  }

  /** `/` of an `I16F16` by an integer: cut off towards zero. */
  function Div(a: int, n: int): int
    requires n > 0
  {
    if a >= 0 then a / n else -(-a / n)
  }

  function Abs(x: real): real {
    if x >= 0.0 then x else -x
  }

  predicate Fits(a: int) {
    -0x8000_0000 <= a < 0x8000_0000
  }

  // ---------- powi ----------

  /** `powi`, for any power but zero, for which it returns the number itself. */
  function Powi(num: int, pow: nat): int {
    if pow <= 1 then num else Mul(Powi(num, pow - 1), num)
  }

  method PowiLoop(num: int, pow: nat) returns (acc: int)
    ensures acc == Powi(num, pow)
  {
    acc := num;
    for i := 1 to (if pow < 1 then 1 else pow)
      invariant acc == Powi(num, i)
    {
      acc := Mul(acc, num);
    }
  }

  function Pow(x: real, p: nat): real {
    if p == 0 then 1.0 else Pow(x, p - 1) * x
  }

  function Real(a: int): real {
    (a as real) / 65536.0
  }

  /** How far `powi` is from the power, in units. */
  function Error(num: int, p: nat): real {
    (Powi(num, p) as real) - 65536.0 * Pow(Real(num), p)
  }

  /** The magnitude of the error and of the number. */
  function Off(num: int, p: nat): (r: real)
    ensures r >= 0.0
  {
    Abs(Error(num, p))
  }

  function Size(num: int): (r: real)
    ensures r >= 0.0
  {
    Abs(Real(num))
  }

  lemma MulCut(a: int, b: int)
    ensures var v := (a as real) * Real(b); v - 1.0 < Mul(a, b) as real <= v
  {
    var q, r := (a * b) / ONE, (a * b) % ONE;
    assert a * b == ONE * q + r;
    assert (a as real) * (b as real) == (a * b) as real;
    assert (a as real) * Real(b) == ((a * b) as real) / 65536.0;
  }

  lemma Product(e: real, x: real)
    ensures Abs(e * x) == Abs(e) * Abs(x)
  {}

  /** One more multiplication scales the error and adds less than one unit. */
  lemma ErrorStep(num: int, p: nat)
    requires p >= 1
    ensures Off(num, p + 1) <= Off(num, p) * Size(num) + 1.0
  {
    var x, a, t := Real(num), Powi(num, p), Pow(Real(num), p);
    MulCut(a, num);
    Product(Error(num, p), x);
    Split(a as real, t, x);
    assert Powi(num, p + 1) == Mul(a, num) && Pow(x, p + 1) == t * x;
  }

  lemma Split(a: real, t: real, x: real)
    ensures (a - 65536.0 * t) * x == a * x - 65536.0 * (t * x)
  {}

  lemma ErrorOne(num: int)
    ensures Off(num, 1) == 0.0
  {
    assert Pow(Real(num), 1) == Pow(Real(num), 0) * Real(num);
  }

  lemma Shrinks(e: real, x: real, n: real)
    requires 0.0 <= e <= n && 0.0 <= x <= 1.0
    ensures e * x <= n
  {
    assert e * x <= e * 1.0;
  }

  /** Up to magnitude one, `powi` is within `p - 1` units of the power. */
  lemma {:induction false} PowiError(num: int, p: nat)
    requires -ONE <= num <= ONE && p >= 1
    ensures Off(num, p) <= (p - 1) as real
  {
    if p == 1 {
      ErrorOne(num);
    } else {
      PowiError(num, p - 1);
      ErrorStep(num, p - 1);
      Shrinks(Off(num, p - 1), Size(num), (p - 2) as real);
    }
  }

  /** The exponent zero, which `sin` does not use: right for the number one only. */
  lemma PowiZeroIff(num: int)
    ensures Off(num, 0) == 0.0 <==> num == ONE
  {
    assert Pow(Real(num), 0) == 1.0;
  }

  // ---------- sin ----------

  /** The angle between -PI/2 and PI/2 with the same sine. */
  function Fold(angle: int): int {
    if angle > FRAC_PI_2 then PI - angle
    else if angle < -FRAC_PI_2 then -PI - angle
    else angle
  }

  predicate Folded(c: int) {
    -FRAC_PI_2 <= c <= FRAC_PI_2
  }

  lemma FoldLands(angle: int)
    requires -PI <= angle <= PI
    ensures Folded(Fold(angle)) && (Fold(angle) == angle || Fold(angle) == PI - angle || Fold(angle) == -PI - angle)
  {}

  function SinFolded(c: int): int {
    c - Div(Powi(c, 3), 6) + Div(Powi(c, 5), 127)
  }

  /** `sin` */
  function SinOf(angle: int): int {
    SinFolded(Fold(angle))
  }

  /** The polynomial, in units. */
  function Polynomial(x: real): real {
    x - Pow(x, 3) / 6.0 + Pow(x, 5) / 127.0
  }

  lemma DivCut(a: int, n: int)
    requires n > 0
    ensures Abs((Div(a, n) as real) - (a as real) / (n as real)) < 1.0
  {
    if a >= 0 { QuotientCut(a, n); } else { QuotientCut(-a, n); }
  }

  lemma QuotientCut(b: int, n: int)
    requires b >= 0 && n > 0
    ensures var v := (b as real) / (n as real); v - 1.0 < (b / n) as real <= v
    ensures ((-b) as real) / (n as real) == -((b as real) / (n as real))
  {
    var q, r := b / n, b % n;
    assert b == n * q + r;
    assert b as real == (n as real) * (q as real) + (r as real);
    Quotient(b as real, n as real, q as real, r as real);
    Negated(b as real, n as real);
  }

  lemma Quotient(b: real, n: real, q: real, r: real)
    requires n > 0.0 && b == n * q + r && 0.0 <= r < n
    ensures q <= b / n < q + 1.0
  {
    var v := b / n;
    assert v * n == b;
    Remainder(v, n, q, r);
    Below(v - q, n, r);
  }

  lemma Remainder(v: real, n: real, q: real, r: real)
    requires v * n == n * q + r
    ensures (v - q) * n == r
  {}

  lemma Below(d: real, n: real, r: real)
    requires n > 0.0 && d * n == r && 0.0 <= r < n
    ensures 0.0 <= d < 1.0
  {
    Multiplied(d, n);
  }

  lemma Multiplied(a: real, n: real)
    requires n > 0.0
    ensures a < 0.0 ==> a * n < 0.0
    ensures a >= 1.0 ==> a * n >= n
  {
    if a < 0.0 {
      Positive(-a, n);
      assert (-a) * n == -(a * n);
    } else if a >= 1.0 {
      NotNegative(a - 1.0, n);
      assert (a - 1.0) * n == a * n - n;
    }
  }

  lemma Positive(a: real, b: real)
    requires a > 0.0 && b > 0.0
    ensures a * b > 0.0
  {}

  lemma Negated(b: real, n: real)
    requires n > 0.0
    ensures (-b) / n == -(b / n)
  {
    var v := b / n;
    assert v * n == b;
    assert (-v) * n == -b;
  }

  lemma RealFolded(c: int)
    requires Folded(c)
    ensures 0.0 <= Size(c) <= 1.571
  {}

  lemma Grows(e: real, x: real, n: real)
    requires 0.0 <= e <= n && 0.0 <= x <= 1.571
    ensures e * x <= n * 1.571
  {
    assert e * x <= e * 1.571;
  }

  lemma ErrorTwo(c: int)
    ensures Off(c, 2) <= 1.0
  {
    ErrorOne(c);
    ErrorStep(c, 1);
    hide Off, Size;
    assert Off(c, 1) * Size(c) == 0.0;
  }

  lemma NextError(c: int, p: nat, bound: real, next: real)
    requires Folded(c) && p >= 1 && Off(c, p) <= bound && bound * 1.571 + 1.0 <= next
    ensures Off(c, p + 1) <= next
  {
    RealFolded(c);
    hide Off, Size;
    ErrorStep(c, p);
    Grows(Off(c, p), Size(c), bound);
  }

  lemma FoldedErrors(c: int)
    requires Folded(c)
    ensures Off(c, 3) <= 2.571 && Off(c, 5) <= 8.94
  {
    hide Off;
    ErrorTwo(c);
    NextError(c, 2, 1.0, 2.571);
    NextError(c, 3, 2.571, 5.05);
    NextError(c, 4, 5.05, 8.94);
  }

  /** `sin` is within two and a half units of the polynomial at the folded angle. */
  lemma SinError(angle: int)
    requires -PI <= angle <= PI
    ensures Abs((SinOf(angle) as real) - 65536.0 * Polynomial(Real(Fold(angle)))) <= 2.5
  {
    FoldLands(angle);
    FoldedErrors(Fold(angle));
    Assembled(Fold(angle));
  }

  lemma Assembled(c: int)
    requires Off(c, 3) <= 2.571 && Off(c, 5) <= 8.94
    ensures Abs((SinFolded(c) as real) - 65536.0 * Polynomial(Real(c))) <= 2.5
  {
    DivCut(Powi(c, 3), 6);
    DivCut(Powi(c, 5), 127);
    hide Pow, Powi;
    assert 65536.0 * Real(c) == c as real;
  }

  // ---------- the polynomial on the folded range ----------

  /** Both differences of powers the polynomial is made of have the factor `h - x`. */
  lemma Factors(h: real, x: real)
    ensures (h - x) * (h * h + h * x + x * x) == h * h * h - x * x * x
    ensures (h - x) * (h * h * h * h + h * h * h * x + h * h * (x * x) + h * (x * x * x) + x * x * x * x)
         == h * h * h * h * h - x * x * x * x * x
  {}

  /** Powers lie above their tangents. */
  lemma Tangents(h: real, x: real)
    requires 0.0 <= x <= h
    ensures x * x <= h * x
    ensures x * x * x >= 3.0 * (h * h * x) - 2.0 * (h * h * h)
    ensures x * x * x * x >= 4.0 * (h * h * h * x) - 3.0 * (h * h * h * h)
  {
    var d := h - x;
    assert x * x * x - 3.0 * (h * h * x) + 2.0 * (h * h * h) == d * d * (x + 2.0 * h);
    assert x * x * x * x - 4.0 * (h * h * h * x) + 3.0 * (h * h * h * h)
      == d * d * (x * x + 2.0 * (h * x) + 3.0 * (h * h));
    assert d * d >= 0.0;
  }

  function Quintic(x: real): real {
    x - x * x * x / 6.0 + x * x * x * x * x / 127.0
  }

  const HALF_TURN: real := 102943.0 / 65536.0

  /** The second factor of the difference of the polynomial at the end of the range and at `x`. */
  function Slope(h: real, x: real): real {
    1.0 - (h * h + h * x + x * x) / 6.0
    + (h * h * h * h + h * h * h * x + h * h * (x * x) + h * (x * x * x) + x * x * x * x) / 127.0
  }

  lemma SlopeTerms(h: real, x: real)
    requires 0.0 <= x <= h && h * h <= 20.0
    ensures h * h * (x * x) / 127.0 - x * x / 6.0 >= h * h * h * x / 127.0 - h * x / 6.0
    ensures h * (x * x * x) >= 3.0 * (h * h * h * x) - 2.0 * (h * h * h * h)
    ensures x * x * x * x >= 4.0 * (h * h * h * x) - 3.0 * (h * h * h * h)
  {
    Tangents(h, x);
    Cubes(h, x);
    Weighted(h * h, x * x, h * x);
  }

  lemma SlopeAbove(h: real, x: real)
    requires 0.0 <= x <= h && h * h <= 20.0
    ensures Slope(h, x) >= 1.0 - (h * h + 2.0 * (h * x)) / 6.0 + (9.0 * (h * h * h * x) - 4.0 * (h * h * h * h)) / 127.0
  {
    SlopeTerms(h, x);
    Combine(h * h, h * x, x * x, h * h * h * h, h * h * h * x, h * h * (x * x), h * (x * x * x), x * x * x * x);
  }

  lemma Combine(h2: real, hx: real, x2: real, h4: real, h3x: real, h2x2: real, hx3: real, x4: real)
    requires h2x2 / 127.0 - x2 / 6.0 >= h3x / 127.0 - hx / 6.0
    requires hx3 >= 3.0 * h3x - 2.0 * h4 && x4 >= 4.0 * h3x - 3.0 * h4
    ensures 1.0 - (h2 + hx + x2) / 6.0 + (h4 + h3x + h2x2 + hx3 + x4) / 127.0
         >= 1.0 - (h2 + 2.0 * hx) / 6.0 + (9.0 * h3x - 4.0 * h4) / 127.0
  {}

  lemma Weighted(a: real, y: real, z: real)
    requires a <= 20.0 && y <= z
    ensures a * y / 127.0 - y / 6.0 >= a * z / 127.0 - z / 6.0
  {
    var v := 1.0 / 6.0 - a / 127.0;
    NotNegative(z - y, v);
    Spread(a, y);
    Spread(a, z);
    assert (z - y) * v == z * v - y * v;
  }

  lemma Spread(a: real, y: real)
    ensures y * (1.0 / 6.0 - a / 127.0) == y / 6.0 - a * y / 127.0
  {}

  lemma Cubes(h: real, x: real)
    requires 0.0 <= x <= h && x * x * x >= 3.0 * (h * h * x) - 2.0 * (h * h * h)
    ensures h * (x * x * x) >= 3.0 * (h * h * h * x) - 2.0 * (h * h * h * h)
    ensures h * h * (h * x) == h * h * h * x
  {
    assert h * (x * x * x - 3.0 * (h * h * x) + 2.0 * (h * h * h)) >= 0.0;
  }

  lemma SlopePositive(x: real)
    requires 0.0 <= x <= HALF_TURN
    ensures Slope(HALF_TURN, x) >= 0.0
  {
    SlopeAbove(HALF_TURN, x);
  }

  lemma Distribute(d: real, a: real, b: real)
    ensures d * (1.0 - a / 6.0 + b / 127.0) == d - d * a / 6.0 + d * b / 127.0
  {}

  lemma Difference(h: real, x: real)
    ensures Quintic(h) - Quintic(x) == (h - x) * Slope(h, x)
  {
    Factors(h, x);
    Distribute(h - x, h * h + h * x + x * x,
               h * h * h * h + h * h * h * x + h * h * (x * x) + h * (x * x * x) + x * x * x * x);
  }

  /** The polynomial stays between zero and its value at the end of the range. */
  lemma QuinticBound(x: real)
    requires 0.0 <= x <= HALF_TURN
    ensures 0.0 <= Quintic(x) <= 1.00015
  {
    Difference(HALF_TURN, x);
    SlopePositive(x);
    assert (HALF_TURN - x) * Slope(HALF_TURN, x) >= 0.0;
    assert Quintic(HALF_TURN) <= 1.00015;
    LowerBound(x);
  }

  lemma NotNegative(a: real, b: real)
    requires a >= 0.0 && b >= 0.0
    ensures a * b >= 0.0
  {}

  lemma LowerBound(x: real)
    requires 0.0 <= x <= HALF_TURN
    ensures Quintic(x) >= 0.0
  {
    var y := x * x;
    Grows(x, x, 1.571);
    assert 0.0 <= y <= 2.5;
    assert x * (1.0 - y / 6.0) >= 0.0;
    NotNegative(x, y);
    NotNegative(x * y, y);
  }

  lemma PolynomialIs(x: real)
    ensures Polynomial(x) == Quintic(x) && Quintic(-x) == -Quintic(x)
  {
    assert Pow(x, 1) == x && Pow(x, 2) == x * x && Pow(x, 3) == x * x * x;
    assert Pow(x, 4) == x * x * x * x && Pow(x, 5) == x * x * x * x * x;
  }

  /** No sine is further from zero than 1 + 2^-12. */
  lemma SinBounded(angle: int)
    requires -PI <= angle <= PI
    ensures -ONE - 16 <= SinOf(angle) <= ONE + 16
  {
    var x := Real(Fold(angle));
    FoldLands(angle);
    SinError(angle);
    PolynomialIs(x);
    QuinticBound(if x >= 0.0 then x else -x);
  }

  lemma ProductBound(a: int, c: int, m: int, k: int)
    requires -m <= a <= m && -k <= c <= k
    ensures -(m * k) <= a * c <= m * k
  {
    assert (m - a) * (k + c) >= 0 && (m + a) * (k - c) >= 0;
    assert (m - a) * (k - c) >= 0 && (m + a) * (k + c) >= 0;
  }

  lemma MulBound(a: int, c: int, m: int)
    requires -m <= a <= m && Folded(c)
    ensures -2 * m <= Mul(a, c) <= 2 * m
  {
    ProductBound(a, c, m, 2 * ONE);
  }

  /** Nothing overflows: the powers fit into 16.16, with ample room for the sum. */
  lemma NothingOverflows(c: int, p: nat)
    requires Folded(c) && 1 <= p <= 5
    ensures -32 * ONE <= Powi(c, p) <= 32 * ONE && Fits(32 * ONE) && Fits(-32 * ONE)
  {
    var a, b := Mul(c, c), Mul(Mul(c, c), c);
    MulBound(c, c, 2 * ONE);
    MulBound(a, c, 4 * ONE);
    MulBound(b, c, 8 * ONE);
    MulBound(Mul(b, c), c, 16 * ONE);
    assert Powi(c, 2) == a && Powi(c, 3) == b && Powi(c, 4) == Mul(b, c) && Powi(c, 5) == Mul(Mul(b, c), c);
  }

  method Sin(angle: int) returns (r: int)
    requires -PI <= angle <= PI
    ensures r == SinOf(angle) && -ONE - 16 <= r <= ONE + 16
    ensures Abs((r as real) - 65536.0 * Polynomial(Real(Fold(angle)))) <= 2.5
  {
    var cang := angle;
    if angle > FRAC_PI_2 {
      cang := PI - angle;
    } else if angle < -FRAC_PI_2 {
      cang := -PI - angle;
    }
    var cubed := PowiLoop(cang, 3);
    var fifth := PowiLoop(cang, 5);
    r := cang - Div(cubed, 6) + Div(fifth, 127);
    SinError(angle);
    SinBounded(angle);
  }

  // ---------- cos ----------

  /** The constants are pi and its half and double, cut off to units. */
  lemma Constants()
    ensures (PI as real) <= 65536.0 * 3.14159265 < (PI + 1) as real
    ensures (FRAC_PI_2 as real) <= 65536.0 * 3.14159265 / 2.0 < (FRAC_PI_2 + 1) as real
    ensures (TAU as real) <= 65536.0 * 3.14159265 * 2.0 < (TAU + 1) as real
  {}

  /** What `cos` takes the sine of: what is left of the quarter turn after the size of the angle, and one unit
      more for positive angles. */
  function Remaining(angle: int): int {
    if angle > 0 then 102944 - angle else if angle == -205887 then -102943 else 102943 + angle
  }

  /** `cos`: the sine a quarter turn further on, brought back into range. It is even, up to the sine of one
      unit. */
  method Cos(angle: int) returns (r: int)
    requires -PI <= angle <= PI
    ensures -ONE - 16 <= r <= ONE + 16
    ensures r == SinFolded(Remaining(angle)) && Folded(Remaining(angle))
    ensures Abs((r as real) - 65536.0 * Polynomial(Real(Remaining(angle)))) <= 2.5
  {
    var cang := angle + FRAC_PI_2;
    if cang > PI {
      cang := cang - TAU;
    }
    assert Fold(cang) == Remaining(angle);
    r := Sin(cang);
  }

  lemma RemainingIs(angle: int)
    requires -PI <= angle <= PI
    ensures var left := FRAC_PI_2 - (if angle < 0 then -angle else angle); left <= Remaining(angle) <= left + 1
  {}
}
