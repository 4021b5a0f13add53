/** The smootherstep blend used by `interpolate_quintic`, over exact reals.

    The blend is studied in the centred form u = y + 1/2, where it is 1/2 plus the
    odd polynomial 15/8 y - 5 y^3 + 6 y^5.  Every bound below comes from an
    explicit sum of squares or a product of signed factors.
 */
module Quintic {

  // The peak multipliers hard-coded by the segment check.
  const PEAK_VELOCITY := 1.875
  const PEAK_ACCELERATION := 5.773503

  /** The expression evaluated by the source, in Horner form. */
  function Blend(u: real): real {
    u * u * u * (10.0 + u * (-15.0 + 6.0 * u))
  }

  function Abs(x: real): real {
    if x < 0.0 then -x else x
  }

  // Naming the product lets equal factors be exchanged without expanding them.
  function Times(a: real, b: real): real {
    a * b
  }

  function Centred(y: real): real {
    1.875 * y - 5.0 * (y * y * y) + 6.0 * (y * y * y * y * y)
  }

  lemma BlendIsCentred(y: real)
    ensures Blend(y + 0.5) == 0.5 + Centred(y)
  {
  }

  /** A product of non-negative factors, named so that later steps stay linear. */
  lemma Product(x: real, z: real, ceiling: real) returns (xz: real)
    requires 0.0 <= x && 0.0 <= z <= ceiling
    ensures xz == x * z && 0.0 <= xz <= ceiling * x
  {
    xz := x * z;
    assert x * (ceiling - z) >= 0.0;
  }

  // ---------- slope ----------

  /** The divided difference of `Centred` over m - d .. m + d, in x = m^2 and z = d^2. */
  function Slope(x: real, z: real): real {
    1.875 - 15.0 * x - 5.0 * z + 30.0 * (x * x) + 60.0 * (x * z) + 6.0 * (z * z)
  }

  lemma CentredDifference(m: real, d: real)
    ensures Centred(m + d) - Centred(m - d) == 2.0 * d * Slope(m * m, d * d)
  {
  }

  lemma SlopeIsSumOfSquares(x: real, z: real)
    ensures var w := 0.25 - x - z / 3.0;
            Slope(x, z) == 30.0 * (w * w) + 40.0 * (x * z) + (8.0 / 3.0) * (z * z)
  {
  }

  lemma SlopeBounds(x: real, z: real)
    requires 0.0 <= x && 0.0 <= z && x + z <= 0.25
    ensures 0.0 <= Slope(x, z) <= PEAK_VELOCITY
  {
    var xz := Product(x, z, 0.25);
    var zz := Product(z, z, 0.25);
    var xe := Product(x, x + z, 0.25);
    var xx := x * x;
    assert xe == xx + xz;
    var w := 0.25 - x - z / 3.0;
    var ww := w * w;
    assert ww >= 0.0;
    SlopeIsSumOfSquares(x, z);
    LinearSlopeBounds(x, z, xx, xz, zz, ww, Slope(x, z));
  }

  lemma LinearSlopeBounds(x: real, z: real, xx: real, xz: real, zz: real, ww: real, slope: real)
    requires 0.0 <= z && xx + xz <= 0.25 * x && 0.0 <= xz <= 0.25 * x && 0.0 <= zz <= 0.25 * z && 0.0 <= ww
    requires slope == 30.0 * ww + 40.0 * xz + (8.0 / 3.0) * zz
    requires slope == 1.875 - 15.0 * x - 5.0 * z + 30.0 * xx + 60.0 * xz + 6.0 * zz
    ensures 0.0 <= slope <= PEAK_VELOCITY
  {
  }

  lemma SquareSum(m: real, d: real)
    requires 0.0 <= d && Abs(m) + d <= 0.5
    ensures m * m + d * d <= 0.25
  {
    var a := Abs(m);
    var ad := Product(a, d, d);
    var ee := Product(a + d, a + d, 0.5);
    var aa, dd := a * a, d * d;
    assert ee == aa + 2.0 * ad + dd;
    assert aa == m * m;
  }

  /** The blend never decreases, and its average slope never exceeds 1.875. */
  lemma BlendSlope(u: real, v: real)
    requires 0.0 <= u <= v <= 1.0
    ensures 0.0 <= Blend(v) - Blend(u) <= PEAK_VELOCITY * (v - u)
  {
    var m, d := (u + v) / 2.0 - 0.5, (v - u) / 2.0;
    assert m - d + 0.5 == u && m + d + 0.5 == v;
    BlendIsCentred(m - d);
    BlendIsCentred(m + d);
    CentredSlope(m, d);
  }

  lemma CentredSlope(m: real, d: real)
    requires 0.0 <= d && Abs(m) + d <= 0.5
    ensures 0.0 <= Centred(m + d) - Centred(m - d) <= PEAK_VELOCITY * (2.0 * d)
  {
    CentredDifference(m, d);
    SquareSum(m, d);
    SlopeBounds(m * m, d * d);
    var rise := Product(2.0 * d, Slope(m * m, d * d), PEAK_VELOCITY);
  }

  /** Endpoints are hit exactly and everything between is a convex weight. */
  lemma BlendRange(u: real)
    requires 0.0 <= u <= 1.0
    ensures 0.0 <= Blend(u) <= 1.0
    ensures Blend(0.0) == 0.0 && Blend(1.0) == 1.0
  {
    BlendSlope(0.0, u);
    BlendSlope(u, 1.0);
  }

  // ---------- curvature ----------

  lemma CentredSecondDifference(y: real, h: real)
    ensures Centred(y + h) - 2.0 * Centred(y) + Centred(y - h)
         == Times(h * h, y * (120.0 * (y * y) + 60.0 * (h * h) - 30.0))
  {
  }

  /** The rounded constant dominates the exact peak 10/sqrt(3): with t0 just above
      1/sqrt(3), (t - t0)^2 (t + 2 t0) >= 0 bounds t - t^3 by 2 t0^3. */
  lemma PeakConstant(y: real)
    requires 0.0 <= y
    ensures 30.0 * y - 120.0 * (y * y * y) <= PEAK_ACCELERATION
  {
    var t, t0 := 2.0 * y, 0.57735027;
    var e := t - t0;
    var ee := e * e;
    assert ee >= 0.0;
    var cube := Product(t + 2.0 * t0, ee, ee);
    var yyy := y * y * y;
    assert cube == 8.0 * yyy - 3.0 * (t0 * t0) * t + 2.0 * (t0 * t0 * t0);
  }

  // With h <= 1/2 - y the bracket is at most 15*(2y - 1)*(6y + 1).
  lemma BracketSign(y: real, h: real)
    requires 0.0 <= y && 0.0 <= h && y + h <= 0.5
    ensures 120.0 * (y * y) + 60.0 * (h * h) - 30.0 <= 0.0
  {
    var r := 0.5 - y;
    var hh := Product(h, h, r);
    var rh := Product(r, h, r);
    var yy := Product(y, y, 0.5);
    var rr := r * r;
    assert rr == 0.25 - y + yy;
    assert 120.0 * yy + 60.0 * hh - 30.0 <= 0.0;
  }

  lemma BendBounds(y: real, h: real)
    requires 0.0 <= y && 0.0 <= h && y + h <= 0.5
    ensures -PEAK_ACCELERATION <= y * (120.0 * (y * y) + 60.0 * (h * h) - 30.0) <= 0.0
  {
    var g := 120.0 * (y * y) + 60.0 * (h * h) - 30.0;
    BracketSign(y, h);
    var minus := Product(y, -g, -g);
    var yg := y * g;
    assert yg == -minus;
    PeakConstant(y);
    var hh := h * h;
    assert hh >= 0.0;
    var yhh := Product(y, hh, hh);
    var yyy := y * y * y;
    assert yg == 120.0 * yyy + 60.0 * yhh - 30.0 * y;
  }

  lemma BendMagnitude(y: real, h: real)
    requires 0.0 <= h && Abs(y) + h <= 0.5
    ensures Abs(y * (120.0 * (y * y) + 60.0 * (h * h) - 30.0)) <= PEAK_ACCELERATION
  {
    var g := 120.0 * (y * y) + 60.0 * (h * h) - 30.0;
    var bend := y * g;
    if y >= 0.0 {
      BendBounds(y, h);
    } else {
      BendBounds(-y, h);
      assert (-y) * (-y) == y * y;
      assert (-y) * g == -bend;
    }
  }

  lemma ScaledMagnitude(s: real, g: real, bound: real)
    requires 0.0 <= s && Abs(g) <= bound
    ensures Abs(Times(s, g)) <= bound * s
  {
    var scaled := Product(s, Abs(g), bound);
    assert s * -g == -(s * g);
  }

  lemma ScaledBend(y: real, h: real)
    requires 0.0 <= h && Abs(y) + h <= 0.5
    ensures Abs(Times(h * h, y * (120.0 * (y * y) + 60.0 * (h * h) - 30.0))) <= PEAK_ACCELERATION * (h * h)
  {
    BendMagnitude(y, h);
    assert h * h >= 0.0;
    ScaledMagnitude(h * h, y * (120.0 * (y * y) + 60.0 * (h * h) - 30.0), PEAK_ACCELERATION);
  }

  lemma CentredBend(y: real, h: real)
    requires 0.0 <= h && Abs(y) + h <= 0.5
    ensures Abs(Centred(y + h) - 2.0 * Centred(y) + Centred(y - h)) <= PEAK_ACCELERATION * (h * h)
  {
    CentredSecondDifference(y, h);
    ScaledBend(y, h);
  }

  /** Any three equally spaced samples bend by at most 5.773503 h^2. */
  lemma BlendCurvature(u: real, h: real)
    requires 0.0 <= h && 0.0 <= u - h && u + h <= 1.0
    ensures Abs(Blend(u + h) - 2.0 * Blend(u) + Blend(u - h)) <= PEAK_ACCELERATION * (h * h)
  {
    var y := u - 0.5;
    assert y + h + 0.5 == u + h && y - h + 0.5 == u - h;
    BlendIsCentred(y + h);
    BlendIsCentred(y);
    BlendIsCentred(y - h);
    CentredBend(y, h);
  }

  // ---------- at rest, and no more than it must ----------

  /** The blend leaves its start and reaches its end at rest, and without acceleration: near
      either end it is of third order. */
  lemma BlendAtRest(u: real)
    requires 0.0 <= u <= 1.0
    ensures 0.0 <= Blend(u) <= 10.0 * (u * u * u)
    ensures 0.0 <= 1.0 - Blend(u) <= 10.0 * ((1.0 - u) * (1.0 - u) * (1.0 - u))
    ensures Blend(1.0 - u) == 1.0 - Blend(u)
  {
    BlendRange(u);
    BlendIsCentred(u - 0.5);
    BlendIsCentred(0.5 - u);
    CentredIsOdd(u - 0.5);
    ThirdOrder(u);
    ThirdOrder(1.0 - u);
  }

  lemma CentredIsOdd(y: real)
    ensures Centred(-y) == -Centred(y)
  {
  }

  lemma ThirdOrder(u: real)
    requires 0.0 <= u <= 1.0
    ensures Blend(u) <= 10.0 * (u * u * u)
  {
    var uu := Product(u, u, 1.0);
    var uuu := Product(uu, u, 1.0);
    var e := 15.0 * u - 6.0 * uu;
    var up := uuu * e;
    assert uu <= u && 0.0 <= e;
    assert Blend(u) == 10.0 * uuu - up;
  }

  /** No smaller velocity factor would do: for each there is a stretch on which the blend
      rises faster. */
  lemma PeakVelocityIsNeeded(factor: real) returns (h: real)
    requires 0.0 <= factor < PEAK_VELOCITY
    ensures 0.0 < h <= 0.5 && Blend(0.5 + h) - Blend(0.5 - h) > factor * (2.0 * h)
  {
    h := (PEAK_VELOCITY - factor) / 10.0;
    BlendIsCentred(h);
    BlendIsCentred(-h);
    CentredDifference(0.0, h);
    var hh := Product(h, h, 0.1875);
    var slope := Slope(0.0, hh);
    assert slope > factor by {
      assert slope == 1.875 - 5.0 * hh + 6.0 * (hh * hh);
      assert 5.0 * hh < 10.0 * h;
    }
    StrictProduct(2.0 * h, slope, factor);
  }

  lemma StrictProduct(h: real, a: real, b: real)
    requires 0.0 < h && b < a
    ensures b * h < h * a
  {
    assert h * (a - b) > 0.0;
  }

  /** Nor would an acceleration factor with the last digit rounded down. */
  lemma PeakAccelerationIsNeeded()
    ensures var u, h := 0.2113248654, 0.0001;
            Blend(u + h) - 2.0 * Blend(u) + Blend(u - h) > 5.773502 * (h * h)
  {
  }
}
