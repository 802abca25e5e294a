/**
 * Vectors, the spherical-to-Cartesian offset and the degree-to-radian
 * conversion of the sampler (param_generator.py, sph2cart and
 * angle_to_radian), over exact reals.
 *
 * numpy's cos, sin and sqrt are not computed here: they are handed in as a
 * `Numerics` value, and only the facts the proofs need about them are
 * assumed, as explicit preconditions (`TrigSound`, `SqrtSound`).
 */
module Geometry {

  /** A 3-vector: a room extent, a microphone or a source position. */
  datatype Vec3 = Vec3(x: real, y: real, z: real)

  /** A caller-supplied [min, max] pair, as the source's two-element lists. */
  datatype Range = Range(lo: real, hi: real)

  const Origin: Vec3 := Vec3(0.0, 0.0, 0.0)

  function Add(a: Vec3, b: Vec3): Vec3 {
    Vec3(a.x + b.x, a.y + b.y, a.z + b.z)
  }

  function Sub(a: Vec3, b: Vec3): Vec3 {
    Vec3(a.x - b.x, a.y - b.y, a.z - b.z)
  }

  /** The sum of the squared coordinates (numpy's `np.sum(v**2)`). */
  function SumSquares(v: Vec3): real {
    v.x * v.x + v.y * v.y + v.z * v.z
  }

  /** The platform's cosine, sine and square root, left uninterpreted. */
  datatype Numerics = Numerics(cos: real -> real, sin: real -> real, sqrt: real -> real)

  /** sqrt returns the non-negative square root of every non-negative number. */
  ghost predicate SqrtSound(sqrt: real -> real) {
    forall x :: 0.0 <= x ==> 0.0 <= sqrt(x) && sqrt(x) * sqrt(x) == x
  }

  /** cos and sin satisfy the Pythagorean identity at every angle. */
  ghost predicate TrigSound(num: Numerics) {
    forall a :: num.cos(a) * num.cos(a) + num.sin(a) * num.sin(a) == 1.0
  }

  /** Euclidean distance, `np.sqrt(np.sum((a - b)**2))`. */
  function EuclideanDistance(sqrt: real -> real, a: Vec3, b: Vec3): real {
    sqrt(SumSquares(Sub(a, b)))
  }

  /** `sph2cart(azimuth, elevation, r)`: the offset at radius r. */
  function Sph2Cart(num: Numerics, azimuth: real, elevation: real, r: real): Vec3 {
    Vec3(r * num.cos(elevation) * num.cos(azimuth),
         r * num.cos(elevation) * num.sin(azimuth),
         r * num.sin(elevation))
  }

  /** math.pi, the double nearest to pi, written as its shortest decimal. */
  const Pi: real := 3.141592653589793

  /** `angle_to_radian(x)`: `(x / 180.) * math.pi`. */
  function AngleToRadian(x: real): real {
    (x / 180.0) * Pi
  }

  /** Both ends of a degree range converted to radians. */
  function Radians(r: Range): (q: Range)
    ensures r.lo <= r.hi <==> q.lo <= q.hi
    ensures r.lo == r.hi <==> q.lo == q.hi
    ensures r.lo == -180.0 ==> q.lo == -Pi
    ensures r.lo == 180.0 ==> q.lo == Pi
    ensures r.hi == -180.0 ==> q.hi == -Pi
    ensures r.hi == 180.0 ==> q.hi == Pi
  {
    Range(AngleToRadian(r.lo), AngleToRadian(r.hi))
  }

  /** Every squared coordinate is non-negative and at most the sum of squares. */
  lemma SumSquaresBounds(v: Vec3)
    ensures 0.0 <= v.x * v.x <= SumSquares(v)
    ensures 0.0 <= v.y * v.y <= SumSquares(v)
    ensures 0.0 <= v.z * v.z <= SumSquares(v)
  {
    SquareNonNegative(v.x);
    SquareNonNegative(v.y);
    SquareNonNegative(v.z);
  }

  lemma SquareNonNegative(a: real)
    ensures 0.0 <= a * a
    ensures a != 0.0 ==> 0.0 < a * a
  {
    if a < 0.0 {
      assert a * a == (-a) * (-a);
      PositiveProduct(-a, -a);
    } else if 0.0 < a {
      PositiveProduct(a, a);
    }
  }

  /** Squaring is strictly increasing on the non-negative reals. */
  lemma SquareStrictlyIncreasing(a: real, b: real)
    requires 0.0 <= a < b
    ensures a * a < b * b
  {
    assert b * b - a * a == (b - a) * (b + a);
    assert (b - a) * (b + a) > 0.0 by { PositiveProduct(b - a, b + a); }
  }

  lemma PositiveProduct(a: real, b: real)
    requires 0.0 < a && 0.0 < b
    ensures 0.0 < a * b
  {
  }

  /** A sound sqrt of a square is the non-negative root. */
  lemma SqrtOfSquare(sqrt: real -> real, r: real)
    requires SqrtSound(sqrt)
    requires 0.0 <= r
    ensures sqrt(r * r) == r
  {
    SquareNonNegative(r);
    var s := sqrt(r * r);
    assert 0.0 <= s && s * s == r * r;
    if s < r {
      SquareStrictlyIncreasing(s, r);
    } else if r < s {
      SquareStrictlyIncreasing(r, s);
    }
  }

  /** A sound sqrt is monotone: a square root bounds every coordinate it squared. */
  lemma SqrtDominates(sqrt: real -> real, s: real, a: real)
    requires SqrtSound(sqrt)
    requires 0.0 <= a && a * a <= s
    ensures a <= sqrt(s)
  {
    SquareNonNegative(a);
    var q := sqrt(s);
    assert 0.0 <= q && q * q == s;
    if q < a {
      SquareStrictlyIncreasing(q, a);
    }
  }

  /** The offset produced by sph2cart has length r whenever cos and sin are sound. */
  lemma Sph2CartLength(num: Numerics, azimuth: real, elevation: real, r: real)
    requires TrigSound(num)
    ensures SumSquares(Sph2Cart(num, azimuth, elevation, r)) == r * r
  {
    var ca, sa := num.cos(azimuth), num.sin(azimuth);
    var ce, se := num.cos(elevation), num.sin(elevation);
    assert ca * ca + sa * sa == 1.0;
    assert ce * ce + se * se == 1.0;
    var h := r * ce;
    calc {
      SumSquares(Sph2Cart(num, azimuth, elevation, r));
      (h * ca) * (h * ca) + (h * sa) * (h * sa) + (r * se) * (r * se);
      { assert (h * ca) * (h * ca) + (h * sa) * (h * sa) == (h * h) * (ca * ca + sa * sa); }
      (h * h) * (ca * ca + sa * sa) + (r * se) * (r * se);
      h * h + (r * se) * (r * se);
      { assert h * h + (r * se) * (r * se) == (r * r) * (ce * ce + se * se); }
      (r * r) * (ce * ce + se * se);
      r * r;
    }
  }

  /** A point placed at `mic + sph2cart(az, el, r)` lies at distance r from the mic. */
  lemma OffsetDistance(num: Numerics, mic: Vec3, azimuth: real, elevation: real, r: real)
    requires TrigSound(num) && SqrtSound(num.sqrt)
    requires 0.0 <= r
    ensures EuclideanDistance(num.sqrt, mic, Add(Sph2Cart(num, azimuth, elevation, r), mic)) == r
  {
    var off := Sph2Cart(num, azimuth, elevation, r);
    var d := Sub(mic, Add(off, mic));
    assert d == Vec3(-off.x, -off.y, -off.z);
    assert SumSquares(d) == SumSquares(off);
    Sph2CartLength(num, azimuth, elevation, r);
    SqrtOfSquare(num.sqrt, r);
  }
}
