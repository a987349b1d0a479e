/**
 * The slice of Unity's Vector2/Vector3 semantics that the locomotion core relies on,
 * over exact reals. Square roots are never computed: wherever the engine takes a
 * magnitude, the caller supplies it and `IsMagnitudeOf` ties it to the squared magnitude.
 */
module Vectors {

  datatype Vec2 = Vec2(x: real, y: real)
  datatype Vec3 = Vec3(x: real, y: real, z: real)

  const Zero2: Vec2 := Vec2(0.0, 0.0)
  const Zero3: Vec3 := Vec3(0.0, 0.0, 0.0)

  /** Unity's `Vector2.kEpsilon` / `Vector3.kEpsilon`. */
  const KEpsilon: real := 0.00001

  /** `Mathf.Abs`. */
  function Abs(a: real): (r: real)
    ensures r >= 0.0
    ensures r == a || r == -a
  {
    if a < 0.0 then -a else a
  }

  /** `Mathf.Clamp(value, min, max)`: the lower bound is tested first. */
  function Clamp(value: real, min: real, max: real): (r: real)
    ensures min <= max ==> min <= r <= max
    ensures min <= value <= max ==> r == value
    ensures value < min ==> r == min
    ensures min <= max && value > max ==> r == max
  {
    if value < min then min else if value > max then max else value
  }

  function Add(a: Vec3, b: Vec3): Vec3
  {
    Vec3(a.x + b.x, a.y + b.y, a.z + b.z)
  }

  function Sub(a: Vec3, b: Vec3): Vec3
  {
    Vec3(a.x - b.x, a.y - b.y, a.z - b.z)
  }

  function Scale(v: Vec3, k: real): Vec3
  {
    Vec3(v.x * k, v.y * k, v.z * k)
  }

  function SqrMagnitude(v: Vec3): (r: real)
    ensures r >= 0.0
  {
    SquareNonNegative(v.x);
    SquareNonNegative(v.y);
    SquareNonNegative(v.z);
    v.x * v.x + v.y * v.y + v.z * v.z
  }

  /** Squared length of the horizontal (x, z) part. */
  function LateralSqrMagnitude(v: Vec3): (r: real)
    ensures 0.0 <= r <= SqrMagnitude(v)
  {
    SquareNonNegative(v.x);
    SquareNonNegative(v.y);
    SquareNonNegative(v.z);
    v.x * v.x + v.z * v.z
  }

  /** `m` is the Euclidean length of `v`. */
  ghost predicate IsMagnitudeOf(m: real, v: Vec3)
  {
    m >= 0.0 && m * m == SqrMagnitude(v)
  }

  /** Unity's `Vector2 != Vector2.zero`: the squared length is at least kEpsilon². */
  function IsNonZero2(v: Vec2): (nonZero: bool)
    ensures v == Zero2 ==> !nonZero
    ensures Abs(v.x) >= KEpsilon || Abs(v.y) >= KEpsilon ==> nonZero
  {
    SquareNonNegative(v.x);
    SquareNonNegative(v.y);
    assert Abs(v.x) >= KEpsilon ==> v.x * v.x >= KEpsilon * KEpsilon by {
      if Abs(v.x) >= KEpsilon { SquareMonotonic(KEpsilon, Abs(v.x)); SquareOfAbs(v.x); }
    }
    assert Abs(v.y) >= KEpsilon ==> v.y * v.y >= KEpsilon * KEpsilon by {
      if Abs(v.y) >= KEpsilon { SquareMonotonic(KEpsilon, Abs(v.y)); SquareOfAbs(v.y); }
    }
    v.x * v.x + v.y * v.y >= KEpsilon * KEpsilon
  }

  /**
   * `v.normalized`, given the length `m` of `v`: `v / m`, or the zero vector when `m` is
   * at most kEpsilon.
   */
  function Normalized(v: Vec3, m: real): (r: Vec3)
    ensures m > KEpsilon ==> r == Scale(v, 1.0 / m)
    ensures m <= KEpsilon ==> r == Zero3
  {
    if m > KEpsilon then Scale(v, 1.0 / m) else Zero3
  }

  /** Above kEpsilon a normalized vector has length one. */
  lemma NormalizedIsUnit(v: Vec3, m: real)
    requires IsMagnitudeOf(m, v) && m > KEpsilon
    ensures IsMagnitudeOf(1.0, Normalized(v, m))
  {
    SqrMagnitudeScale(v, 1.0 / m);
    InvSquare(m);
  }

  /** The factor by which `ClampMagnitude` scales a vector of length `m`. */
  function ClampFactor(m: real, maxLength: real): (k: real)
    requires m >= 0.0 && maxLength >= 0.0
    ensures 0.0 <= k <= 1.0
    ensures m <= maxLength ==> k == 1.0
  {
    if m > maxLength then
      DivBounds(maxLength, m);
      maxLength / m
    else 1.0
  }

  /** The length a clamp to maxLength leaves: min(m, maxLength). */
  function ClampedLength(m: real, maxLength: real): (len: real)
    ensures len <= maxLength && len <= m
    ensures len == m || len == maxLength
  {
    if m > maxLength then maxLength else m
  }

  /** Clamping a length `m` yields min(m, maxLength). */
  lemma ClampFactorLength(m: real, maxLength: real)
    requires m >= 0.0 && maxLength >= 0.0
    ensures ClampFactor(m, maxLength) * m == ClampedLength(m, maxLength)
  {
    if m > maxLength {
      DivMul(maxLength, m);
    } else {
      OneTimes(m);
    }
  }

  /**
   * `Vector3.ClampMagnitude(v, maxLength)`, given the length `m` of `v`: when the vector
   * is longer than maxLength, each component is divided by the length and multiplied by
   * maxLength. The engine tests the squared length against maxLength², which for a true
   * length is the same test (`ClampTestBySquares`).
   */
  function ClampMagnitude(v: Vec3, m: real, maxLength: real): (r: Vec3)
    requires m >= 0.0 && maxLength >= 0.0
    ensures r == Scale(v, ClampFactor(m, maxLength))
  {
    if m > maxLength then
      ScaleScale(v, 1.0 / m, maxLength);
      InvMul(maxLength, m);
      Scale(Scale(v, 1.0 / m), maxLength)
    else
      ScaleOne(v);
      v
  }

  lemma ClampTestBySquares(v: Vec3, m: real, maxLength: real)
    requires IsMagnitudeOf(m, v) && maxLength >= 0.0
    ensures SqrMagnitude(v) > maxLength * maxLength <==> m > maxLength
  {
    if m > maxLength {
      SquareStrict(maxLength, m);
    } else {
      SquareMonotonic(m, maxLength);
    }
  }

  /** A clamped vector is no longer than maxLength. */
  lemma ClampMagnitudeBound(v: Vec3, m: real, maxLength: real)
    requires IsMagnitudeOf(m, v) && maxLength >= 0.0
    ensures IsMagnitudeOf(ClampedLength(m, maxLength), ClampMagnitude(v, m, maxLength))
    ensures SqrMagnitude(ClampMagnitude(v, m, maxLength)) <= maxLength * maxLength
  {
    ClampFactorLength(m, maxLength);
    ScaledToLength(v, m, ClampFactor(m, maxLength), ClampedLength(m, maxLength));
    SquareMonotonic(ClampedLength(m, maxLength), maxLength);
  }

  /** Scaling a vector of length `m` by `k >= 0` gives a vector of length `len` when `k * m == len`. */
  lemma ScaledToLength(v: Vec3, m: real, k: real, len: real)
    requires IsMagnitudeOf(m, v) && k >= 0.0 && k * m == len
    ensures IsMagnitudeOf(len, Scale(v, k))
  {
    ScaledMagnitude(v, m, k);
  }

  lemma SqrMagnitudeScale(v: Vec3, k: real)
    ensures SqrMagnitude(Scale(v, k)) == k * k * SqrMagnitude(v)
  {
    SquareScale(v.x, k);
    SquareScale(v.y, k);
    SquareScale(v.z, k);
  }

  /** Scaling by a non-negative factor scales the length by the same factor. */
  lemma ScaledMagnitude(v: Vec3, m: real, k: real)
    requires IsMagnitudeOf(m, v) && k >= 0.0
    ensures IsMagnitudeOf(k * m, Scale(v, k))
  {
    SqrMagnitudeScale(v, k);
    ScaledSquare(k, m);
    ProductNonNegative(k, m);
  }

  lemma ScaleScale(v: Vec3, a: real, b: real)
    ensures Scale(Scale(v, a), b) == Scale(v, a * b)
  {
    ScaleAssoc(v.x, a, b);
    ScaleAssoc(v.y, a, b);
    ScaleAssoc(v.z, a, b);
  }

  lemma ScaleOne(v: Vec3)
    ensures Scale(v, 1.0) == v
  {
  }

  lemma ScaleZero(v: Vec3)
    ensures Scale(v, 0.0) == Zero3
  {
  }

  /** Two lengths of the same vector are equal. */
  lemma MagnitudeUnique(m: real, n: real, v: Vec3)
    requires IsMagnitudeOf(m, v) && IsMagnitudeOf(n, v)
    ensures m == n
  {
    if m < n { SquareStrict(m, n); }
    else if n < m { SquareStrict(n, m); }
  }

  // ---------------------------------------------------------------------------
  // Facts about real multiplication and division, one per lemma

  /** For non-negative reals, squaring preserves the order. */
  lemma SquareMonotonic(a: real, b: real)
    requires 0.0 <= a <= b
    ensures a * a <= b * b
  {
    assert a * a <= a * b;
    assert a * b <= b * b;
  }

  lemma SquareStrict(a: real, b: real)
    requires 0.0 <= a < b
    ensures a * a < b * b
  {
    MulPositive(b - a, b + a);
    assert b * b - a * a == (b - a) * (b + a);
  }

  lemma MulPositive(x: real, y: real)
    requires x > 0.0 && y > 0.0
    ensures x * y > 0.0
  {
  }

  lemma SquareNonNegative(a: real)
    ensures a * a >= 0.0
  {
  }

  lemma SquareOfAbs(a: real)
    ensures Abs(a) * Abs(a) == a * a
  {
  }

  lemma ProductNonNegative(a: real, b: real)
    requires a >= 0.0 && b >= 0.0
    ensures a * b >= 0.0
  {
  }

  lemma OneTimes(a: real)
    ensures 1.0 * a == a
  {
  }

  lemma ZeroTimes(a: real)
    ensures 0.0 * a == 0.0
  {
  }

  lemma DivMul(x: real, m: real)
    requires m > 0.0
    ensures x / m * m == x
  {
  }

  lemma DivBounds(x: real, m: real)
    requires 0.0 <= x <= m && m > 0.0
    ensures 0.0 <= x / m <= 1.0
  {
  }

  lemma InvMul(x: real, m: real)
    requires m > 0.0
    ensures (1.0 / m) * x == x / m
  {
  }

  lemma InvSquare(m: real)
    requires m > 0.0
    ensures (1.0 / m) * (1.0 / m) * (m * m) == 1.0
  {
  }

  lemma ScaleAssoc(c: real, a: real, b: real)
    ensures (c * a) * b == c * (a * b)
  {
  }

  lemma SquareScale(c: real, k: real)
    ensures (c * k) * (c * k) == k * k * (c * c)
  {
  }

  lemma ScaledSquare(k: real, m: real)
    ensures (k * m) * (k * m) == k * k * (m * m)
  {
  }

}
