/** The 3D Vector type: component-wise operators, the in-place compound
    assignments (modelled as returning the updated value), the squared
    length and distance, the planar projections, the near-zero test and the
    angle clamp, and the dot and cross products. The Euclidean length (a
    square root) enters only as a given value. */
module Vec3 {
  import opened Scalar
  import opened Angle
  import Vec2

  datatype Vector = Vector(x: real, y: real, z: real)

  const Zero: Vector := Vector(0.0, 0.0, 0.0)

  /** The axis Normalize falls back to for a zero-length vector. */
  const UnitZ: Vector := Vector(0.0, 0.0, 1.0)

  /** operator- (unary) */
  function Neg(v: Vector): Vector
  {
    Vector(-v.x, -v.y, -v.z)
  }

  /** operator==: exact comparison of all three components, which is
      exactly equality of the vectors. */
  function Equal(a: Vector, b: Vector): (r: bool)
    ensures r <==> a == b
  {
    a.x == b.x && a.y == b.y && a.z == b.z
  }

  /** operator!=: the negation of operator==. */
  function NotEqual(a: Vector, b: Vector): (r: bool)
    ensures r <==> a != b
  {
    !Equal(a, b)
  }

  /** operator+(Vector) */
  function Add(a: Vector, b: Vector): Vector
  {
    Vector(a.x + b.x, a.y + b.y, a.z + b.z)
  }

  /** operator-(Vector) */
  function Sub(a: Vector, b: Vector): Vector
  {
    Vector(a.x - b.x, a.y - b.y, a.z - b.z)
  }

  /** operator+(float): adds the scalar to every component. */
  function AddScalar(v: Vector, fl: real): Vector
  {
    Vector(v.x + fl, v.y + fl, v.z + fl)
  }

  /** operator-(float): subtracts the scalar from every component. */
  function SubScalar(v: Vector, fl: real): Vector
  {
    Vector(v.x - fl, v.y - fl, v.z - fl)
  }

  /** operator*(float) */
  function Scale(v: Vector, fl: real): Vector
  {
    Vector(v.x * fl, v.y * fl, v.z * fl)
  }

  /** operator/(float). vector.h divides without a guard; over the reals
      the divisor must be non-zero. */
  function Div(v: Vector, fl: real): Vector
    requires fl != 0.0
  {
    Vector(v.x / fl, v.y / fl, v.z / fl)
  }

  /** operator*(float, Vector): the scalar-first form, forwarding to Scale. */
  function ScaleLeft(fl: real, v: Vector): Vector
  {
    Scale(v, fl)
  }

  /** DotProduct(Vector, Vector) */
  function DotProduct(a: Vector, b: Vector): real
  {
    a.x * b.x + a.y * b.y + a.z * b.z
  }

  /** CrossProduct(Vector, Vector) */
  function CrossProduct(a: Vector, b: Vector): Vector
  {
    Vector(a.y * b.z - a.z * b.y, a.z * b.x - a.x * b.z, a.x * b.y - a.y * b.x)
  }

  /** LengthSquared: the sum of the squared components. It is never
      negative and is zero exactly for the zero vector. */
  function LengthSquared(v: Vector): (r: real)
    ensures 0.0 <= r
    ensures r == 0.0 <==> v == Zero
  {
    SquareSign(v.x, v.x * v.x);
    SquareSign(v.y, v.y * v.y);
    SquareSign(v.z, v.z * v.z);
    v.x * v.x + v.y * v.y + v.z * v.z
  }

  /** `len` is the Euclidean length of v, the non-negative root of
      LengthSquared that Length() computes with sqrt. */
  ghost predicate IsLength(v: Vector, len: real)
  {
    0.0 <= len && len * len == LengthSquared(v)
  }

  /** Over the reals the length is zero exactly for the zero vector, so the
      `flLen == 0` test of Normalize picks out (0, 0, 0) and nothing else. */
  lemma LengthZeroIff(v: Vector, len: real)
    requires IsLength(v, len)
    ensures len == 0.0 <==> v == Zero
  {
    SquareSign(len, len * len);
  }

  /** Normalize: the fixed axis (0, 0, 1) when the length is exactly zero,
      otherwise v scaled by the reciprocal of its length. Unlike the planar
      Normalize, the fallback is not the zero vector. Every non-zero vector
      comes back as a unit vector pointing the same way. */
  function Normalize(v: Vector, len: real): (r: Vector)
    requires IsLength(v, len)
    ensures v == Zero ==> r == UnitZ
    ensures v != Zero ==> LengthSquared(r) == 1.0
    ensures v != Zero ==> CrossProduct(r, v) == Zero && 0.0 < DotProduct(r, v)
  {
    LengthZeroIff(v, len);
    if len == 0.0 then UnitZ
    else
      var inv := 1.0 / len;
      var r := Vector(v.x * inv, v.y * inv, v.z * inv);
      assert LengthSquared(r) == LengthSquared(v) * (inv * inv);
      assert len * inv == 1.0;
      assert LengthSquared(r) == (len * inv) * (len * inv);
      assert DotProduct(r, v) == LengthSquared(v) * inv;
      ProductPositive(LengthSquared(v), inv, DotProduct(r, v));
      r
  }

  /** A normalized non-zero vector has length 1, and normalizing it again
      with that length returns it unchanged. */
  lemma NormalizeIdempotent(v: Vector, len: real)
    requires IsLength(v, len) && v != Zero
    ensures IsLength(Normalize(v, len), 1.0)
    ensures Normalize(Normalize(v, len), 1.0) == Normalize(v, len)
  {
  }

  /** The two Normalize variants differ only in the zero case: both scale a
      non-zero vector by the reciprocal of its length, while the zero vector
      falls back to (0, 0, 1) in 3D and to (0, 0) in the plane. */
  lemma NormalizeFallbacksDiffer(v: Vector, len: real)
    requires IsLength(v, len) && v.z == 0.0
    ensures Vec2.IsLength(Make2D(v), len)
    ensures v == Zero ==> Normalize(v, len) == UnitZ && Vec2.Normalize(Make2D(v), len) == Vec2.Zero
    ensures v != Zero ==> Make2D(Normalize(v, len)) == Vec2.Normalize(Make2D(v), len)
  {
    assert LengthSquared(v) == Vec2.DotProduct(Make2D(v), Make2D(v));
    LengthZeroIff(v, len);
  }

  /** Make2D: the planar vector of the x and y components. */
  function Make2D(v: Vector): Vec2.Vector2D
  {
    Vec2.Vector2D(v.x, v.y)
  }

  /** get2d: the projection onto the horizontal plane, keeping the 3D type. */
  function Get2D(v: Vector): Vector
  {
    Vector(v.x, v.y, 0.0)
  }

  /** The two planar views agree: get2d drops only the height, projecting
      twice is projecting once, and its squared length is the planar
      vector's dot product with itself. */
  lemma ProjectionsAgree(v: Vector)
    ensures Make2D(Get2D(v)) == Make2D(v)
    ensures Get2D(Get2D(v)) == Get2D(v)
    ensures Add(Get2D(v), Vector(0.0, 0.0, v.z)) == v
    ensures LengthSquared(Get2D(v)) == Vec2.DotProduct(Make2D(v), Make2D(v))
  {
  }

  /** distanceSq: the squared length of the difference. It is never
      negative and is zero exactly when the two points coincide. */
  function DistanceSq(a: Vector, b: Vector): (r: real)
    ensures 0.0 <= r
    ensures r == 0.0 <==> a == b
  {
    var d := Sub(a, b);
    assert d == Zero <==> a == b by {
      assert a == Add(d, b);
    }
    LengthSquared(d)
  }

  /** The squared distance does not depend on the order of the points. */
  lemma DistanceSqSymmetric(a: Vector, b: Vector)
    ensures DistanceSq(a, b) == DistanceSq(b, a)
  {
    assert Sub(b, a) == Neg(Sub(a, b));
  }

  /** operator+=: the updated value of the left-hand side. */
  function AddAssign(v: Vector, rhs: Vector): Vector
  {
    v.(x := v.x + rhs.x, y := v.y + rhs.y, z := v.z + rhs.z)
  }

  /** operator-= */
  function SubAssign(v: Vector, rhs: Vector): Vector
  {
    v.(x := v.x - rhs.x, y := v.y - rhs.y, z := v.z - rhs.z)
  }

  /** operator*= */
  function MulAssign(v: Vector, rhs: real): Vector
  {
    v.(x := v.x * rhs, y := v.y * rhs, z := v.z * rhs)
  }

  /** operator/=: multiplies every component by 1 / (rhs + kFloatEqualEpsilon),
      not by 1 / rhs. Over the reals the offset divisor must be non-zero. */
  function DivAssign(v: Vector, rhs: real): Vector
    requires rhs + FloatEqualEpsilon != 0.0
  {
    var inv := 1.0 / (rhs + FloatEqualEpsilon);
    v.(x := v.x * inv, y := v.y * inv, z := v.z * inv)
  }

  /** +=, -= and *= leave the same components as +, - and *. */
  lemma CompoundAssignMatchesOperators(v: Vector, rhs: Vector, fl: real)
    ensures AddAssign(v, rhs) == Add(v, rhs)
    ensures SubAssign(v, rhs) == Sub(v, rhs)
    ensures MulAssign(v, fl) == Scale(v, fl)
  {
  }

  /** /= is division by the offset divisor rhs + 0.001. */
  lemma DivAssignIsOffsetDivision(v: Vector, rhs: real)
    requires rhs + FloatEqualEpsilon != 0.0
    ensures DivAssign(v, rhs) == Div(v, rhs + FloatEqualEpsilon)
  {
    var d := rhs + FloatEqualEpsilon;
    assert v.x * (1.0 / d) == v.x / d;
    assert v.y * (1.0 / d) == v.y / d;
    assert v.z * (1.0 / d) == v.z / d;
  }

  /** Because of the offset, `v /= r` and `v / r` agree only on the zero
      vector: any non-zero component comes out different. */
  lemma DivAssignDiffersFromDiv(v: Vector, rhs: real)
    requires rhs != 0.0 && rhs + FloatEqualEpsilon != 0.0
    ensures DivAssign(v, rhs) == Div(v, rhs) <==> v == Zero
  {
  }

  /** empty: each component separately passes the near-zero test. */
  predicate Empty(v: Vector)
  {
    FZero(v.x) && FZero(v.y) && FZero(v.z)
  }

  /** clear: every component set to zero. */
  function Clear(v: Vector): (r: Vector)
    ensures Empty(r)
    ensures LengthSquared(r) == 0.0
  {
    v.(x := 0.0, y := 0.0, z := 0.0)
  }

  /** empty is a per-component test, not a magnitude test. Every vector
      shorter than kFloatEpsilon is empty, but an empty vector may be up
      to sqrt(3) times longer, as (0.009, 0.009, 0.009) shows. */
  lemma EmptyIsPerComponent(v: Vector)
    ensures LengthSquared(v) < FloatEpsilon * FloatEpsilon ==> Empty(v)
    ensures Empty(v) ==> LengthSquared(v) < 3.0 * (FloatEpsilon * FloatEpsilon)
    ensures Empty(Vector(0.009, 0.009, 0.009))
    ensures LengthSquared(Vector(0.009, 0.009, 0.009)) > FloatEpsilon * FloatEpsilon
  {
    var e2 := FloatEpsilon * FloatEpsilon;
    SquareSign(v.x, v.x * v.x);
    SquareSign(v.y, v.y * v.y);
    SquareSign(v.z, v.z * v.z);
    SquareBelowIff(v.x, v.x * v.x);
    SquareBelowIff(v.y, v.y * v.y);
    SquareBelowIff(v.z, v.z * v.z);
  }

  /** A value passes the near-zero test exactly when its square is below
      the square of the threshold. */
  lemma SquareBelowIff(e: real, p: real)
    requires p == e * e
    ensures FZero(e) <==> p < FloatEpsilon * FloatEpsilon
  {
    var a := Abs(e);
    assert p == a * a;
    if a < FloatEpsilon {
      SquareMonotone(a, FloatEpsilon, p, FloatEpsilon * FloatEpsilon);
    } else {
      SquareMonotoneNonStrict(FloatEpsilon, a, FloatEpsilon * FloatEpsilon, p);
    }
  }

  lemma SquareMonotone(a: real, b: real, p: real, q: real)
    requires 0.0 <= a < b && p == a * a && q == b * b
    ensures p < q
  {
    assert q - p == (b - a) * (b + a);
    ProductPositive(b - a, b + a, q - p);
  }

  lemma SquareMonotoneNonStrict(a: real, b: real, p: real, q: real)
    requires 0.0 <= a <= b && p == a * a && q == b * b
    ensures p <= q
  {
    if a < b {
      SquareMonotone(a, b, p, q);
    }
  }

  /** clampAngles: x and y (pitch and yaw) wrapped into [-180, 180) by
      normalizeAngles, and z (roll) set to zero. */
  function ClampAngles(v: Vector): (r: Vector)
    ensures -180.0 <= r.x < 180.0 && -180.0 <= r.y < 180.0
    ensures r.z == 0.0
  {
    v.(x := NormalizeAngles(v.x), y := NormalizeAngles(v.y), z := 0.0)
  }

  /** Clamping clamped angles changes nothing, and each clamped component
      stays within one fixed-point unit of the input modulo a full turn. */
  lemma ClampAnglesIdempotent(v: Vector)
    ensures ClampAngles(ClampAngles(v)) == ClampAngles(v)
    ensures exists m :: -DegreesPerUnit < v.x - Turns(m) - ClampAngles(v).x < DegreesPerUnit
    ensures exists m :: -DegreesPerUnit < v.y - Turns(m) - ClampAngles(v).y < DegreesPerUnit
  {
    NormalizeAnglesIdempotent(v.x);
    NormalizeAnglesIdempotent(v.y);
    NormalizeAnglesWithinOneUnit(v.x);
    NormalizeAnglesWithinOneUnit(v.y);
  }

  /** Negation is an involution, v + (-v) is zero and subtraction is adding
      the negation. */
  lemma NegProperties(a: Vector, b: Vector)
    ensures Neg(Neg(a)) == a
    ensures Add(a, Neg(a)) == Zero
    ensures Sub(a, b) == Add(a, Neg(b))
  {
  }

  /** Subtraction undoes addition, for vectors and for scalars. */
  lemma AddSubInverse(a: Vector, b: Vector, fl: real)
    ensures Sub(Add(a, b), b) == a
    ensures Add(a, b) == Add(b, a)
    ensures SubScalar(AddScalar(a, fl), fl) == a
  {
  }

  /** Division by a non-zero scalar undoes scaling by it, and the
      scalar-first product equals the scalar-last one. */
  lemma ScaleDivInverse(v: Vector, fl: real)
    requires fl != 0.0
    ensures Div(Scale(v, fl), fl) == v
    ensures ScaleLeft(fl, v) == Vector(fl * v.x, fl * v.y, fl * v.z)
  {
  }

  /** The dot product is symmetric, linear in its first argument, and a
      vector's dot product with itself is its squared length. */
  lemma DotProductProperties(a: Vector, b: Vector, c: Vector, k: real)
    ensures DotProduct(a, b) == DotProduct(b, a)
    ensures DotProduct(Add(a, b), c) == DotProduct(a, c) + DotProduct(b, c)
    ensures DotProduct(Scale(a, k), b) == k * DotProduct(a, b)
    ensures DotProduct(a, a) == LengthSquared(a)
  {
  }

  /** The cross product is anti-commutative, vanishes on equal arguments
      and is orthogonal to both of its arguments. */
  lemma CrossProductProperties(a: Vector, b: Vector)
    ensures CrossProduct(a, b) == Neg(CrossProduct(b, a))
    ensures CrossProduct(a, a) == Zero
    ensures DotProduct(a, CrossProduct(a, b)) == 0.0
    ensures DotProduct(b, CrossProduct(a, b)) == 0.0
  {
  }
}
