/** The planar vector type Vector2D used for path finding and other
    operations treated as flat rather than 3D. Components are reals; the
    Euclidean length (a square root) enters only as a given value. */
module Vec2 {
  import opened Scalar

  datatype Vector2D = Vector2D(x: real, y: real)

  const Zero: Vector2D := Vector2D(0.0, 0.0)

  /** operator+ */
  function Add(a: Vector2D, b: Vector2D): Vector2D
  {
    Vector2D(a.x + b.x, a.y + b.y)
  }

  /** operator- */
  function Sub(a: Vector2D, b: Vector2D): Vector2D
  {
    Vector2D(a.x - b.x, a.y - b.y)
  }

  /** operator*(float): scaling by a scalar on the right. */
  function Scale(v: Vector2D, fl: real): Vector2D
  {
    Vector2D(v.x * fl, v.y * fl)
  }

  /** operator*(float, Vector2D): the scalar-first form, forwarding to Scale. */
  function ScaleLeft(fl: real, v: Vector2D): Vector2D
  {
    Scale(v, fl)
  }

  /** operator/(float): component-wise division. vector.h divides without
      a guard; over the reals the divisor must be non-zero. */
  function Div(v: Vector2D, fl: real): Vector2D
    requires fl != 0.0
  {
    Vector2D(v.x / fl, v.y / fl)
  }

  /** DotProduct(Vector2D, Vector2D) */
  function DotProduct(a: Vector2D, b: Vector2D): real
  {
    a.x * b.x + a.y * b.y
  }

  /** `len` is the Euclidean length of v: the non-negative root of the sum
      of squares that Length() computes with sqrt. */
  ghost predicate IsLength(v: Vector2D, len: real)
  {
    0.0 <= len && len * len == DotProduct(v, v)
  }

  /** Normalize: the zero vector when the length is exactly zero, otherwise
      v scaled by the reciprocal of its length. The length is passed in as
      the value Length() returns. Over the reals the fallback is taken
      exactly for the zero vector, and every other vector comes back as a
      unit vector pointing the same way. */
  function Normalize(v: Vector2D, len: real): (r: Vector2D)
    requires IsLength(v, len)
    ensures r == Zero <==> v == Zero
    ensures v != Zero ==> DotProduct(r, r) == 1.0
    ensures v != Zero ==> r.x * v.y == r.y * v.x && 0.0 < DotProduct(r, v)
  {
    LengthZeroIff(v, len);
    if len == 0.0 then Zero
    else
      var inv := 1.0 / len;
      var r := Vector2D(v.x * inv, v.y * inv);
      assert DotProduct(r, r) == DotProduct(v, v) * (inv * inv);
      assert len * inv == 1.0;
      assert DotProduct(r, r) == (len * inv) * (len * inv);
      DotSelfZeroIff(v);
      ProductPositive(DotProduct(v, v), inv, DotProduct(r, v));
      r
  }

  /** A vector's dot product with itself is never negative, and is zero
      exactly for the zero vector. */
  lemma DotSelfZeroIff(v: Vector2D)
    ensures 0.0 <= DotProduct(v, v)
    ensures DotProduct(v, v) == 0.0 <==> v == Zero
  {
    SquareSign(v.x, v.x * v.x);
    SquareSign(v.y, v.y * v.y);
  }

  /** Over the reals the length is zero exactly for the zero vector, so the
      `flLen == 0` test of Normalize picks out (0, 0) and nothing else. */
  lemma LengthZeroIff(v: Vector2D, len: real)
    requires IsLength(v, len)
    ensures len == 0.0 <==> v == Zero
  {
    DotSelfZeroIff(v);
    SquareSign(len, len * len);
  }

  /** A normalized non-zero vector has length 1, and normalizing it again
      with that length returns it unchanged. */
  lemma NormalizeIdempotent(v: Vector2D, len: real)
    requires IsLength(v, len) && v != Zero
    ensures IsLength(Normalize(v, len), 1.0)
    ensures Normalize(Normalize(v, len), 1.0) == Normalize(v, len)
  {
  }

  /** Subtraction undoes addition, and addition commutes. */
  lemma AddSubInverse(a: Vector2D, b: Vector2D)
    ensures Sub(Add(a, b), b) == a
    ensures Add(a, b) == Add(b, a)
  {
  }

  /** Division by a non-zero scalar undoes scaling by it. */
  lemma ScaleDivInverse(v: Vector2D, fl: real)
    requires fl != 0.0
    ensures Div(Scale(v, fl), fl) == v
  {
  }

  /** The scalar-first product equals the scalar-last one. */
  lemma ScaleLeftIsScale(fl: real, v: Vector2D)
    ensures ScaleLeft(fl, v) == Vector2D(fl * v.x, fl * v.y)
  {
  }

  /** The dot product is symmetric and linear in each argument. */
  lemma DotProductProperties(a: Vector2D, b: Vector2D, c: Vector2D, k: real)
    ensures DotProduct(a, b) == DotProduct(b, a)
    ensures DotProduct(Add(a, b), c) == DotProduct(a, c) + DotProduct(b, c)
    ensures DotProduct(Scale(a, k), b) == k * DotProduct(a, b)
  {
  }
}
