/** angleVectors: the forward, right and upward axes of the frame that a
    (pitch, yaw, roll) angle vector in degrees describes.

    vector.h turns each angle into radians and takes sinf and cosf of it;
    here the three sines `s` and the three cosines `c` are given (component
    x for pitch, y for yaw, z for roll), and only the identity
    sin^2 + cos^2 = 1 is assumed of them where a property needs it. */
module Frame {
  import opened Vec3

  /** The forward axis: it depends on pitch and yaw only. */
  function ForwardOf(s: Vector, c: Vector): Vector
  {
    Vector(c.x * c.y, c.x * s.y, -s.x)
  }

  /** The right axis. */
  function RightOf(s: Vector, c: Vector): Vector
  {
    Vector(-s.z * s.x * c.y + c.z * s.y, -s.z * s.x * s.y - c.z * c.y, -s.z * c.x)
  }

  /** The upward axis. */
  function UpwardOf(s: Vector, c: Vector): Vector
  {
    Vector(c.z * s.x * c.y + s.z * s.y, c.z * s.x * s.y - s.z * c.y, c.z * c.x)
  }

  /** Which of the three output pointers are non-null. */
  datatype Request = Request(wantForward: bool, wantRight: bool, wantUpward: bool)

  /** The contents of the three output locations. */
  datatype Axes = Axes(forward: Vector, right: Vector, upward: Vector)

  /** angleVectors: writes each requested axis into its output and leaves
      the output of every axis that was not requested as it was. */
  function AngleVectors(s: Vector, c: Vector, req: Request, dest: Axes): (r: Axes)
    ensures req.wantForward ==> r.forward == ForwardOf(s, c)
    ensures req.wantRight ==> r.right == RightOf(s, c)
    ensures req.wantUpward ==> r.upward == UpwardOf(s, c)
    ensures !req.wantForward ==> r.forward == dest.forward
    ensures !req.wantRight ==> r.right == dest.right
    ensures !req.wantUpward ==> r.upward == dest.upward
  {
    var f := if req.wantForward then ForwardOf(s, c) else dest.forward;
    var rt := if req.wantRight then RightOf(s, c) else dest.right;
    var u := if req.wantUpward then UpwardOf(s, c) else dest.upward;
    Axes(f, rt, u)
  }

  /** forward(): angleVectors asked for the forward axis alone. */
  function Forward(s: Vector, c: Vector): Vector
  {
    AngleVectors(s, c, Request(true, false, false), Axes(Zero, Zero, Zero)).forward
  }

  /** upward(): angleVectors asked for the upward axis alone. */
  function Upward(s: Vector, c: Vector): Vector
  {
    AngleVectors(s, c, Request(false, false, true), Axes(Zero, Zero, Zero)).upward
  }

  /** right(): angleVectors asked for the right axis alone. */
  function Right(s: Vector, c: Vector): Vector
  {
    AngleVectors(s, c, Request(false, true, false), Axes(Zero, Zero, Zero)).right
  }

  /** Each single-axis accessor returns the same axis as a full request, and
      which other axes were requested does not change an axis. */
  lemma AccessorsAgree(s: Vector, c: Vector, req: Request, dest: Axes)
    ensures Forward(s, c) == AngleVectors(s, c, Request(true, true, true), dest).forward
    ensures Right(s, c) == AngleVectors(s, c, Request(true, true, true), dest).right
    ensures Upward(s, c) == AngleVectors(s, c, Request(true, true, true), dest).upward
    ensures req.wantForward ==> AngleVectors(s, c, req, dest).forward == Forward(s, c)
    ensures req.wantRight ==> AngleVectors(s, c, req, dest).right == Right(s, c)
    ensures req.wantUpward ==> AngleVectors(s, c, req, dest).upward == Upward(s, c)
  {
  }

  /** Requesting nothing writes nothing. */
  lemma EmptyRequestWritesNothing(s: Vector, c: Vector, dest: Axes)
    ensures AngleVectors(s, c, Request(false, false, false), dest) == dest
  {
  }

  /** All angles zero (every sine 0, every cosine 1) gives the identity
      frame: forward along +x, right along -y, upward along +z. */
  lemma ZeroAnglesGiveIdentityFrame()
    ensures Forward(Zero, Vector(1.0, 1.0, 1.0)) == Vector(1.0, 0.0, 0.0)
    ensures Right(Zero, Vector(1.0, 1.0, 1.0)) == Vector(0.0, -1.0, 0.0)
    ensures Upward(Zero, Vector(1.0, 1.0, 1.0)) == Vector(0.0, 0.0, 1.0)
  {
  }

  /** The sines and cosines come from real angles: sin^2 + cos^2 = 1 for
      each of pitch, yaw and roll. */
  ghost predicate OnUnitCircle(s: Vector, c: Vector)
  {
    s.x * s.x + c.x * c.x == 1.0 && s.y * s.y + c.y * c.y == 1.0 && s.z * s.z + c.z * c.z == 1.0
  }

  /* The three axes are the images of the basis vectors (1, 0, 0), (0, -1, 0)
     and (0, 0, 1) under roll about x, then pitch about y, then yaw about z.
     A plane rotation by an angle whose sine and cosine satisfy
     sin^2 + cos^2 = 1 keeps dot and cross products, and so the axes inherit
     the orthonormality of the basis. */

  /** Rotation about the x axis by the angle with sine sn and cosine cs. */
  function RotateX(sn: real, cs: real, v: Vector): Vector
  {
    Vector(v.x, cs * v.y - sn * v.z, sn * v.y + cs * v.z)
  }

  /** Rotation about the y axis, in the sense that takes +x towards -z. */
  function RotateY(sn: real, cs: real, v: Vector): Vector
  {
    Vector(sn * v.z + cs * v.x, v.y, cs * v.z - sn * v.x)
  }

  /** Rotation about the z axis, in the sense that takes +x towards +y. */
  function RotateZ(sn: real, cs: real, v: Vector): Vector
  {
    Vector(cs * v.x - sn * v.y, sn * v.x + cs * v.y, v.z)
  }

  /** Roll, then pitch, then yaw. */
  function Rotate(s: Vector, c: Vector, v: Vector): Vector
  {
    RotateZ(s.y, c.y, RotateY(s.x, c.x, RotateX(s.z, c.z, v)))
  }

  /** The axes angleVectors writes are the rotated basis vectors, for any
      reals in place of the sines and cosines. */
  lemma AxesAreRotatedBasis(s: Vector, c: Vector)
    ensures ForwardOf(s, c) == Rotate(s, c, Vector(1.0, 0.0, 0.0))
    ensures RightOf(s, c) == Rotate(s, c, Vector(0.0, -1.0, 0.0))
    ensures UpwardOf(s, c) == Rotate(s, c, UnitZ)
  {
  }

  /** A plane rotation keeps the dot product and the signed area of two
      plane vectors: (p1, q1) and (p2, q2) are (x1, y1) and (x2, y2) turned
      by the angle with sine sn and cosine cs. */
  lemma PlaneRotationKeepsProducts(sn: real, cs: real, x1: real, y1: real, x2: real, y2: real,
                                   p1: real, q1: real, p2: real, q2: real)
    requires sn * sn + cs * cs == 1.0
    requires p1 == cs * x1 - sn * y1 && q1 == sn * x1 + cs * y1
    requires p2 == cs * x2 - sn * y2 && q2 == sn * x2 + cs * y2
    ensures p1 * p2 + q1 * q2 == x1 * x2 + y1 * y2
    ensures p1 * q2 - q1 * p2 == x1 * y2 - y1 * x2
  {
  }

  /** The cross-product components that mix the rotation plane with the
      fixed axis: w1, w2 are the fixed coordinates, m and n the matching
      components of the unrotated cross product. */
  lemma RotationMixedProducts(sn: real, cs: real, u1: real, v1: real, w1: real,
                              u2: real, v2: real, w2: real,
                              p1: real, q1: real, p2: real, q2: real, m: real, n: real)
    requires p1 == cs * u1 - sn * v1 && q1 == sn * u1 + cs * v1
    requires p2 == cs * u2 - sn * v2 && q2 == sn * u2 + cs * v2
    requires m == v1 * w2 - w1 * v2 && n == w1 * u2 - u1 * w2
    ensures q1 * w2 - w1 * q2 == cs * m - sn * n
    ensures w1 * p2 - p1 * w2 == sn * m + cs * n
  {
  }

  /** A rotation about x keeps dot products. */
  lemma RotateXKeepsDot(sn: real, cs: real, a: Vector, b: Vector)
    requires sn * sn + cs * cs == 1.0
    ensures DotProduct(RotateX(sn, cs, a), RotateX(sn, cs, b)) == DotProduct(a, b)
  {
  }

  /** A rotation about x keeps cross products. */
  lemma RotateXKeepsCross(sn: real, cs: real, a: Vector, b: Vector)
    requires sn * sn + cs * cs == 1.0
    ensures CrossProduct(RotateX(sn, cs, a), RotateX(sn, cs, b)) == RotateX(sn, cs, CrossProduct(a, b))
  {
    RotationMixedProducts(sn, cs, a.y, a.z, a.x, b.y, b.z, b.x,
      cs * a.y - sn * a.z, sn * a.y + cs * a.z, cs * b.y - sn * b.z, sn * b.y + cs * b.z,
      a.z * b.x - a.x * b.z, a.x * b.y - a.y * b.x);
    PlaneRotationKeepsProducts(sn, cs, a.y, a.z, b.y, b.z,
      cs * a.y - sn * a.z, sn * a.y + cs * a.z, cs * b.y - sn * b.z, sn * b.y + cs * b.z);
  }

  /** A rotation about y keeps dot products. */
  lemma RotateYKeepsDot(sn: real, cs: real, a: Vector, b: Vector)
    requires sn * sn + cs * cs == 1.0
    ensures DotProduct(RotateY(sn, cs, a), RotateY(sn, cs, b)) == DotProduct(a, b)
  {
  }

  /** A rotation about y keeps cross products. */
  lemma RotateYKeepsCross(sn: real, cs: real, a: Vector, b: Vector)
    requires sn * sn + cs * cs == 1.0
    ensures CrossProduct(RotateY(sn, cs, a), RotateY(sn, cs, b)) == RotateY(sn, cs, CrossProduct(a, b))
  {
    RotationMixedProducts(sn, cs, a.z, a.x, a.y, b.z, b.x, b.y,
      cs * a.z - sn * a.x, sn * a.z + cs * a.x, cs * b.z - sn * b.x, sn * b.z + cs * b.x,
      a.x * b.y - a.y * b.x, a.y * b.z - a.z * b.y);
    PlaneRotationKeepsProducts(sn, cs, a.z, a.x, b.z, b.x,
      cs * a.z - sn * a.x, sn * a.z + cs * a.x, cs * b.z - sn * b.x, sn * b.z + cs * b.x);
  }

  /** A rotation about z keeps dot products. */
  lemma RotateZKeepsDot(sn: real, cs: real, a: Vector, b: Vector)
    requires sn * sn + cs * cs == 1.0
    ensures DotProduct(RotateZ(sn, cs, a), RotateZ(sn, cs, b)) == DotProduct(a, b)
  {
  }

  /** A rotation about z keeps cross products. */
  lemma RotateZKeepsCross(sn: real, cs: real, a: Vector, b: Vector)
    requires sn * sn + cs * cs == 1.0
    ensures CrossProduct(RotateZ(sn, cs, a), RotateZ(sn, cs, b)) == RotateZ(sn, cs, CrossProduct(a, b))
  {
    RotationMixedProducts(sn, cs, a.x, a.y, a.z, b.x, b.y, b.z,
      cs * a.x - sn * a.y, sn * a.x + cs * a.y, cs * b.x - sn * b.y, sn * b.x + cs * b.y,
      a.y * b.z - a.z * b.y, a.z * b.x - a.x * b.z);
    PlaneRotationKeepsProducts(sn, cs, a.x, a.y, b.x, b.y,
      cs * a.x - sn * a.y, sn * a.x + cs * a.y, cs * b.x - sn * b.y, sn * b.x + cs * b.y);
  }

  /** The composed rotation keeps dot and cross products. */
  lemma RotateKeepsProducts(s: Vector, c: Vector, a: Vector, b: Vector)
    requires OnUnitCircle(s, c)
    ensures DotProduct(Rotate(s, c, a), Rotate(s, c, b)) == DotProduct(a, b)
    ensures CrossProduct(Rotate(s, c, a), Rotate(s, c, b)) == Rotate(s, c, CrossProduct(a, b))
  {
    RotateXKeepsDot(s.z, c.z, a, b);
    RotateXKeepsCross(s.z, c.z, a, b);
    var a1, b1 := RotateX(s.z, c.z, a), RotateX(s.z, c.z, b);
    RotateYKeepsDot(s.x, c.x, a1, b1);
    RotateYKeepsCross(s.x, c.x, a1, b1);
    var a2, b2 := RotateY(s.x, c.x, a1), RotateY(s.x, c.x, b1);
    RotateZKeepsDot(s.y, c.y, a2, b2);
    RotateZKeepsCross(s.y, c.y, a2, b2);
  }

  /** For sines and cosines of real angles, each axis is a unit vector. */
  lemma AxesAreUnit(s: Vector, c: Vector)
    requires OnUnitCircle(s, c)
    ensures LengthSquared(ForwardOf(s, c)) == 1.0
    ensures LengthSquared(RightOf(s, c)) == 1.0
    ensures LengthSquared(UpwardOf(s, c)) == 1.0
  {
    var e1, e2 := Vector(1.0, 0.0, 0.0), Vector(0.0, -1.0, 0.0);
    AxesAreRotatedBasis(s, c);
    RotateKeepsProducts(s, c, e1, e1);
    RotateKeepsProducts(s, c, e2, e2);
    RotateKeepsProducts(s, c, UnitZ, UnitZ);
    DotProductProperties(ForwardOf(s, c), ForwardOf(s, c), Zero, 0.0);
    DotProductProperties(RightOf(s, c), RightOf(s, c), Zero, 0.0);
    DotProductProperties(UpwardOf(s, c), UpwardOf(s, c), Zero, 0.0);
  }

  /** The three axes are pairwise orthogonal for any sines and cosines of
      real angles. */
  lemma AxesOrthogonal(s: Vector, c: Vector)
    requires OnUnitCircle(s, c)
    ensures DotProduct(ForwardOf(s, c), RightOf(s, c)) == 0.0
    ensures DotProduct(ForwardOf(s, c), UpwardOf(s, c)) == 0.0
    ensures DotProduct(RightOf(s, c), UpwardOf(s, c)) == 0.0
  {
    var e1, e2 := Vector(1.0, 0.0, 0.0), Vector(0.0, -1.0, 0.0);
    AxesAreRotatedBasis(s, c);
    RotateKeepsProducts(s, c, e1, e2);
    RotateKeepsProducts(s, c, e1, UnitZ);
    RotateKeepsProducts(s, c, e2, UnitZ);
  }

  /** The frame is right-handed in vector.h's convention: upward is the
      cross product of right and forward. */
  lemma UpwardIsRightCrossForward(s: Vector, c: Vector)
    requires OnUnitCircle(s, c)
    ensures CrossProduct(RightOf(s, c), ForwardOf(s, c)) == UpwardOf(s, c)
  {
    var e1, e2 := Vector(1.0, 0.0, 0.0), Vector(0.0, -1.0, 0.0);
    AxesAreRotatedBasis(s, c);
    RotateKeepsProducts(s, c, e2, e1);
    assert CrossProduct(e2, e1) == UnitZ;
  }
}
