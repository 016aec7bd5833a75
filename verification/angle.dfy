/** The scalar angle helpers: wrapping a degree value through the 16-bit
    fixed-point angle domain (65536 units per full turn).

    Each helper scales degrees to units, truncates toward zero to an int,
    keeps the low 16 bits and scales back. The float constants 65536/360 and
    360/65536 are taken as the exact rationals they stand for. */
module Angle {
  import opened Scalar

  /** 65536 / 360: fixed-point units per degree. */
  const UnitsPerDegree: real := 65536.0 / 360.0

  /** 360 / 65536: degrees per fixed-point unit, the resolution of the wrap. */
  const DegreesPerUnit: real := 360.0 / 65536.0

  /** The angle, in degrees, that k fixed-point units stand for. */
  function Units(k: int): real
  {
    k as real * DegreesPerUnit
  }

  /** m whole turns, in degrees. */
  function Turns(m: int): real
  {
    360.0 * m as real
  }

  /** The int vector.h masks: static_cast<int>(a * (65536 / 360)). */
  function UnitCount(a: real): int
  {
    Trunc(a * UnitsPerDegree)
  }

  /** modAngles: wraps a degree value into [0, 360) on the 16-bit grid. */
  function ModAngles(a: real): (r: real)
    ensures 0.0 <= r < 360.0
    ensures exists k :: 0 <= k < 0x1_0000 && r == Units(k)
  {
    Units(Mask16(UnitCount(a)))
  }

  /** Wherever the cast is defined (the scaled value fits an int), the unit
      count modAngles scales back has exactly the bits the C++ header's
      `& 65535` leaves, including for negative angles. */
  lemma ModAnglesMatchesBitMask(a: real)
    requires Int32Min <= UnitCount(a) <= Int32Max
    ensures ModAngles(a) == Units(Mask16(UnitCount(a)))
    ensures Int32Bits(Mask16(UnitCount(a))) == Int32Bits(UnitCount(a)) & 0xFFFF
  {
    AndMask16IsMask16(UnitCount(a));
  }

  /** normalizeAngles: the same wrap shifted by half a turn, into [-180, 180). */
  function NormalizeAngles(a: real): (r: real)
    ensures -180.0 <= r < 180.0
    ensures exists k :: 0 <= k < 0x1_0000 && r == Units(k) - 180.0
  {
    Units(Mask16(UnitCount(a + 180.0))) - 180.0
  }

  /** anglesDifference: the signed difference a - b wrapped into [-180, 180). */
  function AnglesDifference(a: real, b: real): (r: real)
    ensures -180.0 <= r < 180.0
  {
    NormalizeAngles(a - b)
  }

  /** Scaling a grid angle back to units gives its unit count exactly. */
  lemma UnitsRoundTrip(k: int)
    ensures Units(k) * UnitsPerDegree == k as real
    ensures Turns(k) == Units(0x1_0000 * k)
  {
  }

  /** A grid angle wraps to the grid angle of its unit count modulo 65536:
      modAngles(0) = modAngles(360) = 0 follow with k = 0 and k = 65536. */
  lemma ModAnglesOnGrid(k: int)
    ensures ModAngles(Units(k)) == Units(Mask16(k))
  {
    UnitsRoundTrip(k);
    TruncOfInt(k);
  }

  /** The wrap is congruent to its input modulo a full turn, up to less than
      one fixed-point unit: truncation drops the fraction of a unit toward
      zero, so the result sits just below a non-negative input and just
      above a negative one (modulo 360). */
  lemma ModAnglesWithinOneUnit(a: real)
    ensures 0.0 <= a ==> exists m :: 0.0 <= a - Turns(m) - ModAngles(a) < DegreesPerUnit
    ensures a < 0.0 ==> exists m :: -DegreesPerUnit < a - Turns(m) - ModAngles(a) <= 0.0
  {
    var t := UnitCount(a);
    var k := Mask16(t);
    var q := (t - k) / 0x1_0000;
    assert t == 0x1_0000 * q + k;
    assert a == a * UnitsPerDegree * DegreesPerUnit;
    assert a - Turns(q) - ModAngles(a) == (a * UnitsPerDegree - t as real) * DegreesPerUnit;
  }

  /** Wrapping is idempotent over the reals: a wrapped value is on the grid
      and in range, so wrapping it again changes nothing. */
  lemma ModAnglesIdempotent(a: real)
    ensures ModAngles(ModAngles(a)) == ModAngles(a)
  {
  }

  /** For a non-negative input, adding a full turn does not change the wrap. */
  lemma ModAnglesPeriodic(a: real)
    requires 0.0 <= a
    ensures ModAngles(a + 360.0) == ModAngles(a)
  {
    var x := a * UnitsPerDegree;
    assert (a + 360.0) * UnitsPerDegree == x + 65536.0;
    TruncShift(x, 0x1_0000);
    var t := UnitCount(a);
    assert UnitCount(a + 360.0) == t + 0x1_0000;
    assert Mask16(t + 0x1_0000) == Mask16(t) by {
      assert (t + 0x1_0000) % 0x1_0000 == t % 0x1_0000;
    }
  }

  /** Truncation toward zero makes the wrap asymmetric around 0: -1 degree
      and 359 degrees land one unit apart, and a small negative angle wraps
      to 0 rather than to just below 360. */
  lemma ModAnglesTruncatesTowardZero()
    ensures ModAngles(-1.0) == Units(65354)
    ensures ModAngles(359.0) == Units(65353)
    ensures ModAngles(-1.0) - ModAngles(359.0) == DegreesPerUnit
    ensures ModAngles(-0.001) == 0.0
    ensures ModAngles(359.999) == Units(65535)
  {
  }

  /** normalizeAngles is modAngles of the input shifted by half a turn,
      shifted back. */
  lemma NormalizeAnglesIsShiftedModAngles(a: real)
    ensures NormalizeAngles(a) == ModAngles(a + 180.0) - 180.0
  {
  }

  /** normalizeAngles keeps its input modulo a full turn, up to less than
      one fixed-point unit. */
  lemma NormalizeAnglesWithinOneUnit(a: real)
    ensures exists m :: -DegreesPerUnit < a - Turns(m) - NormalizeAngles(a) < DegreesPerUnit
  {
    ModAnglesWithinOneUnit(a + 180.0);
    NormalizeAnglesIsShiftedModAngles(a);
    var m :| -DegreesPerUnit < a + 180.0 - Turns(m) - ModAngles(a + 180.0) < DegreesPerUnit;
    assert -DegreesPerUnit < a - Turns(m) - NormalizeAngles(a) < DegreesPerUnit;
  }

  /** Normalizing an already normalized angle changes nothing (over the reals). */
  lemma NormalizeAnglesIdempotent(a: real)
    ensures NormalizeAngles(NormalizeAngles(a)) == NormalizeAngles(a)
  {
  }

  /** The shortest signed delta: a half-turn apart is reported as -180, equal
      angles as 0, and only the difference of the two inputs matters. */
  lemma AnglesDifferenceProperties(a: real, b: real, c: real)
    ensures AnglesDifference(190.0, 10.0) == -180.0
    ensures AnglesDifference(a, a) == 0.0
    ensures AnglesDifference(a + c, b + c) == AnglesDifference(a, b)
  {
  }
}
