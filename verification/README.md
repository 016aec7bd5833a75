# Vector math of the game DLL, modelled in Dafny

This project models the header `dlls/vector.h` of the bot/game DLL:

- the scalar helpers: the tolerance constants, `fzero`, the generic `clamp`, and the three angle wraps `modAngles`, `normalizeAngles` and `anglesDifference`;
- the planar `Vector2D` type, with its arithmetic, `Normalize`, `DotProduct` and the scalar-first product;
- the `Vector` type, with its operators, `LengthSquared`, `Normalize`, `Make2D`, `get2d`, the compound assignments, `distanceSq`, `empty`, `clear`, `clampAngles`, `DotProduct`, `CrossProduct` and the scalar-first product;
- `angleVectors`, which builds the forward/right/up frame from pitch, yaw and roll, and its single-axis accessors `forward`, `right` and `upward`.

The Dafny modules follow the header's layers:

| module | file | contents |
|---|---|---|
| `Scalar` | `scalar.dfy` | constants, `Abs`, `FZero`, `Clamp`, truncation toward zero (`Trunc`), the 16-bit mask (`Mask16`) and the 32-bit two's-complement view that justifies it |
| `Angle` | `angle.dfy` | the fixed-point angle wrap (65536 units per turn) |
| `Vec2` | `vec2.dfy` | `Vector2D` |
| `Vec3` | `vec3.dfy` | `Vector` |
| `Frame` | `frame.dfy` | `angleVectors` and the rotation argument behind its orthonormality |

Numbers are modelled exactly:

- every `float` is a Dafny `real` and every `int` an unbounded `int`;
- `static_cast<int>` is `Scalar.Trunc` (truncation toward zero);
- `& 65535` is `Scalar.Mask16`, the Euclidean remainder modulo 65536. `Scalar.AndMask16IsMask16` proves that this remainder has exactly the bits the C++ mask leaves on a 32-bit two's-complement `int`.

The square root and the trigonometric functions are not modelled. They enter as given values:

- `Normalize` takes the length `len`, which the contract requires to be the non-negative root of the sum of squares;
- the frame takes the sine and cosine triples of (pitch, yaw, roll).

The frame is proved orthonormal, with `upward = right × forward`. The three axes are the images of the basis vectors (1,0,0), (0,-1,0) and (0,0,1) under the rotation Rz(yaw)·Ry(pitch)·Rx(roll). Each plane rotation keeps dot and cross products whenever sin² + cos² = 1.

## Model

| member | source | states |
|---|---|---|
| Scalar.FZeroInterval | dlls/vector.h:33-36 | `Scalar.FZero` models fzero; it holds exactly on the open interval (-0.01, 0.01), and is symmetric under negation |
| Scalar.Clamp | dlls/vector.h:27-31 | the result never exceeds the upper bound; with ordered bounds it lies between them; it is x when x is in range, the lower bound when x is below it, and the upper bound when x or the lower bound is above the upper bound |
| Scalar.ClampIdempotent | dlls/vector.h:27-31 | clamping a clamped value again changes nothing |
| Scalar.ClampMonotone | dlls/vector.h:27-31 | clamp preserves the order of its first argument |
| Scalar.Trunc | dlls/vector.h:55 | the cast lands on the integer nearest zero: never past x in x's direction, and less than one away from it |
| Scalar.TruncOdd | dlls/vector.h:55 | truncation commutes with negation, which floor does not |
| Scalar.TruncShift | dlls/vector.h:55 | on non-negative values, adding a whole number before truncating is the same as adding it after |
| Scalar.Mask16 | dlls/vector.h:55 | the masked count is in [0, 65536) and congruent to the unmasked count modulo 65536 |
| Scalar.AndMask16IsMask16 | dlls/vector.h:55 | for every 32-bit int, including negative ones, the Euclidean remainder modulo 65536 has the same bit pattern as `n & 65535` on the two's-complement word |
| Angle.ModAngles | dlls/vector.h:53-56 | modAngles returns an angle in [0, 360) that is a whole number of 1/65536 turns |
| Angle.ModAnglesMatchesBitMask | dlls/vector.h:53-56 | wherever the int cast is defined, the wrap scales back exactly the bits the source's mask keeps |
| Angle.ModAnglesOnGrid | dlls/vector.h:53-56 | a grid angle of k units wraps to the grid angle of k modulo 65536, so 0 and 360 both wrap to 0 |
| Angle.ModAnglesWithinOneUnit | dlls/vector.h:53-56 | modulo a whole number of turns, the wrap differs from its input by less than one unit: it sits just below a non-negative input and just above a negative one |
| Angle.ModAnglesIdempotent | dlls/vector.h:53-56 | wrapping an already wrapped angle changes nothing |
| Angle.ModAnglesPeriodic | dlls/vector.h:53-56 | for non-negative input, adding a full turn does not change the wrap |
| Angle.ModAnglesTruncatesTowardZero | dlls/vector.h:55 | the cast truncates toward zero, so -1 and 359 degrees wrap one unit apart and -0.001 wraps to 0, not to just below 360 |
| Angle.NormalizeAngles | dlls/vector.h:58-61 | normalizeAngles returns an angle in [-180, 180), on the grid shifted by half a turn |
| Angle.NormalizeAnglesIsShiftedModAngles | dlls/vector.h:53-61 | normalizeAngles is modAngles of the input plus 180, minus 180 |
| Angle.NormalizeAnglesWithinOneUnit | dlls/vector.h:58-61 | modulo a whole number of turns, the normalized angle differs from its input by less than one unit |
| Angle.NormalizeAnglesIdempotent | dlls/vector.h:58-61 | normalizing a normalized angle changes nothing |
| Angle.AnglesDifference | dlls/vector.h:63-66 | the difference of two angles is reported in [-180, 180) |
| Angle.AnglesDifferenceProperties | dlls/vector.h:63-66 | angles half a turn apart give -180 rather than +180; equal angles give 0; shifting both angles by the same amount leaves the difference unchanged |
| Vec2.Normalize | dlls/vector.h:92-104 | the zero vector comes back exactly when the input is zero; any other input comes back as a unit vector parallel to it and pointing the same way |
| Vec2.DotSelfZeroIff | dlls/vector.h:90 | the sum of squares under Length's root is never negative and is zero only for the zero vector |
| Vec2.LengthZeroIff | dlls/vector.h:90-98 | the `flLen == 0` test of Normalize is true exactly for the zero vector |
| Vec2.NormalizeIdempotent | dlls/vector.h:92-104 | a normalized non-zero vector has length 1, and normalizing it again returns it unchanged |
| Vec2.AddSubInverse | dlls/vector.h:85-86 | `Vec2.Add` and `Vec2.Sub` model operator+ and operator-; subtraction undoes addition, and addition commutes |
| Vec2.ScaleDivInverse | dlls/vector.h:87-88 | `Vec2.Scale` and `Vec2.Div` model operator* and operator/ by a float; dividing by a non-zero scalar undoes scaling by it |
| Vec2.ScaleLeftIsScale | dlls/vector.h:114-117 | `Vec2.ScaleLeft` models operator*(float, Vector2D); it multiplies each component by the scalar |
| Vec2.DotProductProperties | dlls/vector.h:109-112 | `Vec2.DotProduct` models DotProduct(Vector2D, Vector2D); it is symmetric, and linear in its first argument over addition and scaling |
| Vec3.Equal | dlls/vector.h:142 | the component-wise comparison holds exactly when the two vectors are equal |
| Vec3.NotEqual | dlls/vector.h:143 | the inequality holds exactly when the two vectors differ |
| Vec3.NegProperties | dlls/vector.h:141-145 | `Vec3.Neg` models unary operator-; negation is an involution, a - b equals a + (-b), and a vector plus its negation is zero |
| Vec3.AddSubInverse | dlls/vector.h:144-147 | `Vec3.Add`, `Vec3.Sub`, `Vec3.AddScalar` and `Vec3.SubScalar` model operator+ and operator- by a vector and by a float; subtracting undoes adding, and vector addition commutes |
| Vec3.ScaleDivInverse | dlls/vector.h:148-149 | `Vec3.Scale` and `Vec3.Div` model operator* and operator/ by a float; dividing by a non-zero scalar undoes scaling by it, and `Vec3.ScaleLeft` (operator*(float, Vector), lines 386-389) agrees with the scalar-last product |
| Vec3.LengthSquared | dlls/vector.h:154 | the squared length is never negative and is zero exactly for the zero vector |
| Vec3.LengthZeroIff | dlls/vector.h:155-163 | the `flLen == 0` test of Normalize is true exactly for the zero vector |
| Vec3.Normalize | dlls/vector.h:159-166 | the zero vector becomes (0, 0, 1); any other vector becomes a unit vector parallel to it (zero cross product) and pointing the same way (positive dot product) |
| Vec3.NormalizeIdempotent | dlls/vector.h:159-166 | a normalized non-zero vector has length 1, and normalizing it again returns it unchanged |
| Vec3.NormalizeFallbacksDiffer | dlls/vector.h:159-171 | on vectors in the xy plane the 3D and 2D normalizations agree, except on the zero vector, where the 3D one falls back to (0, 0, 1) and the 2D one to (0, 0) |
| Vec3.ProjectionsAgree | dlls/vector.h:168-239 | `Vec3.Make2D` (lines 168-171) and `Vec3.Get2D` (lines 236-239) keep the same x and y; get2d is idempotent; adding back the z part restores the vector; get2d's squared length is Make2D's dot product with itself |
| Vec3.DistanceSq | dlls/vector.h:231-234 | the squared distance is never negative and is zero exactly for equal points |
| Vec3.DistanceSqSymmetric | dlls/vector.h:231-234 | the squared distance does not depend on the order of the points |
| Vec3.CompoundAssignMatchesOperators | dlls/vector.h:182-207 | `Vec3.AddAssign`, `Vec3.SubAssign` and `Vec3.MulAssign` model `+=`, `-=` and `*=`; each leaves the vector holding the same value as the binary `+`, `-` and `*` |
| Vec3.DivAssignIsOffsetDivision | dlls/vector.h:209-218 | `Vec3.DivAssign` models `/=`; it divides by the divisor plus 0.001, not by the divisor |
| Vec3.DivAssignDiffersFromDiv | dlls/vector.h:209-218 | `/=` and `/` with the same non-zero divisor agree exactly when the vector is zero |
| Vec3.Clear | dlls/vector.h:273-281 | after clear the vector is empty and has squared length 0 |
| Vec3.EmptyIsPerComponent | dlls/vector.h:273-276 | `Vec3.Empty` models empty, which tests each component with fzero rather than the magnitude: every vector shorter than 0.01 is empty, every empty vector is shorter than 0.01·√3, and (0.009, 0.009, 0.009) is empty although longer than 0.01 |
| Vec3.ClampAngles | dlls/vector.h:283-290 | clampAngles puts pitch and yaw in [-180, 180) and zeroes roll |
| Vec3.ClampAnglesIdempotent | dlls/vector.h:283-290 | clamping clamped angles changes nothing, and pitch and yaw keep their input value modulo a turn, up to one unit |
| Vec3.DotProductProperties | dlls/vector.h:391-394 | `Vec3.DotProduct` models DotProduct(Vector, Vector); it is symmetric and linear in its first argument, and a vector's dot product with itself is its squared length |
| Vec3.CrossProductProperties | dlls/vector.h:396-399 | `Vec3.CrossProduct` models CrossProduct(Vector, Vector); it is anti-commutative, vanishes on equal vectors, and is orthogonal to both factors |
| Frame.AngleVectors | dlls/vector.h:319-347 | each requested axis is written with its formula (`Frame.ForwardOf`, `Frame.RightOf` and `Frame.UpwardOf`, lines 335, 340 and 345), and the output of each unrequested axis keeps its previous contents |
| Frame.AccessorsAgree | dlls/vector.h:319-371 | `Frame.Forward`, `Frame.Right` and `Frame.Upward` model forward(), right() and upward() (lines 349-371); each returns the same axis as a full request, and requesting other axes does not change an axis |
| Frame.EmptyRequestWritesNothing | dlls/vector.h:333-346 | with all three outputs null, nothing is written |
| Frame.ZeroAnglesGiveIdentityFrame | dlls/vector.h:333-346 | zero angles give forward +x, right -y and upward +z |
| Frame.AxesAreRotatedBasis | dlls/vector.h:333-346 | the three axis formulas are the rotation Rz(yaw)·Ry(pitch)·Rx(roll) applied to (1,0,0), (0,-1,0) and (0,0,1) |
| Frame.RotateKeepsProducts | dlls/vector.h:333-346 | when each sine/cosine pair lies on the unit circle, that rotation keeps every dot product and every cross product |
| Frame.AxesAreUnit | dlls/vector.h:333-346 | for genuine sines and cosines, each axis has length 1 |
| Frame.AxesOrthogonal | dlls/vector.h:333-346 | for genuine sines and cosines, the three axes are pairwise orthogonal |
| Frame.UpwardIsRightCrossForward | dlls/vector.h:333-346 | for genuine sines and cosines, upward is right × forward, so the frame is right-handed in that order |

## Left out

- Floating-point rounding: every float is an exact real, and 65536/360 and 360/65536 are the exact rationals they stand for. Properties such as idempotence hold over the reals, not necessarily bit-for-bit in `float`.
- Scalar.Trunc: defined on every real. Casting a float outside the `int` range is undefined behaviour in C++, so `Angle.ModAnglesMatchesBitMask` requires the 32-bit range.
- sqrt, sinf and cosf: not modelled. The length is a parameter of `Vec2.Normalize` and `Vec3.Normalize`, and the sine and cosine triples are parameters of `Frame.AngleVectors`.
- The lowercase `normalize` and `normalize2d` (lines 241-271), which add `kFloatCmpEpsilon` to a computed length: these need sqrt and float rounding to say anything beyond the division.
- `Length`, `Length2D`, `distance` and `distance2d` (lines 90, 155, 173, 221-229): square roots, and therefore entered as given values.
- `pitch`, `yaw` and `angles` (lines 292-317): they are atan2f calls. Note that `pitch` (line 298) applies `deg2rad` to the atan2f result, which is already in radians, while `yaw` (line 307) and `angles` (line 316) convert with `rad2deg`.
- `deg2rad`, `rad2deg` and the pi constants: plain float scalings, with no behaviour beyond the multiplication.
- `fequal` (lines 38-41): the tolerance comparison `abs(a - b) < 0.001`; nothing in the modelled core calls it, and only its constant (`Scalar.FloatEqualEpsilon`, reused by `/=`) is modelled.
- The SIMD (`CR_HAS_SSE`) paths: alternative implementations of the same arithmetic.
- The static buffers in `angleVectors`, `forward`, `right` and `upward` (lines 322-325, 349-371): the accessors are modelled as returning the value, not as references into static storage.
- `CopyToArray`, the `float*` conversions and the `float[3]` constructor: raw pointer interop.
- Pointer aliasing between the outputs of `angleVectors`: the outputs are modelled as three separate locations.
- Vec2.Div: requires a non-zero divisor, because reals have no infinity or NaN.
- Vec3.Div: requires a non-zero divisor, for the same reason.
- Vec3.DivAssign: requires the divisor plus 0.001 to be non-zero, for the same reason.
- Scalar.FZero: models `abs(e)` at line 35 as the float absolute value. The header includes only `<cmath>`, whose float overload is `std::abs`; where the unqualified call resolves to C's `int abs(int)` instead, the argument is truncated and fzero would hold for every |e| < 1. The float reading is modelled because it is what the 0.01 threshold is evidently for, and it is what toolchains that put `std::abs` in the global namespace (MSVC's `<cmath>`, or an earlier `<stdlib.h>`/`<math.h>`) give.
- Scalar.Clamp: the template is modelled over `real` only; an instantiation at an integer type is not modelled.
- Vec3.Normalize: does not model vectors whose float length underflows to zero. Over the reals only the zero vector takes the fallback.
- Vec3.AddAssign, Vec3.SubAssign, Vec3.MulAssign, Vec3.DivAssign: the compound assignments return the updated value instead of mutating `*this`.
- Vec3.Clear, Vec3.ClampAngles: `clear` and `clampAngles` (lines 278-290) also mutate `*this`; they are modelled as returning the new value (for `clampAngles`, the value it also returns by copy).
