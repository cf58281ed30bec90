/** Values the game takes from its rendering library and from JavaScript's
    `Math`: 3-vectors, rotation matrices and quaternions kept symbolic, the
    trigonometric functions as parameters, and JavaScript's number operations
    (`Math.round`, `Math.abs`, `Math.sign`, `%`, `Math.floor`) written out. */
module MathModel {

  datatype Option<T> = None | Some(value: T)

  /** A 3-vector with double coordinates, modelled as reals. */
  datatype Vec3 = Vec3(x: real, y: real, z: real)

  function Add(a: Vec3, b: Vec3): Vec3 { Vec3(a.x + b.x, a.y + b.y, a.z + b.z) }
  function Subtract(a: Vec3, b: Vec3): Vec3 { Vec3(a.x - b.x, a.y - b.y, a.z - b.z) }
  function Scale(v: Vec3, s: real): Vec3 { Vec3(v.x * s, v.y * s, v.z * s) }

  const Origin := Vec3(0.0, 0.0, 0.0)
  const AxisY := Vec3(0.0, 1.0, 0.0)
  const AxisZ := Vec3(0.0, 0.0, 1.0)

  /** An angle as JavaScript computes it: a number, or NaN when a division
      by zero reaches it. */
  datatype Angle = Finite(value: real) | NaN

  /** A rotation matrix, kept as the expression that built it. */
  datatype Rot =
    | RotationAxis(axis: Vec3, angle: Angle)
    | Multiply(left: Rot, right: Rot)

  /** A quaternion, kept as the expression that built it. */
  datatype Quat =
    | FromRotationMatrix(matrix: Rot)
    | Slerp(from: Quat, to: Quat, amount: real)
    | FromEulerAngles(x: real, y: real, z: real)

  /** The numeric functions the model does not interpret. */
  datatype MathEnv = MathEnv(
    pi: real,
    sin: real -> real,
    cos: real -> real,
    atan2: (real, real) -> real,
    normalize: Vec3 -> Vec3,
    transformNormal: (Vec3, Rot) -> Vec3)

  /** The only facts about the numeric functions any proof uses. */
  predicate ValidEnv(env: MathEnv) {
    env.pi > 0.0 && env.sin(0.0) == 0.0 && env.cos(0.0) == 1.0
  }

  function Abs(x: real): (r: real)
    ensures r >= 0.0 && (r == x || r == -x)
  {
    if x < 0.0 then -x else x
  }

  /** `Math.sign`. */
  function Sign(x: real): (r: real)
    ensures r * x == Abs(x)
    ensures r == 0.0 <==> x == 0.0
  {
    if x > 0.0 then 1.0 else if x < 0.0 then -1.0 else 0.0
  }

  /** `Math.round`: halves round toward positive infinity. */
  function Round(x: real): (r: int)
    ensures x - 0.5 < r as real <= x + 0.5
  {
    (x + 0.5).Floor
  }

  /** Truncation toward zero, as JavaScript's `%` uses it. */
  function Trunc(q: real): (r: int)
    ensures q >= 0.0 ==> r as real <= q < r as real + 1.0
    ensures q < 0.0 ==> r as real - 1.0 < q <= r as real
    ensures q >= 0.0 ==> r >= 0
    ensures q <= 0.0 ==> r <= 0
  {
    if q >= 0.0 then q.Floor else -((-q).Floor)
  }

  /** JavaScript's `a % n` for a non-zero divisor: the result has the sign of
      the dividend, unlike Dafny's Euclidean `%`. */
  function JsRemainder(a: real, n: real): real
    requires n != 0.0
  {
    a - n * (Trunc(a / n) as real)
  }

  lemma JsRemainderBounds(a: real, n: real)
    requires n > 0.0
    ensures a >= 0.0 ==> 0.0 <= JsRemainder(a, n) < n
    ensures a < 0.0 ==> -n < JsRemainder(a, n) <= 0.0
  {
    var q := a / n;
    var t := Trunc(q) as real;
    assert n * q == a;
    RemainderOfFraction(a, n, q, t);
  }

  /** The remainder left by a whole quotient `t` lying within one of the
      exact quotient `q`, on the side of zero. */
  lemma RemainderOfFraction(a: real, n: real, q: real, t: real)
    requires n > 0.0 && n * q == a
    requires a >= 0.0 ==> t <= q < t + 1.0
    requires a < 0.0 ==> t - 1.0 < q <= t
    ensures a >= 0.0 ==> 0.0 <= a - n * t < n
    ensures a < 0.0 ==> -n < a - n * t <= 0.0
  {
    if a >= 0.0 {
      ProductBounds(n, q - t, a - n * t);
    } else {
      ProductBounds(n, t - q, n * t - a);
    }
  }

  /** A positive multiple of a fraction in [0, 1) lies in [0, n). */
  lemma ProductBounds(n: real, f: real, p: real)
    requires n > 0.0 && 0.0 <= f < 1.0 && p == n * f
    ensures 0.0 <= p < n
  {
    assert n - p == n * (1.0 - f);
  }
}
