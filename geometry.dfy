// Exact-real model of the Unity math types the stereo renderer uses:
// Vector3, Vector4, Quaternion and Matrix4x4. Floating-point rounding is not
// modelled; every operation is the textbook formula Unity implements.

module Geometry {

  datatype Vec3 = Vec3(x: real, y: real, z: real)

  datatype Vec4 = Vec4(x: real, y: real, z: real, w: real)

  /** Unity's Quaternion, (x, y, z) the vector part and w the scalar part. */
  datatype Quat = Quat(x: real, y: real, z: real, w: real)

  /** A world pose: position and orientation. */
  datatype Pose = Pose(position: Vec3, rotation: Quat)

  /** Matrix4x4, entry mRC in row R and column C. */
  datatype Mat4 = Mat4(
    m00: real, m01: real, m02: real, m03: real,
    m10: real, m11: real, m12: real, m13: real,
    m20: real, m21: real, m22: real, m23: real,
    m30: real, m31: real, m32: real, m33: real)

  const Zero3: Vec3 := Vec3(0.0, 0.0, 0.0)
  const Up: Vec3 := Vec3(0.0, 1.0, 0.0)
  const IdentityQuat: Quat := Quat(0.0, 0.0, 0.0, 1.0)

  const Identity4: Mat4 := Mat4(
    1.0, 0.0, 0.0, 0.0,
    0.0, 1.0, 0.0, 0.0,
    0.0, 0.0, 1.0, 0.0,
    0.0, 0.0, 0.0, 1.0)

  const Zero4: Mat4 := Mat4(
    0.0, 0.0, 0.0, 0.0,
    0.0, 0.0, 0.0, 0.0,
    0.0, 0.0, 0.0, 0.0,
    0.0, 0.0, 0.0, 0.0)

  // ---------------------------------------------------------------------------
  // vectors

  function Add(a: Vec3, b: Vec3): Vec3 {
    Vec3(a.x + b.x, a.y + b.y, a.z + b.z)
  }

  function Sub(a: Vec3, b: Vec3): Vec3 {
    Vec3(a.x - b.x, a.y - b.y, a.z - b.z)
  }

  function Scale(k: real, a: Vec3): Vec3 {
    Vec3(k * a.x, k * a.y, k * a.z)
  }

  function Dot(a: Vec3, b: Vec3): real {
    a.x * b.x + a.y * b.y + a.z * b.z
  }

  predicate IsUnit(a: Vec3) {
    Dot(a, a) == 1.0
  }

  /** The inner product distributes over a scaled step: u.(o + k v) and u.(o - k v). */
  lemma DotStepScalar(ux: real, uy: real, uz: real, ox: real, oy: real, oz: real,
                      vx: real, vy: real, vz: real, k: real, sx: real, sy: real, sz: real)
    requires sx == ox + k * vx && sy == oy + k * vy && sz == oz + k * vz
    ensures ux * sx + uy * sy + uz * sz == (ux * ox + uy * oy + uz * oz) + k * (ux * vx + uy * vy + uz * vz)
  {
  }

  lemma DotAddScale(u: Vec3, o: Vec3, k: real, v: Vec3)
    ensures Dot(u, Add(o, Scale(k, v))) == Dot(u, o) + k * Dot(u, v)
  {
    var s := Add(o, Scale(k, v));
    DotStepScalar(u.x, u.y, u.z, o.x, o.y, o.z, v.x, v.y, v.z, k, s.x, s.y, s.z);
  }

  lemma DotSubScale(u: Vec3, o: Vec3, k: real, v: Vec3)
    ensures Dot(u, Sub(o, Scale(k, v))) == Dot(u, o) - k * Dot(u, v)
  {
    var s := Sub(o, Scale(k, v));
    DotStepScalar(u.x, u.y, u.z, o.x, o.y, o.z, v.x, v.y, v.z, -k, s.x, s.y, s.z);
  }

  lemma DotSub(u: Vec3, p: Vec3, o: Vec3)
    ensures Dot(u, Sub(p, o)) == Dot(u, p) - Dot(u, o)
  {
    var s := Sub(p, o);
    DotStepScalar(u.x, u.y, u.z, p.x, p.y, p.z, o.x, o.y, o.z, -1.0, s.x, s.y, s.z);
  }

  // ---------------------------------------------------------------------------
  // quaternions

  /** Hamilton product, as Unity's Quaternion * Quaternion. */
  function QMul(a: Quat, b: Quat): Quat {
    Quat(a.w * b.x + a.x * b.w + a.y * b.z - a.z * b.y,
         a.w * b.y + a.y * b.w + a.z * b.x - a.x * b.z,
         a.w * b.z + a.z * b.w + a.x * b.y - a.y * b.x,
         a.w * b.w - a.x * b.x - a.y * b.y - a.z * b.z)
  }

  function NormSq(q: Quat): real {
    q.x * q.x + q.y * q.y + q.z * q.z + q.w * q.w
  }

  function Conjugate(q: Quat): Quat {
    Quat(-q.x, -q.y, -q.z, q.w)
  }

  /** Quaternion.Inverse: the conjugate divided by the squared norm (the zero
      quaternion, which has no inverse, is returned unchanged). */
  function Inverse(q: Quat): Quat {
    var n := NormSq(q);
    if n == 0.0 then q else Quat(-q.x / n, -q.y / n, -q.z / n, q.w / n)
  }

  /** Quaternion * Vector3: the rotation-matrix form Unity evaluates, exact
      for unit quaternions. */
  function Rotate(q: Quat, p: Vec3): Vec3 {
    var x, y, z := q.x * 2.0, q.y * 2.0, q.z * 2.0;
    var xx, yy, zz := q.x * x, q.y * y, q.z * z;
    var xy, xz, yz := q.x * y, q.x * z, q.y * z;
    var wx, wy, wz := q.w * x, q.w * y, q.w * z;
    Vec3((1.0 - (yy + zz)) * p.x + (xy - wz) * p.y + (xz + wy) * p.z,
         (xy + wz) * p.x + (1.0 - (xx + zz)) * p.y + (yz - wx) * p.z,
         (xz - wy) * p.x + (yz + wx) * p.y + (1.0 - (xx + yy)) * p.z)
  }

  lemma QMulIdentity(q: Quat)
    ensures QMul(IdentityQuat, q) == q && QMul(q, IdentityQuat) == q
  {
  }

  /** A nonzero quaternion times its inverse is the identity rotation. */
  lemma QMulInverse(q: Quat)
    requires NormSq(q) != 0.0
    ensures QMul(q, Inverse(q)) == IdentityQuat
    ensures QMul(Inverse(q), q) == IdentityQuat
  {
    var n := NormSq(q);
    var x, y, z, w := q.x, q.y, q.z, q.w;
    var ix, iy, iz, iw := -x / n, -y / n, -z / n, w / n;
    assert Inverse(q) == Quat(ix, iy, iz, iw);
    assert w * iw - x * ix - y * iy - z * iz == n / n == 1.0;
    assert w * ix + x * iw + y * iz - z * iy == 0.0 / n == 0.0;
    assert w * iy + y * iw + z * ix - x * iz == 0.0 / n;
    assert w * iz + z * iw + x * iy - y * ix == 0.0 / n;
    assert iw * x + ix * w + iy * z - iz * y == 0.0 / n;
    assert iw * y + iy * w + iz * x - ix * z == 0.0 / n;
    assert iw * z + iz * w + ix * y - iy * x == 0.0 / n;
  }

  // Associativity, one component at a time: each side is unfolded by its own
  // lemma and the two polynomials are compared by a third, which keeps every
  // proof obligation small for the nonlinear arithmetic of the solver.

  lemma AssocLeftX(a: Quat, b: Quat, c: Quat)
    ensures QMul(QMul(a, b), c).x == (a.w * b.w - a.x * b.x - a.y * b.y - a.z * b.z) * c.x + (a.w * b.x + a.x * b.w + a.y * b.z - a.z * b.y) * c.w + (a.w * b.y + a.y * b.w + a.z * b.x - a.x * b.z) * c.z - (a.w * b.z + a.z * b.w + a.x * b.y - a.y * b.x) * c.y
  {
  }

  lemma AssocRightX(a: Quat, b: Quat, c: Quat)
    ensures QMul(a, QMul(b, c)).x == a.w * (b.w * c.x + b.x * c.w + b.y * c.z - b.z * c.y) + a.x * (b.w * c.w - b.x * c.x - b.y * c.y - b.z * c.z) + a.y * (b.w * c.z + b.z * c.w + b.x * c.y - b.y * c.x) - a.z * (b.w * c.y + b.y * c.w + b.z * c.x - b.x * c.z)
  {
  }

  lemma AssocPolyX(a: Quat, b: Quat, c: Quat)
    ensures (a.w * b.w - a.x * b.x - a.y * b.y - a.z * b.z) * c.x + (a.w * b.x + a.x * b.w + a.y * b.z - a.z * b.y) * c.w + (a.w * b.y + a.y * b.w + a.z * b.x - a.x * b.z) * c.z - (a.w * b.z + a.z * b.w + a.x * b.y - a.y * b.x) * c.y
         == a.w * (b.w * c.x + b.x * c.w + b.y * c.z - b.z * c.y) + a.x * (b.w * c.w - b.x * c.x - b.y * c.y - b.z * c.z) + a.y * (b.w * c.z + b.z * c.w + b.x * c.y - b.y * c.x) - a.z * (b.w * c.y + b.y * c.w + b.z * c.x - b.x * c.z)
  {
  }

  lemma AssocLeftY(a: Quat, b: Quat, c: Quat)
    ensures QMul(QMul(a, b), c).y == (a.w * b.w - a.x * b.x - a.y * b.y - a.z * b.z) * c.y + (a.w * b.y + a.y * b.w + a.z * b.x - a.x * b.z) * c.w + (a.w * b.z + a.z * b.w + a.x * b.y - a.y * b.x) * c.x - (a.w * b.x + a.x * b.w + a.y * b.z - a.z * b.y) * c.z
  {
  }

  lemma AssocRightY(a: Quat, b: Quat, c: Quat)
    ensures QMul(a, QMul(b, c)).y == a.w * (b.w * c.y + b.y * c.w + b.z * c.x - b.x * c.z) + a.y * (b.w * c.w - b.x * c.x - b.y * c.y - b.z * c.z) + a.z * (b.w * c.x + b.x * c.w + b.y * c.z - b.z * c.y) - a.x * (b.w * c.z + b.z * c.w + b.x * c.y - b.y * c.x)
  {
  }

  lemma AssocPolyY(a: Quat, b: Quat, c: Quat)
    ensures (a.w * b.w - a.x * b.x - a.y * b.y - a.z * b.z) * c.y + (a.w * b.y + a.y * b.w + a.z * b.x - a.x * b.z) * c.w + (a.w * b.z + a.z * b.w + a.x * b.y - a.y * b.x) * c.x - (a.w * b.x + a.x * b.w + a.y * b.z - a.z * b.y) * c.z
         == a.w * (b.w * c.y + b.y * c.w + b.z * c.x - b.x * c.z) + a.y * (b.w * c.w - b.x * c.x - b.y * c.y - b.z * c.z) + a.z * (b.w * c.x + b.x * c.w + b.y * c.z - b.z * c.y) - a.x * (b.w * c.z + b.z * c.w + b.x * c.y - b.y * c.x)
  {
  }

  lemma AssocLeftZ(a: Quat, b: Quat, c: Quat)
    ensures QMul(QMul(a, b), c).z == (a.w * b.w - a.x * b.x - a.y * b.y - a.z * b.z) * c.z + (a.w * b.z + a.z * b.w + a.x * b.y - a.y * b.x) * c.w + (a.w * b.x + a.x * b.w + a.y * b.z - a.z * b.y) * c.y - (a.w * b.y + a.y * b.w + a.z * b.x - a.x * b.z) * c.x
  {
  }

  lemma AssocRightZ(a: Quat, b: Quat, c: Quat)
    ensures QMul(a, QMul(b, c)).z == a.w * (b.w * c.z + b.z * c.w + b.x * c.y - b.y * c.x) + a.z * (b.w * c.w - b.x * c.x - b.y * c.y - b.z * c.z) + a.x * (b.w * c.y + b.y * c.w + b.z * c.x - b.x * c.z) - a.y * (b.w * c.x + b.x * c.w + b.y * c.z - b.z * c.y)
  {
  }

  lemma AssocPolyZ(a: Quat, b: Quat, c: Quat)
    ensures (a.w * b.w - a.x * b.x - a.y * b.y - a.z * b.z) * c.z + (a.w * b.z + a.z * b.w + a.x * b.y - a.y * b.x) * c.w + (a.w * b.x + a.x * b.w + a.y * b.z - a.z * b.y) * c.y - (a.w * b.y + a.y * b.w + a.z * b.x - a.x * b.z) * c.x
         == a.w * (b.w * c.z + b.z * c.w + b.x * c.y - b.y * c.x) + a.z * (b.w * c.w - b.x * c.x - b.y * c.y - b.z * c.z) + a.x * (b.w * c.y + b.y * c.w + b.z * c.x - b.x * c.z) - a.y * (b.w * c.x + b.x * c.w + b.y * c.z - b.z * c.y)
  {
  }

  lemma AssocLeftW(a: Quat, b: Quat, c: Quat)
    ensures QMul(QMul(a, b), c).w == (a.w * b.w - a.x * b.x - a.y * b.y - a.z * b.z) * c.w - (a.w * b.x + a.x * b.w + a.y * b.z - a.z * b.y) * c.x - (a.w * b.y + a.y * b.w + a.z * b.x - a.x * b.z) * c.y - (a.w * b.z + a.z * b.w + a.x * b.y - a.y * b.x) * c.z
  {
  }

  lemma AssocRightW(a: Quat, b: Quat, c: Quat)
    ensures QMul(a, QMul(b, c)).w == a.w * (b.w * c.w - b.x * c.x - b.y * c.y - b.z * c.z) - a.x * (b.w * c.x + b.x * c.w + b.y * c.z - b.z * c.y) - a.y * (b.w * c.y + b.y * c.w + b.z * c.x - b.x * c.z) - a.z * (b.w * c.z + b.z * c.w + b.x * c.y - b.y * c.x)
  {
  }

  lemma AssocPolyW(a: Quat, b: Quat, c: Quat)
    ensures (a.w * b.w - a.x * b.x - a.y * b.y - a.z * b.z) * c.w - (a.w * b.x + a.x * b.w + a.y * b.z - a.z * b.y) * c.x - (a.w * b.y + a.y * b.w + a.z * b.x - a.x * b.z) * c.y - (a.w * b.z + a.z * b.w + a.x * b.y - a.y * b.x) * c.z
         == a.w * (b.w * c.w - b.x * c.x - b.y * c.y - b.z * c.z) - a.x * (b.w * c.x + b.x * c.w + b.y * c.z - b.z * c.y) - a.y * (b.w * c.y + b.y * c.w + b.z * c.x - b.x * c.z) - a.z * (b.w * c.z + b.z * c.w + b.x * c.y - b.y * c.x)
  {
  }

  /** Quaternion multiplication is associative. */
  lemma QMulAssociative(a: Quat, b: Quat, c: Quat)
    ensures QMul(QMul(a, b), c) == QMul(a, QMul(b, c))
  {
    AssocLeftX(a, b, c);
    AssocRightX(a, b, c);
    AssocPolyX(a, b, c);
    AssocLeftY(a, b, c);
    AssocRightY(a, b, c);
    AssocPolyY(a, b, c);
    AssocLeftZ(a, b, c);
    AssocRightZ(a, b, c);
    AssocPolyZ(a, b, c);
    AssocLeftW(a, b, c);
    AssocRightW(a, b, c);
    AssocPolyW(a, b, c);
  }

  lemma RotateIdentity(p: Vec3)
    ensures Rotate(IdentityQuat, p) == p
  {
  }

  // ---------------------------------------------------------------------------
  // rotating a vector by conjugation

  /** A vector as a quaternion with zero scalar part. */
  function Pure(v: Vec3): Quat {
    Quat(v.x, v.y, v.z, 0.0)
  }

  /** q (v, 0) q*, the textbook rotation of v by q. */
  function Sandwich(q: Quat, v: Vec3): Quat {
    QMul(QMul(q, Pure(v)), Conjugate(q))
  }

  /** The components of the sandwich as polynomials in q and v. */
  lemma SandwichX(q: Quat, v: Vec3)
    ensures Sandwich(q, v).x == (q.w * q.w + q.x * q.x - q.y * q.y - q.z * q.z) * v.x
                               + 2.0 * (q.x * q.y - q.w * q.z) * v.y + 2.0 * (q.x * q.z + q.w * q.y) * v.z
  {
  }

  lemma SandwichY(q: Quat, v: Vec3)
    ensures Sandwich(q, v).y == 2.0 * (q.x * q.y + q.w * q.z) * v.x
                               + (q.w * q.w - q.x * q.x + q.y * q.y - q.z * q.z) * v.y + 2.0 * (q.y * q.z - q.w * q.x) * v.z
  {
  }

  lemma SandwichZ(q: Quat, v: Vec3)
    ensures Sandwich(q, v).z == 2.0 * (q.x * q.z - q.w * q.y) * v.x + 2.0 * (q.y * q.z + q.w * q.x) * v.y
                               + (q.w * q.w - q.x * q.x - q.y * q.y + q.z * q.z) * v.z
  {
  }

  lemma SandwichW(q: Quat, v: Vec3)
    ensures Sandwich(q, v).w == 0.0
  {
  }

  /** A row of a linear map, with its coefficients given in another form. */
  lemma SameRow(a: real, b: real, c: real, a': real, b': real, c': real, x: real, y: real, z: real)
    requires a == a' && b == b' && c == c'
    ensures a * x + b * y + c * z == a' * x + b' * y + c' * z
  {
  }

  /** A diagonal entry of Unity's formula against the sandwich's, for a unit quaternion. */
  lemma UnitDiagonal(w: real, x: real, y: real, z: real)
    requires w * w + x * x + y * y + z * z == 1.0
    ensures 1.0 - (y * (y * 2.0) + z * (z * 2.0)) == w * w + x * x - y * y - z * z
  {
  }

  /** An off-diagonal entry: a * (b * 2) + c * (d * 2) == 2 (a b + c d). */
  lemma Doubled(a: real, b: real, c: real, d: real)
    ensures a * (b * 2.0) + c * (d * 2.0) == 2.0 * (a * b + c * d)
    ensures a * (b * 2.0) - c * (d * 2.0) == 2.0 * (a * b - c * d)
  {
  }

  /** The rows of Unity's formula, spelled out. */
  lemma RotateRowX(q: Quat, v: Vec3)
    ensures Rotate(q, v).x == (1.0 - (q.y * (q.y * 2.0) + q.z * (q.z * 2.0))) * v.x + (q.x * (q.y * 2.0) - q.w * (q.z * 2.0)) * v.y + (q.x * (q.z * 2.0) + q.w * (q.y * 2.0)) * v.z
  {
  }

  lemma RotateRowY(q: Quat, v: Vec3)
    ensures Rotate(q, v).y == (q.x * (q.y * 2.0) + q.w * (q.z * 2.0)) * v.x + (1.0 - (q.x * (q.x * 2.0) + q.z * (q.z * 2.0))) * v.y + (q.y * (q.z * 2.0) - q.w * (q.x * 2.0)) * v.z
  {
  }

  lemma RotateRowZ(q: Quat, v: Vec3)
    ensures Rotate(q, v).z == (q.x * (q.z * 2.0) - q.w * (q.y * 2.0)) * v.x + (q.y * (q.z * 2.0) + q.w * (q.x * 2.0)) * v.y + (1.0 - (q.x * (q.x * 2.0) + q.y * (q.y * 2.0))) * v.z
  {
  }

  lemma UnitRowX(q: Quat, v: Vec3)
    requires NormSq(q) == 1.0
    ensures (1.0 - (q.y * (q.y * 2.0) + q.z * (q.z * 2.0))) * v.x + (q.x * (q.y * 2.0) - q.w * (q.z * 2.0)) * v.y + (q.x * (q.z * 2.0) + q.w * (q.y * 2.0)) * v.z
         == (q.w * q.w + q.x * q.x - q.y * q.y - q.z * q.z) * v.x
            + 2.0 * (q.x * q.y - q.w * q.z) * v.y + 2.0 * (q.x * q.z + q.w * q.y) * v.z
  {
    UnitDiagonal(q.w, q.x, q.y, q.z);
    Doubled(q.x, q.y, q.w, q.z);
    Doubled(q.x, q.z, q.w, q.y);
    SameRow(1.0 - (q.y * (q.y * 2.0) + q.z * (q.z * 2.0)), q.x * (q.y * 2.0) - q.w * (q.z * 2.0), q.x * (q.z * 2.0) + q.w * (q.y * 2.0),
            q.w * q.w + q.x * q.x - q.y * q.y - q.z * q.z, 2.0 * (q.x * q.y - q.w * q.z), 2.0 * (q.x * q.z + q.w * q.y),
            v.x, v.y, v.z);
  }

  /** r == a, a == b and b == t give r == t, with a and b kept as opaque reals. */
  lemma EqualByWay(r: real, a: real, b: real, t: real)
    requires r == a && a == b && b == t
    ensures r == t
  {
  }

  lemma RotateIsSandwichX(q: Quat, v: Vec3, r: real, t: real)
    requires NormSq(q) == 1.0
    requires r == Rotate(q, v).x && t == Sandwich(q, v).x
    ensures r == t
  {
    RotateRowX(q, v);
    UnitRowX(q, v);
    SandwichX(q, v);
    EqualByWay(r, (1.0 - (q.y * (q.y * 2.0) + q.z * (q.z * 2.0))) * v.x + (q.x * (q.y * 2.0) - q.w * (q.z * 2.0)) * v.y + (q.x * (q.z * 2.0) + q.w * (q.y * 2.0)) * v.z,
               (q.w * q.w + q.x * q.x - q.y * q.y - q.z * q.z) * v.x + 2.0 * (q.x * q.y - q.w * q.z) * v.y + 2.0 * (q.x * q.z + q.w * q.y) * v.z, t);
  }

  lemma UnitRowY(q: Quat, v: Vec3)
    requires NormSq(q) == 1.0
    ensures (q.x * (q.y * 2.0) + q.w * (q.z * 2.0)) * v.x + (1.0 - (q.x * (q.x * 2.0) + q.z * (q.z * 2.0))) * v.y + (q.y * (q.z * 2.0) - q.w * (q.x * 2.0)) * v.z
         == 2.0 * (q.x * q.y + q.w * q.z) * v.x
            + (q.w * q.w - q.x * q.x + q.y * q.y - q.z * q.z) * v.y + 2.0 * (q.y * q.z - q.w * q.x) * v.z
  {
    UnitDiagonal(q.w, q.y, q.x, q.z);
    Doubled(q.x, q.y, q.w, q.z);
    Doubled(q.y, q.z, q.w, q.x);
    SameRow(q.x * (q.y * 2.0) + q.w * (q.z * 2.0), 1.0 - (q.x * (q.x * 2.0) + q.z * (q.z * 2.0)), q.y * (q.z * 2.0) - q.w * (q.x * 2.0),
            2.0 * (q.x * q.y + q.w * q.z), q.w * q.w - q.x * q.x + q.y * q.y - q.z * q.z, 2.0 * (q.y * q.z - q.w * q.x),
            v.x, v.y, v.z);
  }

  lemma RotateIsSandwichY(q: Quat, v: Vec3, r: real, t: real)
    requires NormSq(q) == 1.0
    requires r == Rotate(q, v).y && t == Sandwich(q, v).y
    ensures r == t
  {
    RotateRowY(q, v);
    UnitRowY(q, v);
    SandwichY(q, v);
    EqualByWay(r, (q.x * (q.y * 2.0) + q.w * (q.z * 2.0)) * v.x + (1.0 - (q.x * (q.x * 2.0) + q.z * (q.z * 2.0))) * v.y + (q.y * (q.z * 2.0) - q.w * (q.x * 2.0)) * v.z,
               2.0 * (q.x * q.y + q.w * q.z) * v.x + (q.w * q.w - q.x * q.x + q.y * q.y - q.z * q.z) * v.y + 2.0 * (q.y * q.z - q.w * q.x) * v.z, t);
  }

  lemma UnitRowZ(q: Quat, v: Vec3)
    requires NormSq(q) == 1.0
    ensures (q.x * (q.z * 2.0) - q.w * (q.y * 2.0)) * v.x + (q.y * (q.z * 2.0) + q.w * (q.x * 2.0)) * v.y + (1.0 - (q.x * (q.x * 2.0) + q.y * (q.y * 2.0))) * v.z
         == 2.0 * (q.x * q.z - q.w * q.y) * v.x + 2.0 * (q.y * q.z + q.w * q.x) * v.y
            + (q.w * q.w - q.x * q.x - q.y * q.y + q.z * q.z) * v.z
  {
    UnitDiagonal(q.w, q.z, q.x, q.y);
    Doubled(q.x, q.z, q.w, q.y);
    Doubled(q.y, q.z, q.w, q.x);
    SameRow(q.x * (q.z * 2.0) - q.w * (q.y * 2.0), q.y * (q.z * 2.0) + q.w * (q.x * 2.0), 1.0 - (q.x * (q.x * 2.0) + q.y * (q.y * 2.0)),
            2.0 * (q.x * q.z - q.w * q.y), 2.0 * (q.y * q.z + q.w * q.x), q.w * q.w - q.x * q.x - q.y * q.y + q.z * q.z,
            v.x, v.y, v.z);
  }

  lemma RotateIsSandwichZ(q: Quat, v: Vec3, r: real, t: real)
    requires NormSq(q) == 1.0
    requires r == Rotate(q, v).z && t == Sandwich(q, v).z
    ensures r == t
  {
    RotateRowZ(q, v);
    UnitRowZ(q, v);
    SandwichZ(q, v);
    EqualByWay(r, (q.x * (q.z * 2.0) - q.w * (q.y * 2.0)) * v.x + (q.y * (q.z * 2.0) + q.w * (q.x * 2.0)) * v.y + (1.0 - (q.x * (q.x * 2.0) + q.y * (q.y * 2.0))) * v.z,
               2.0 * (q.x * q.z - q.w * q.y) * v.x + 2.0 * (q.y * q.z + q.w * q.x) * v.y + (q.w * q.w - q.x * q.x - q.y * q.y + q.z * q.z) * v.z, t);
  }

  /** For a unit quaternion Unity's rotation formula is the sandwich. */
  lemma RotateIsSandwich(q: Quat, v: Vec3)
    requires NormSq(q) == 1.0
    ensures Pure(Rotate(q, v)) == Sandwich(q, v)
  {
    RotateIsSandwichX(q, v, Rotate(q, v).x, Sandwich(q, v).x);
    RotateIsSandwichY(q, v, Rotate(q, v).y, Sandwich(q, v).y);
    RotateIsSandwichZ(q, v, Rotate(q, v).z, Sandwich(q, v).z);
    SandwichW(q, v);
  }

  /** The conjugate of a product is the product of the conjugates, reversed. */
  lemma ConjugateOfProduct(p: Quat, q: Quat)
    ensures Conjugate(QMul(p, q)) == QMul(Conjugate(q), Conjugate(p))
  {
  }

  /** The squared norm is multiplicative (Euler's four-square identity). */
  lemma NormSqOfProduct(p: Quat, q: Quat)
    ensures NormSq(QMul(p, q)) == NormSq(p) * NormSq(q)
  {
  }

  /** The inverse of a unit quaternion is its conjugate, again a unit. */
  lemma InverseOfUnit(q: Quat)
    requires NormSq(q) == 1.0
    ensures Inverse(q) == Conjugate(q) && NormSq(Inverse(q)) == 1.0
  {
  }

  /** Rotating by q, then by p, is rotating by p * q. */
  lemma RotateCompose(p: Quat, q: Quat, v: Vec3)
    requires NormSq(p) == 1.0 && NormSq(q) == 1.0
    ensures Rotate(p, Rotate(q, v)) == Rotate(QMul(p, q), v)
  {
    var pv, cp, cq := Pure(v), Conjugate(p), Conjugate(q);
    var pq := QMul(p, q);
    NormSqOfProduct(p, q);
    RotateIsSandwich(q, v);
    RotateIsSandwich(p, Rotate(q, v));
    RotateIsSandwich(pq, v);
    ConjugateOfProduct(p, q);
    calc {
      Pure(Rotate(p, Rotate(q, v)));
      QMul(QMul(p, QMul(QMul(q, pv), cq)), cp);
      { QMulAssociative(p, QMul(q, pv), cq); }
      QMul(QMul(QMul(p, QMul(q, pv)), cq), cp);
      { QMulAssociative(QMul(p, QMul(q, pv)), cq, cp); }
      QMul(QMul(p, QMul(q, pv)), QMul(cq, cp));
      { QMulAssociative(p, q, pv); }
      QMul(QMul(pq, pv), Conjugate(pq));
      Pure(Rotate(pq, v));
    }
  }

  // ---------------------------------------------------------------------------
  // matrices

  /** m[r, c] for 0 <= r, c < 4. */
  function At(m: Mat4, r: nat, c: nat): real
    requires r < 4 && c < 4
  {
    if r == 0 then (if c == 0 then m.m00 else if c == 1 then m.m01 else if c == 2 then m.m02 else m.m03)
    else if r == 1 then (if c == 0 then m.m10 else if c == 1 then m.m11 else if c == 2 then m.m12 else m.m13)
    else if r == 2 then (if c == 0 then m.m20 else if c == 1 then m.m21 else if c == 2 then m.m22 else m.m23)
    else (if c == 0 then m.m30 else if c == 1 then m.m31 else if c == 2 then m.m32 else m.m33)
  }

  /** The assignment m[r, c] = v (Matrix4x4's two-index setter). */
  function Set(m: Mat4, r: nat, c: nat, v: real): (m': Mat4)
    requires r < 4 && c < 4
    ensures At(m', r, c) == v
    ensures forall i: nat, j: nat :: i < 4 && j < 4 && (i != r || j != c) ==> At(m', i, j) == At(m, i, j)
  {
    if r == 0 then (if c == 0 then m.(m00 := v) else if c == 1 then m.(m01 := v) else if c == 2 then m.(m02 := v) else m.(m03 := v))
    else if r == 1 then (if c == 0 then m.(m10 := v) else if c == 1 then m.(m11 := v) else if c == 2 then m.(m12 := v) else m.(m13 := v))
    else if r == 2 then (if c == 0 then m.(m20 := v) else if c == 1 then m.(m21 := v) else if c == 2 then m.(m22 := v) else m.(m23 := v))
    else (if c == 0 then m.(m30 := v) else if c == 1 then m.(m31 := v) else if c == 2 then m.(m32 := v) else m.(m33 := v))
  }

  /** Two matrices are equal exactly when all their entries are. */
  lemma MatrixExtensionality(a: Mat4, b: Mat4)
    requires forall i: nat, j: nat :: i < 4 && j < 4 ==> At(a, i, j) == At(b, i, j)
    ensures a == b
  {
    assert At(a, 0, 0) == At(b, 0, 0) && At(a, 0, 1) == At(b, 0, 1) && At(a, 0, 2) == At(b, 0, 2) && At(a, 0, 3) == At(b, 0, 3);
    assert At(a, 1, 0) == At(b, 1, 0) && At(a, 1, 1) == At(b, 1, 1) && At(a, 1, 2) == At(b, 1, 2) && At(a, 1, 3) == At(b, 1, 3);
    assert At(a, 2, 0) == At(b, 2, 0) && At(a, 2, 1) == At(b, 2, 1) && At(a, 2, 2) == At(b, 2, 2) && At(a, 2, 3) == At(b, 2, 3);
    assert At(a, 3, 0) == At(b, 3, 0) && At(a, 3, 1) == At(b, 3, 1) && At(a, 3, 2) == At(b, 3, 2) && At(a, 3, 3) == At(b, 3, 3);
  }

  /** Matrix4x4 * Matrix4x4. */
  function MatMul(a: Mat4, b: Mat4): Mat4 {
    Mat4(
      a.m00 * b.m00 + a.m01 * b.m10 + a.m02 * b.m20 + a.m03 * b.m30,
      a.m00 * b.m01 + a.m01 * b.m11 + a.m02 * b.m21 + a.m03 * b.m31,
      a.m00 * b.m02 + a.m01 * b.m12 + a.m02 * b.m22 + a.m03 * b.m32,
      a.m00 * b.m03 + a.m01 * b.m13 + a.m02 * b.m23 + a.m03 * b.m33,
      a.m10 * b.m00 + a.m11 * b.m10 + a.m12 * b.m20 + a.m13 * b.m30,
      a.m10 * b.m01 + a.m11 * b.m11 + a.m12 * b.m21 + a.m13 * b.m31,
      a.m10 * b.m02 + a.m11 * b.m12 + a.m12 * b.m22 + a.m13 * b.m32,
      a.m10 * b.m03 + a.m11 * b.m13 + a.m12 * b.m23 + a.m13 * b.m33,
      a.m20 * b.m00 + a.m21 * b.m10 + a.m22 * b.m20 + a.m23 * b.m30,
      a.m20 * b.m01 + a.m21 * b.m11 + a.m22 * b.m21 + a.m23 * b.m31,
      a.m20 * b.m02 + a.m21 * b.m12 + a.m22 * b.m22 + a.m23 * b.m32,
      a.m20 * b.m03 + a.m21 * b.m13 + a.m22 * b.m23 + a.m23 * b.m33,
      a.m30 * b.m00 + a.m31 * b.m10 + a.m32 * b.m20 + a.m33 * b.m30,
      a.m30 * b.m01 + a.m31 * b.m11 + a.m32 * b.m21 + a.m33 * b.m31,
      a.m30 * b.m02 + a.m31 * b.m12 + a.m32 * b.m22 + a.m33 * b.m32,
      a.m30 * b.m03 + a.m31 * b.m13 + a.m32 * b.m23 + a.m33 * b.m33)
  }

  /** The homogeneous coordinate MultiplyPoint divides by. */
  function PointW(m: Mat4, p: Vec3): real {
    m.m30 * p.x + m.m31 * p.y + m.m32 * p.z + m.m33
  }

  /** Matrix4x4.MultiplyPoint: full projective transform of a point. */
  function MultiplyPoint(m: Mat4, p: Vec3): Vec3
    requires PointW(m, p) != 0.0
  {
    var w := PointW(m, p);
    Vec3((m.m00 * p.x + m.m01 * p.y + m.m02 * p.z + m.m03) / w,
         (m.m10 * p.x + m.m11 * p.y + m.m12 * p.z + m.m13) / w,
         (m.m20 * p.x + m.m21 * p.y + m.m22 * p.z + m.m23) / w)
  }

  // One entry of a product each: row i of a times column j of b.

  lemma MatMulEntry00(a: Mat4, b: Mat4)
    ensures MatMul(a, b).m00 == a.m00 * b.m00 + a.m01 * b.m10 + a.m02 * b.m20 + a.m03 * b.m30
  {
  }

  lemma MatMulEntry01(a: Mat4, b: Mat4)
    ensures MatMul(a, b).m01 == a.m00 * b.m01 + a.m01 * b.m11 + a.m02 * b.m21 + a.m03 * b.m31
  {
  }

  lemma MatMulEntry02(a: Mat4, b: Mat4)
    ensures MatMul(a, b).m02 == a.m00 * b.m02 + a.m01 * b.m12 + a.m02 * b.m22 + a.m03 * b.m32
  {
  }

  lemma MatMulEntry03(a: Mat4, b: Mat4)
    ensures MatMul(a, b).m03 == a.m00 * b.m03 + a.m01 * b.m13 + a.m02 * b.m23 + a.m03 * b.m33
  {
  }

  lemma MatMulEntry10(a: Mat4, b: Mat4)
    ensures MatMul(a, b).m10 == a.m10 * b.m00 + a.m11 * b.m10 + a.m12 * b.m20 + a.m13 * b.m30
  {
  }

  lemma MatMulEntry11(a: Mat4, b: Mat4)
    ensures MatMul(a, b).m11 == a.m10 * b.m01 + a.m11 * b.m11 + a.m12 * b.m21 + a.m13 * b.m31
  {
  }

  lemma MatMulEntry12(a: Mat4, b: Mat4)
    ensures MatMul(a, b).m12 == a.m10 * b.m02 + a.m11 * b.m12 + a.m12 * b.m22 + a.m13 * b.m32
  {
  }

  lemma MatMulEntry13(a: Mat4, b: Mat4)
    ensures MatMul(a, b).m13 == a.m10 * b.m03 + a.m11 * b.m13 + a.m12 * b.m23 + a.m13 * b.m33
  {
  }

  lemma MatMulEntry20(a: Mat4, b: Mat4)
    ensures MatMul(a, b).m20 == a.m20 * b.m00 + a.m21 * b.m10 + a.m22 * b.m20 + a.m23 * b.m30
  {
  }

  lemma MatMulEntry21(a: Mat4, b: Mat4)
    ensures MatMul(a, b).m21 == a.m20 * b.m01 + a.m21 * b.m11 + a.m22 * b.m21 + a.m23 * b.m31
  {
  }

  lemma MatMulEntry22(a: Mat4, b: Mat4)
    ensures MatMul(a, b).m22 == a.m20 * b.m02 + a.m21 * b.m12 + a.m22 * b.m22 + a.m23 * b.m32
  {
  }

  lemma MatMulEntry23(a: Mat4, b: Mat4)
    ensures MatMul(a, b).m23 == a.m20 * b.m03 + a.m21 * b.m13 + a.m22 * b.m23 + a.m23 * b.m33
  {
  }

  lemma MatMulEntry30(a: Mat4, b: Mat4)
    ensures MatMul(a, b).m30 == a.m30 * b.m00 + a.m31 * b.m10 + a.m32 * b.m20 + a.m33 * b.m30
  {
  }

  lemma MatMulEntry31(a: Mat4, b: Mat4)
    ensures MatMul(a, b).m31 == a.m30 * b.m01 + a.m31 * b.m11 + a.m32 * b.m21 + a.m33 * b.m31
  {
  }

  lemma MatMulEntry32(a: Mat4, b: Mat4)
    ensures MatMul(a, b).m32 == a.m30 * b.m02 + a.m31 * b.m12 + a.m32 * b.m22 + a.m33 * b.m32
  {
  }

  lemma MatMulEntry33(a: Mat4, b: Mat4)
    ensures MatMul(a, b).m33 == a.m30 * b.m03 + a.m31 * b.m13 + a.m32 * b.m23 + a.m33 * b.m33
  {
  }

  /** The bottom row (0, 0, 0, 1) applied to the point (x, y, z, 1). */
  lemma UnitRow(m0: real, m1: real, m2: real, m3: real, x: real, y: real, z: real)
    requires m0 == 0.0 && m1 == 0.0 && m2 == 0.0 && m3 == 1.0
    ensures m0 * x + m1 * y + m2 * z + m3 == 1.0
  {
  }

  /** An affine matrix (bottom row 0, 0, 0, 1) moves a point without the
      perspective division. */
  lemma MultiplyAffine(m: Mat4, p: Vec3)
    requires m.m30 == 0.0 && m.m31 == 0.0 && m.m32 == 0.0 && m.m33 == 1.0
    ensures PointW(m, p) == 1.0
    ensures MultiplyPoint(m, p) == Vec3(m.m00 * p.x + m.m01 * p.y + m.m02 * p.z + m.m03,
                                        m.m10 * p.x + m.m11 * p.y + m.m12 * p.z + m.m13,
                                        m.m20 * p.x + m.m21 * p.y + m.m22 * p.z + m.m23)
  {
    UnitRow(m.m30, m.m31, m.m32, m.m33, p.x, p.y, p.z);
  }

  /** MultiplyAffine with the three row products already known as q. */
  lemma MultiplyAffineIs(m: Mat4, p: Vec3, q: Vec3)
    requires m.m30 == 0.0 && m.m31 == 0.0 && m.m32 == 0.0 && m.m33 == 1.0
    requires m.m00 * p.x + m.m01 * p.y + m.m02 * p.z + m.m03 == q.x
    requires m.m10 * p.x + m.m11 * p.y + m.m12 * p.z + m.m13 == q.y
    requires m.m20 * p.x + m.m21 * p.y + m.m22 * p.z + m.m23 == q.z
    ensures PointW(m, p) == 1.0 && MultiplyPoint(m, p) == q
  {
    MultiplyAffine(m, p);
  }

  /** A matrix with bottom row (0, 0, 0, 1) whose square has the identity's
      upper three rows squares to the identity. */
  lemma SquareIsIdentity(m: Mat4)
    requires m.m30 == 0.0 && m.m31 == 0.0 && m.m32 == 0.0 && m.m33 == 1.0
    requires MatMul(m, m).m00 == 1.0 && MatMul(m, m).m01 == 0.0 && MatMul(m, m).m02 == 0.0 && MatMul(m, m).m03 == 0.0
    requires MatMul(m, m).m10 == 0.0 && MatMul(m, m).m11 == 1.0 && MatMul(m, m).m12 == 0.0 && MatMul(m, m).m13 == 0.0
    requires MatMul(m, m).m20 == 0.0 && MatMul(m, m).m21 == 0.0 && MatMul(m, m).m22 == 1.0 && MatMul(m, m).m23 == 0.0
    ensures MatMul(m, m) == Identity4
  {
  }
}
