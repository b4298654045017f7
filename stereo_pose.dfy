// The algebra of MoveStereoCameraBasedOnHmdPose and CalculateReflectionMatrix:
// where the stereo camera head goes, for a portal and for a mirror.

module StereoPose {
  import opened Geometry

  /** Offset of the mirror plane from the canvas origin along its up direction (0.07f). */
  const MirrorOffset: real := 0.07

  // ---------------------------------------------------------------------------
  // portal

  /** The rotation from the portal entry to the portal exit. */
  function CanvasToAnchor(canvasOriginRot: Quat, anchorRot: Quat): Quat {
    QMul(anchorRot, Inverse(canvasOriginRot))
  }

  /** Portal mode: the viewer's offset from the canvas origin, turned by the
      entry-to-exit rotation and re-anchored at the anchor; the viewer's
      orientation turned by the same rotation. */
  function PortalHeadPose(canvasOrigin: Pose, anchor: Pose, mainCam: Pose): Pose {
    var rot := CanvasToAnchor(canvasOrigin.rotation, anchor.rotation);
    Pose(Add(anchor.position, Rotate(rot, Sub(mainCam.position, canvasOrigin.position))),
         QMul(rot, mainCam.rotation))
  }

  /** When the anchor coincides with the canvas origin the portal is
      transparent: the stereo head takes the main camera's pose. */
  lemma PortalIdentityPassthrough(canvasOrigin: Pose, mainCam: Pose)
    requires NormSq(canvasOrigin.rotation) != 0.0
    ensures PortalHeadPose(canvasOrigin, canvasOrigin, mainCam) == mainCam
  {
    QMulInverse(canvasOrigin.rotation);
    RotateIdentity(Sub(mainCam.position, canvasOrigin.position));
    QMulIdentity(mainCam.rotation);
  }

  /** A viewer standing exactly at the canvas origin is sent exactly to the
      anchor. */
  lemma PortalMapsOriginToAnchor(canvasOrigin: Pose, anchor: Pose)
    requires NormSq(canvasOrigin.rotation) != 0.0
    ensures PortalHeadPose(canvasOrigin, anchor, canvasOrigin) == anchor
  {
    var c, a := canvasOrigin.rotation, anchor.rotation;
    QMulAssociative(a, Inverse(c), c);
    QMulInverse(c);
    QMulIdentity(a);
  }

  /** The head's orientation seen from the anchor equals the viewer's
      orientation seen from the canvas origin. */
  lemma PortalPreservesRelativeRotation(canvasOrigin: Pose, anchor: Pose, mainCam: Pose)
    requires NormSq(canvasOrigin.rotation) != 0.0 && NormSq(anchor.rotation) != 0.0
    ensures QMul(Inverse(anchor.rotation), PortalHeadPose(canvasOrigin, anchor, mainCam).rotation)
         == QMul(Inverse(canvasOrigin.rotation), mainCam.rotation)
  {
    var a, c, v := anchor.rotation, canvasOrigin.rotation, mainCam.rotation;
    var ai, ci := Inverse(a), Inverse(c);
    calc {
      QMul(ai, QMul(QMul(a, ci), v));
      { QMulAssociative(a, ci, v); }
      QMul(ai, QMul(a, QMul(ci, v)));
      { QMulAssociative(ai, a, QMul(ci, v)); }
      QMul(QMul(ai, a), QMul(ci, v));
      { QMulInverse(a); QMulIdentity(QMul(ci, v)); }
      QMul(ci, v);
    }
  }

  /** The head's offset from the anchor, seen from the anchor, equals the
      viewer's offset from the canvas origin, seen from the canvas origin.
      With PortalPreservesRelativeRotation: the head is to the anchor what
      the viewer is to the canvas origin. */
  lemma PortalPreservesRelativeOffset(canvasOrigin: Pose, anchor: Pose, mainCam: Pose)
    requires NormSq(canvasOrigin.rotation) == 1.0 && NormSq(anchor.rotation) == 1.0
    ensures Rotate(Inverse(anchor.rotation), Sub(PortalHeadPose(canvasOrigin, anchor, mainCam).position, anchor.position))
         == Rotate(Inverse(canvasOrigin.rotation), Sub(mainCam.position, canvasOrigin.position))
  {
    var a, c := anchor.rotation, canvasOrigin.rotation;
    var ai, ci := Inverse(a), Inverse(c);
    var rot := CanvasToAnchor(c, a);
    var offset := Sub(mainCam.position, canvasOrigin.position);
    InverseOfUnit(a);
    InverseOfUnit(c);
    NormSqOfProduct(a, ci);
    assert Sub(Add(anchor.position, Rotate(rot, offset)), anchor.position) == Rotate(rot, offset);
    RotateCompose(ai, rot, offset);
    QMulAssociative(ai, a, ci);
    QMulInverse(a);
    QMulIdentity(ci);
  }

  /** The worked example of the runtime-creation scene: canvas origin at
      (0, 0, 6.57) unrotated, anchor at (-0.22, 0, -2.39) turned 180 degrees
      about y, viewer at (0, 0, 6) facing +z. The head lands at
      (-0.22, 0, -1.82), turned to face -z. */
  lemma PortalDoorExample()
    ensures var head := PortalHeadPose(Pose(Vec3(0.0, 0.0, 6.57), IdentityQuat),
                                       Pose(Vec3(-0.22, 0.0, -2.39), Quat(0.0, 1.0, 0.0, 0.0)),
                                       Pose(Vec3(0.0, 0.0, 6.0), IdentityQuat));
            head.position == Vec3(-0.22, 0.0, -1.82) && head.rotation == Quat(0.0, 1.0, 0.0, 0.0)
            && Rotate(head.rotation, Vec3(0.0, 0.0, 1.0)) == Vec3(0.0, 0.0, -1.0)
  {
    var half := Quat(0.0, 1.0, 0.0, 0.0);
    assert NormSq(IdentityQuat) == 1.0;
    assert Inverse(IdentityQuat) == IdentityQuat;
    QMulIdentity(half);
    assert CanvasToAnchor(IdentityQuat, half) == half;
    assert Sub(Vec3(0.0, 0.0, 6.0), Vec3(0.0, 0.0, 6.57)) == Vec3(0.0, 0.0, -0.57);
    assert Rotate(half, Vec3(0.0, 0.0, -0.57)) == Vec3(0.0, 0.0, 0.57);
    assert Rotate(half, Vec3(0.0, 0.0, 1.0)) == Vec3(0.0, 0.0, -1.0);
  }

  // ---------------------------------------------------------------------------
  // mirror

  /** CalculateReflectionMatrix for the plane (n.x, n.y, n.z, d): every entry
      of the matrix is written (the source passes it by reference), giving
      I - 2 n n^T with translation -2 d n. */
  function ReflectionMatrix(plane: Vec4): (m: Mat4)
    ensures m.m30 == 0.0 && m.m31 == 0.0 && m.m32 == 0.0 && m.m33 == 1.0
    ensures m.m01 == m.m10 && m.m02 == m.m20 && m.m12 == m.m21
  {
    var a, b, c, d := plane.x, plane.y, plane.z, plane.w;
    Mat4(1.0 - 2.0 * a * a, -2.0 * a * b, -2.0 * a * c, -2.0 * d * a,
         -2.0 * b * a, 1.0 - 2.0 * b * b, -2.0 * b * c, -2.0 * d * b,
         -2.0 * c * a, -2.0 * c * b, 1.0 - 2.0 * c * c, -2.0 * d * c,
         0.0, 0.0, 0.0, 1.0)
  }

  function Normal(plane: Vec4): Vec3 {
    Vec3(plane.x, plane.y, plane.z)
  }

  /** Signed value n.p + d of the plane equation at p. */
  function PlaneValue(plane: Vec4, p: Vec3): real {
    plane.x * p.x + plane.y * p.y + plane.z * p.z + plane.w
  }

  lemma PlaneValueIsDot(plane: Vec4, p: Vec3)
    ensures PlaneValue(plane, p) == Dot(Normal(plane), p) + plane.w
  {
  }

  // The scalar lemmas below take the entries of a product as plain reals, so
  // that the solver compares polynomials instead of substituting fields of
  // datatype values into products; each matrix row or entry then gets a
  // lemma of its own.

  /** A row (e - 2 k n | -2 d k) of a reflection matrix applied to the point
      (x, y, z, 1), where e is a unit row, n = (a, b, c) and v = n.(x, y, z) + d. */
  lemma ReflectRow(e0: real, e1: real, e2: real, a: real, b: real, c: real, d: real, k: real,
                   x: real, y: real, z: real, v: real, m0: real, m1: real, m2: real, m3: real)
    requires m0 == e0 - 2.0 * k * a && m1 == e1 - 2.0 * k * b && m2 == e2 - 2.0 * k * c
    requires m3 == -2.0 * d * k && v == a * x + b * y + c * z + d
    ensures m0 * x + m1 * y + m2 * z + m3 == e0 * x + e1 * y + e2 * z - 2.0 * v * k
  {
  }

  /** An entry of the square of a reflection matrix with a unit normal
      n = (a, b, c): the row (e - 2 p n | -2 d p) times the column (f - 2 q n | 0)
      is e.f, where e is a unit row with e.n = p and f a unit column with f.n = q. */
  lemma SquareEntry(e0: real, e1: real, e2: real, f0: real, f1: real, f2: real,
                    a: real, b: real, c: real, d: real, p: real, q: real,
                    x0: real, x1: real, x2: real, x3: real, y0: real, y1: real, y2: real, y3: real)
    requires x0 == e0 - 2.0 * p * a && x1 == e1 - 2.0 * p * b && x2 == e2 - 2.0 * p * c && x3 == -2.0 * d * p
    requires y0 == f0 - 2.0 * a * q && y1 == f1 - 2.0 * b * q && y2 == f2 - 2.0 * c * q && y3 == 0.0
    requires e0 * a + e1 * b + e2 * c == p && a * f0 + b * f1 + c * f2 == q
    requires a * a + b * b + c * c == 1.0
    ensures x0 * y0 + x1 * y1 + x2 * y2 + x3 * y3 == e0 * f0 + e1 * f1 + e2 * f2
  {
    var t := a * a + b * b + c * c - 1.0;
    assert x0 * y0 + x1 * y1 + x2 * y2 + x3 * y3 == e0 * f0 + e1 * f1 + e2 * f2 + 4.0 * p * q * t;
  }

  /** The last column of that square: the row (e - 2 p n | -2 d p) times the
      column (-2 d n | 1) is 0, where e is a unit row with e.n = p. */
  lemma SquareLastEntry(e0: real, e1: real, e2: real, a: real, b: real, c: real, d: real, p: real,
                        x0: real, x1: real, x2: real, x3: real, y0: real, y1: real, y2: real, y3: real)
    requires x0 == e0 - 2.0 * p * a && x1 == e1 - 2.0 * p * b && x2 == e2 - 2.0 * p * c && x3 == -2.0 * d * p
    requires y0 == -2.0 * d * a && y1 == -2.0 * d * b && y2 == -2.0 * d * c && y3 == 1.0
    requires e0 * a + e1 * b + e2 * c == p && a * a + b * b + c * c == 1.0
    ensures x0 * y0 + x1 * y1 + x2 * y2 + x3 * y3 == 0.0
  {
    var t := a * a + b * b + c * c - 1.0;
    assert x0 * y0 + x1 * y1 + x2 * y2 + x3 * y3 == 4.0 * p * d * t;
  }

  /** Reflecting a coordinate there and back: h = x - 2 e n, then h - 2 (-e) n. */
  lemma ThereAndBack(x: real, h: real, e: real, e': real, n: real)
    requires h == x - 2.0 * e * n && e' == -e
    ensures h - 2.0 * e' * n == x
  {
  }

  lemma ReflectRowX(plane: Vec4, p: Vec3, m: Mat4)
    requires m.m00 == 1.0 - 2.0 * plane.x * plane.x && m.m01 == -2.0 * plane.x * plane.y
    requires m.m02 == -2.0 * plane.x * plane.z && m.m03 == -2.0 * plane.w * plane.x
    ensures m.m00 * p.x + m.m01 * p.y + m.m02 * p.z + m.m03 == p.x - 2.0 * PlaneValue(plane, p) * plane.x
  {
    ReflectRow(1.0, 0.0, 0.0, plane.x, plane.y, plane.z, plane.w, plane.x, p.x, p.y, p.z, PlaneValue(plane, p),
               m.m00, m.m01, m.m02, m.m03);
  }

  lemma ReflectRowY(plane: Vec4, p: Vec3, m: Mat4)
    requires m.m10 == -2.0 * plane.y * plane.x && m.m11 == 1.0 - 2.0 * plane.y * plane.y
    requires m.m12 == -2.0 * plane.y * plane.z && m.m13 == -2.0 * plane.w * plane.y
    ensures m.m10 * p.x + m.m11 * p.y + m.m12 * p.z + m.m13 == p.y - 2.0 * PlaneValue(plane, p) * plane.y
  {
    ReflectRow(0.0, 1.0, 0.0, plane.x, plane.y, plane.z, plane.w, plane.y, p.x, p.y, p.z, PlaneValue(plane, p),
               m.m10, m.m11, m.m12, m.m13);
  }

  lemma ReflectRowZ(plane: Vec4, p: Vec3, m: Mat4)
    requires m.m20 == -2.0 * plane.z * plane.x && m.m21 == -2.0 * plane.z * plane.y
    requires m.m22 == 1.0 - 2.0 * plane.z * plane.z && m.m23 == -2.0 * plane.w * plane.z
    ensures m.m20 * p.x + m.m21 * p.y + m.m22 * p.z + m.m23 == p.z - 2.0 * PlaneValue(plane, p) * plane.z
  {
    ReflectRow(0.0, 0.0, 1.0, plane.x, plane.y, plane.z, plane.w, plane.z, p.x, p.y, p.z, PlaneValue(plane, p),
               m.m20, m.m21, m.m22, m.m23);
  }

  /** Moving a point by the reflection matrix: p - 2 (n.p + d) n. */
  lemma ReflectPoint(plane: Vec4, p: Vec3)
    ensures PointW(ReflectionMatrix(plane), p) == 1.0
    ensures MultiplyPoint(ReflectionMatrix(plane), p)
         == Vec3(p.x - 2.0 * PlaneValue(plane, p) * plane.x,
                 p.y - 2.0 * PlaneValue(plane, p) * plane.y,
                 p.z - 2.0 * PlaneValue(plane, p) * plane.z)
  {
    var m := ReflectionMatrix(plane);
    ReflectByEntries(plane, p, m, PlaneValue(plane, p));
  }

  /** m has the entries of ReflectionMatrix(plane). */
  predicate HasReflectionEntries(plane: Vec4, m: Mat4) {
    && m.m00 == 1.0 - 2.0 * plane.x * plane.x && m.m01 == -2.0 * plane.x * plane.y
    && m.m02 == -2.0 * plane.x * plane.z && m.m03 == -2.0 * plane.w * plane.x
    && m.m10 == -2.0 * plane.y * plane.x && m.m11 == 1.0 - 2.0 * plane.y * plane.y
    && m.m12 == -2.0 * plane.y * plane.z && m.m13 == -2.0 * plane.w * plane.y
    && m.m20 == -2.0 * plane.z * plane.x && m.m21 == -2.0 * plane.z * plane.y
    && m.m22 == 1.0 - 2.0 * plane.z * plane.z && m.m23 == -2.0 * plane.w * plane.z
    && m.m30 == 0.0 && m.m31 == 0.0 && m.m32 == 0.0 && m.m33 == 1.0
  }

  /** ReflectPoint for a matrix given by its entries. */
  lemma ReflectByEntries(plane: Vec4, p: Vec3, m: Mat4, v: real)
    requires HasReflectionEntries(plane, m)
    requires v == PlaneValue(plane, p)
    ensures PointW(m, p) == 1.0
    ensures MultiplyPoint(m, p) == Vec3(p.x - 2.0 * v * plane.x, p.y - 2.0 * v * plane.y, p.z - 2.0 * v * plane.z)
  {
    ReflectRowX(plane, p, m);
    ReflectRowY(plane, p, m);
    ReflectRowZ(plane, p, m);
    MultiplyAffineIs(m, p, Vec3(p.x - 2.0 * v * plane.x, p.y - 2.0 * v * plane.y, p.z - 2.0 * v * plane.z));
  }

  /** The plane value after reflecting p, where v is p's and nn = n.n. */
  lemma PlaneAfterReflect(a: real, b: real, c: real, d: real, x: real, y: real, z: real,
                          hx: real, hy: real, hz: real, v: real, nn: real)
    requires hx == x - 2.0 * v * a && hy == y - 2.0 * v * b && hz == z - 2.0 * v * c
    requires v == a * x + b * y + c * z + d && nn == a * a + b * b + c * c
    ensures a * hx + b * hy + c * hz + d == v - 2.0 * v * nn
  {
  }

  /** For a unit normal, the reflected point is as far on the other side. */
  lemma ReflectedPlaneValue(plane: Vec4, p: Vec3)
    requires plane.x * plane.x + plane.y * plane.y + plane.z * plane.z == 1.0
    ensures PointW(ReflectionMatrix(plane), p) == 1.0
    ensures PlaneValue(plane, MultiplyPoint(ReflectionMatrix(plane), p)) == -PlaneValue(plane, p)
  {
    ReflectPoint(plane, p);
    PlaneValueAfterReflect(plane, p, MultiplyPoint(ReflectionMatrix(plane), p), PlaneValue(plane, p));
  }

  lemma PlaneValueAfterReflect(plane: Vec4, p: Vec3, head: Vec3, v: real)
    requires plane.x * plane.x + plane.y * plane.y + plane.z * plane.z == 1.0
    requires v == PlaneValue(plane, p)
    requires head == Vec3(p.x - 2.0 * v * plane.x, p.y - 2.0 * v * plane.y, p.z - 2.0 * v * plane.z)
    ensures PlaneValue(plane, head) == -v
  {
    PlaneAfterReflect(plane.x, plane.y, plane.z, plane.w, p.x, p.y, p.z, head.x, head.y, head.z, v, 1.0);
  }

  /** For a unit normal, reflecting a point twice gives the point back. */
  lemma ReflectTwice(plane: Vec4, p: Vec3)
    requires plane.x * plane.x + plane.y * plane.y + plane.z * plane.z == 1.0
    ensures PointW(ReflectionMatrix(plane), p) == 1.0
    ensures var head := MultiplyPoint(ReflectionMatrix(plane), p);
            PointW(ReflectionMatrix(plane), head) == 1.0
            && MultiplyPoint(ReflectionMatrix(plane), head) == p
  {
    ReflectTwiceByEntries(plane, p, ReflectionMatrix(plane));
  }

  lemma ReflectTwiceByEntries(plane: Vec4, p: Vec3, m: Mat4)
    requires HasReflectionEntries(plane, m)
    requires plane.x * plane.x + plane.y * plane.y + plane.z * plane.z == 1.0
    ensures PointW(m, p) == 1.0
    ensures PointW(m, MultiplyPoint(m, p)) == 1.0 && MultiplyPoint(m, MultiplyPoint(m, p)) == p
  {
    var v := PlaneValue(plane, p);
    ReflectByEntries(plane, p, m, v);
    var head := MultiplyPoint(m, p);
    PlaneValueAfterReflect(plane, p, head, v);
    ReflectByEntries(plane, head, m, -v);
    assert head.x == p.x - 2.0 * v * plane.x;
    assert head.y == p.y - 2.0 * v * plane.y;
    assert head.z == p.z - 2.0 * v * plane.z;
    assert head == Vec3(p.x - 2.0 * v * plane.x, p.y - 2.0 * v * plane.y, p.z - 2.0 * v * plane.z);
    ThereAndBackPoint(plane, p, head, MultiplyPoint(m, head), v);
  }

  /** ThereAndBack on all three coordinates. */
  lemma ThereAndBackPoint(plane: Vec4, p: Vec3, head: Vec3, back: Vec3, v: real)
    requires head == Vec3(p.x - 2.0 * v * plane.x, p.y - 2.0 * v * plane.y, p.z - 2.0 * v * plane.z)
    requires back == Vec3(head.x - 2.0 * -v * plane.x, head.y - 2.0 * -v * plane.y, head.z - 2.0 * -v * plane.z)
    ensures back == p
  {
    ThereAndBack(p.x, head.x, v, -v, plane.x);
    ThereAndBack(p.y, head.y, v, -v, plane.y);
    ThereAndBack(p.z, head.z, v, -v, plane.z);
  }

  /** Points on the plane stay where they are. */
  lemma ReflectionFixesPlane(plane: Vec4, p: Vec3)
    requires PlaneValue(plane, p) == 0.0
    ensures PointW(ReflectionMatrix(plane), p) == 1.0
    ensures MultiplyPoint(ReflectionMatrix(plane), p) == p
  {
    ReflectPoint(plane, p);
  }

  lemma SquareEntry00(plane: Vec4, m: Mat4)
    requires plane.x * plane.x + plane.y * plane.y + plane.z * plane.z == 1.0
    requires m.m00 == 1.0 - 2.0 * plane.x * plane.x && m.m01 == -2.0 * plane.x * plane.y
    requires m.m02 == -2.0 * plane.x * plane.z && m.m03 == -2.0 * plane.w * plane.x
    requires m.m10 == -2.0 * plane.y * plane.x && m.m20 == -2.0 * plane.z * plane.x
    requires m.m30 == 0.0
    ensures MatMul(m, m).m00 == 1.0
  {
    MatMulEntry00(m, m);
    SquareEntry(1.0, 0.0, 0.0, 1.0, 0.0, 0.0, plane.x, plane.y, plane.z, plane.w, plane.x, plane.x,
                m.m00, m.m01, m.m02, m.m03, m.m00, m.m10, m.m20, m.m30);
  }

  lemma SquareEntry01(plane: Vec4, m: Mat4)
    requires plane.x * plane.x + plane.y * plane.y + plane.z * plane.z == 1.0
    requires m.m00 == 1.0 - 2.0 * plane.x * plane.x && m.m01 == -2.0 * plane.x * plane.y
    requires m.m02 == -2.0 * plane.x * plane.z && m.m03 == -2.0 * plane.w * plane.x
    requires m.m11 == 1.0 - 2.0 * plane.y * plane.y && m.m21 == -2.0 * plane.z * plane.y
    requires m.m31 == 0.0
    ensures MatMul(m, m).m01 == 0.0
  {
    MatMulEntry01(m, m);
    SquareEntry(1.0, 0.0, 0.0, 0.0, 1.0, 0.0, plane.x, plane.y, plane.z, plane.w, plane.x, plane.y,
                m.m00, m.m01, m.m02, m.m03, m.m01, m.m11, m.m21, m.m31);
  }

  lemma SquareEntry02(plane: Vec4, m: Mat4)
    requires plane.x * plane.x + plane.y * plane.y + plane.z * plane.z == 1.0
    requires m.m00 == 1.0 - 2.0 * plane.x * plane.x && m.m01 == -2.0 * plane.x * plane.y
    requires m.m02 == -2.0 * plane.x * plane.z && m.m03 == -2.0 * plane.w * plane.x
    requires m.m12 == -2.0 * plane.y * plane.z && m.m22 == 1.0 - 2.0 * plane.z * plane.z
    requires m.m32 == 0.0
    ensures MatMul(m, m).m02 == 0.0
  {
    MatMulEntry02(m, m);
    SquareEntry(1.0, 0.0, 0.0, 0.0, 0.0, 1.0, plane.x, plane.y, plane.z, plane.w, plane.x, plane.z,
                m.m00, m.m01, m.m02, m.m03, m.m02, m.m12, m.m22, m.m32);
  }

  lemma SquareEntry03(plane: Vec4, m: Mat4)
    requires plane.x * plane.x + plane.y * plane.y + plane.z * plane.z == 1.0
    requires m.m00 == 1.0 - 2.0 * plane.x * plane.x && m.m01 == -2.0 * plane.x * plane.y
    requires m.m02 == -2.0 * plane.x * plane.z && m.m03 == -2.0 * plane.w * plane.x
    requires m.m13 == -2.0 * plane.w * plane.y && m.m23 == -2.0 * plane.w * plane.z
    requires m.m33 == 1.0
    ensures MatMul(m, m).m03 == 0.0
  {
    MatMulEntry03(m, m);
    SquareLastEntry(1.0, 0.0, 0.0, plane.x, plane.y, plane.z, plane.w, plane.x,
                    m.m00, m.m01, m.m02, m.m03, m.m03, m.m13, m.m23, m.m33);
  }

  lemma SquareEntry10(plane: Vec4, m: Mat4)
    requires plane.x * plane.x + plane.y * plane.y + plane.z * plane.z == 1.0
    requires m.m10 == -2.0 * plane.y * plane.x && m.m11 == 1.0 - 2.0 * plane.y * plane.y
    requires m.m12 == -2.0 * plane.y * plane.z && m.m13 == -2.0 * plane.w * plane.y
    requires m.m00 == 1.0 - 2.0 * plane.x * plane.x && m.m20 == -2.0 * plane.z * plane.x
    requires m.m30 == 0.0
    ensures MatMul(m, m).m10 == 0.0
  {
    MatMulEntry10(m, m);
    SquareEntry(0.0, 1.0, 0.0, 1.0, 0.0, 0.0, plane.x, plane.y, plane.z, plane.w, plane.y, plane.x,
                m.m10, m.m11, m.m12, m.m13, m.m00, m.m10, m.m20, m.m30);
  }

  lemma SquareEntry11(plane: Vec4, m: Mat4)
    requires plane.x * plane.x + plane.y * plane.y + plane.z * plane.z == 1.0
    requires m.m10 == -2.0 * plane.y * plane.x && m.m11 == 1.0 - 2.0 * plane.y * plane.y
    requires m.m12 == -2.0 * plane.y * plane.z && m.m13 == -2.0 * plane.w * plane.y
    requires m.m01 == -2.0 * plane.x * plane.y && m.m21 == -2.0 * plane.z * plane.y
    requires m.m31 == 0.0
    ensures MatMul(m, m).m11 == 1.0
  {
    MatMulEntry11(m, m);
    SquareEntry(0.0, 1.0, 0.0, 0.0, 1.0, 0.0, plane.x, plane.y, plane.z, plane.w, plane.y, plane.y,
                m.m10, m.m11, m.m12, m.m13, m.m01, m.m11, m.m21, m.m31);
  }

  lemma SquareEntry12(plane: Vec4, m: Mat4)
    requires plane.x * plane.x + plane.y * plane.y + plane.z * plane.z == 1.0
    requires m.m10 == -2.0 * plane.y * plane.x && m.m11 == 1.0 - 2.0 * plane.y * plane.y
    requires m.m12 == -2.0 * plane.y * plane.z && m.m13 == -2.0 * plane.w * plane.y
    requires m.m02 == -2.0 * plane.x * plane.z && m.m22 == 1.0 - 2.0 * plane.z * plane.z
    requires m.m32 == 0.0
    ensures MatMul(m, m).m12 == 0.0
  {
    MatMulEntry12(m, m);
    SquareEntry(0.0, 1.0, 0.0, 0.0, 0.0, 1.0, plane.x, plane.y, plane.z, plane.w, plane.y, plane.z,
                m.m10, m.m11, m.m12, m.m13, m.m02, m.m12, m.m22, m.m32);
  }

  lemma SquareEntry13(plane: Vec4, m: Mat4)
    requires plane.x * plane.x + plane.y * plane.y + plane.z * plane.z == 1.0
    requires m.m10 == -2.0 * plane.y * plane.x && m.m11 == 1.0 - 2.0 * plane.y * plane.y
    requires m.m12 == -2.0 * plane.y * plane.z && m.m13 == -2.0 * plane.w * plane.y
    requires m.m03 == -2.0 * plane.w * plane.x && m.m23 == -2.0 * plane.w * plane.z
    requires m.m33 == 1.0
    ensures MatMul(m, m).m13 == 0.0
  {
    MatMulEntry13(m, m);
    SquareLastEntry(0.0, 1.0, 0.0, plane.x, plane.y, plane.z, plane.w, plane.y,
                    m.m10, m.m11, m.m12, m.m13, m.m03, m.m13, m.m23, m.m33);
  }

  lemma SquareEntry20(plane: Vec4, m: Mat4)
    requires plane.x * plane.x + plane.y * plane.y + plane.z * plane.z == 1.0
    requires m.m20 == -2.0 * plane.z * plane.x && m.m21 == -2.0 * plane.z * plane.y
    requires m.m22 == 1.0 - 2.0 * plane.z * plane.z && m.m23 == -2.0 * plane.w * plane.z
    requires m.m00 == 1.0 - 2.0 * plane.x * plane.x && m.m10 == -2.0 * plane.y * plane.x
    requires m.m30 == 0.0
    ensures MatMul(m, m).m20 == 0.0
  {
    MatMulEntry20(m, m);
    SquareEntry(0.0, 0.0, 1.0, 1.0, 0.0, 0.0, plane.x, plane.y, plane.z, plane.w, plane.z, plane.x,
                m.m20, m.m21, m.m22, m.m23, m.m00, m.m10, m.m20, m.m30);
  }

  lemma SquareEntry21(plane: Vec4, m: Mat4)
    requires plane.x * plane.x + plane.y * plane.y + plane.z * plane.z == 1.0
    requires m.m20 == -2.0 * plane.z * plane.x && m.m21 == -2.0 * plane.z * plane.y
    requires m.m22 == 1.0 - 2.0 * plane.z * plane.z && m.m23 == -2.0 * plane.w * plane.z
    requires m.m01 == -2.0 * plane.x * plane.y && m.m11 == 1.0 - 2.0 * plane.y * plane.y
    requires m.m31 == 0.0
    ensures MatMul(m, m).m21 == 0.0
  {
    MatMulEntry21(m, m);
    SquareEntry(0.0, 0.0, 1.0, 0.0, 1.0, 0.0, plane.x, plane.y, plane.z, plane.w, plane.z, plane.y,
                m.m20, m.m21, m.m22, m.m23, m.m01, m.m11, m.m21, m.m31);
  }

  lemma SquareEntry22(plane: Vec4, m: Mat4)
    requires plane.x * plane.x + plane.y * plane.y + plane.z * plane.z == 1.0
    requires m.m20 == -2.0 * plane.z * plane.x && m.m21 == -2.0 * plane.z * plane.y
    requires m.m22 == 1.0 - 2.0 * plane.z * plane.z && m.m23 == -2.0 * plane.w * plane.z
    requires m.m02 == -2.0 * plane.x * plane.z && m.m12 == -2.0 * plane.y * plane.z
    requires m.m32 == 0.0
    ensures MatMul(m, m).m22 == 1.0
  {
    MatMulEntry22(m, m);
    SquareEntry(0.0, 0.0, 1.0, 0.0, 0.0, 1.0, plane.x, plane.y, plane.z, plane.w, plane.z, plane.z,
                m.m20, m.m21, m.m22, m.m23, m.m02, m.m12, m.m22, m.m32);
  }

  lemma SquareEntry23(plane: Vec4, m: Mat4)
    requires plane.x * plane.x + plane.y * plane.y + plane.z * plane.z == 1.0
    requires m.m20 == -2.0 * plane.z * plane.x && m.m21 == -2.0 * plane.z * plane.y
    requires m.m22 == 1.0 - 2.0 * plane.z * plane.z && m.m23 == -2.0 * plane.w * plane.z
    requires m.m03 == -2.0 * plane.w * plane.x && m.m13 == -2.0 * plane.w * plane.y
    requires m.m33 == 1.0
    ensures MatMul(m, m).m23 == 0.0
  {
    MatMulEntry23(m, m);
    SquareLastEntry(0.0, 0.0, 1.0, plane.x, plane.y, plane.z, plane.w, plane.z,
                    m.m20, m.m21, m.m22, m.m23, m.m03, m.m13, m.m23, m.m33);
  }

  /** For a unit normal, reflecting twice gives the matrix identity. */
  lemma ReflectionIsInvolution(plane: Vec4)
    requires plane.x * plane.x + plane.y * plane.y + plane.z * plane.z == 1.0
    ensures MatMul(ReflectionMatrix(plane), ReflectionMatrix(plane)) == Identity4
  {
    InvolutionByEntries(plane, ReflectionMatrix(plane));
  }

  lemma InvolutionByEntries(plane: Vec4, m: Mat4)
    requires HasReflectionEntries(plane, m)
    requires plane.x * plane.x + plane.y * plane.y + plane.z * plane.z == 1.0
    ensures MatMul(m, m) == Identity4
  {
    SquareEntry00(plane, m);
    SquareEntry01(plane, m);
    SquareEntry02(plane, m);
    SquareEntry03(plane, m);
    SquareEntry10(plane, m);
    SquareEntry11(plane, m);
    SquareEntry12(plane, m);
    SquareEntry13(plane, m);
    SquareEntry20(plane, m);
    SquareEntry21(plane, m);
    SquareEntry22(plane, m);
    SquareEntry23(plane, m);
    SquareIsIdentity(m);
  }

  /** The canvas origin's "up" direction, the mirror's plane normal. */
  function CanvasUp(canvasOrigin: Pose): Vec3 {
    Rotate(canvasOrigin.rotation, Up)
  }

  /** Mirror plane: normal up, d = -up.origin - 0.07, which for a unit up puts
      the plane 0.07 along up from the canvas origin. */
  function MirrorPlane(canvasOrigin: Pose): Vec4 {
    var up := CanvasUp(canvasOrigin);
    Vec4(up.x, up.y, up.z, -Dot(up, canvasOrigin.position) - MirrorOffset)
  }

  /** Mirror mode: the head is the main camera's position reflected through the
      mirror plane and keeps the main camera's orientation. */
  function MirrorHeadPose(canvasOrigin: Pose, mainCam: Pose): Pose {
    var m := ReflectionMatrix(MirrorPlane(canvasOrigin));
    ReflectPoint(MirrorPlane(canvasOrigin), mainCam.position);
    Pose(MultiplyPoint(m, mainCam.position), mainCam.rotation)
  }

  /** The mirror keeps the main camera's orientation and moves its position
      along up by twice its (signed) height h above the mirror plane. */
  lemma MirrorHeadPoseMeaning(canvasOrigin: Pose, mainCam: Pose)
    ensures MirrorHeadPose(canvasOrigin, mainCam).rotation == mainCam.rotation
    ensures var up := CanvasUp(canvasOrigin);
            var h := Dot(up, Sub(mainCam.position, canvasOrigin.position)) - MirrorOffset;
            MirrorHeadPose(canvasOrigin, mainCam).position == Sub(mainCam.position, Scale(2.0 * h, up))
  {
    var up := CanvasUp(canvasOrigin);
    var plane := MirrorPlane(canvasOrigin);
    var p := mainCam.position;
    ReflectPoint(plane, p);
    assert Normal(plane) == up;
    PlaneValueIsDot(plane, p);
    DotSub(up, p, canvasOrigin.position);
    assert PlaneValue(plane, p) == Dot(up, Sub(p, canvasOrigin.position)) - MirrorOffset;
  }

  /** For a unit up vector the point 0.07 along up from the canvas origin lies
      on the mirror plane, and reflecting the head position back through the
      plane returns the main camera's position. */
  lemma MirrorIsSymmetric(canvasOrigin: Pose, mainCam: Pose)
    requires IsUnit(CanvasUp(canvasOrigin))
    ensures var up := CanvasUp(canvasOrigin);
            PlaneValue(MirrorPlane(canvasOrigin), Add(canvasOrigin.position, Scale(MirrorOffset, up))) == 0.0
    ensures var m := ReflectionMatrix(MirrorPlane(canvasOrigin));
            var head := MirrorHeadPose(canvasOrigin, mainCam).position;
            PointW(m, head) == 1.0 && MultiplyPoint(m, head) == mainCam.position
  {
    var up := CanvasUp(canvasOrigin);
    var plane := MirrorPlane(canvasOrigin);
    var q := Add(canvasOrigin.position, Scale(MirrorOffset, up));
    assert Normal(plane) == up;
    PlaneValueIsDot(plane, q);
    DotAddScale(up, canvasOrigin.position, MirrorOffset, up);
    PlaneValueIsDot(plane, up);
    assert plane.x * plane.x + plane.y * plane.y + plane.z * plane.z == 1.0;
    ReflectTwice(plane, mainCam.position);
  }
}
