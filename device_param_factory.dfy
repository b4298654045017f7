// The device-parameter interface (IDeviceParamFactory) as a tagged variant
// over the supported back ends, and the SteamVR back end with its
// row-major HmdMatrix44_t to Matrix4x4 conversion.

module DeviceParamFactory {
  import opened Geometry

  /** Rendering eye, 0 = left, 1 = right in the source. */
  datatype Eye = Left | Right

  /** Valve.VR.HmdMatrix44_t: the sixteen floats m0 .. m15 in row-major order. */
  type HmdMatrix44 = s: seq<real> | |s| == 16
    witness [0.0, 0.0, 0.0, 0.0, 0.0, 0.0, 0.0, 0.0, 0.0, 0.0, 0.0, 0.0, 0.0, 0.0, 0.0, 0.0]

  /** What the SteamVR runtime (SteamVR.instance) answers: per-eye scene size,
      eye poses relative to the head and the raw projection for given clip
      planes. These are queries of the runtime, supplied as values. */
  datatype SteamVRRuntime = SteamVRRuntime(
    sceneWidth: real,
    sceneHeight: real,
    eyePos: Eye -> Vec3,
    eyeRot: Eye -> Quat,
    projection: (Eye, real, real) -> HmdMatrix44)

  /** The implementations of IDeviceParamFactory; SteamVR is the only one. */
  datatype ParamFactory = SteamVRParamFactory(runtime: SteamVRRuntime) {

    function GetRenderWidth(): int {
      TruncateToInt(runtime.sceneWidth)
    }

    function GetRenderHeight(): int {
      TruncateToInt(runtime.sceneHeight)
    }

    function GetEyeLocalPosition(eye: Eye): Vec3 {
      runtime.eyePos(eye)
    }

    function GetEyeLocalRotation(eye: Eye): Quat {
      runtime.eyeRot(eye)
    }

    /** The runtime's projection for this eye, converted to Unity's layout. */
    function GetProjectionMatrix(eye: Eye, nearPlane: real, farPlane: real): Mat4 {
      HmdMatrixToMatrix(runtime.projection(eye, nearPlane, farPlane))
    }
  }

  /** C#'s (int) cast of a float: truncation toward zero. */
  function TruncateToInt(x: real): (n: int)
    ensures x >= 0.0 ==> n as real <= x < n as real + 1.0
    ensures x < 0.0 ==> n as real - 1.0 < x <= n as real
  {
    if x >= 0.0 then x.Floor else -((-x).Floor)
  }

  /** The sixteen row-by-row assignments m[r, c] = hmd.m(4r + c), applied to
      whatever matrix they start from. */
  function Overwrite(start: Mat4, h: HmdMatrix44): Mat4 {
    var m := Set(start, 0, 0, h[0]);
    var m := Set(m, 0, 1, h[1]);
    var m := Set(m, 0, 2, h[2]);
    var m := Set(m, 0, 3, h[3]);
    var m := Set(m, 1, 0, h[4]);
    var m := Set(m, 1, 1, h[5]);
    var m := Set(m, 1, 2, h[6]);
    var m := Set(m, 1, 3, h[7]);
    var m := Set(m, 2, 0, h[8]);
    var m := Set(m, 2, 1, h[9]);
    var m := Set(m, 2, 2, h[10]);
    var m := Set(m, 2, 3, h[11]);
    var m := Set(m, 3, 0, h[12]);
    var m := Set(m, 3, 1, h[13]);
    var m := Set(m, 3, 2, h[14]);
    Set(m, 3, 3, h[15])
  }

  /** HMDMatrix4x4ToMatrix4x4, written as the matrix it produces: element
      4r + c of the input lands at row r, column c. That the source's
      identity-then-overwrite steps give this matrix is OverwriteIgnoresStart. */
  function HmdMatrixToMatrix(h: HmdMatrix44): (m: Mat4)
    ensures forall r: nat, c: nat :: r < 4 && c < 4 ==> At(m, r, c) == h[4 * r + c]
  {
    Mat4(h[0], h[1], h[2], h[3], h[4], h[5], h[6], h[7], h[8], h[9], h[10], h[11], h[12], h[13], h[14], h[15])
  }

  /** Reading a matrix row by row. */
  function Flatten(m: Mat4): (s: HmdMatrix44)
    ensures forall r: nat, c: nat :: r < 4 && c < 4 ==> s[4 * r + c] == At(m, r, c)
  {
    [m.m00, m.m01, m.m02, m.m03, m.m10, m.m11, m.m12, m.m13,
     m.m20, m.m21, m.m22, m.m23, m.m30, m.m31, m.m32, m.m33]
  }

  /** Every entry is written, each with the element at its row-major index. */
  lemma OverwriteAt(start: Mat4, h: HmdMatrix44)
    ensures forall r: nat, c: nat :: r < 4 && c < 4 ==> At(Overwrite(start, h), r, c) == h[4 * r + c]
  {
  }

  /** The starting matrix never shows through: all sixteen entries are written. */
  lemma OverwriteIgnoresStart(start: Mat4, h: HmdMatrix44)
    ensures Overwrite(start, h) == HmdMatrixToMatrix(h)
  {
    OverwriteAt(start, h);
    MatrixExtensionality(Overwrite(start, h), HmdMatrixToMatrix(h));
  }

  /** The conversion is a bijection: flattening gives the input back ... */
  lemma FlattenAfterConversion(h: HmdMatrix44)
    ensures Flatten(HmdMatrixToMatrix(h)) == h
  {
    var s := Flatten(HmdMatrixToMatrix(h));
    forall k | 0 <= k < 16
      ensures s[k] == h[k]
    {
      assert k == 4 * (k / 4) + k % 4;
    }
  }

  /** ... and converting a flattened matrix gives the matrix back. */
  lemma ConversionAfterFlatten(m: Mat4)
    ensures HmdMatrixToMatrix(Flatten(m)) == m
  {
    MatrixExtensionality(HmdMatrixToMatrix(Flatten(m)), m);
  }

  /** Orientation spot checks: no transpose. */
  lemma ConversionIsRowMajor(h: HmdMatrix44)
    ensures HmdMatrixToMatrix(h).m03 == h[3]
    ensures HmdMatrixToMatrix(h).m30 == h[12]
  {
    assert At(HmdMatrixToMatrix(h), 0, 3) == h[3];
    assert At(HmdMatrixToMatrix(h), 3, 0) == h[12];
  }
}
