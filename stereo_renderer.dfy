// StereoRenderer: one stereo surface (a portal or a mirror). Its render pass
// moves the stereo camera head, runs the surface's listeners and, when the
// main camera saw the surface this frame, hides the occluders, renders both
// eyes into their textures and puts the occluders back.
//
// The engine the pass talks to is an Engine object: a trace of the opaque
// actions (head moves, listener invocations, eye renders, texture binds),
// the global GL.invertCulling flag and the scene's object layers, which the
// pass changes in place.

module Renderer {
  import opened Wrappers
  import opened Geometry
  import opened StereoPose
  import opened DeviceParamFactory
  import opened InvocationList
  import opened Occluders

  /** A scene object, as an index into Engine.objectLayer. */
  type ObjectId = nat

  /** A camera's identity (Camera.current, mainCameraEye). */
  type CameraId = nat

  /** A game object's identity (mainCameraParent). */
  type GameObjectId = nat

  const LeftEyeTextureSlot: string := "_LeftEyeTexture"
  const RightEyeTextureSlot: string := "_RightEyeTexture"

  /** The engine actions a render pass performs, in the order it performs them. */
  datatype Event =
    | HeadMoved(surface: StereoRenderer, pose: Pose)
    | Invoked(listener: Listener)
    | EyeRendered(target: Eye, localPosition: Vec3, localRotation: Quat, view: Option<Mat4>,
                  projection: Mat4, invertCulling: bool, layers: seq<int>)
    | TextureBound(slot: string, eye: Eye)

  /** Invoking a multicast delegate: each callback once, in list order. */
  function Invocations(listeners: seq<Listener>): (r: seq<Event>)
    ensures |r| == |listeners|
  {
    if listeners == [] then []
    else [Invoked(listeners[0])] + Invocations(listeners[1..])
  }

  /** The i-th invocation event is the i-th listener's. */
  lemma {:induction false} InvocationsAt(listeners: seq<Listener>, i: nat)
    requires i < |listeners|
    ensures Invocations(listeners)[i] == Invoked(listeners[i])
    decreases i
  {
    if i > 0 {
      InvocationsAt(listeners[1..], i - 1);
    }
  }

  /** Mathf.Abs. */
  function Abs(x: real): (r: real)
    ensures r >= 0.0 && (r == x || r == -x)
  {
    if x < 0.0 then -x else x
  }

  /** The right eye's view: the main camera's view shifted by the stereo
      separation along the camera's x axis (worldToCamera.m03 -= separation). */
  function ShiftView(view: Mat4, separation: real): (v: Mat4)
    ensures v.m03 == view.m03 - separation
  {
    view.(m03 := view.m03 - separation)
  }

  /** The four engine actions of RenderWithTwoTextures: the left eye rendered
      into its texture and bound, then the right eye. The eye pose and the
      projection come from the device factory; a mirror overrides the view
      with the main camera's view times the reflection. `culling` and
      `layers` are GL.invertCulling and the object layers during the capture. */
  function CaptureEvents(isMirror: bool, reflection: Mat4, factory: ParamFactory, mainView: Mat4,
                         near: real, far: real, culling: bool, layers: seq<int>): seq<Event>
  {
    var separation := 2.0 * Abs(factory.GetEyeLocalPosition(Left).x);
    [EyeRendered(Left, factory.GetEyeLocalPosition(Left), factory.GetEyeLocalRotation(Left),
                 if isMirror then Some(MatMul(mainView, reflection)) else None,
                 factory.GetProjectionMatrix(Left, near, far), culling, layers),
     TextureBound(LeftEyeTextureSlot, Left),
     EyeRendered(Right, factory.GetEyeLocalPosition(Right), factory.GetEyeLocalRotation(Right),
                 if isMirror then Some(MatMul(ShiftView(mainView, separation), reflection)) else None,
                 factory.GetProjectionMatrix(Right, near, far), culling, layers),
     TextureBound(RightEyeTextureSlot, Right)]
  }

  /** The global engine state a render pass touches. */
  class Engine {
    var trace: seq<Event>
    var invertCulling: bool
    const objectLayer: array<int>

    constructor (layers: array<int>)
      ensures trace == [] && !invertCulling && objectLayer == layers
    {
      trace := [];
      invertCulling := false;
      objectLayer := layers;
    }

    /** Action.Invoke on a delegate; the empty list is the null delegate,
        which the source skips. The callbacks' own effects are not modelled. */
    method Invoke(listeners: seq<Listener>)
      modifies this`trace
      ensures trace == old(trace) + Invocations(listeners)
    {
      trace := trace + Invocations(listeners);
    }

    /** Camera.Render of the stereo eye camera, which sees the current layers
        and culling mode. */
    method RenderEye(target: Eye, localPosition: Vec3, localRotation: Quat, view: Option<Mat4>, projection: Mat4)
      modifies this`trace
      ensures trace == old(trace) + [EyeRendered(target, localPosition, localRotation, view, projection,
                                                 invertCulling, objectLayer[..])]
    {
      trace := trace + [EyeRendered(target, localPosition, localRotation, view, projection,
                                    invertCulling, objectLayer[..])];
    }

    /** Material.SetTexture with an eye's render texture. */
    method SetTexture(slot: string, eye: Eye)
      modifies this`trace
      ensures trace == old(trace) + [TextureBound(slot, eye)]
    {
      trace := trace + [TextureBound(slot, eye)];
    }

    /** Moving the stereo camera head's transform. */
    method MoveHead(surface: StereoRenderer, pose: Pose)
      modifies this`trace
      ensures trace == old(trace) + [HeadMoved(surface, pose)]
    {
      trace := trace + [HeadMoved(surface, pose)];
    }
  }

  /** What the head move depends on: mirror or portal, and the resolved canvas
      origin and anchor poses. */
  datatype Placement = Placement(mirror: bool, canvas: Pose, anchor: Pose)

  /** Where the stereo camera head goes for a placement and a main camera pose. */
  function PlacedHead(p: Placement, mainCam: Pose): Pose
  {
    if p.mirror then MirrorHeadPose(p.canvas, mainCam) else PortalHeadPose(p.canvas, p.anchor, mainCam)
  }

  class StereoRenderer {
    // the canvas origin: a transform, or the override pose used without one
    var canvasOrigin: Option<Pose>
    var canvasOriginWorldPosition: Vec3
    var canvasOriginWorldRotation: Quat

    // the anchor (portal exit): a transform, or the override pose
    var anchorTransform: Option<Pose>
    var anchorWorldPosition: Vec3
    var anchorWorldRotation: Quat

    // flags
    var canvasVisible: bool
    var shouldRender: bool

    // the camera rig that represents the head-mounted display
    var mainCameraParent: Option<GameObjectId>
    var mainCameraEye: Option<CameraId>

    // the stereo camera rig: the head's world pose, the eye camera's culling
    // mask and clip planes
    var stereoCameraHead: Pose
    var cullingMask: bv32
    const nearClipPlane: real
    const farClipPlane: real

    // occluders
    var ignoreWhenRender: seq<ObjectId>
    var ignoreObjOriginalLayer: seq<int>
    var ignoreLayerNumber: int

    // mirror rendering
    var isMirror: bool
    var reflectionMat: Mat4

    // callbacks
    var preRenderListeners: seq<Listener>
    var postRenderListeners: seq<Listener>

    /** A surface as the inspector configures it, with the source's defaults
        for everything else; the eye camera starts culling nothing. */
    constructor (occluders: seq<ObjectId>, mirror: bool, nearClip: real, farClip: real)
      ensures canvasOrigin == None && anchorTransform == None
      ensures CanvasOriginPose() == Pose(Zero3, IdentityQuat) && AnchorPose() == Pose(Zero3, IdentityQuat)
      ensures !canvasVisible && shouldRender
      ensures mainCameraParent == None && mainCameraEye == None
      ensures ignoreWhenRender == occluders && ignoreObjOriginalLayer == [] && ignoreLayerNumber == -1
      ensures isMirror == mirror && reflectionMat == Zero4
      ensures preRenderListeners == [] && postRenderListeners == []
      ensures cullingMask == 0xFFFF_FFFF && nearClipPlane == nearClip && farClipPlane == farClip
    {
      canvasOrigin := None;
      canvasOriginWorldPosition := Zero3;
      canvasOriginWorldRotation := IdentityQuat;
      anchorTransform := None;
      anchorWorldPosition := Zero3;
      anchorWorldRotation := IdentityQuat;
      canvasVisible := false;
      shouldRender := true;
      mainCameraParent := None;
      mainCameraEye := None;
      stereoCameraHead := Pose(Zero3, IdentityQuat);
      cullingMask := 0xFFFF_FFFF;
      nearClipPlane := nearClip;
      farClipPlane := farClip;
      ignoreWhenRender := occluders;
      ignoreObjOriginalLayer := [];
      ignoreLayerNumber := -1;
      isMirror := mirror;
      reflectionMat := Zero4;
      preRenderListeners := [];
      postRenderListeners := [];
    }

    // -------------------------------------------------------------------------
    // pose getters: the transform when there is one, the override otherwise

    function CanvasOriginPos(): Vec3
      reads this`canvasOrigin, this`canvasOriginWorldPosition
    {
      if canvasOrigin.None? then canvasOriginWorldPosition else canvasOrigin.value.position
    }

    function CanvasOriginRot(): Quat
      reads this`canvasOrigin, this`canvasOriginWorldRotation
    {
      if canvasOrigin.None? then canvasOriginWorldRotation else canvasOrigin.value.rotation
    }

    function CanvasOriginPose(): Pose
      reads this`canvasOrigin, this`canvasOriginWorldPosition, this`canvasOriginWorldRotation
    {
      Pose(CanvasOriginPos(), CanvasOriginRot())
    }

    function AnchorPos(): Vec3
      reads this`anchorTransform, this`anchorWorldPosition
    {
      if anchorTransform.None? then anchorWorldPosition else anchorTransform.value.position
    }

    function AnchorRot(): Quat
      reads this`anchorTransform, this`anchorWorldRotation
    {
      if anchorTransform.None? then anchorWorldRotation else anchorTransform.value.rotation
    }

    function AnchorPose(): Pose
      reads this`anchorTransform, this`anchorWorldPosition, this`anchorWorldRotation
    {
      Pose(AnchorPos(), AnchorRot())
    }

    // -------------------------------------------------------------------------
    // pose setters: they write only the override fields

    method SetCanvasOriginPos(value: Vec3)
      modifies this`canvasOriginWorldPosition
      ensures canvasOriginWorldPosition == value
      ensures canvasOrigin.None? ==> CanvasOriginPos() == value
      ensures canvasOrigin.Some? ==> CanvasOriginPos() == old(CanvasOriginPos())
    {
      canvasOriginWorldPosition := value;
    }

    method SetCanvasOriginRot(value: Quat)
      modifies this`canvasOriginWorldRotation
      ensures canvasOriginWorldRotation == value
      ensures canvasOrigin.None? ==> CanvasOriginRot() == value
      ensures canvasOrigin.Some? ==> CanvasOriginRot() == old(CanvasOriginRot())
    {
      canvasOriginWorldRotation := value;
    }

    method SetAnchorPos(value: Vec3)
      modifies this`anchorWorldPosition
      ensures anchorWorldPosition == value
      ensures anchorTransform.None? ==> AnchorPos() == value
      ensures anchorTransform.Some? ==> AnchorPos() == old(AnchorPos())
    {
      anchorWorldPosition := value;
    }

    method SetAnchorRot(value: Quat)
      modifies this`anchorWorldRotation
      ensures anchorWorldRotation == value
      ensures anchorTransform.None? ==> AnchorRot() == value
      ensures anchorTransform.Some? ==> AnchorRot() == old(AnchorRot())
    {
      anchorWorldRotation := value;
    }

    /** The mirror sync: a mirror's anchor follows its canvas origin, which
        takes effect only when no anchor transform is set. */
    method Update()
      modifies this`anchorWorldPosition, this`anchorWorldRotation
      ensures isMirror ==> anchorWorldPosition == old(CanvasOriginPos()) && anchorWorldRotation == old(CanvasOriginRot())
      ensures !isMirror ==> anchorWorldPosition == old(anchorWorldPosition) && anchorWorldRotation == old(anchorWorldRotation)
      ensures isMirror && anchorTransform.None? ==> AnchorPose() == CanvasOriginPose()
      ensures anchorTransform.Some? ==> AnchorPose() == old(AnchorPose())
    {
      if isMirror {
        SetAnchorPos(CanvasOriginPos());
        SetAnchorRot(CanvasOriginRot());
      }
    }

    // -------------------------------------------------------------------------
    // visibility and the render pass

    method InitMainCamera(parent: Option<GameObjectId>, cam: Option<CameraId>)
      modifies this`mainCameraParent, this`mainCameraEye
      ensures mainCameraParent == parent && mainCameraEye == cam
    {
      mainCameraParent := parent;
      mainCameraEye := cam;
    }

    /** Called for each camera about to render the surface; only the main
        camera's eye makes it visible. Two absent cameras compare equal. */
    method OnWillRenderObject(current: Option<CameraId>)
      modifies this`canvasVisible
      ensures canvasVisible == (old(canvasVisible) || current == mainCameraEye)
    {
      if current == mainCameraEye {
        canvasVisible := true;
      }
    }

    function PlacementOf(): Placement
      reads this`isMirror, this`canvasOrigin, this`canvasOriginWorldPosition, this`canvasOriginWorldRotation
      reads this`anchorTransform, this`anchorWorldPosition, this`anchorWorldRotation
    {
      Placement(isMirror, CanvasOriginPose(), AnchorPose())
    }

    /** Where the stereo camera head goes for a main camera pose. */
    function HeadPoseFor(mainCam: Pose): Pose
      reads this`isMirror, this`canvasOrigin, this`canvasOriginWorldPosition, this`canvasOriginWorldRotation
      reads this`anchorTransform, this`anchorWorldPosition, this`anchorWorldRotation
    {
      PlacedHead(PlacementOf(), mainCam)
    }

    /** The reflection matrix after the head move: recomputed for a mirror,
        left alone for a portal. */
    function ReflectionFor(): Mat4
      reads this`isMirror, this`canvasOrigin, this`canvasOriginWorldPosition, this`canvasOriginWorldRotation
      reads this`reflectionMat
    {
      if isMirror then ReflectionMatrix(MirrorPlane(CanvasOriginPose())) else reflectionMat
    }

    /** `mainCam` is the main camera eye's world pose; the source reads it
        from mainCameraEye, which must be set. */
    method MoveStereoCameraBasedOnHmdPose(engine: Engine, mainCam: Pose)
      requires mainCameraEye.Some?
      modifies this`stereoCameraHead, this`reflectionMat, engine`trace
      ensures stereoCameraHead == old(HeadPoseFor(mainCam))
      ensures reflectionMat == old(ReflectionFor())
      ensures engine.trace == old(engine.trace) + [HeadMoved(this, stereoCameraHead)]
    {
      if isMirror {
        var plane := MirrorPlane(CanvasOriginPose());
        reflectionMat := ReflectionMatrix(plane);
        ReflectPoint(plane, mainCam.position);
        stereoCameraHead := Pose(MultiplyPoint(reflectionMat, mainCam.position), mainCam.rotation);
      } else {
        var posCanvasToMainCam := Sub(mainCam.position, CanvasOriginPos());
        var rotCanvasToAnchor := QMul(AnchorRot(), Inverse(CanvasOriginRot()));
        var posAnchorToStereoCam := Rotate(rotCanvasToAnchor, posCanvasToMainCam);
        stereoCameraHead := Pose(Add(AnchorPos(), posAnchorToStereoCam), QMul(rotCanvasToAnchor, mainCam.rotation));
      }
      engine.MoveHead(this, stereoCameraHead);
    }

    /** `mainView` is the main camera eye's worldToCameraMatrix. */
    method RenderWithTwoTextures(engine: Engine, factory: ParamFactory, mainView: Mat4)
      modifies engine`trace
      ensures engine.trace == old(engine.trace)
                + CaptureEvents(isMirror, reflectionMat, factory, mainView, nearClipPlane, farClipPlane,
                                engine.invertCulling, engine.objectLayer[..])
    {
      var stereoSeparation := 2.0 * Abs(factory.GetEyeLocalPosition(Left).x);

      var view: Option<Mat4> := None;
      if isMirror {
        view := Some(MatMul(mainView, reflectionMat));
      }
      engine.RenderEye(Left, factory.GetEyeLocalPosition(Left), factory.GetEyeLocalRotation(Left), view,
                       factory.GetProjectionMatrix(Left, nearClipPlane, farClipPlane));
      engine.SetTexture(LeftEyeTextureSlot, Left);

      view := None;
      if isMirror {
        var worldToCamera := ShiftView(mainView, stereoSeparation);
        view := Some(MatMul(worldToCamera, reflectionMat));
      }
      engine.RenderEye(Right, factory.GetEyeLocalPosition(Right), factory.GetEyeLocalRotation(Right), view,
                       factory.GetProjectionMatrix(Right, nearClipPlane, farClipPlane));
      engine.SetTexture(RightEyeTextureSlot, Right);
    }

    /** The engine actions of one render pass: the head move to `head`, the
        pre-listeners, the capture when the surface is `visible`, the
        post-listeners. `reflection` is the reflection matrix in force during
        the capture, `culling` and `layers` GL.invertCulling and the object
        layers before the pass. */
    function PassEvents(visible: bool, head: Pose, reflection: Mat4, culling: bool, layers: seq<int>,
                        mainView: Mat4, factory: Option<ParamFactory>): seq<Event>
      reads this
      requires visible ==> factory.Some?
      requires InRange(ignoreWhenRender, |layers|)
    {
      [HeadMoved(this, head)] + NotifyEvents(visible, reflection, culling, layers, mainView, factory)
    }

    function NotifyEvents(visible: bool, reflection: Mat4, culling: bool, layers: seq<int>,
                          mainView: Mat4, factory: Option<ParamFactory>): seq<Event>
      reads this
      requires visible ==> factory.Some?
      requires InRange(ignoreWhenRender, |layers|)
    {
      Invocations(preRenderListeners)
      + (if visible
         then CaptureEvents(isMirror, reflection, factory.value, mainView, nearClipPlane, farClipPlane,
                            isMirror || culling, Masked(layers, ignoreWhenRender, ignoreLayerNumber))
         else [])
      + Invocations(postRenderListeners)
    }

    /** The masking loop: each occluder's current layer is saved, then the
        occluder is moved onto the ignore layer when that layer exists. */
    method HideOccluders(engine: Engine) returns (saved: seq<int>)
      requires InRange(ignoreWhenRender, engine.objectLayer.Length)
      modifies engine.objectLayer
      ensures engine.objectLayer[..] == Masked(old(engine.objectLayer[..]), ignoreWhenRender, ignoreLayerNumber)
      ensures saved == Saved(old(engine.objectLayer[..]), ignoreWhenRender, ignoreLayerNumber)
    {
      ghost var layers0 := engine.objectLayer[..];
      var ids, layer := ignoreWhenRender, ignoreLayerNumber;
      saved := [];
      var i := 0;
      while i < |ids|
        invariant 0 <= i <= |ids|
        invariant engine.objectLayer[..] == MaskedPrefix(layers0, ids, layer, i)
        invariant saved == SavedPrefix(layers0, ids, layer, i)
      {
        ghost var before := engine.objectLayer[..];
        saved := saved + [engine.objectLayer[ids[i]]];
        if layer > 0 {
          engine.objectLayer[ids[i]] := layer;
        }
        assert engine.objectLayer[..] == Mask(before, ids[i], layer);
        i := i + 1;
      }
    }

    /** The restoring loop as the source writes it: each saved entry is
        written back, first entry first, so an object listed twice ends with
        the entry saved for its last listing. */
    method RestoreOccluders(engine: Engine, saved: seq<int>)
      requires InRange(ignoreWhenRender, engine.objectLayer.Length)
      requires |saved| == |ignoreWhenRender|
      modifies engine.objectLayer
      ensures engine.objectLayer[..] == RestoreForward(old(engine.objectLayer[..]), ignoreWhenRender, saved, |ignoreWhenRender|)
    {
      ghost var start := engine.objectLayer[..];
      var ids := ignoreWhenRender;
      var i := 0;
      while i < |ids|
        invariant 0 <= i <= |ids|
        invariant engine.objectLayer[..] == RestoreForward(start, ids, saved, i)
      {
        engine.objectLayer[ids[i]] := saved[i];
        i := i + 1;
      }
    }

    /** The capture of a visible surface: occluders hidden, culling inverted
        for a mirror, both eyes rendered, culling reset, occluders restored. */
    method Capture(engine: Engine, factory: ParamFactory, mainView: Mat4)
      requires InRange(ignoreWhenRender, engine.objectLayer.Length)
      modifies this`ignoreObjOriginalLayer, engine`trace, engine`invertCulling, engine.objectLayer
      ensures engine.trace == old(engine.trace)
                + CaptureEvents(isMirror, reflectionMat, factory, mainView, nearClipPlane, farClipPlane,
                                isMirror || old(engine.invertCulling),
                                Masked(old(engine.objectLayer[..]), ignoreWhenRender, ignoreLayerNumber))
      ensures engine.objectLayer[..] == Restored(old(engine.objectLayer[..]), ignoreWhenRender, ignoreLayerNumber)
      ensures RestoresExactly(ignoreWhenRender, ignoreLayerNumber) ==> engine.objectLayer[..] == old(engine.objectLayer[..])
      ensures engine.invertCulling == if isMirror then false else old(engine.invertCulling)
      ensures ignoreObjOriginalLayer == Saved(old(engine.objectLayer[..]), ignoreWhenRender, ignoreLayerNumber)
    {
      ghost var layers0 := engine.objectLayer[..];
      ignoreObjOriginalLayer := HideOccluders(engine);

      if isMirror {
        engine.invertCulling := true;
      }
      RenderWithTwoTextures(engine, factory, mainView);
      if isMirror {
        engine.invertCulling := false;
      }

      RestoreOccluders(engine, ignoreObjOriginalLayer);
      if RestoresExactly(ignoreWhenRender, ignoreLayerNumber) {
        RestoreForwardCorrectWhen(layers0, ignoreWhenRender, ignoreLayerNumber);
      }
    }

    /** The render pass. `mainCam` and `mainView` are the main camera eye's
        pose and view matrix; `factory` is the manager's parameter factory,
        which the capture needs. */
    method Render(engine: Engine, mainCam: Pose, mainView: Mat4, factory: Option<ParamFactory>)
      requires mainCameraEye.Some?
      requires canvasVisible ==> factory.Some?
      requires InRange(ignoreWhenRender, engine.objectLayer.Length)
      modifies this`stereoCameraHead, this`reflectionMat, this`canvasVisible, this`ignoreObjOriginalLayer
      modifies engine`trace, engine`invertCulling, engine.objectLayer
      ensures stereoCameraHead == old(HeadPoseFor(mainCam))
      ensures reflectionMat == old(ReflectionFor())
      ensures engine.trace == old(engine.trace)
                + PassEvents(old(canvasVisible), stereoCameraHead, reflectionMat, old(engine.invertCulling),
                             old(engine.objectLayer[..]), mainView, factory)
      ensures engine.objectLayer[..] == if old(canvasVisible)
                then Restored(old(engine.objectLayer[..]), ignoreWhenRender, ignoreLayerNumber)
                else old(engine.objectLayer[..])
      ensures !old(canvasVisible) || RestoresExactly(ignoreWhenRender, ignoreLayerNumber) ==>
                engine.objectLayer[..] == old(engine.objectLayer[..])
      ensures !canvasVisible
      ensures engine.invertCulling == if old(canvasVisible) && isMirror then false else old(engine.invertCulling)
      ensures old(canvasVisible) ==> ignoreObjOriginalLayer == Saved(old(engine.objectLayer[..]), ignoreWhenRender, ignoreLayerNumber)
      ensures !old(canvasVisible) ==> ignoreObjOriginalLayer == old(ignoreObjOriginalLayer)
    {
      MoveStereoCameraBasedOnHmdPose(engine, mainCam);
      CaptureAndNotify(engine, mainView, factory);
    }

    /** The part of the render pass after the head move. */
    method CaptureAndNotify(engine: Engine, mainView: Mat4, factory: Option<ParamFactory>)
      requires canvasVisible ==> factory.Some?
      requires InRange(ignoreWhenRender, engine.objectLayer.Length)
      modifies this`canvasVisible, this`ignoreObjOriginalLayer
      modifies engine`trace, engine`invertCulling, engine.objectLayer
      ensures engine.trace == old(engine.trace)
                + NotifyEvents(old(canvasVisible), reflectionMat, old(engine.invertCulling),
                               old(engine.objectLayer[..]), mainView, factory)
      ensures engine.objectLayer[..] == if old(canvasVisible)
                then Restored(old(engine.objectLayer[..]), ignoreWhenRender, ignoreLayerNumber)
                else old(engine.objectLayer[..])
      ensures !old(canvasVisible) || RestoresExactly(ignoreWhenRender, ignoreLayerNumber) ==>
                engine.objectLayer[..] == old(engine.objectLayer[..])
      ensures !canvasVisible
      ensures engine.invertCulling == if old(canvasVisible) && isMirror then false else old(engine.invertCulling)
      ensures old(canvasVisible) ==> ignoreObjOriginalLayer == Saved(old(engine.objectLayer[..]), ignoreWhenRender, ignoreLayerNumber)
      ensures !old(canvasVisible) ==> ignoreObjOriginalLayer == old(ignoreObjOriginalLayer)
    {
      if canvasVisible {
        CaptureVisible(engine, mainView, factory.value);
      } else {
        engine.Invoke(preRenderListeners);
        engine.Invoke(postRenderListeners);
      }
    }

    /** CaptureAndNotify on a visible canvas: the pre-listeners, the capture, then the post-listeners. */
    method CaptureVisible(engine: Engine, mainView: Mat4, factory: ParamFactory)
      requires canvasVisible
      requires InRange(ignoreWhenRender, engine.objectLayer.Length)
      modifies this`canvasVisible, this`ignoreObjOriginalLayer
      modifies engine`trace, engine`invertCulling, engine.objectLayer
      ensures engine.trace == old(engine.trace) + Invocations(preRenderListeners)
                + CaptureEvents(isMirror, reflectionMat, factory, mainView, nearClipPlane, farClipPlane,
                                isMirror || old(engine.invertCulling),
                                Masked(old(engine.objectLayer[..]), ignoreWhenRender, ignoreLayerNumber))
                + Invocations(postRenderListeners)
      ensures engine.objectLayer[..] == Restored(old(engine.objectLayer[..]), ignoreWhenRender, ignoreLayerNumber)
      ensures RestoresExactly(ignoreWhenRender, ignoreLayerNumber) ==> engine.objectLayer[..] == old(engine.objectLayer[..])
      ensures !canvasVisible
      ensures engine.invertCulling == if isMirror then false else old(engine.invertCulling)
      ensures ignoreObjOriginalLayer == Saved(old(engine.objectLayer[..]), ignoreWhenRender, ignoreLayerNumber)
    {
      engine.Invoke(preRenderListeners);
      Capture(engine, factory, mainView);
      canvasVisible := false;
      engine.Invoke(postRenderListeners);
    }

    // -------------------------------------------------------------------------
    // listeners

    method AddPreRenderListener(listener: Option<Listener>)
      modifies this`preRenderListeners
      ensures preRenderListeners == AddListener(old(preRenderListeners), listener)
    {
      if listener.None? { return; }
      preRenderListeners := preRenderListeners + [listener.value];
    }

    method AddPostRenderListener(listener: Option<Listener>)
      modifies this`postRenderListeners
      ensures postRenderListeners == AddListener(old(postRenderListeners), listener)
    {
      if listener.None? { return; }
      postRenderListeners := postRenderListeners + [listener.value];
    }

    method RemovePreRenderListener(listener: Option<Listener>)
      modifies this`preRenderListeners
      ensures preRenderListeners == RemoveListener(old(preRenderListeners), listener)
    {
      if listener.None? { return; }
      preRenderListeners := RemoveLast(preRenderListeners, listener.value);
    }

    method RemovePostRenderListener(listener: Option<Listener>)
      modifies this`postRenderListeners
      ensures postRenderListeners == RemoveListener(old(postRenderListeners), listener)
    {
      if listener.None? { return; }
      postRenderListeners := RemoveLast(postRenderListeners, listener.value);
    }

    // -------------------------------------------------------------------------
    // the culling step of Start

    /** `nameToLayer` is LayerMask.NameToLayer(ignoreLayerName), -1 when the
        layer does not exist. Returns whether the missing layer is reported;
        otherwise the layer's bit is cleared from the eye camera's mask, even
        when the layer is missing and there are no occluders. */
    method StartCulling(nameToLayer: int) returns (reported: bool)
      modifies this`ignoreLayerNumber, this`cullingMask
      ensures ignoreLayerNumber == nameToLayer
      ensures reported <==> |ignoreWhenRender| != 0 && nameToLayer == -1
      ensures reported ==> cullingMask == old(cullingMask)
      ensures !reported ==> cullingMask == ClearLayerBit(old(cullingMask), ShiftCount(nameToLayer))
    {
      ignoreLayerNumber := nameToLayer;
      if |ignoreWhenRender| != 0 && ignoreLayerNumber == -1 {
        reported := true;
      } else {
        reported := false;
        cullingMask := ClearLayerBit(cullingMask, ShiftCount(ignoreLayerNumber));
      }
    }

    // -------------------------------------------------------------------------
    // editor: injecting the ignore layer into the tag manager's layer names

    /** `layers` are the tag manager's layer names; an index past the end
        reads as a missing entry. Returns whether the layer exists afterwards;
        false is the case the source reports as having no open slot. */
    method LayerInjection(layers: array<string>, layerName: string) returns (layerExisting: bool)
      modifies layers
      ensures layers[..] == Injected(old(layers[..]), layerName)
      ensures layerExisting == InjectionSucceeds(old(layers[..]), layerName)
    {
      ghost var names := layers[..];
      layerExisting := false;
      var i := 8;
      while i < layers.Length
        invariant 8 <= i
        invariant forall j :: 8 <= j < i && j < layers.Length ==> layers[j] != layerName
        decreases layers.Length - i
      {
        if layers[i] == layerName {
          layerExisting := true;
          break;
        }
        i := i + 1;
      }
      assert layerExisting <==> FindLayer(names, layerName, 8) != -1;

      if !layerExisting {
        var slot := -1;
        i := 8;
        while i <= 31
          invariant 8 <= i <= 32
          invariant forall j :: 8 <= j < i && j < layers.Length ==> layers[j] != ""
        {
          if i < layers.Length && layers[i] == "" {
            slot := i;
            break;
          }
          i := i + 1;
        }
        assert slot == FirstOpenSlot(names, 8);

        if slot != -1 {
          layers[slot] := layerName;
          layerExisting := true;
        }
      }
    }
  }

  // ---------------------------------------------------------------------------
  // the culling mask

  /** The shift count C# uses for `1 << layer` on an int: the low five bits
      of the layer number, that is layer modulo 32. */
  function ShiftCount(layer: int): (s: bv5)
    ensures s as int == layer % 32
  {
    (layer % 32) as bv5
  }

  /** `1 << s` on a 32-bit int. */
  function LayerBit(s: bv5): bv32 {
    (1 as bv32) << s
  }

  /** `mask &= ~(1 << s)`. */
  function ClearLayerBit(mask: bv32, s: bv5): bv32 {
    mask & !LayerBit(s)
  }

  /** The layer's bit is off afterwards ... */
  lemma ClearLayerBitClears(mask: bv32, s: bv5)
    ensures ClearLayerBit(mask, s) & LayerBit(s) == 0
  {
  }

  /** ... and every other bit is as it was. */
  lemma ClearLayerBitKeepsOthers(mask: bv32, s: bv5, t: bv5)
    requires s != t
    ensures ClearLayerBit(mask, s) & LayerBit(t) == mask & LayerBit(t)
  {
  }

  /** A missing ignore layer (-1) shifts by 31: the eye camera loses the top
      bit of its mask, layer 31. */
  lemma MissingLayerClearsTopBit(mask: bv32)
    ensures ShiftCount(-1) == 31
    ensures ClearLayerBit(mask, ShiftCount(-1)) == mask & 0x7FFF_FFFF
  {
    assert -1 % 32 == 31;
  }

  // ---------------------------------------------------------------------------
  // layer injection, as functions

  /** First index from i on holding `name`, or -1. */
  function FindLayer(names: seq<string>, name: string, i: nat): (k: int)
    ensures k == -1 <==> forall j :: i <= j < |names| ==> names[j] != name
    ensures k != -1 ==> i <= k < |names| && names[k] == name && forall j :: i <= j < k ==> names[j] != name
    decreases |names| - i
  {
    if i >= |names| then -1
    else if names[i] == name then i
    else FindLayer(names, name, i + 1)
  }

  /** First index from i to 31 holding an empty name, or -1; indices past the
      end of `names` are missing entries and never open. */
  function FirstOpenSlot(names: seq<string>, i: nat): (k: int)
    ensures k == -1 <==> forall j :: i <= j <= 31 && j < |names| ==> names[j] != ""
    ensures k != -1 ==> i <= k <= 31 && k < |names| && names[k] == "" && forall j :: i <= j < k ==> names[j] != ""
    decreases 32 - i
  {
    if i > 31 then -1
    else if i < |names| && names[i] == "" then i
    else FirstOpenSlot(names, i + 1)
  }

  /** The layer names after injecting `name`: unchanged when a user layer
      (index 8 on) already has the name, else the first open user slot up to
      31 takes it, else unchanged. */
  function Injected(names: seq<string>, name: string): seq<string> {
    if FindLayer(names, name, 8) != -1 then names
    else
      var slot := FirstOpenSlot(names, 8);
      if slot == -1 then names else names[slot := name]
  }

  predicate InjectionSucceeds(names: seq<string>, name: string) {
    FindLayer(names, name, 8) != -1 || FirstOpenSlot(names, 8) != -1
  }

  /** Injection succeeds exactly when a user layer carries the name afterwards. */
  lemma InjectionResult(names: seq<string>, name: string)
    ensures InjectionSucceeds(names, name) <==> FindLayer(Injected(names, name), name, 8) != -1
  {
    var after := Injected(names, name);
    if FindLayer(names, name, 8) == -1 {
      var slot := FirstOpenSlot(names, 8);
      if slot != -1 {
        assert after[slot] == name;
      } else {
        assert after == names;
      }
    }
  }

  /** Injecting twice is injecting once. */
  lemma InjectionIdempotent(names: seq<string>, name: string)
    ensures Injected(Injected(names, name), name) == Injected(names, name)
  {
    var after := Injected(names, name);
    if FindLayer(names, name, 8) == -1 && FirstOpenSlot(names, 8) != -1 {
      assert after[FirstOpenSlot(names, 8)] == name;
    }
  }

  /** Injection overwrites at most one entry, and only an empty one. */
  lemma InjectionOverwritesOnlyAnOpenSlot(names: seq<string>, name: string, j: nat)
    requires j < |names|
    ensures |Injected(names, name)| == |names|
    ensures Injected(names, name)[j] != names[j] ==> 8 <= j <= 31 && names[j] == "" && Injected(names, name)[j] == name
  {
  }

  // ---------------------------------------------------------------------------
  // properties of a render pass

  /** The shape of a pass: the head moves first, then every pre-listener runs;
      a visible surface is captured left eye first, each eye into its own
      texture, with the occluders hidden and the culling inverted for a
      mirror; an invisible one is not captured at all; the post-listeners
      run last. */
  lemma PassOrder(r: StereoRenderer, visible: bool, head: Pose, reflection: Mat4, culling: bool, layers: seq<int>,
                  mainView: Mat4, factory: Option<ParamFactory>)
    requires visible ==> factory.Some?
    requires InRange(r.ignoreWhenRender, |layers|)
    ensures var ev := r.PassEvents(visible, head, reflection, culling, layers, mainView, factory);
            var n := |r.preRenderListeners|;
            var c := if visible then 4 else 0;
            && |ev| == 1 + n + c + |r.postRenderListeners|
            && ev[0] == HeadMoved(r, head)
            && ev[1..1 + n] == Invocations(r.preRenderListeners)
            && ev[1 + n + c..] == Invocations(r.postRenderListeners)
            && (visible <==> exists i :: 0 <= i < |ev| && ev[i].EyeRendered?)
            && (visible ==>
                  && ev[1 + n].EyeRendered? && ev[1 + n].target == Left
                  && ev[2 + n] == TextureBound(LeftEyeTextureSlot, Left)
                  && ev[3 + n].EyeRendered? && ev[3 + n].target == Right
                  && ev[4 + n] == TextureBound(RightEyeTextureSlot, Right)
                  && ev[1 + n].layers == ev[3 + n].layers == Masked(layers, r.ignoreWhenRender, r.ignoreLayerNumber)
                  && ev[1 + n].invertCulling == ev[3 + n].invertCulling == (r.isMirror || culling))
  {
    var ev := r.PassEvents(visible, head, reflection, culling, layers, mainView, factory);
    var n := |r.preRenderListeners|;
    var pre, post := Invocations(r.preRenderListeners), Invocations(r.postRenderListeners);
    if visible {
      assert ev[1 + n].EyeRendered?;
    } else {
      assert ev == [HeadMoved(r, head)] + pre + post;
      forall i | 0 <= i < |ev|
        ensures !ev[i].EyeRendered?
      {
        if i == 0 {
        } else if i <= n {
          assert ev[i] == pre[i - 1];
          InvocationsAt(r.preRenderListeners, i - 1);
        } else {
          assert ev[i] == post[i - 1 - n];
          InvocationsAt(r.postRenderListeners, i - 1 - n);
        }
      }
    }
  }

  lemma ShiftRow(a0: real, a1: real, a2: real, a3: real, s: real, r0: real, r1: real, r2: real, r3: real)
    requires r3 == 0.0
    ensures a0 * r0 + a1 * r1 + a2 * r2 + (a3 - s) * r3 == a0 * r0 + a1 * r1 + a2 * r2 + a3 * r3
  {
  }

  lemma ShiftLast(a0: real, a1: real, a2: real, a3: real, s: real, r0: real, r1: real, r2: real, r3: real)
    requires r3 == 1.0
    ensures a0 * r0 + a1 * r1 + a2 * r2 + (a3 - s) * r3 == a0 * r0 + a1 * r1 + a2 * r2 + a3 * r3 - s
  {
  }

  lemma ShiftedEntry00(v: Mat4, r: Mat4, separation: real)
    requires r.m30 == 0.0
    ensures MatMul(ShiftView(v, separation), r).m00 == MatMul(v, r).m00
  {
    MatMulEntry00(ShiftView(v, separation), r);
    MatMulEntry00(v, r);
    ShiftRow(v.m00, v.m01, v.m02, v.m03, separation, r.m00, r.m10, r.m20, r.m30);
  }

  lemma ShiftedEntry01(v: Mat4, r: Mat4, separation: real)
    requires r.m31 == 0.0
    ensures MatMul(ShiftView(v, separation), r).m01 == MatMul(v, r).m01
  {
    MatMulEntry01(ShiftView(v, separation), r);
    MatMulEntry01(v, r);
    ShiftRow(v.m00, v.m01, v.m02, v.m03, separation, r.m01, r.m11, r.m21, r.m31);
  }

  lemma ShiftedEntry02(v: Mat4, r: Mat4, separation: real)
    requires r.m32 == 0.0
    ensures MatMul(ShiftView(v, separation), r).m02 == MatMul(v, r).m02
  {
    MatMulEntry02(ShiftView(v, separation), r);
    MatMulEntry02(v, r);
    ShiftRow(v.m00, v.m01, v.m02, v.m03, separation, r.m02, r.m12, r.m22, r.m32);
  }

  lemma ShiftedEntry03(v: Mat4, r: Mat4, separation: real)
    requires r.m33 == 1.0
    ensures MatMul(ShiftView(v, separation), r).m03 == MatMul(v, r).m03 - separation
  {
    MatMulEntry03(ShiftView(v, separation), r);
    MatMulEntry03(v, r);
    ShiftLast(v.m00, v.m01, v.m02, v.m03, separation, r.m03, r.m13, r.m23, r.m33);
  }

  /** A mirror's right-eye view is its left-eye view shifted by the stereo
      separation along the camera's x axis: a matrix with bottom row
      (0, 0, 0, 1), as every reflection matrix has, carries the shift through
      unchanged. */
  lemma RightEyeViewIsShifted(mainView: Mat4, reflection: Mat4, separation: real)
    requires reflection.m30 == 0.0 && reflection.m31 == 0.0 && reflection.m32 == 0.0 && reflection.m33 == 1.0
    ensures MatMul(ShiftView(mainView, separation), reflection) == ShiftView(MatMul(mainView, reflection), separation)
  {
    ShiftedEntry00(mainView, reflection, separation);
    ShiftedEntry01(mainView, reflection, separation);
    ShiftedEntry02(mainView, reflection, separation);
    ShiftedEntry03(mainView, reflection, separation);
    LowerRowsAgree(ShiftView(mainView, separation), mainView, reflection);
  }

  /** Two matrices that differ only in their top row give products that
      differ only in their top row. */
  lemma LowerRowsAgree(a: Mat4, b: Mat4, r: Mat4)
    requires a.m10 == b.m10 && a.m11 == b.m11 && a.m12 == b.m12 && a.m13 == b.m13
    requires a.m20 == b.m20 && a.m21 == b.m21 && a.m22 == b.m22 && a.m23 == b.m23
    requires a.m30 == b.m30 && a.m31 == b.m31 && a.m32 == b.m32 && a.m33 == b.m33
    ensures MatMul(a, r).m10 == MatMul(b, r).m10 && MatMul(a, r).m11 == MatMul(b, r).m11
    ensures MatMul(a, r).m12 == MatMul(b, r).m12 && MatMul(a, r).m13 == MatMul(b, r).m13
    ensures MatMul(a, r).m20 == MatMul(b, r).m20 && MatMul(a, r).m21 == MatMul(b, r).m21
    ensures MatMul(a, r).m22 == MatMul(b, r).m22 && MatMul(a, r).m23 == MatMul(b, r).m23
    ensures MatMul(a, r).m30 == MatMul(b, r).m30 && MatMul(a, r).m31 == MatMul(b, r).m31
    ensures MatMul(a, r).m32 == MatMul(b, r).m32 && MatMul(a, r).m33 == MatMul(b, r).m33
  {
    SecondRowAgrees(a, b, r);
    ThirdRowAgrees(a, b, r);
    FourthRowAgrees(a, b, r);
  }

  lemma SecondRowAgrees(a: Mat4, b: Mat4, r: Mat4)
    requires a.m10 == b.m10 && a.m11 == b.m11 && a.m12 == b.m12 && a.m13 == b.m13
    ensures MatMul(a, r).m10 == MatMul(b, r).m10 && MatMul(a, r).m11 == MatMul(b, r).m11
    ensures MatMul(a, r).m12 == MatMul(b, r).m12 && MatMul(a, r).m13 == MatMul(b, r).m13
  {
    MatMulEntry10(a, r);
    MatMulEntry10(b, r);
    MatMulEntry11(a, r);
    MatMulEntry11(b, r);
    MatMulEntry12(a, r);
    MatMulEntry12(b, r);
    MatMulEntry13(a, r);
    MatMulEntry13(b, r);
  }

  lemma ThirdRowAgrees(a: Mat4, b: Mat4, r: Mat4)
    requires a.m20 == b.m20 && a.m21 == b.m21 && a.m22 == b.m22 && a.m23 == b.m23
    ensures MatMul(a, r).m20 == MatMul(b, r).m20 && MatMul(a, r).m21 == MatMul(b, r).m21
    ensures MatMul(a, r).m22 == MatMul(b, r).m22 && MatMul(a, r).m23 == MatMul(b, r).m23
  {
    MatMulEntry20(a, r);
    MatMulEntry20(b, r);
    MatMulEntry21(a, r);
    MatMulEntry21(b, r);
    MatMulEntry22(a, r);
    MatMulEntry22(b, r);
    MatMulEntry23(a, r);
    MatMulEntry23(b, r);
  }

  lemma FourthRowAgrees(a: Mat4, b: Mat4, r: Mat4)
    requires a.m30 == b.m30 && a.m31 == b.m31 && a.m32 == b.m32 && a.m33 == b.m33
    ensures MatMul(a, r).m30 == MatMul(b, r).m30 && MatMul(a, r).m31 == MatMul(b, r).m31
    ensures MatMul(a, r).m32 == MatMul(b, r).m32 && MatMul(a, r).m33 == MatMul(b, r).m33
  {
    MatMulEntry30(a, r);
    MatMulEntry30(b, r);
    MatMulEntry31(a, r);
    MatMulEntry31(b, r);
    MatMulEntry32(a, r);
    MatMulEntry32(b, r);
    MatMulEntry33(a, r);
    MatMulEntry33(b, r);
  }


}
