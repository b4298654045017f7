// StereoRenderManager: the per-application coordinator. A singleton attached
// to the head-mounted display's camera; once per frame, before that camera
// renders, it renders every registered stereo surface between its own global
// pre- and post-listeners.
//
// The static part of the class (the singleton reference, the quitting flag
// and the recorded HMD camera) is the ManagerStatics object. What the engine
// lookups in Initialize would find (FindObjectsOfType, the SteamVR camera,
// Camera.main, VRSettings.enabled) is a Scene value; Debug.LogError calls are
// returned as the list of messages logged.

module Manager {
  import opened Wrappers
  import opened Geometry
  import opened DeviceParamFactory
  import opened StereoRenderDevice
  import opened InvocationList
  import opened Occluders
  import opened Renderer

  /** The messages the manager writes with Debug.LogError. */
  datatype LogError =
    | MultipleManagers     // "Multiple StereoRenderManager is not supported."
    | VRNotEnabled         // "VR is not enabled for this application."
    | NoCameraOnManager    // "You attached StereoRenderManager to an object without camera component!"
    | NeedSteamVRCamera    // "Need SteamVR_Camera for Unity 5.3."
    | NoMainCamera         // "No Camera tagged as \"MainCamera\" found."
    | NoRigParent          // "HMD Camera is not in proper hierarchy. ..."
    | UnsupportedDevice    // "Current VR device is unsupported."

  /** A camera: its identity and the game object its transform hangs under
      (None at the root of the hierarchy). */
  datatype CameraInfo = CameraInfo(camera: CameraId, parent: Option<GameObjectId>)

  /** What Initialize's engine lookups find. `unity53` is the Unity 5.3
      compile branch (otherwise UNITY_5_4_OR_NEWER holds). */
  datatype Scene = Scene(
    managers: seq<StereoRenderManager>,  // FindObjectsOfType<StereoRenderManager>()
    unity53: bool,
    vrEnabled: bool,                      // VRSettings.enabled
    steamVRCameraFound: bool,             // FindObjectOfType<SteamVR_Camera>() != null
    steamVRCamera: Option<CameraInfo>,    // that object's Camera component
    mainCamera: Option<CameraInfo>)       // Camera.main

  /** GetHmdCamera: the camera on an already chosen manager's game object;
      otherwise the SteamVR camera; otherwise (not on Unity 5.3) Camera.main.
      The second component is what it logs. */
  function HmdCamera(instance: Option<StereoRenderManager>, scene: Scene): (Option<CameraInfo>, seq<LogError>) {
    if instance.Some? then
      (instance.value.hostCamera, if instance.value.hostCamera.None? then [NoCameraOnManager] else [])
    else if scene.steamVRCameraFound then
      (scene.steamVRCamera, [])
    else if scene.unity53 then
      (None, [NeedSteamVRCamera])
    else
      (scene.mainCamera, if scene.mainCamera.None? then [NoMainCamera] else [])
  }

  /** The manager Initialize adopts from the scene: the first one found. */
  function FirstManager(managers: seq<StereoRenderManager>): Option<StereoRenderManager> {
    if |managers| > 0 then Some(managers[0]) else None
  }

  /** A camera fit to be the HMD camera: present and under a rig object. */
  predicate InRig(cam: Option<CameraInfo>) {
    cam.Some? && cam.value.parent.Some?
  }

  /** Everything one Initialize call that does not return early logs, in order. */
  function InitializeLog(scene: Scene): seq<LogError> {
    var cam := HmdCamera(FirstManager(scene.managers), scene);
    (if |scene.managers| > 1 then [MultipleManagers] else [])
    + (if !scene.unity53 && !scene.vrEnabled then [VRNotEnabled] else [])
    + cam.1
    + (if cam.0.Some? && cam.0.value.parent.None? then [NoRigParent] else [])
  }

  /** The static fields of StereoRenderManager. */
  class ManagerStatics {
    var instance: Option<StereoRenderManager>
    var isApplicationQuitting: bool
    var mainCamera: Option<CameraId>
    var mainCameraParent: Option<GameObjectId>

    constructor ()
      ensures instance == None && !isApplicationQuitting && mainCamera == None && mainCameraParent == None
    {
      instance := None;
      isApplicationQuitting := false;
      mainCamera := None;
      mainCameraParent := None;
    }

    predicate Active()
      reads this
    {
      instance.Some?
    }

    /** The singleton set-up. Nothing happens while a manager is active or
        after the application started quitting. Otherwise the first manager in
        the scene is adopted; failing that, one is attached to the HMD camera,
        provided that camera exists and sits under a rig. The HMD camera and
        its rig are recorded exactly when that proviso holds. */
    method Initialize(scene: Scene) returns (logged: seq<LogError>)
      modifies this
      ensures isApplicationQuitting == old(isApplicationQuitting)
      ensures old(Active() || isApplicationQuitting) ==>
                instance == old(instance) && mainCamera == old(mainCamera)
                && mainCameraParent == old(mainCameraParent) && logged == []
      ensures !old(Active() || isApplicationQuitting) ==>
                var found := FirstManager(scene.managers);
                var cam := HmdCamera(found, scene).0;
                && logged == InitializeLog(scene)
                && (found.Some? ==> instance == found)
                && (found.None? && InRig(cam) ==>
                      instance.Some? && fresh(instance.value) && instance.value.hostCamera == cam)
                && (found.None? && !InRig(cam) ==> instance == None)
                && (InRig(cam) ==> mainCamera == Some(cam.value.camera) && mainCameraParent == cam.value.parent)
                && (!InRig(cam) ==> mainCamera == old(mainCamera) && mainCameraParent == old(mainCameraParent))
    {
      logged := [];
      if instance.Some? || isApplicationQuitting {
        return;
      }

      var instances := scene.managers;
      if |instances| > 0 {
        instance := Some(instances[0]);
        if |instances| > 1 {
          logged := logged + [MultipleManagers];
        }
      }

      if !scene.unity53 && !scene.vrEnabled {
        logged := logged + [VRNotEnabled];
      }

      var mainCam, camLog := HmdCamera(instance, scene).0, HmdCamera(instance, scene).1;
      logged := logged + camLog;
      if mainCam.None? {
        return;
      }
      if mainCam.value.parent.None? {
        logged := logged + [NoRigParent];
        return;
      }

      if instance.None? {
        var created := new StereoRenderManager(mainCam);
        instance := Some(created);
      }

      if instance.Some? {
        mainCamera := Some(mainCam.value.camera);
        mainCameraParent := mainCam.value.parent;
      }
    }

    /** The Instance property: Initialize, then the singleton. */
    method Instance(scene: Scene) returns (r: Option<StereoRenderManager>, logged: seq<LogError>)
      modifies this
      ensures isApplicationQuitting == old(isApplicationQuitting)
      ensures old(Active() || isApplicationQuitting) ==> r == old(instance) && logged == []
      ensures !old(Active() || isApplicationQuitting) ==> logged == InitializeLog(scene)
      ensures r == instance
    {
      logged := Initialize(scene);
      r := instance;
    }

    /** OnApplicationQuit. The flag is never cleared again: Initialize keeps
        it and, with it set, leaves the singleton alone. */
    method OnApplicationQuit()
      modifies this`isApplicationQuitting
      ensures isApplicationQuitting
    {
      isApplicationQuitting := true;
    }
  }

  /** One StereoRenderManager component. */
  class StereoRenderManager {
    /** The Camera component on the manager's own game object. */
    const hostCamera: Option<CameraInfo>

    var hmdType: HmdType
    var paramFactory: Option<ParamFactory>
    var stereoRendererList: seq<StereoRenderer>
    var preRenderListeners: seq<Listener>
    var postRenderListeners: seq<Listener>

    /** AddComponent<StereoRenderManager>() on a game object with `camera`. */
    constructor (camera: Option<CameraInfo>)
      ensures hostCamera == camera && hmdType == Unsupported && paramFactory == None
      ensures stereoRendererList == [] && preRenderListeners == [] && postRenderListeners == []
    {
      hostCamera := camera;
      hmdType := Unsupported;
      paramFactory := None;
      stereoRendererList := [];
      preRenderListeners := [];
      postRenderListeners := [];
    }

    /** Lazy device set-up: only while there is no factory; an unsupported
        device leaves none, so the next call tries again. */
    method InitParamFactory(host: HostVR, runtime: SteamVRRuntime) returns (logged: seq<LogError>)
      modifies this`hmdType, this`paramFactory
      ensures old(paramFactory).Some? ==>
                paramFactory == old(paramFactory) && hmdType == old(hmdType) && logged == []
      ensures old(paramFactory).None? ==>
                && hmdType == GetHmdType(host)
                && paramFactory == StereoRenderDevice.InitParamFactory(hmdType, runtime)
                && (paramFactory.Some? <==> hmdType == SteamVR)
                && logged == (if paramFactory.None? then [UnsupportedDevice] else [])
    {
      logged := [];
      if paramFactory.None? {
        hmdType := GetHmdType(host);
        paramFactory := StereoRenderDevice.InitParamFactory(hmdType, runtime);
        if paramFactory.None? {
          logged := [UnsupportedDevice];
        }
      }
    }

    /** The per-frame pass, before the HMD camera renders: the global
        pre-listeners, then Render on each registered surface whose
        shouldRender is set, in list order, then the global post-listeners.
        `mainCam` and `mainView` are the HMD eye camera's pose and view matrix.
        `passes` is the part of the trace between the two listener runs. */
    method OnPreRender(engine: Engine, mainCam: Pose, mainView: Mat4) returns (ghost passes: seq<Event>)
      requires forall k | 0 <= k < |stereoRendererList| ::
                 InRange(stereoRendererList[k].ignoreWhenRender, engine.objectLayer.Length)
      requires forall k | 0 <= k < |stereoRendererList| ::
                 stereoRendererList[k].shouldRender ==> stereoRendererList[k].mainCameraEye.Some?
      requires forall k | 0 <= k < |stereoRendererList| ::
                 stereoRendererList[k].shouldRender && stereoRendererList[k].canvasVisible ==> paramFactory.Some?
      modifies engine`trace, engine`invertCulling, engine.objectLayer
      modifies (set r | r in stereoRendererList && r.shouldRender)`stereoCameraHead
      modifies (set r | r in stereoRendererList && r.shouldRender)`reflectionMat
      modifies (set r | r in stereoRendererList && r.shouldRender)`canvasVisible
      modifies (set r | r in stereoRendererList && r.shouldRender)`ignoreObjOriginalLayer
      ensures stereoRendererList == old(stereoRendererList)
      ensures engine.trace == old(engine.trace) + Invocations(preRenderListeners) + passes
                              + Invocations(postRenderListeners)
      ensures Surfaces(passes) == old(Selected(stereoRendererList))
      ensures engine.objectLayer[..] == old(FrameResult(engine.objectLayer[..], stereoRendererList))
      ensures old(AllRestoreExactly(stereoRendererList)) ==> engine.objectLayer[..] == old(engine.objectLayer[..])
      ensures forall k | 0 <= k < |stereoRendererList| :: old(stereoRendererList[k].shouldRender) ==>
                !stereoRendererList[k].canvasVisible
                && stereoRendererList[k].stereoCameraHead == old(stereoRendererList[k].HeadPoseFor(mainCam))
    {
      passes := RenderSelected(engine, stereoRendererList, preRenderListeners, mainCam, mainView, paramFactory);
      engine.Invoke(postRenderListeners);
    }

    /** Registration: the surface gets the recorded HMD camera and rig and is
        appended, so a surface added twice is rendered twice. */
    method AddToManager(statics: ManagerStatics, stereoRenderer: StereoRenderer)
      modifies this`stereoRendererList, stereoRenderer`mainCameraParent, stereoRenderer`mainCameraEye
      ensures stereoRenderer.mainCameraParent == statics.mainCameraParent
      ensures stereoRenderer.mainCameraEye == statics.mainCamera
      ensures stereoRendererList == old(stereoRendererList) + [stereoRenderer]
    {
      stereoRenderer.InitMainCamera(statics.mainCameraParent, statics.mainCamera);
      stereoRendererList := stereoRendererList + [stereoRenderer];
    }

    /** List.Remove: the first occurrence goes; an absent surface changes nothing. */
    method RemoveFromManager(stereoRenderer: StereoRenderer)
      modifies this`stereoRendererList
      ensures stereoRendererList == RemoveFirst(old(stereoRendererList), stereoRenderer)
    {
      stereoRendererList := RemoveFirst(stereoRendererList, stereoRenderer);
    }

    method AddPreRenderListener(listener: Option<Listener>)
      modifies this`preRenderListeners
      ensures preRenderListeners == AddListener(old(preRenderListeners), listener)
    {
      if listener.None? { return; }
      preRenderListeners := preRenderListeners + [listener.value];
    }

    method AddPostRenderListener(listener: Option<Listener>)
      modifies this`postRenderListeners
      ensures postRenderListeners == AddListener(old(postRenderListeners), listener)
    {
      if listener.None? { return; }
      postRenderListeners := postRenderListeners + [listener.value];
    }

    method RemovePreRenderListener(listener: Option<Listener>)
      modifies this`preRenderListeners
      ensures preRenderListeners == RemoveListener(old(preRenderListeners), listener)
    {
      if listener.None? { return; }
      preRenderListeners := RemoveLast(preRenderListeners, listener.value);
    }

    method RemovePostRenderListener(listener: Option<Listener>)
      modifies this`postRenderListeners
      ensures postRenderListeners == RemoveListener(old(postRenderListeners), listener)
    {
      if listener.None? { return; }
      postRenderListeners := RemoveLast(postRenderListeners, listener.value);
    }
  }

  /** OnPreRender up to the global post-listeners: the pre-listeners, then
      Render on each entry of `list` whose shouldRender is set, in list
      order. */
  method RenderSelected(engine: Engine, list: seq<StereoRenderer>, preListeners: seq<Listener>, mainCam: Pose,
                        mainView: Mat4, factory: Option<ParamFactory>) returns (ghost passes: seq<Event>)
    requires forall k | 0 <= k < |list| :: InRange(list[k].ignoreWhenRender, engine.objectLayer.Length)
    requires forall k | 0 <= k < |list| :: list[k].shouldRender ==> list[k].mainCameraEye.Some?
    requires forall k | 0 <= k < |list| :: list[k].shouldRender && list[k].canvasVisible ==> factory.Some?
    modifies engine`trace, engine`invertCulling, engine.objectLayer
    modifies (set r | r in list && r.shouldRender)`stereoCameraHead
    modifies (set r | r in list && r.shouldRender)`reflectionMat
    modifies (set r | r in list && r.shouldRender)`canvasVisible
    modifies (set r | r in list && r.shouldRender)`ignoreObjOriginalLayer
    ensures engine.trace == old(engine.trace) + Invocations(preListeners) + passes
    ensures Surfaces(passes) == old(Selected(list))
    ensures engine.objectLayer[..] == old(FrameResult(engine.objectLayer[..], list))
    ensures old(AllRestoreExactly(list)) ==> engine.objectLayer[..] == old(engine.objectLayer[..])
    ensures forall k | 0 <= k < |list| :: old(list[k].shouldRender) ==>
              !list[k].canvasVisible && list[k].stereoCameraHead == old(list[k].HeadPoseFor(mainCam))
  {
    ghost var flags, setups, layers0 := ShouldRenderFlags(list), Setups(list), engine.objectLayer[..];
    ghost var heads := Heads(setups, mainCam);
    forall k | 0 <= k < |list|
      ensures flags[k] == list[k].shouldRender
      ensures flags[k] && setups[k].visible ==> factory.Some?
      ensures heads[k] == list[k].HeadPoseFor(mainCam)
    {
      ShouldRenderFlagsAt(list, k);
    }
    assert Selected(list) == Filter(list, flags);
    assert FrameResult(layers0, list) == FrameLayers(layers0, list, flags, setups, |list|);
    if AllRestoreExactly(list) {
      FrameLayersExact(layers0, list, flags, setups, |list|);
    }
    engine.Invoke(preListeners);
    passes := RenderSurfaces(engine, list, flags, setups, heads, mainCam, mainView, factory);
    FilterAll(list, flags);
    forall k | 0 <= k < |list| && old(list[k].shouldRender)
      ensures !list[k].canvasVisible && list[k].stereoCameraHead == old(list[k].HeadPoseFor(mainCam))
    {
      assert flags[k];
    }
  }

  /** The loop of OnPreRender over a snapshot `list` of the registered
      surfaces. `flags` are their shouldRender flags, `setups` what Render
      reads of them when the loop starts and `heads` where their heads go.
      Of each surface it renders, only the four fields Render writes may
      change. */
  method RenderSurfaces(engine: Engine, list: seq<StereoRenderer>, ghost flags: seq<bool>, ghost setups: seq<Setup>,
                        ghost heads: seq<Pose>, mainCam: Pose, mainView: Mat4, factory: Option<ParamFactory>)
    returns (ghost passes: seq<Event>)
    requires |flags| == |list| && |setups| == |list| && |heads| == |list|
    requires forall k | 0 <= k < |list| :: flags[k] == list[k].shouldRender
    requires forall k | 0 <= k < |list| :: setups[k] == SetupOf(list[k])
    requires forall k {:trigger PlacedHead(setups[k].placement, mainCam)} | 0 <= k < |list| ::
               heads[k] == PlacedHead(setups[k].placement, mainCam)
    requires forall k | 0 <= k < |list| :: InRange(setups[k].occluders, engine.objectLayer.Length)
    requires forall k | 0 <= k < |list| :: flags[k] ==> list[k].mainCameraEye.Some?
    requires forall k | 0 <= k < |list| :: flags[k] && setups[k].visible ==> factory.Some?
    modifies engine`trace, engine`invertCulling, engine.objectLayer
    modifies Rendered(list, flags)`stereoCameraHead, Rendered(list, flags)`reflectionMat
    modifies Rendered(list, flags)`canvasVisible, Rendered(list, flags)`ignoreObjOriginalLayer
    ensures engine.trace == old(engine.trace) + passes
    ensures Surfaces(passes) == Filter(list[..|list|], flags[..|list|])
    ensures engine.objectLayer[..] == FrameLayers(old(engine.objectLayer[..]), list, flags, setups, |list|)
    ensures forall k | 0 <= k < |list| :: flags[k] ==> !list[k].canvasVisible
    ensures forall k | 0 <= k < |list| :: flags[k] ==> list[k].stereoCameraHead == heads[k]
  {
    ghost var start, layers0 := engine.trace, engine.objectLayer[..];
    passes := [];
    assert engine.trace == start + passes;

    var i := 0;
    while i < |list|
      invariant 0 <= i <= |list|
      invariant engine.trace == start + passes
      invariant Surfaces(passes) == Filter(list[..i], flags[..i])
      invariant engine.objectLayer[..] == FrameLayers(layers0, list, flags, setups, i)
      invariant Progress(list, flags, setups, heads, i)
    {
      passes := RenderEntry(engine, list, flags, setups, heads, i, mainCam, mainView, factory, start, layers0, passes);
      i := i + 1;
    }
  }

  /** Where the loop stands after the first i entries: each later entry is
      visible exactly when no earlier render has used it up, and each
      rendered entry is no longer visible and has its head moved. */
  predicate Progress(list: seq<StereoRenderer>, flags: seq<bool>, setups: seq<Setup>, heads: seq<Pose>, i: nat)
    requires |flags| == |list| && |setups| == |list| && |heads| == |list| && i <= |list|
    reads set r | r in list
  {
    && (forall k | i <= k < |list| :: list[k].canvasVisible == StillVisible(list, flags, setups, i, k))
    && (forall k | 0 <= k < i :: flags[k] ==> !list[k].canvasVisible && list[k].stereoCameraHead == heads[k])
  }

  /** One iteration of the loop: Render on entry i when it is flagged, and
      the loop's invariant carried from i to i + 1. */
  method RenderEntry(engine: Engine, list: seq<StereoRenderer>, ghost flags: seq<bool>, ghost setups: seq<Setup>,
                     ghost heads: seq<Pose>, i: nat, mainCam: Pose, mainView: Mat4, factory: Option<ParamFactory>,
                     ghost start: seq<Event>, ghost layers0: seq<int>, ghost passes: seq<Event>)
    returns (ghost passes': seq<Event>)
    requires |flags| == |list| && |setups| == |list| && |heads| == |list| && i < |list|
    requires flags[i] == list[i].shouldRender
    requires forall k | 0 <= k < |list| :: InRange(setups[k].occluders, |layers0|)
    requires list[i].ignoreWhenRender == setups[i].occluders && list[i].ignoreLayerNumber == setups[i].ignoreLayer
    requires flags[i] ==> list[i].mainCameraEye.Some?
    requires list[i].PlacementOf() == setups[i].placement && heads[i] == PlacedHead(setups[i].placement, mainCam)
    requires forall k | 0 <= k < i :: list[k] == list[i] ==> heads[k] == heads[i]
    requires flags[i] && setups[i].visible ==> factory.Some?
    requires engine.trace == start + passes
    requires Surfaces(passes) == Filter(list[..i], flags[..i])
    requires engine.objectLayer[..] == FrameLayers(layers0, list, flags, setups, i)
    requires Progress(list, flags, setups, heads, i)
    modifies engine`trace, engine`invertCulling, engine.objectLayer
    modifies Entry(list, flags, i)`stereoCameraHead, Entry(list, flags, i)`reflectionMat
    modifies Entry(list, flags, i)`canvasVisible, Entry(list, flags, i)`ignoreObjOriginalLayer
    ensures engine.trace == start + passes'
    ensures Surfaces(passes') == Filter(list[..i + 1], flags[..i + 1])
    ensures engine.objectLayer[..] == FrameLayers(layers0, list, flags, setups, i + 1)
    ensures Progress(list, flags, setups, heads, i + 1)
  {
    FilterStep(list, flags, i);
    var stereoRenderer := list[i];
    if stereoRenderer.shouldRender {
      assert stereoRenderer.canvasVisible == Captures(list, flags, setups, i);
      ghost var before := engine.trace;
      ghost var pass := RenderPass(engine, stereoRenderer, mainCam, mainView, factory);
      ExtendTrace(start, passes, pass, before, engine.trace);
      SurfacesAppend(passes, pass);
      passes' := passes + pass;
      forall k | 0 <= k < i + 1 && flags[k]
        ensures !list[k].canvasVisible && list[k].stereoCameraHead == heads[k]
      {
        if list[k] != stereoRenderer {
          assert k < i;
        }
      }
      forall k | i + 1 <= k < |list|
        ensures list[k].canvasVisible == StillVisible(list, flags, setups, i + 1, k)
      {
        if list[k] != stereoRenderer {
          assert list[k].canvasVisible == StillVisible(list, flags, setups, i, k);
        }
      }
    } else {
      passes' := passes;
      forall k | i + 1 <= k < |list|
        ensures StillVisible(list, flags, setups, i + 1, k) == StillVisible(list, flags, setups, i, k)
      {
      }
    }
  }

  /** Render on one selected surface, with the events it adds to the trace. */
  method RenderPass(engine: Engine, stereoRenderer: StereoRenderer, mainCam: Pose, mainView: Mat4,
                    factory: Option<ParamFactory>) returns (ghost pass: seq<Event>)
    requires stereoRenderer.mainCameraEye.Some?
    requires stereoRenderer.canvasVisible ==> factory.Some?
    requires InRange(stereoRenderer.ignoreWhenRender, engine.objectLayer.Length)
    modifies engine`trace, engine`invertCulling, engine.objectLayer
    modifies stereoRenderer`stereoCameraHead, stereoRenderer`reflectionMat
    modifies stereoRenderer`canvasVisible, stereoRenderer`ignoreObjOriginalLayer
    ensures engine.trace == old(engine.trace) + pass
    ensures Surfaces(pass) == [stereoRenderer]
    ensures stereoRenderer.stereoCameraHead == PlacedHead(old(stereoRenderer.PlacementOf()), mainCam)
    ensures engine.objectLayer[..] == if old(stereoRenderer.canvasVisible)
              then Restored(old(engine.objectLayer[..]), stereoRenderer.ignoreWhenRender, stereoRenderer.ignoreLayerNumber)
              else old(engine.objectLayer[..])
    ensures !stereoRenderer.canvasVisible
  {
    ghost var visible, culling, layers := stereoRenderer.canvasVisible, engine.invertCulling, engine.objectLayer[..];
    stereoRenderer.Render(engine, mainCam, mainView, factory);
    pass := stereoRenderer.PassEvents(visible, stereoRenderer.stereoCameraHead, stereoRenderer.reflectionMat,
                                      culling, layers, mainView, factory);
    PassSurfaces(stereoRenderer, visible, stereoRenderer.stereoCameraHead, stereoRenderer.reflectionMat,
                 culling, layers, mainView, factory);
  }

  // ---------------------------------------------------------------------------
  // the object layers over a frame

  /** What the loop needs to know of a surface when the frame begins: whether
      it is visible, its occluders, its ignore layer, and where its head goes
      for the main camera pose. */
  datatype Setup = Setup(visible: bool, occluders: seq<ObjectId>, ignoreLayer: int, placement: Placement)

  function SetupOf(r: StereoRenderer): Setup
    reads r
  {
    Setup(r.canvasVisible, r.ignoreWhenRender, r.ignoreLayerNumber, r.PlacementOf())
  }

  /** Each surface's set-up, in list order. */
  function Setups(rs: seq<StereoRenderer>): (s: seq<Setup>)
    reads set r | r in rs
    ensures |s| == |rs|
    ensures forall k | 0 <= k < |rs| :: s[k] == SetupOf(rs[k])
  {
    if rs == [] then [] else Setups(rs[..|rs| - 1]) + [SetupOf(rs[|rs| - 1])]
  }

  /** Where each set-up puts its head for a main camera pose. */
  function Heads(setups: seq<Setup>, mainCam: Pose): (h: seq<Pose>)
    ensures |h| == |setups|
    ensures forall k | 0 <= k < |setups| :: h[k] == PlacedHead(setups[k].placement, mainCam)
  {
    seq(|setups|, k requires 0 <= k < |setups| => PlacedHead(setups[k].placement, mainCam))
  }

  /** Every surface that would capture restores its occluders exactly. */
  predicate AllRestoreExactly(rs: seq<StereoRenderer>)
    reads set r | r in rs
  {
    forall k | 0 <= k < |rs| ::
      rs[k].shouldRender && rs[k].canvasVisible ==> RestoresExactly(rs[k].ignoreWhenRender, rs[k].ignoreLayerNumber)
  }

  /** The surfaces the loop renders, as a set. */
  function Rendered(list: seq<StereoRenderer>, flags: seq<bool>): set<StereoRenderer>
    requires |flags| == |list|
  {
    set k | 0 <= k < |list| && flags[k] :: list[k]
  }

  /** Entry i when it is flagged, as a set of at most one surface. */
  function Entry(list: seq<StereoRenderer>, flags: seq<bool>, i: nat): set<StereoRenderer>
    requires |flags| == |list| && i < |list|
  {
    if flags[i] then {list[i]} else {}
  }

  /** Whether entry k is still visible once the loop has handled the first i
      entries: it was visible when the frame began and no flagged entry
      before i is the same surface (whose pass reset its visibility). */
  predicate StillVisible(list: seq<StereoRenderer>, flags: seq<bool>, setups: seq<Setup>, i: nat, k: nat)
    requires |flags| == |list| && |setups| == |list| && i <= |list| && k < |list|
  {
    setups[k].visible && forall j | 0 <= j < i :: flags[j] ==> list[j] != list[k]
  }

  /** Whether entry k captures: it is flagged and still visible when the loop
      reaches it. A surface listed twice captures at most once a frame. */
  predicate Captures(list: seq<StereoRenderer>, flags: seq<bool>, setups: seq<Setup>, k: nat)
    requires |flags| == |list| && |setups| == |list| && k < |list|
  {
    flags[k] && StillVisible(list, flags, setups, k, k)
  }

  /** The object layers once the loop has handled the first n entries: each
      capture masks its occluders and restores them as the source does. */
  function FrameLayers(layers: seq<int>, list: seq<StereoRenderer>, flags: seq<bool>, setups: seq<Setup>,
                       n: nat): (r: seq<int>)
    requires |flags| == |list| && |setups| == |list| && n <= |list|
    requires forall k | 0 <= k < |setups| :: InRange(setups[k].occluders, |layers|)
    ensures |r| == |layers|
  {
    if n == 0 then layers
    else
      var before := FrameLayers(layers, list, flags, setups, n - 1);
      if Captures(list, flags, setups, n - 1)
      then Restored(before, setups[n - 1].occluders, setups[n - 1].ignoreLayer)
      else before
  }

  /** The object layers after a frame over the surfaces rs, from their state
      when the frame begins. */
  ghost function FrameResult(layers: seq<int>, rs: seq<StereoRenderer>): (r: seq<int>)
    requires forall k | 0 <= k < |rs| :: InRange(rs[k].ignoreWhenRender, |layers|)
    reads set r | r in rs
  {
    FrameLayers(layers, rs, ShouldRenderFlags(rs), Setups(rs), |rs|)
  }

  /** When every capture of the frame restores exactly, the frame gives back
      every object layer. */
  lemma {:induction false} FrameLayersExact(layers: seq<int>, list: seq<StereoRenderer>, flags: seq<bool>,
                                            setups: seq<Setup>, n: nat)
    requires |flags| == |list| && |setups| == |list| && n <= |list|
    requires forall k | 0 <= k < |setups| :: InRange(setups[k].occluders, |layers|)
    requires forall k | 0 <= k < n :: Captures(list, flags, setups, k) ==> RestoresExactly(setups[k].occluders, setups[k].ignoreLayer)
    ensures FrameLayers(layers, list, flags, setups, n) == layers
  {
    if n > 0 {
      FrameLayersExact(layers, list, flags, setups, n - 1);
      if Captures(list, flags, setups, n - 1) {
        RestoreForwardCorrectWhen(layers, setups[n - 1].occluders, setups[n - 1].ignoreLayer);
      }
    }
  }

  // ---------------------------------------------------------------------------
  // which surfaces a frame renders

  /** The surfaces whose flag is set, in list order. */
  function Filter(rs: seq<StereoRenderer>, flags: seq<bool>): seq<StereoRenderer>
    requires |flags| == |rs|
  {
    if rs == [] then []
    else Filter(rs[..|rs| - 1], flags[..|rs| - 1]) + (if flags[|rs| - 1] then [rs[|rs| - 1]] else [])
  }

  /** The filter of one more entry. */
  lemma FilterStep(rs: seq<StereoRenderer>, flags: seq<bool>, i: nat)
    requires |flags| == |rs| && i < |rs|
    ensures Filter(rs[..i + 1], flags[..i + 1]) == Filter(rs[..i], flags[..i]) + (if flags[i] then [rs[i]] else [])
  {
    assert rs[..i + 1][..i] == rs[..i] && flags[..i + 1][..i] == flags[..i];
  }

  lemma FilterAll(rs: seq<StereoRenderer>, flags: seq<bool>)
    requires |flags| == |rs|
    ensures Filter(rs[..|rs|], flags[..|rs|]) == Filter(rs, flags)
  {
    assert rs[..|rs|] == rs && flags[..|rs|] == flags;
  }

  /** Each surface's shouldRender, in list order. */
  function ShouldRenderFlags(rs: seq<StereoRenderer>): (f: seq<bool>)
    reads set r | r in rs
    ensures |f| == |rs|
  {
    if rs == [] then [] else ShouldRenderFlags(rs[..|rs| - 1]) + [rs[|rs| - 1].shouldRender]
  }

  lemma {:induction false} ShouldRenderFlagsAt(rs: seq<StereoRenderer>, k: nat)
    requires k < |rs|
    ensures ShouldRenderFlags(rs)[k] == rs[k].shouldRender
    decreases |rs|
  {
    if k < |rs| - 1 {
      ShouldRenderFlagsAt(rs[..|rs| - 1], k);
    }
  }

  /** The surfaces a frame renders: those whose shouldRender is set, in list order. */
  function Selected(rs: seq<StereoRenderer>): seq<StereoRenderer>
    reads set r | r in rs
  {
    Filter(rs, ShouldRenderFlags(rs))
  }

  /** The surfaces of the head moves in a trace, in order. Every Render call
      starts with its head move, so these are the surfaces rendered. */
  function Surfaces(ev: seq<Event>): seq<StereoRenderer> {
    if ev == [] then []
    else Surfaces(ev[..|ev| - 1]) + (if ev[|ev| - 1].HeadMoved? then [ev[|ev| - 1].surface] else [])
  }

  lemma {:induction false} SurfacesAppend(a: seq<Event>, b: seq<Event>)
    ensures Surfaces(a + b) == Surfaces(a) + Surfaces(b)
    decreases |b|
  {
    if b == [] {
      assert a + b == a;
    } else {
      var b' := b[..|b| - 1];
      assert (a + b)[..|a + b| - 1] == a + b';
      SurfacesAppend(a, b');
    }
  }

  /** Listener invocations move no head. */
  lemma {:induction false} InvocationsMoveNoHead(listeners: seq<Listener>)
    ensures Surfaces(Invocations(listeners)) == []
    decreases |listeners|
  {
    if listeners != [] {
      InvocationsMoveNoHead(listeners[1..]);
      SurfacesAppend([Invoked(listeners[0])], Invocations(listeners[1..]));
      assert Surfaces([Invoked(listeners[0])]) == Surfaces([]) + [];
    }
  }

  lemma ExtendTrace(start: seq<Event>, passes: seq<Event>, pass: seq<Event>, before: seq<Event>, after: seq<Event>)
    requires before == start + passes && after == before + pass
    ensures after == start + (passes + pass)
  {
  }

  /** A trace without head moves names no surface. */
  lemma {:induction false} NoHeadMoves(ev: seq<Event>)
    requires forall k | 0 <= k < |ev| :: !ev[k].HeadMoved?
    ensures Surfaces(ev) == []
    decreases |ev|
  {
    if ev != [] {
      NoHeadMoves(ev[..|ev| - 1]);
    }
  }

  /** Neither does a capture. */
  lemma CaptureMovesNoHead(isMirror: bool, reflection: Mat4, factory: ParamFactory, mainView: Mat4,
                           near: real, far: real, culling: bool, layers: seq<int>)
    ensures Surfaces(CaptureEvents(isMirror, reflection, factory, mainView, near, far, culling, layers)) == []
  {
    NoHeadMoves(CaptureEvents(isMirror, reflection, factory, mainView, near, far, culling, layers));
  }

  /** A render pass moves exactly one head: its own surface's. */
  lemma PassSurfaces(r: StereoRenderer, visible: bool, head: Pose, reflection: Mat4, culling: bool,
                     layers: seq<int>, mainView: Mat4, factory: Option<ParamFactory>)
    requires visible ==> factory.Some?
    requires InRange(r.ignoreWhenRender, |layers|)
    ensures Surfaces(r.PassEvents(visible, head, reflection, culling, layers, mainView, factory)) == [r]
  {
    var pre, post := Invocations(r.preRenderListeners), Invocations(r.postRenderListeners);
    var capture := if visible
      then CaptureEvents(r.isMirror, reflection, factory.value, mainView, r.nearClipPlane, r.farClipPlane,
                         r.isMirror || culling, Masked(layers, r.ignoreWhenRender, r.ignoreLayerNumber))
      else [];
    if visible {
      CaptureMovesNoHead(r.isMirror, reflection, factory.value, mainView, r.nearClipPlane, r.farClipPlane,
                         r.isMirror || culling, Masked(layers, r.ignoreWhenRender, r.ignoreLayerNumber));
    }
    InvocationsMoveNoHead(r.preRenderListeners);
    InvocationsMoveNoHead(r.postRenderListeners);
    assert r.NotifyEvents(visible, reflection, culling, layers, mainView, factory) == pre + capture + post;
    SurfacesAppend(pre, capture);
    SurfacesAppend(pre + capture, post);
    LeadingHeadMove(HeadMoved(r, head), pre + capture + post);
  }

  /** A head move followed by events that move no head names one surface. */
  lemma LeadingHeadMove(e: Event, rest: seq<Event>)
    requires e.HeadMoved? && Surfaces(rest) == []
    ensures Surfaces([e] + rest) == [e.surface]
  {
    SurfacesAppend([e], rest);
    assert Surfaces([e]) == Surfaces([]) + [e.surface];
  }

  /** Filtering keeps exactly the flagged entries. */
  lemma {:induction false} FilterMembers(rs: seq<StereoRenderer>, flags: seq<bool>, x: StereoRenderer)
    requires |flags| == |rs|
    ensures x in Filter(rs, flags) <==> exists k | 0 <= k < |rs| :: rs[k] == x && flags[k]
    decreases |rs|
  {
    if rs != [] {
      var n := |rs| - 1;
      FilterMembers(rs[..n], flags[..n], x);
      if x in Filter(rs, flags) && x !in Filter(rs[..n], flags[..n]) {
        assert rs[n] == x && flags[n];
      }
      if exists k | 0 <= k < |rs| :: rs[k] == x && flags[k] {
        var k :| 0 <= k < |rs| && rs[k] == x && flags[k];
        if k < n {
          assert rs[..n][k] == x && flags[..n][k];
        }
      }
    }
  }

  /** Filtering never reorders or adds: it is no longer than the list, and
      with every flag set it is the whole list. */
  lemma {:induction false} FilterIsSubsequence(rs: seq<StereoRenderer>, flags: seq<bool>)
    requires |flags| == |rs|
    ensures |Filter(rs, flags)| <= |rs|
    ensures (forall k | 0 <= k < |flags| :: flags[k]) ==> Filter(rs, flags) == rs
    decreases |rs|
  {
    if rs != [] {
      var n := |rs| - 1;
      FilterIsSubsequence(rs[..n], flags[..n]);
      assert rs == rs[..n] + [rs[n]];
    }
  }

  /** A surface is rendered exactly when it is registered and its
      shouldRender is set. */
  lemma SelectedMembers(rs: seq<StereoRenderer>, x: StereoRenderer)
    ensures x in Selected(rs) <==> x in rs && x.shouldRender
  {
    var flags := ShouldRenderFlags(rs);
    FilterMembers(rs, flags, x);
    if x in rs {
      var k :| 0 <= k < |rs| && rs[k] == x;
      ShouldRenderFlagsAt(rs, k);
    }
    if x in Selected(rs) {
      var k :| 0 <= k < |rs| && rs[k] == x && flags[k];
      ShouldRenderFlagsAt(rs, k);
    }
  }

  /** With every surface's shouldRender set, a frame renders the whole list, in order. */
  lemma SelectedAll(rs: seq<StereoRenderer>)
    ensures |Selected(rs)| <= |rs|
    ensures (forall k | 0 <= k < |rs| :: rs[k].shouldRender) ==> Selected(rs) == rs
  {
    var flags := ShouldRenderFlags(rs);
    FilterIsSubsequence(rs, flags);
    if forall k | 0 <= k < |rs| :: rs[k].shouldRender {
      forall k | 0 <= k < |flags|
        ensures flags[k]
      {
        ShouldRenderFlagsAt(rs, k);
      }
    }
  }
}
