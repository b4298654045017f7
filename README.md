# Stereo portals and mirrors: a Dafny model

HTC's stereo rendering plugin for Unity draws "portals" and "mirrors": a surface
(a `StereoRenderer`) shows the scene as seen from a second, stereo camera rig,
rendered once per eye into two textures. This project models the plugin's core:

- the per-surface render pass (`StereoRenderer`). It moves the stereo camera
  head (the portal formula, or a reflection through the mirror plane), runs the
  pre-render listeners, and, when the main camera saw the surface this frame,
  does the capture. The capture hides the occluders on the ignore layer, inverts
  culling for a mirror, renders the left and then the right eye, and writes the
  saved occluder layers back, first entry first. The post-render listeners run
  last;
- the pose getters and setters, the mirror's anchor sync, the listener lists,
  the culling-mask step of `Start`, and the editor's layer-slot injection;
- the coordinator (`StereoRenderManager`): the singleton set-up, lazy device
  set-up, registration, and the per-frame loop that renders every registered
  surface whose `shouldRender` is set, between the global listeners;
- device selection (`StereoRenderDevice`) and the SteamVR row-major matrix
  conversion.

Geometry is modelled over exact `real`s:

- rotations are quaternions;
- `Matrix4x4` is a 16-field datatype;
- `MultiplyPoint` includes Unity's perspective division.

Engine actions are recorded, in order, in an `Engine` object's `trace`:

- head moves, listener invocations, eye renders and texture binds;
- each eye render records the culling mode and the object layers it sees.

`GL.invertCulling` and the scene's object layers are the `Engine`'s `invertCulling` field and its `objectLayer` array. The render pass changes both in place.

Files and modules:

| file | module | contents |
|---|---|---|
| wrappers.dfy | Wrappers | `Option` (the source's null) |
| geometry.dfy | Geometry | vectors, quaternions, 4x4 matrices |
| stereo_pose.dfy | StereoPose | portal head pose, reflection matrix, mirror head pose |
| device_param_factory.dfy | DeviceParamFactory | the SteamVR parameter factory and `HMDMatrix4x4ToMatrix4x4` |
| device_type.dfy | StereoRenderDevice | `GetHmdType`, `InitParamFactory` |
| invocation_list.dfy | InvocationList | delegate `+=` / `-=`, `List.Remove` |
| occluders.dfy | Occluders | the occluder masking and restoring loops, as functions |
| stereo_renderer.dfy | Renderer | the `Engine` and the `StereoRenderer` class |
| stereo_render_manager.dfy | Manager | `StereoRenderManager` and its static state |

Modelling decisions:

- C# event semantics are modelled exactly:
  - `Delegate -=` removes the last occurrence of a callback;
  - `List.Remove` removes the first occurrence;
  - `1 << n` on an `int` shifts by `n` modulo 32;
  - two absent cameras compare equal (`Camera.current == mainCameraEye` holds when both are null).
- The mirror plane is `(up, -up·origin - 0.07)`. For a unit `up` this puts the
  plane 0.07 *along* `up` from the canvas origin (`MirrorIsSymmetric`).
- The static fields of `StereoRenderManager` (`instance`, `isApplicationQuitting`,
  `mainCamera`, `mainCameraParent`) are the `ManagerStatics` object.
- What `Initialize` would look up in the scene is a `Scene` value. This covers
  `FindObjectsOfType`, the SteamVR camera, `Camera.main` and `VRSettings.enabled`.
  The messages it would log are returned as a list of `LogError`s.
- `StereoRenderer.Render` and `StereoRenderManager.OnPreRender` receive:
  - the main camera eye's world pose and view matrix;
  - the manager's parameter factory.

## Model

| member | source | states |
|---|---|---|
| DeviceParamFactory.HmdMatrixToMatrix | Assets/HTC.UnityPlugin/StereoRendering/Scripts/DeviceParamFactory/SteamVRParamFactory.cs:34-59 | entry (r, c) of the converted matrix is element 4r + c of the SteamVR matrix, for every r, c in 0..3: row-major, no transpose |
| DeviceParamFactory.OverwriteAt | Assets/HTC.UnityPlugin/StereoRendering/Scripts/DeviceParamFactory/SteamVRParamFactory.cs:38-56 | after the sixteen assignments, whatever the starting matrix, entry (r, c) holds element 4r + c |
| DeviceParamFactory.OverwriteIgnoresStart | Assets/HTC.UnityPlugin/StereoRendering/Scripts/DeviceParamFactory/SteamVRParamFactory.cs:36-56 | the identity-then-sixteen-assignments steps give the same matrix from any starting matrix: the identity never shows through |
| DeviceParamFactory.FlattenAfterConversion | Assets/HTC.UnityPlugin/StereoRendering/Scripts/DeviceParamFactory/SteamVRParamFactory.cs:34-59 | reading the converted matrix row by row gives back the sixteen input elements |
| DeviceParamFactory.ConversionAfterFlatten | Assets/HTC.UnityPlugin/StereoRendering/Scripts/DeviceParamFactory/SteamVRParamFactory.cs:34-59 | converting a matrix's row-major reading gives the matrix back, so the conversion is a bijection |
| DeviceParamFactory.ConversionIsRowMajor | Assets/HTC.UnityPlugin/StereoRendering/Scripts/DeviceParamFactory/SteamVRParamFactory.cs:41-53 | m[0, 3] is m3 and m[3, 0] is m12 |
| DeviceParamFactory.TruncateToInt | Assets/HTC.UnityPlugin/StereoRendering/Scripts/DeviceParamFactory/SteamVRParamFactory.cs:8-16 | the `(int)` cast of the scene size truncates toward zero: the result is within one of x, on the zero side |
| StereoRenderDevice.GetHmdType | Assets/HTC.UnityPlugin/StereoRendering/Scripts/DeviceType.cs:11-35 | outside Unity 5.3, SteamVR exactly when the loaded device is "OpenVR". On 5.3, SteamVR exactly when the device is "None" and a SteamVR camera exists. Otherwise the default, Unsupported |
| StereoRenderDevice.InitParamFactory | Assets/HTC.UnityPlugin/StereoRendering/Scripts/DeviceType.cs:37-45 | a factory exactly for SteamVR, and then the SteamVR one; null for Unsupported |
| InvocationList.RemoveLast | Assets/HTC.UnityPlugin/StereoRendering/Scripts/StereoRenderer.cs:535-545 | delegate `-=`: an absent callback leaves the list as it is. A present one loses its last occurrence, and the rest keep their order. The list is one shorter, the callback's count is down by one and every other count is kept |
| InvocationList.RemoveFirst | Assets/HTC.UnityPlugin/StereoRendering/Scripts/StereoRenderManager.cs:188-191 | `List.Remove`: an absent element leaves the list as it is. A present one loses its first occurrence, and the rest keep their order |
| InvocationList.LastIndexOf | Assets/HTC.UnityPlugin/StereoRendering/Scripts/StereoRenderer.cs:538 | -1 exactly when absent, otherwise an index holding the callback with no later occurrence |
| InvocationList.IndexOf | Assets/HTC.UnityPlugin/StereoRendering/Scripts/StereoRenderManager.cs:190 | -1 exactly when absent, otherwise an index holding the element with no earlier occurrence |
| InvocationList.AddThenRemove | Assets/HTC.UnityPlugin/StereoRendering/Scripts/StereoRenderer.cs:523-539 | removing the listener just added gives the list back (for null too) |
| InvocationList.AddAppends | Assets/HTC.UnityPlugin/StereoRendering/Scripts/StereoRenderer.cs:523-527 | adding appends at the end, and the listener's count goes up by one, so duplicates accumulate |
| InvocationList.NullListenerIgnored | Assets/HTC.UnityPlugin/StereoRendering/Scripts/StereoRenderer.cs:523-545 | adding or removing null changes nothing |
| InvocationList.RemoveListenerCounts | Assets/HTC.UnityPlugin/StereoRendering/Scripts/StereoRenderer.cs:535-539 | removing an absent listener changes nothing. Removing a present one drops its count by one and keeps every other listener's count |
| Occluders.MaskedPrefix | Assets/HTC.UnityPlugin/StereoRendering/Scripts/StereoRenderer.cs:373-379 | the masking loop never changes the number of scene objects |
| Occluders.SavedPrefix | Assets/HTC.UnityPlugin/StereoRendering/Scripts/StereoRenderer.cs:372-376 | after k steps the saved-layer buffer has k entries, so after the loop exactly `ignoreWhenRender.Count` |
| Occluders.MaskedAt | Assets/HTC.UnityPlugin/StereoRendering/Scripts/StereoRenderer.cs:373-379 | during the capture a listed object is on the ignore layer when `ignoreLayerNumber > 0`. Otherwise it keeps its layer, and no unlisted object moves |
| Occluders.SavedAt | Assets/HTC.UnityPlugin/StereoRendering/Scripts/StereoRenderer.cs:372-379 | the k-th saved entry is the occluder's original layer, unless an earlier entry names the same object and has already moved it onto the ignore layer |
| Occluders.RestoreReverseUndoesMask | Assets/HTC.UnityPlugin/StereoRendering/Scripts/StereoRenderer.cs:396-398 | masking, then restoring last to first, gives back every object's layer, duplicates included (the corrected restore) |
| Occluders.RestoreForwardAt | Assets/HTC.UnityPlugin/StereoRendering/Scripts/StereoRenderer.cs:396-398 | the restore as written leaves a listed object with the saved entry of its last listing. Unlisted objects are untouched |
| Occluders.RestoreForwardCorrectWhen | Assets/HTC.UnityPlugin/StereoRendering/Scripts/StereoRenderer.cs:396-398 | the restore as written gives back every layer when the ignore layer does not exist or no object is listed twice |
| Occluders.RestoredAt | Assets/HTC.UnityPlugin/StereoRendering/Scripts/StereoRenderer.cs:372-398 | the same, one object at a time: when the ignore layer does not exist or no object is listed twice, masking then restoring as written gives each object its own layer back |
| Occluders.RestoreForwardCounterexample | Assets/HTC.UnityPlugin/StereoRendering/Scripts/StereoRenderer.cs:396-398 | take object 0 on layer 5, listed twice, with ignore layer 9. The saved buffer is [5, 9], and the restore as written leaves the object on layer 9 |
| Geometry.QMulInverse | Assets/HTC.UnityPlugin/StereoRendering/Scripts/StereoRenderer.cs:442 | a nonzero quaternion times its inverse, either way round, is the identity rotation |
| Geometry.QMulAssociative | Assets/HTC.UnityPlugin/StereoRendering/Scripts/StereoRenderer.cs:442-449 | the quaternion product is associative |
| Geometry.NormSqOfProduct | Assets/HTC.UnityPlugin/StereoRendering/Scripts/StereoRenderer.cs:442 | the squared norm of a product is the product of the squared norms, so products of unit rotations are unit rotations |
| Geometry.RotateIsSandwich | Assets/HTC.UnityPlugin/StereoRendering/Scripts/StereoRenderer.cs:445 | for a unit quaternion, Unity's `Quaternion * Vector3` formula is the rotation q v q* |
| Geometry.RotateCompose | Assets/HTC.UnityPlugin/StereoRendering/Scripts/StereoRenderer.cs:442-446 | for unit quaternions, rotating by q and then by p is rotating by p * q |
| Geometry.Set | Assets/HTC.UnityPlugin/StereoRendering/Scripts/DeviceParamFactory/SteamVRParamFactory.cs:38-56 | `m[r, c] = v` writes entry (r, c) and no other |
| Geometry.MultiplyAffine | Assets/HTC.UnityPlugin/StereoRendering/Scripts/StereoRenderer.cs:431 | `MultiplyPoint` with bottom row (0, 0, 0, 1) has w = 1 and is the affine product |
| StereoPose.PortalIdentityPassthrough | Assets/HTC.UnityPlugin/StereoRendering/Scripts/StereoRenderer.cs:437-450 | with the anchor at the canvas origin (nonzero rotation) the head pose is the main camera's pose |
| StereoPose.PortalMapsOriginToAnchor | Assets/HTC.UnityPlugin/StereoRendering/Scripts/StereoRenderer.cs:437-450 | a viewer at the canvas origin is sent to the anchor pose |
| StereoPose.PortalPreservesRelativeRotation | Assets/HTC.UnityPlugin/StereoRendering/Scripts/StereoRenderer.cs:442-449 | the head's rotation relative to the anchor equals the viewer's rotation relative to the canvas origin |
| StereoPose.PortalPreservesRelativeOffset | Assets/HTC.UnityPlugin/StereoRendering/Scripts/StereoRenderer.cs:437-450 | for unit rotations, the head's offset from the anchor, in the anchor's frame, equals the viewer's offset from the canvas origin in the canvas origin's frame. With the rotation lemma the portal is a rigid transform |
| StereoPose.PortalDoorExample | Assets/HTC.UnityPlugin/StereoRendering/Scripts/StereoRenderer.cs:437-450 | take a door at (0, 0, 6.57) and an exit at (-0.22, 0, -2.39) turned half a turn about y. A viewer at (0, 0, 6) facing +z gets a head at (-0.22, 0, -1.82) facing -z |
| StereoPose.ReflectionMatrix | Assets/HTC.UnityPlugin/StereoRendering/Scripts/StereoRenderer.cs:552-573 | the bottom row is (0, 0, 0, 1) and the upper 3x3 is symmetric |
| StereoPose.ReflectPoint | Assets/HTC.UnityPlugin/StereoRendering/Scripts/StereoRenderer.cs:552-573 | the matrix moves p to p - 2(n·p + d) n, with no perspective division |
| StereoPose.ReflectedPlaneValue | Assets/HTC.UnityPlugin/StereoRendering/Scripts/StereoRenderer.cs:552-573 | for a unit normal the reflected point is as far from the plane, on the other side |
| StereoPose.ReflectTwice | Assets/HTC.UnityPlugin/StereoRendering/Scripts/StereoRenderer.cs:552-573 | for a unit normal, moving a point twice gives the point back |
| StereoPose.ReflectionFixesPlane | Assets/HTC.UnityPlugin/StereoRendering/Scripts/StereoRenderer.cs:552-573 | points with n·p + d = 0 stay where they are |
| StereoPose.ReflectionIsInvolution | Assets/HTC.UnityPlugin/StereoRendering/Scripts/StereoRenderer.cs:552-573 | for a unit normal the matrix squared is the identity |
| StereoPose.MirrorHeadPoseMeaning | Assets/HTC.UnityPlugin/StereoRendering/Scripts/StereoRenderer.cs:419-436 | a mirror keeps the main camera's rotation. It moves the camera's position along up by twice its signed height above the plane, and that plane lies 0.07 along up from the canvas origin |
| StereoPose.MirrorIsSymmetric | Assets/HTC.UnityPlugin/StereoRendering/Scripts/StereoRenderer.cs:419-436 | for a unit up, the point 0.07 along up from the origin is on the plane, and reflecting the head back gives the main camera's position |
| Renderer.Invocations | Assets/HTC.UnityPlugin/StereoRendering/Scripts/StereoRenderer.cs:365-366 | invoking a delegate records one event per callback |
| Renderer.InvocationsAt | Assets/HTC.UnityPlugin/StereoRendering/Scripts/StereoRenderer.cs:365-366 | the i-th event is the i-th callback's, so callbacks run in registration order |
| Renderer.Abs | Assets/HTC.UnityPlugin/StereoRendering/Scripts/StereoRenderer.cs:455 | `Mathf.Abs` is non-negative and is x or -x |
| Renderer.Engine.Invoke | Assets/HTC.UnityPlugin/StereoRendering/Scripts/StereoRenderer.cs:365-366 | appends the callbacks' invocations and nothing else |
| Renderer.Engine.RenderEye | Assets/HTC.UnityPlugin/StereoRendering/Scripts/StereoRenderer.cs:476 | appends one eye render, recording the current culling mode and object layers |
| Renderer.Engine.SetTexture | Assets/HTC.UnityPlugin/StereoRendering/Scripts/StereoRenderer.cs:477 | appends one texture bind |
| Renderer.Engine.MoveHead | Assets/HTC.UnityPlugin/StereoRendering/Scripts/StereoRenderer.cs:432-435 | appends one head move |
| Renderer.StereoRenderer.constructor | Assets/HTC.UnityPlugin/StereoRendering/Scripts/StereoRenderer.cs:140-175 | the defaults: not visible, `shouldRender` set, no main camera, ignore layer -1, empty saved buffer and listener lists |
| Renderer.StereoRenderer.SetCanvasOriginPos | Assets/HTC.UnityPlugin/StereoRendering/Scripts/StereoRenderer.cs:31-42 | writes only the override field, so the getter changes only when there is no canvas-origin transform |
| Renderer.StereoRenderer.SetCanvasOriginRot | Assets/HTC.UnityPlugin/StereoRendering/Scripts/StereoRenderer.cs:44-61 | writes only the override field, so the getter changes only when there is no canvas-origin transform |
| Renderer.StereoRenderer.SetAnchorPos | Assets/HTC.UnityPlugin/StereoRendering/Scripts/StereoRenderer.cs:105-116 | writes only the override field, so the getter changes only when there is no anchor transform |
| Renderer.StereoRenderer.SetAnchorRot | Assets/HTC.UnityPlugin/StereoRendering/Scripts/StereoRenderer.cs:118-135 | writes only the override field, so the getter changes only when there is no anchor transform |
| Renderer.StereoRenderer.Update | Assets/HTC.UnityPlugin/StereoRendering/Scripts/StereoRenderer.cs:332-338 | a mirror writes its canvas-origin pose into the anchor override, and a portal leaves it. The anchor pose then equals the canvas origin when there is no anchor transform, and is unchanged when there is one |
| Renderer.StereoRenderer.InitMainCamera | Assets/HTC.UnityPlugin/StereoRendering/Scripts/StereoRenderer.cs:323-327 | records the rig and the main camera eye |
| Renderer.StereoRenderer.OnWillRenderObject | Assets/HTC.UnityPlugin/StereoRendering/Scripts/StereoRenderer.cs:351-357 | the surface is visible afterwards exactly when it was, or the current camera is the main camera eye |
| Renderer.StereoRenderer.MoveStereoCameraBasedOnHmdPose | Assets/HTC.UnityPlugin/StereoRendering/Scripts/StereoRenderer.cs:409-451 | the head goes to the portal pose or, for a mirror, to the reflected position with the main camera's rotation. A mirror's reflection matrix is recomputed, a portal's is kept. One head move is recorded |
| Renderer.StereoRenderer.RenderWithTwoTextures | Assets/HTC.UnityPlugin/StereoRendering/Scripts/StereoRenderer.cs:453-501 | records the left eye rendered and bound, then the right eye. Poses and projections come from the factory. A mirror's views are main view x reflection, the right one shifted by the eye separation |
| Renderer.StereoRenderer.HideOccluders | Assets/HTC.UnityPlugin/StereoRendering/Scripts/StereoRenderer.cs:372-379 | the masking loop: the layers become the masked layers, and the saved buffer holds each occluder's layer as read |
| Renderer.StereoRenderer.RestoreOccluders | Assets/HTC.UnityPlugin/StereoRendering/Scripts/StereoRenderer.cs:396-398 | the restoring loop as written, first entry first: each listed object ends with the saved entry of its last listing (`RestoreForward`) |
| Renderer.StereoRenderer.Capture | Assets/HTC.UnityPlugin/StereoRendering/Scripts/StereoRenderer.cs:370-398 | both eyes are rendered with the occluders masked and culling inverted for a mirror. On return the layers are masked-then-restored as written, which is every layer back when the ignore layer does not exist or no occluder is listed twice. Culling is off after a mirror and untouched otherwise, and the buffer is the saved list |
| Renderer.StereoRenderer.Render | Assets/HTC.UnityPlugin/StereoRendering/Scripts/StereoRenderer.cs:359-407 | the head moves to the pose for the main camera. The trace grows by exactly one pass, capturing only when the surface was visible. After a capture the layers are masked-then-restored as written, and so every layer is back when the ignore layer does not exist or no occluder is listed twice; without a capture they are untouched. Visibility is reset, culling is off after a mirror capture, and the saved buffer changes only on a capture. Only the head, the reflection matrix, the visibility and the buffer of the surface change |
| Renderer.StereoRenderer.CaptureAndNotify | Assets/HTC.UnityPlugin/StereoRendering/Scripts/StereoRenderer.cs:364-406 | the part of `Render` after the head move: pre-listeners, the optional capture, post-listeners, with the same end state |
| Renderer.StereoRenderer.CaptureVisible | Assets/HTC.UnityPlugin/StereoRendering/Scripts/StereoRenderer.cs:364-406 | the same on a visible surface: pre-listeners, the capture, post-listeners; the surface ends invisible and the layers are masked-then-restored as written |
| Renderer.StereoRenderer.AddPreRenderListener | Assets/HTC.UnityPlugin/StereoRendering/Scripts/StereoRenderer.cs:523-527 | the pre-render list becomes `AddListener(old, listener)`: null ignored, otherwise appended |
| Renderer.StereoRenderer.AddPostRenderListener | Assets/HTC.UnityPlugin/StereoRendering/Scripts/StereoRenderer.cs:529-533 | the same for the post-render list |
| Renderer.StereoRenderer.RemovePreRenderListener | Assets/HTC.UnityPlugin/StereoRendering/Scripts/StereoRenderer.cs:535-539 | the pre-render list becomes `RemoveListener(old, listener)`: null ignored, otherwise one occurrence dropped |
| Renderer.StereoRenderer.RemovePostRenderListener | Assets/HTC.UnityPlugin/StereoRendering/Scripts/StereoRenderer.cs:541-545 | the same for the post-render list |
| Renderer.StereoRenderer.StartCulling | Assets/HTC.UnityPlugin/StereoRendering/Scripts/StereoRenderer.cs:211-219 | the missing layer is reported exactly when there are occluders and the layer is -1. Otherwise the layer's bit, taken modulo 32, is cleared from the eye camera's mask |
| Renderer.StereoRenderer.LayerInjection | Assets/HTC.UnityPlugin/StereoRendering/Scripts/StereoRenderer.cs:576-626 | the layer names become the injected names, and the result says whether the injection succeeded |
| Renderer.ShiftCount | Assets/HTC.UnityPlugin/StereoRendering/Scripts/StereoRenderer.cs:218 | the shift count of `1 << n` is n modulo 32 |
| Renderer.ClearLayerBitClears | Assets/HTC.UnityPlugin/StereoRendering/Scripts/StereoRenderer.cs:218 | after `mask &= ~(1 << s)` bit s is off |
| Renderer.ClearLayerBitKeepsOthers | Assets/HTC.UnityPlugin/StereoRendering/Scripts/StereoRenderer.cs:218 | every other bit is as it was |
| Renderer.MissingLayerClearsTopBit | Assets/HTC.UnityPlugin/StereoRendering/Scripts/StereoRenderer.cs:211-219 | with the layer missing (-1) the shift is 31, and the eye camera loses layer 31 |
| Renderer.FindLayer | Assets/HTC.UnityPlugin/StereoRendering/Scripts/StereoRenderer.cs:584-595 | -1 exactly when no user layer has the name, otherwise the first index from i that has it |
| Renderer.FirstOpenSlot | Assets/HTC.UnityPlugin/StereoRendering/Scripts/StereoRenderer.cs:600-609 | -1 exactly when no index from i to 31 holds an empty name, otherwise the first that does |
| Renderer.InjectionResult | Assets/HTC.UnityPlugin/StereoRendering/Scripts/StereoRenderer.cs:597-625 | injection succeeds exactly when a user layer (index 8 or above) carries the name afterwards |
| Renderer.InjectionIdempotent | Assets/HTC.UnityPlugin/StereoRendering/Scripts/StereoRenderer.cs:576-626 | injecting twice is injecting once |
| Renderer.InjectionOverwritesOnlyAnOpenSlot | Assets/HTC.UnityPlugin/StereoRendering/Scripts/StereoRenderer.cs:597-615 | the names keep their number, and an entry changes only if it was an empty slot in 8..31, which then gets the name |
| Renderer.PassOrder | Assets/HTC.UnityPlugin/StereoRendering/Scripts/StereoRenderer.cs:359-407 | a pass is the head move, then all pre-listeners, then (when visible only) left render, left bind, right render, right bind, then all post-listeners. Both renders see the masked layers and culling inverted for a mirror. Eyes are rendered exactly when the surface is visible |
| Renderer.RightEyeViewIsShifted | Assets/HTC.UnityPlugin/StereoRendering/Scripts/StereoRenderer.cs:486-491 | for an affine reflection, shifting the main view before multiplying equals shifting the left eye's view after, so the two mirror views differ only in m03 by the eye separation |
| Manager.ManagerStatics.constructor | Assets/HTC.UnityPlugin/StereoRendering/Scripts/StereoRenderManager.cs:14-28 | at start there is no instance, the application is not quitting, and no camera is recorded |
| Manager.ManagerStatics.Initialize | Assets/HTC.UnityPlugin/StereoRendering/Scripts/StereoRenderManager.cs:53-91 | see below this table |
| Manager.ManagerStatics.Instance | Assets/HTC.UnityPlugin/StereoRendering/Scripts/StereoRenderManager.cs:44-51 | runs `Initialize` and returns the singleton |
| Manager.ManagerStatics.OnApplicationQuit | Assets/HTC.UnityPlugin/StereoRendering/Scripts/StereoRenderManager.cs:149-152 | sets the quitting flag. `Initialize` never clears it and, with it set, never changes the singleton |
| Manager.StereoRenderManager.constructor | Assets/HTC.UnityPlugin/StereoRendering/Scripts/StereoRenderManager.cs:20-35 | a new manager on a camera: no device yet, no factory, no surfaces, no listeners |
| Manager.StereoRenderManager.InitParamFactory | Assets/HTC.UnityPlugin/StereoRendering/Scripts/StereoRenderManager.cs:132-147 | with a factory present nothing changes. Otherwise the device type and factory are computed, a factory exists exactly for SteamVR, and "unsupported" is logged exactly when there is none, so a later call retries |
| Manager.StereoRenderManager.OnPreRender | Assets/HTC.UnityPlugin/StereoRendering/Scripts/StereoRenderManager.cs:157-177 | see below this table |
| Manager.RenderSurfaces | Assets/HTC.UnityPlugin/StereoRendering/Scripts/StereoRenderManager.cs:164-172 | the loop: the passes render exactly the flagged surfaces in order, and each rendered surface ends invisible with its head at the pose for the main camera. The layers are those of the frame's captures, each masked-then-restored as written (`FrameLayers`). A surface listed twice captures at most once. Only the four fields `Render` writes, and only on flagged surfaces, may change |
| Manager.RenderSelected | Assets/HTC.UnityPlugin/StereoRendering/Scripts/StereoRenderManager.cs:159-172 | `OnPreRender` up to the global post-listeners: the global pre-listeners, then the passes of exactly the registered surfaces whose `shouldRender` is set, with the same layer and surface results as `OnPreRender` |
| Manager.RenderPass | Assets/HTC.UnityPlugin/StereoRendering/Scripts/StereoRenderManager.cs:168-171 | one `Render`: its events move exactly that surface's head, to the pose for the main camera. The layers are masked-then-restored as written when the surface was visible, and untouched otherwise. The surface ends invisible, and only the four fields `Render` writes may change |
| Manager.StereoRenderManager.AddToManager | Assets/HTC.UnityPlugin/StereoRendering/Scripts/StereoRenderManager.cs:182-186 | the surface receives the recorded rig and camera and is appended, so the list grows by one |
| Manager.StereoRenderManager.RemoveFromManager | Assets/HTC.UnityPlugin/StereoRendering/Scripts/StereoRenderManager.cs:188-191 | the list becomes `RemoveFirst(old, surface)`: the first occurrence goes, and an absent surface changes nothing |
| Manager.StereoRenderManager.AddPreRenderListener | Assets/HTC.UnityPlugin/StereoRendering/Scripts/StereoRenderManager.cs:193-197 | null ignored, otherwise appended |
| Manager.StereoRenderManager.AddPostRenderListener | Assets/HTC.UnityPlugin/StereoRendering/Scripts/StereoRenderManager.cs:199-203 | null ignored, otherwise appended |
| Manager.StereoRenderManager.RemovePreRenderListener | Assets/HTC.UnityPlugin/StereoRendering/Scripts/StereoRenderManager.cs:205-209 | null ignored, otherwise one occurrence dropped |
| Manager.StereoRenderManager.RemovePostRenderListener | Assets/HTC.UnityPlugin/StereoRendering/Scripts/StereoRenderManager.cs:211-215 | null ignored, otherwise one occurrence dropped |
| Manager.PassSurfaces | Assets/HTC.UnityPlugin/StereoRendering/Scripts/StereoRenderer.cs:359-407 | whether visible or not, a render pass moves exactly one head, its own surface's; listener invocations and captures move none |
| Manager.ShouldRenderFlagsAt | Assets/HTC.UnityPlugin/StereoRendering/Scripts/StereoRenderManager.cs:167 | the k-th flag is the k-th surface's `shouldRender` |
| Manager.SelectedMembers | Assets/HTC.UnityPlugin/StereoRendering/Scripts/StereoRenderManager.cs:163-171 | a surface is rendered exactly when it is registered and its `shouldRender` is set |
| Manager.SelectedAll | Assets/HTC.UnityPlugin/StereoRendering/Scripts/StereoRenderManager.cs:163-171 | no more surfaces are rendered than are registered; with every flag set, the whole list is rendered in order |
| Manager.FilterMembers | Assets/HTC.UnityPlugin/StereoRendering/Scripts/StereoRenderManager.cs:163-171 | the loop keeps exactly the flagged entries |
| Manager.FrameLayersExact | Assets/HTC.UnityPlugin/StereoRendering/Scripts/StereoRenderManager.cs:164-172 | when every capture of the frame has no ignore layer or no occluder listed twice, the frame gives back every object layer |

`Manager.ManagerStatics.Initialize`:

- With an instance present, or the application quitting, nothing changes and nothing is logged.
- Otherwise the first manager found in the scene becomes the instance.
- All messages are logged in the source's order:
  - there are several managers;
  - VR is off (not on 5.3);
  - the camera lookup fails;
  - the camera has no rig.
- A new manager is attached to the HMD camera exactly when none was found and that camera sits under a rig.
- The camera and rig are recorded exactly then; otherwise they are kept.

`Manager.StereoRenderManager.OnPreRender`:

- The global pre-listeners run first, then the passes, then the global post-listeners.
- The passes render, in list order, exactly the registered surfaces whose `shouldRender` was set.
- The list is unchanged.
- The object layers are those the frame's captures leave, each restoring as written (`FrameResult`). When no capturing surface has an ignore layer with an occluder listed twice, every object layer is back.
- Every rendered surface ends invisible, with its head at the pose it computes for the main camera.
- Of a rendered surface only the head, the reflection matrix, the visibility and the saved buffer may change. The other surfaces are untouched.

## Left out

- Euler angles and `Quaternion.Euler`: rotations are quaternions throughout, so the `*Euler` properties are not modelled. The rotation setters take the quaternion directly.
- Floating point: all geometry is over exact reals. Nothing is claimed about rounding, or about `Rotate` for non-unit quaternions beyond Unity's formula.
- The `localCanvasOrigin*` properties and the `canvasOriginForward`/`Right` getters: these are transform-space conversions of the modelled getters. Only `up` is used, for the mirror plane.
- `Start` beyond its culling-mask step, `Reset`, `OnDestroy`, `CreateStereoCameraRig`, `SwapStereoShader`, `CreateRenderTextures` and `IsEditing`: engine asset and object manipulation. `OnDestroy` only calls `RemoveFromManager`, which is modelled.
- `RenderWithOneTexture` and the Unity 5.3 branches of `Render` and `MoveStereoCameraBasedOnHmdPose`: only the 5.4-or-newer path of the render pass is modelled. The 5.3 branches of `GetHmdType`, `GetHmdCamera` and the VR-enabled warning are modelled through flags.
- What the listeners do: an invocation is an event in the trace, and a callback's own effects (it could change the surface or re-register) are not modelled.
- Renderer.StereoRenderer.Render requires a main camera eye, and a parameter factory when the surface is visible; `OnPreRender` requires the same of every surface it renders. The source throws a NullReferenceException without them, which is not modelled. A null eye throws at StereoRenderer.cs:412 (and at :467 and :489 for a mirror). A null factory throws at :455, after the occluders were masked (:373-379) and culling was inverted for a mirror (:383). There is no try/finally, so the occluders stay on the ignore layer and culling stays inverted. The next capture then saves the masked layers as the originals. For the same reason every occluder must exist (no null entries in `ignoreWhenRender`).
- Renderer.StereoRenderer.Render takes the factory as a parameter. The source reads `StereoRenderManager.Instance.paramFactory`, and `OnPreRender` passes its own manager's factory, which is the instance's in a scene with one manager.
- Renderer.StereoRenderer.CaptureAndNotify, Renderer.StereoRenderer.CaptureVisible, Manager.RenderSelected, Manager.RenderSurfaces, Manager.RenderEntry and Manager.RenderPass are not in the source. They split the proofs of `Render` and of `OnPreRender`'s loop.
- `Transform`, `GameObject` and `Camera` objects are identities (`nat`) or pose values. A camera's view matrix and pose are passed in where the source reads them. `SteamVR.instance`'s answers are a `SteamVRRuntime` value.
- The 5.3 `SteamVR_Camera` lookups in `GetHmdType` and `GetHmdCamera` are assumed to find the same object.
- `GetArrayElementAtIndex` beyond the layers array's size reads as a missing entry, which is never an open slot. `string.IsNullOrEmpty` is the empty string (names are never null).
- `Debug.LogError` messages are returned as data. The missing-layer message of `Start` is the `reported` flag, and `LayerInjection`'s "no open slot" message is its false result.
- The `MonoBehaviour` message order across frames (`OnWillRenderObject` before the manager's `OnPreRender`) is the caller's: each operation is modelled on its own.

## Findings

| source | as written | input that shows it | evidently intended | confidence | as-written member | corrected member |
|---|---|---|---|---|---|---|
| Assets/HTC.UnityPlugin/StereoRendering/Scripts/StereoRenderer.cs:396-398 | the occluders are restored first to last from the saved buffer | the same object listed twice in `ignoreWhenRender` on layer 5, with ignore layer 9: the buffer holds [5, 9] and the object ends on layer 9 | every occluder gets back the layer it had before `Render`, so restoring last to first | not executed | Occluders.RestoreForwardCounterexample | Occluders.RestoreReverseUndoesMask |

The render pass runs the restore as written: `Renderer.StereoRenderer.RestoreOccluders`, and so `Capture`, `Render` and `OnPreRender`, leave the layers that `Occluders.Restored` gives. `Occluders.RestoreForwardCorrectWhen` shows that these are the original layers when no object is listed twice or the ignore layer does not exist, and the contracts of `Render` and `OnPreRender` state exactly that. The corrected order, last entry first, is `Occluders.RestoreReverse`. `Occluders.RestoreReverseUndoesMask` proves that it gives back every layer, duplicates included.
