// StereoRenderDevice: which head-mounted display is in use, and which
// parameter factory serves it.

module StereoRenderDevice {
  import opened Wrappers
  import opened DeviceParamFactory

  datatype HmdType = Unsupported | SteamVR

  /** The host facts GetHmdType inspects. `unity53` selects the Unity 5.3
      compile branch; `loadedDevice` is VRSettings.loadedDevice.ToString()
      there and VRSettings.loadedDeviceName otherwise; `steamVRCameraPresent`
      is whether FindObjectOfType<SteamVR_Camera>() finds one. */
  datatype HostVR = HostVR(unity53: bool, loadedDevice: string, steamVRCameraPresent: bool)

  function GetHmdType(host: HostVR): (t: HmdType)
    ensures !host.unity53 ==> (t == SteamVR <==> host.loadedDevice == "OpenVR")
    ensures host.unity53 ==> (t == SteamVR <==> host.loadedDevice == "None" && host.steamVRCameraPresent)
    ensures t != SteamVR ==> t == Unsupported
  {
    var t := Unsupported;
    if host.unity53 then
      (if host.loadedDevice == "None" && host.steamVRCameraPresent then SteamVR else t)
    else
      (if host.loadedDevice == "OpenVR" then SteamVR else t)
  }

  /** The factory for a device type; None stands for the source's null. */
  function InitParamFactory(hmdType: HmdType, runtime: SteamVRRuntime): (f: Option<ParamFactory>)
    ensures f.Some? <==> hmdType == SteamVR
    ensures f.Some? ==> f.value == SteamVRParamFactory(runtime)
  {
    if hmdType == SteamVR then Some(SteamVRParamFactory(runtime)) else None
  }
}
