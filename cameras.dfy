/**
 * The camera objects the service creates per device index: the common
 * connect / disconnect / start_stream / stop_stream / capture_frame /
 * parameter interface of `CameraBase`, with the IDS, Mshot and Hikrobot
 * variants' own guards and field updates.
 *
 * Every vendor SDK call is a nondeterministic outcome (`Call`) or a
 * nondeterministic value: the SDKs are outside this model.
 */
module Cameras {
  import opened Wrappers
  import opened Devices

  /** Outcome of one vendor SDK call: success, an error code (or falsy result), or an exception. */
  datatype Call = Succeeded | Failed | Raised

  /** Outcome of a Hikrobot `MV_CC_GetIntValue` read at connect time. */
  datatype IntRead = ReadRaised | ReadFailed | ReadValue(v: int)

  /** A captured frame (pixel decoding is the vendor's business). */
  datatype Frame = Frame(width: nat, height: nat, pixels: seq<bv8>)

  /** Which end of a parameter's range `getMin` / `getMax` asks for. */
  datatype Limit = Min | Max

  /** `if width and height`: both given and both non-zero. */
  predicate ResizeRequested(w: Option<int>, h: Option<int>) {
    w.Some? && w.value != 0 && h.Some? && h.value != 0
  }

  /** Python's `float(value)` on a JSON scalar; None where Python raises. Strings are not parsed. */
  function ToReal(v: ParamValue): Option<real> {
    match v
    case IntV(i) => Some(i as real)
    case RealV(r) => Some(r)
    case BoolV(b) => Some(if b then 1.0 else 0.0)
    case _ => None
  }

  /** Hikrobot integer parameters, read by `get_parameter_current` and written by `set_parameter`. */
  const HikrobotIntParams: set<string> := {"Width", "Height", "ExposureTime", "Gain", "AcquisitionFrameRate"}

  /** One camera object of a given family for one device index. */
  class Camera {
    const family: Family
    const index: int
    var isConnected: bool
    var isStreaming: bool
    var width: int
    var height: int
    /** `self.camera` is not None: the vendor handle object exists. */
    var hasHandle: bool
    /** IDS: `self.mem_ptr` is set (an image buffer was allocated). */
    var hasBuffer: bool
    /** Hikrobot: the display resolution last requested by `start_stream`. */
    var currentResolution: Option<(int, int)>
    /** How often `disconnect` and `stop_stream` have been called on this object. */
    ghost var disconnectCalls: nat
    ghost var stopCalls: nat

    /** A connected camera holds a vendor handle; variant-only fields stay unset in other variants. */
    ghost predicate Valid()
      reads this
    {
      && (isConnected ==> hasHandle)
      && (family != Ids ==> !hasBuffer)
      && (family != Hikrobot ==> currentResolution.None?)
    }

    /** `CameraClass(index)`: disconnected, not streaming, 0x0, no vendor handle. */
    constructor (family: Family, index: int)
      ensures Valid()
      ensures this.family == family && this.index == index
      ensures !isConnected && !isStreaming && width == 0 && height == 0
      ensures !hasHandle && !hasBuffer && currentResolution.None?
      ensures disconnectCalls == 0 && stopCalls == 0
    {
      this.family := family;
      this.index := index;
      isConnected, isStreaming := false, false;
      width, height := 0, 0;
      hasHandle, hasBuffer := false, false;
      currentResolution := None;
      disconnectCalls, stopCalls := 0, 0;
    }

    /**
     * `connect()`: with the family's SDK unavailable, fails and changes nothing;
     * on success the camera is connected and holds a handle.
     */
    method Connect(available: bool) returns (ok: bool)
      requires Valid()
      modifies this
      ensures Valid()
      ensures !available ==> !ok && unchanged(this)
      ensures ok ==> isConnected && hasHandle
      ensures isConnected ==> old(isConnected) || hasHandle
      ensures isStreaming == old(isStreaming) && hasBuffer == old(hasBuffer)
      ensures currentResolution == old(currentResolution)
      ensures disconnectCalls == old(disconnectCalls) && stopCalls == old(stopCalls)
    {
      if !available {
        return false;
      }
      var created: bool := *;  // constructing the vendor camera object did not raise
      if !created {
        return false;
      }
      hasHandle := true;
      match family {
      case Ids =>
        var init: Call := *;  // InitCamera
        if !init.Succeeded? {
          return false;
        }
        isConnected := true;
        var info: Call := *;  // GetSensorInfo
        if info.Raised? {
          return false;
        }
        var w: int, h: int := *, *;  // nMaxWidth, nMaxHeight
        width, height := w, h;
        return true;
      case Mshot =>
        var openDevice: Call := *;  // open()
        if !openDevice.Succeeded? {
          return false;
        }
        isConnected := true;
        var resolution: Option<(int, int)> := *;  // get_resolution(); None if it raised
        match resolution {
          case None => return false;
          case Some((w, h)) => width, height := w, h;
        }
        return true;
      case Hikrobot =>
        var openDevice: Call := *;  // Initialize, EnumDevices, CreateHandle, OpenDevice
        var deviceCount: nat := *;  // nDeviceNum
        if !openDevice.Succeeded? || index >= deviceCount {
          return false;
        }
        isConnected := true;
        var rw: IntRead := *;  // GetIntValue("Width")
        if rw.ReadRaised? {
          return false;
        } else if rw.ReadValue? {
          width := rw.v;
        }
        var rh: IntRead := *;  // GetIntValue("Height")
        if rh.ReadRaised? {
          return false;
        } else if rh.ReadValue? {
          height := rh.v;
        }
        return true;
      }
    }

    /**
     * `stop_stream()`: acts only on a streaming camera with a handle. IDS and
     * Mshot clear the flag unless the SDK raised; Hikrobot clears it only when
     * StopGrabbing succeeds, so a failed stop leaves it streaming.
     */
    method StopStream() returns (ok: bool)
      requires Valid()
      modifies this
      ensures Valid()
      ensures stopCalls == old(stopCalls) + 1
      ensures !(old(hasHandle) && old(isStreaming)) ==> !ok && isStreaming == old(isStreaming)
      ensures ok <==> old(hasHandle) && old(isStreaming) && !isStreaming
      ensures isConnected == old(isConnected) && hasHandle == old(hasHandle) && hasBuffer == old(hasBuffer)
      ensures width == old(width) && height == old(height) && currentResolution == old(currentResolution)
      ensures disconnectCalls == old(disconnectCalls)
    {
      stopCalls := stopCalls + 1;
      if !(hasHandle && isStreaming) {
        return false;
      }
      var stop: Call := *;  // StopLiveVideo / stop_capture / MV_CC_StopGrabbing
      if family == Hikrobot {
        if !stop.Succeeded? {
          return false;
        }
      } else if stop.Raised? {
        return false;
      }
      isStreaming := false;
      return true;
    }

    /**
     * `disconnect()`: with a handle, first stops an active stream, then releases
     * the handle; in every variant the normal path ends disconnected, without a
     * handle, returning True, also on a camera that was never connected.
     * Only IDS and Mshot can fail (their release call raised).
     */
    method Disconnect() returns (ok: bool)
      requires Valid()
      modifies this
      ensures Valid()
      ensures disconnectCalls == old(disconnectCalls) + 1
      ensures stopCalls == old(stopCalls) + (if old(hasHandle) && old(isStreaming) then 1 else 0)
      ensures ok ==> !isConnected && !hasHandle
      ensures !ok ==> family != Hikrobot && isConnected == old(isConnected) && hasHandle
      ensures !old(hasHandle) ==> ok && isStreaming == old(isStreaming)
      ensures family == Hikrobot ==> ok
      ensures isStreaming ==> old(isStreaming)
      ensures width == old(width) && height == old(height) && currentResolution == old(currentResolution)
      ensures hasBuffer == old(hasBuffer)
    {
      disconnectCalls := disconnectCalls + 1;
      if hasHandle {
        if isStreaming {
          var _ := StopStream();
        }
        match family {
        case Ids =>
          if hasBuffer {
            var free: Call := *;  // FreeImageMem
            if free.Raised? {
              return false;
            }
          }
          var exit: Call := *;  // ExitCamera
          if exit.Raised? {
            return false;
          }
        case Mshot =>
          var close: Call := *;  // close()
          if close.Raised? {
            return false;
          }
        case Hikrobot =>
          // CloseDevice / DestroyHandle / UnInitialize errors are logged and ignored
        }
        hasHandle := false;
      }
      isConnected := false;
      return true;
    }

    /**
     * `start_stream(width, height)`: refuses a camera that is not connected,
     * changing nothing. A requested non-zero size is applied first (Hikrobot
     * keeps each dimension the camera accepted and records the display size).
     */
    method StartStream(w: Option<int>, h: Option<int>) returns (ok: bool)
      requires Valid()
      modifies this
      ensures Valid()
      ensures !old(isConnected) ==> !ok && unchanged(this)
      ensures ok ==> isStreaming
      ensures !ok ==> isStreaming == old(isStreaming)
      ensures isConnected == old(isConnected) && hasHandle == old(hasHandle)
      ensures !ResizeRequested(w, h) ==> width == old(width) && height == old(height)
      ensures !ResizeRequested(w, h) ==> currentResolution == old(currentResolution)
      ensures ok && ResizeRequested(w, h) && family != Hikrobot ==> width == w.value && height == h.value
      ensures ok && ResizeRequested(w, h) && family == Hikrobot ==>
        currentResolution == Some((w.value, h.value))
        && (width == old(width) || width == w.value) && (height == old(height) || height == h.value)
      ensures disconnectCalls == old(disconnectCalls) && stopCalls == old(stopCalls)
    {
      if !isConnected {
        return false;
      }
      var resize := ResizeRequested(w, h);
      match family {
      case Ids =>
        if resize {
          var write: Call := *;  // SetImageSize
          if write.Raised? {
            return false;
          }
          width, height := w.value, h.value;
        }
        var alloc: Call := *;  // AllocImageMem
        if alloc.Raised? {
          return false;
        }
        hasBuffer := true;
        var add: Call := *;  // AddToSequence
        if add.Raised? {
          return false;
        }
        var capture: Call := *;  // CaptureVideo
        if !capture.Succeeded? {
          return false;
        }
      case Mshot =>
        if resize {
          var write: Call := *;  // set_resolution
          if write.Raised? {
            return false;
          }
          width, height := w.value, h.value;
        }
        var start: Call := *;  // start_capture()
        if !start.Succeeded? {
          return false;
        }
      case Hikrobot =>
        if resize {
          var setW: Call := *;  // SetIntValue("Width")
          if setW.Raised? {
            return false;
          } else if setW.Succeeded? {
            width := w.value;
          }
          var setH: Call := *;  // SetIntValue("Height")
          if setH.Raised? {
            return false;
          } else if setH.Succeeded? {
            height := h.value;
          }
          currentResolution := Some((w.value, h.value));
        }
        var grab: Call := *;  // MV_CC_StartGrabbing
        if !grab.Succeeded? {
          return false;
        }
      }
      isStreaming := true;
      return true;
    }

    /**
     * `capture_frame()`: nothing unless streaming. The IDS variant never yields
     * a frame (its conversion is a placeholder); Mshot and Hikrobot also need
     * a handle (on Mshot, `get_frame()` on a None handle raises and the
     * handler gives None).
     */
    method CaptureFrame() returns (frame: Option<Frame>)
      ensures !isStreaming ==> frame.None?
      ensures family == Ids ==> frame.None?
      ensures family == Mshot && !hasHandle ==> frame.None?
      ensures family == Hikrobot && !hasHandle ==> frame.None?
    {
      if !isStreaming {
        return None;
      }
      match family {
      case Ids =>
        frame := None;
      case Mshot =>
        if !hasHandle {
          return None;
        }
        frame := *;  // get_frame(); None if it raised
      case Hikrobot =>
        if !hasHandle {
          return None;
        }
        frame := *;  // GetImageBuffer within 1000 ms, decoded and resized; None on timeout or error
      }
    }

    /**
     * `get_parameter_min` / `get_parameter_max`: IDS answers only for
     * ExposureTime and Gain, Hikrobot only while connected; both give floats.
     */
    method GetParameterLimit(param: string, limit: Limit) returns (v: Option<ParamValue>)
      ensures family == Ids && param != "ExposureTime" && param != "Gain" ==> v.None?
      ensures family == Hikrobot && !(hasHandle && isConnected) ==> v.None?
      ensures family != Mshot && v.Some? ==> v.value.RealV?
      ensures family == Mshot && !hasHandle ==> v.None?
    {
      match family {
      case Ids =>
        if (param == "ExposureTime" || param == "Gain") && hasHandle {
          var r: Option<real> := *;  // GetExposureRange / GetGainRange; None if it raised
          v := if r.Some? then Some(RealV(r.value)) else None;
        } else {
          v := None;
        }
      case Mshot =>
        if !hasHandle {
          return None;
        }
        v := *;  // the SDK's answer; None if it raised
      case Hikrobot =>
        if !hasHandle || !isConnected {
          return None;
        }
        var r: Option<int> := *;  // nMin / nMax when GetIntValue returned 0
        v := if r.Some? then Some(RealV(r.value as real)) else None;
      }
    }

    /**
     * `get_parameter_current(param)`: IDS reports its own Width and Height
     * fields; Hikrobot reads integer parameters as floats, PixelFormat as its
     * code and BalanceWhiteAuto as a mode name; unknown names give None.
     */
    method GetParameterCurrent(param: string) returns (v: Option<ParamValue>)
      ensures family == Ids && param == "Width" ==> v == Some(IntV(width))
      ensures family == Ids && param == "Height" ==> v == Some(IntV(height))
      ensures family == Ids && param !in {"ExposureTime", "Gain", "Width", "Height"} ==> v.None?
      ensures family == Hikrobot && !(hasHandle && isConnected) ==> v.None?
      ensures (family == Hikrobot && param !in HikrobotIntParams
               && param != "PixelFormat" && param != "BalanceWhiteAuto") ==> v.None?
      ensures family == Hikrobot && param in HikrobotIntParams && v.Some? ==> v.value.RealV?
      ensures family == Hikrobot && param == "BalanceWhiteAuto" && v.Some? ==>
                v.value.TextV? && v.value.s in BalanceWhiteModes
      ensures family == Mshot && !hasHandle ==> v.None?
    {
      match family {
      case Ids =>
        if param == "Width" {
          v := Some(IntV(width));
        } else if param == "Height" {
          v := Some(IntV(height));
        } else if (param == "ExposureTime" || param == "Gain") && hasHandle {
          var r: Option<real> := *;  // GetExposure / GetGain; None if it raised
          v := if r.Some? then Some(RealV(r.value)) else None;
        } else {
          v := None;
        }
      case Mshot =>
        if !hasHandle {
          return None;
        }
        v := *;  // get_parameter(param); None if it raised
      case Hikrobot =>
        if !hasHandle || !isConnected {
          return None;
        }
        if param in HikrobotIntParams {
          var r: Option<int> := *;  // nCurValue when GetIntValue returned 0
          v := if r.Some? then Some(RealV(r.value as real)) else None;
        } else if param == "PixelFormat" {
          var r: Option<int> := *;  // nCurValue when GetEnumValue returned 0
          v := if r.Some? then Some(IntV(r.value)) else None;
        } else if param == "BalanceWhiteAuto" {
          var r: Option<nat> := *;  // unsigned nCurValue when GetEnumValue returned 0
          v := if r.Some? then Some(TextV(BalanceWhiteName(r.value))) else None;
        } else {
          v := None;
        }
      }
    }

    /**
     * `set_parameter(param, value)`: IDS accepts only ExposureTime and Gain;
     * Hikrobot only while connected, only its known parameters, and a successful
     * Width or Height write updates its own field. Nothing else changes.
     */
    method SetParameter(param: Option<string>, value: ParamValue) returns (ok: bool)
      requires Valid()
      modifies this
      ensures Valid()
      ensures family == Ids && param != Some("ExposureTime") && param != Some("Gain") ==> !ok
      ensures family == Hikrobot && !(old(hasHandle) && old(isConnected)) ==> !ok
      ensures (family == Hikrobot && !(param.Some? && param.value in HikrobotIntParams
               + {"PixelFormat", "BalanceWhiteAuto", "DigitalZoom"})) ==> !ok
      ensures family == Hikrobot && ok && param == Some("Width") ==> ToInt(value).Some? && width == ToInt(value).value
      ensures family == Hikrobot && ok && param == Some("Height") ==> ToInt(value).Some? && height == ToInt(value).value
      ensures !(family == Hikrobot && ok && param == Some("Width")) ==> width == old(width)
      ensures !(family == Hikrobot && ok && param == Some("Height")) ==> height == old(height)
      ensures isConnected == old(isConnected) && isStreaming == old(isStreaming)
      ensures hasHandle == old(hasHandle) && hasBuffer == old(hasBuffer)
      ensures currentResolution == old(currentResolution)
      ensures disconnectCalls == old(disconnectCalls) && stopCalls == old(stopCalls)
    {
      match family {
      case Ids =>
        if param == Some("ExposureTime") && hasHandle && ToReal(value).Some? {
          var write: Call := *;  // SetExposure(float(value))
          ok := write.Succeeded?;
        } else if param == Some("Gain") && hasHandle && ToInt(value).Some? {
          var write: Call := *;  // SetGain(int(value))
          ok := write.Succeeded?;
        } else {
          ok := false;
        }
      case Mshot =>
        if !hasHandle {
          return false;
        }
        ok := *;  // set_parameter(param, value); False if it raised
      case Hikrobot =>
        if !hasHandle || !isConnected || param.None? {
          return false;
        }
        var name := param.value;
        if name in HikrobotIntParams {
          var n := ToInt(value);
          if n.None? {
            return false;
          }
          var write: Call := *;  // SetIntValue(param, int(value))
          ok := write.Succeeded?;
          if ok && name == "Width" {
            width := n.value;
          } else if ok && name == "Height" {
            height := n.value;
          }
        } else if name == "PixelFormat" {
          var write: Call := *;  // SetEnumValue(param, value)
          ok := write.Succeeded?;
        } else if name == "BalanceWhiteAuto" {
          var code := BalanceWhiteCode(value);
          var write: Call := *;  // SetEnumValue(param, code)
          ok := write.Succeeded?;
        } else if name == "DigitalZoom" && ToReal(value).Some? {
          var write: Call := *;  // SetDigitalZoom(float(value))
          ok := write.Succeeded?;
        } else {
          ok := false;
        }
      }
    }

    /**
     * `get_devices()`: the family's discovered devices, none when its SDK is
     * unavailable. Hikrobot builds each descriptor from the enumerated device
     * information, numbering devices from 0.
     */
    method GetDevices(available: bool) returns (devices: seq<Descriptor>)
      ensures !available ==> devices == []
      ensures forall d :: d in devices ==> d.family == family
      ensures family != Hikrobot ==> forall d :: d in devices ==> d.iface == Usb && d.ip.None?
      ensures family == Hikrobot ==> exists infos :: devices == DescribeAllHikrobot(infos)
      ensures family == Mshot ==> forall i :: 0 <= i < |devices| ==> devices[i].index == i
    {
      if !available {
        assert DescribeAllHikrobot([]) == [];
        return [];
      }
      match family {
      case Ids =>
        // is_GetCameraInfo(i) succeeded for these indices, with these model / serial strings
        var found: seq<(nat, string, string)> := *;
        devices := seq(|found|, i requires 0 <= i < |found| =>
                         Descriptor(found[i].0, Ids, found[i].1, found[i].2, Usb, None));
      case Mshot =>
        var found: seq<(string, string)> := *;  // enumerate_cameras()
        devices := seq(|found|, i requires 0 <= i < |found| =>
                         Descriptor(i, Mshot, found[i].0, found[i].1, Usb, None));
      case Hikrobot =>
        var infos: seq<HikDeviceInfo> := *;  // MV_CC_EnumDevices; empty if init or enumeration failed
        devices := DescribeAllHikrobot(infos);
      }
    }
  }
}
