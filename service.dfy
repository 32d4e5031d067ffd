/**
 * The WebSocket command dispatcher `handle_client`: the process-wide registry
 * (`camera_type`, `connected_cameras`, `streaming_cameras`, `camera_devices`),
 * one method per command, each returning the replies it sends (none or one),
 * the `stream_frames` loop as a single step, and the cleanup run when the
 * client connection closes.
 */
module CameraService {
  import opened Wrappers
  import opened Devices
  import opened Cameras
  import opened CameraConfig

  /** One JSON reply the service sends over the WebSocket. */
  datatype Reply =
    /** set_camera: `sdk_available` is present only for a non-empty type; `status` is "warning" when it is False. */
    | CameraTypeSet(cameraType: Option<string>, sdkAvailable: Option<bool>)
    /** get_devices before any type was set. */
    | CameraTypeNotSet
    | DeviceList(devices: seq<Descriptor>)
    | UnknownCameraType(cameraType: Option<string>)
    /** "Device index required". */
    | IndexRequired
    | Connected(index: int, width: int, height: int)
    /** "Failed to connect to camera i" with the suggestion to check the SDK and the DLL paths. */
    | ConnectFailed(index: int)
    | Disconnected(index: int)
    | NotConnected(index: int)
    | StreamStarted(frameWidth: int, frameHeight: int)
    | StreamStartFailed
    | StreamStopped
    /** `{'min': {param: v}}` / `{'max': {param: v}}`, or an empty dictionary when the value is None. */
    | LimitValue(limit: Limit, parameter: string, value: Option<ParamValue>)
    /** `{'current': {...}}`, in the order the dictionary is built. */
    | CurrentValues(values: seq<(string, Option<ParamValue>)>)
    /** setValue echoes the parameter and the value; `ok` selects status success or error. */
    | ValueSet(param: Option<string>, written: ParamValue, ok: bool)
    | SettingsSaved
    | InvalidJson
    /** `{'error': str(e)}` for an exception raised while handling a message. */
    | HandlerError

  /** The fields of a decoded JSON object the dispatcher reads; an absent key is None (or NullV). */
  datatype Request = Request(command: Option<string>, index: Option<int>, cameraType: Option<string>,
                             parameter: Option<string>, value: ParamValue,
                             width: Option<int>, height: Option<int>)

  /** What `json.loads` makes of a text message. */
  datatype Json = Malformed | NotObject | Object(request: Request)

  datatype Message = Binary(bytes: seq<bv8>) | Text(json: Json)

  /**
   * What `frame_to_jpeg` does with a frame: `cv2.imencode` raises (an empty
   * array, an unsupported channel count), reports failure (None), or gives bytes.
   */
  datatype Encoding = EncodeRaised | NotEncoded | Encoded(bytes: seq<bv8>)

  /**
   * How one round of the `stream_frames` loop went: the flag was down or
   * absent; the camera gave no frame; `frame_to_jpeg` raised, gave None or
   * gave empty bytes (`Encode`); `websocket.send` raised; or the JPEG was sent.
   */
  datatype StepOutcome = FlagDown | NoFrame | Encode(jpeg: Encoding) | SendRaised | Delivered

  /** A spawned `stream_frames(websocket, camera, index)` task. */
  datatype StreamTask = StreamTask(index: int, camera: Camera)

  const Commands: set<string> := {"set_camera", "get_devices", "connect", "disconnect", "start_stream",
                                  "stop_stream", "getMin", "getMax", "getCurrent", "setValue", "saveSettings"}

  /** The commands that reply "Device index required" when `index` is absent. */
  const IndexCommands: set<string> := Commands - {"set_camera", "get_devices"}

  /** The index commands that send nothing for an index not in `connected_cameras`. */
  const SilentCommands: set<string> := IndexCommands - {"connect", "start_stream"}

  /** The keys of the getCurrent reply, in order. */
  const CurrentParams: seq<string> := ["Width", "Height", "ExposureTime", "Gain",
                                       "AcquisitionFrameRate", "PixelFormat", "BalanceWhiteAuto"]

  /** Python truthiness of `camera_type`: None and "" are false. */
  predicate Truthy(t: Option<string>) {
    t.Some? && t.value != ""
  }

  /** The import-time flag (`IDS_AVAILABLE`, `MSHOT_AVAILABLE`, `HIKROBOT_AVAILABLE`) of a family. */
  function ImportFlag(imported: Availability, f: Family): (r: bool)
    ensures r == SdkAvailable(imported, FamilyName(f))
  {
    match f
    case Ids => imported.ids
    case Mshot => imported.mshot
    case Hikrobot => imported.hikrobot
  }

  /** A non-empty set of indices has an element to pick. */
  lemma Inhabited(s: set<int>)
    requires s != {}
    ensures exists i :: i in s
  {
    if forall i :: i !in s {
      assert false;
    }
  }

  class Service {
    var cameraType: Option<string>
    var connected: map<int, Camera>
    var streaming: map<int, bool>
    var devices: seq<Descriptor>
    /** The stream tasks still running, each with the camera it captured when spawned. */
    var tasks: seq<StreamTask>
    /** PATH and `sys.path`, edited by `initialize_camera_sdk` and `add_dll_paths`. */
    const env: Environment
    const host: Host
    /** `os.path.exists`. */
    const pathExists: string -> bool
    /** Which vendor packages imported when the service module loaded. */
    const imported: Availability
    /** What `check_camera_sdk_availability()` reports. */
    const probe: Availability

    /**
     * Every flag in `streaming_cameras` belongs to a registered camera, each
     * registered camera sits at its own index, and it is of the class the
     * current camera type selects.
     */
    ghost predicate Valid()
      reads this, connected.Values
    {
      && streaming.Keys <= connected.Keys
      && forall i :: i in connected ==>
           && connected[i].index == i
           && connected[i].Valid()
           && CameraClassFor(cameraType) == Some(connected[i].family)
    }

    /** The camera registered at `index`, as a frame: nothing when the index is absent or unregistered. */
    function Registered(index: Option<int>): set<Camera>
      reads this
    {
      if index.Some? && index.value in connected then {connected[index.value]} else {}
    }

    /** The module globals at import: no type, nothing registered. */
    constructor (env: Environment, host: Host, pathExists: string -> bool, imported: Availability, probe: Availability)
      ensures Valid()
      ensures cameraType.None? && connected == map[] && streaming == map[] && devices == [] && tasks == []
      ensures this.env == env && this.host == host && this.pathExists == pathExists
      ensures this.imported == imported && this.probe == probe
    {
      this.env := env;
      this.host := host;
      this.pathExists := pathExists;
      this.imported := imported;
      this.probe := probe;
      cameraType := None;
      connected := map[];
      streaming := map[];
      devices := [];
      tasks := [];
    }

    /**
     * set_camera: disconnects every registered camera, empties the registry
     * and the device list, records the type and, for a non-empty type, runs
     * `initialize_camera_sdk` and reports the probe's verdict.
     */
    method SetCamera(t: Option<string>) returns (replies: seq<Reply>)
      requires Valid()
      modifies this, env, connected.Values
      ensures Valid()
      ensures cameraType == t && connected == map[] && streaming == map[] && devices == []
      ensures tasks == old(tasks)
      ensures forall i :: i in old(connected) ==> old(connected)[i].disconnectCalls > old(connected[i].disconnectCalls)
      ensures Truthy(t) ==> replies == [CameraTypeSet(t, Some(SdkAvailable(probe, t.value)))]
      ensures Truthy(t) ==> var r := AddDllPathsResult(host, t.value, pathExists, old(env.path), old(env.sysPath));
                            env.path == r.path && env.sysPath == r.sysPath
      ensures !Truthy(t) ==> replies == [CameraTypeSet(t, None)] && unchanged(env)
    {
      cameraType := t;
      devices := [];
      var pending := connected.Keys;
      while pending != {}
        invariant pending <= connected.Keys
        invariant cameraType == t && devices == [] && tasks == old(tasks)
        invariant connected == old(connected) && streaming == old(streaming)
        invariant unchanged(env)
        invariant forall i :: i in connected ==> connected[i].Valid()
        invariant forall i :: i in connected ==> connected[i].disconnectCalls >= old(connected[i].disconnectCalls)
        invariant forall i :: i in connected && i !in pending ==>
                    connected[i].disconnectCalls > old(connected[i].disconnectCalls)
        decreases pending
      {
        Inhabited(pending);
        var i :| i in pending;
        var _ := connected[i].Disconnect();
        pending := pending - {i};
      }
      connected := map[];
      streaming := map[];
      if Truthy(t) {
        var _ := env.InitializeCameraSdk(t.value, host, pathExists, probe);
        var available := SdkAvailable(probe, t.value);
        replies := [CameraTypeSet(t, Some(available))];
      } else {
        replies := [CameraTypeSet(t, None)];
      }
    }

    /**
     * get_devices: needs a type; for a known type, enumerates with a fresh
     * index-0 camera of that class and stores the list it returns.
     */
    method GetDevices() returns (replies: seq<Reply>)
      requires Valid()
      modifies this`devices
      ensures Valid()
      ensures |replies| == 1
      ensures !Truthy(cameraType) ==> replies == [CameraTypeNotSet] && devices == old(devices)
      ensures Truthy(cameraType) && CameraClassFor(cameraType).None? ==>
                replies == [UnknownCameraType(cameraType)] && devices == old(devices)
      ensures CameraClassFor(cameraType).Some? ==> replies == [DeviceList(devices)]
      ensures CameraClassFor(cameraType).Some? ==>
                forall d :: d in devices ==> d.family == CameraClassFor(cameraType).value
      ensures CameraClassFor(cameraType).Some? && !ImportFlag(imported, CameraClassFor(cameraType).value) ==>
                devices == []
    {
      if !Truthy(cameraType) {
        return [CameraTypeNotSet];
      }
      var cls := CameraClassFor(cameraType);
      match cls {
        case None =>
          replies := [UnknownCameraType(cameraType)];
        case Some(f) =>
          var temp := new Camera(f, 0);
          devices := temp.GetDevices(ImportFlag(imported, f));
          replies := [DeviceList(devices)];
      }
    }

    /**
     * connect: with an index and a known type, builds a camera of that class
     * and registers it only if it connects, overwriting any camera already
     * at that index without disconnecting it.
     */
    method Connect(index: Option<int>) returns (replies: seq<Reply>)
      requires Valid()
      modifies this, env
      ensures Valid()
      ensures |replies| == 1
      ensures cameraType == old(cameraType) && streaming == old(streaming)
      ensures devices == old(devices) && tasks == old(tasks)
      ensures index.None? ==> replies == [IndexRequired] && connected == old(connected) && unchanged(env)
      ensures index.Some? && Truthy(cameraType) ==>
                var r := AddDllPathsResult(host, cameraType.value, pathExists, old(env.path), old(env.sysPath));
                env.path == r.path && env.sysPath == r.sysPath
      ensures index.Some? && !Truthy(cameraType) ==> unchanged(env)
      ensures index.Some? && CameraClassFor(cameraType).None? ==>
                replies == [UnknownCameraType(cameraType)] && connected == old(connected)
      ensures index.Some? && CameraClassFor(cameraType).Some? ==>
                || (replies == [ConnectFailed(index.value)] && connected == old(connected))
                || (&& index.value in connected
                    && fresh(connected[index.value])
                    && connected == old(connected)[index.value := connected[index.value]]
                    && connected[index.value].isConnected
                    && replies == [Connected(index.value, connected[index.value].width, connected[index.value].height)])
      ensures index.Some? && CameraClassFor(cameraType).Some? && !ImportFlag(imported, CameraClassFor(cameraType).value) ==>
                replies == [ConnectFailed(index.value)]
    {
      if index.None? {
        return [IndexRequired];
      }
      var i := index.value;
      if Truthy(cameraType) {
        var _ := env.AddDllPaths(cameraType.value, host, pathExists);
      }
      var cls := CameraClassFor(cameraType);
      match cls {
        case None =>
          replies := [UnknownCameraType(cameraType)];
        case Some(f) =>
          var camera := new Camera(f, i);
          var ok := camera.Connect(ImportFlag(imported, f));
          if ok {
            connected := connected[i := camera];
            replies := [Connected(i, camera.width, camera.height)];
          } else {
            replies := [ConnectFailed(i)];
          }
      }
    }

    /**
     * disconnect: for a registered index, disconnects the camera (whatever it
     * returns) and drops the index from both maps; otherwise silent.
     */
    method Disconnect(index: Option<int>) returns (replies: seq<Reply>)
      requires Valid()
      modifies this, Registered(index)
      ensures Valid()
      ensures |replies| <= 1
      ensures cameraType == old(cameraType) && devices == old(devices) && tasks == old(tasks)
      ensures index.None? ==> replies == [IndexRequired]
      ensures index.Some? && index.value !in old(connected) ==> replies == []
      ensures !(index.Some? && index.value in old(connected)) ==>
                connected == old(connected) && streaming == old(streaming)
      ensures index.Some? && index.value in old(connected) ==>
                && replies == [Disconnected(index.value)]
                && connected == old(connected) - {index.value}
                && streaming == old(streaming) - {index.value}
                && var c := old(connected)[index.value]; c.disconnectCalls == old(c.disconnectCalls) + 1
    {
      if index.None? {
        return [IndexRequired];
      }
      var i := index.value;
      if i !in connected {
        return [];
      }
      var camera := connected[i];
      var _ := camera.Disconnect();
      connected := connected - {i};
      streaming := streaming - {i};
      replies := [Disconnected(i)];
    }

    /**
     * start_stream: for a registered camera whose `start_stream` succeeds,
     * raises the streaming flag and spawns a stream task holding that camera.
     */
    method StartStream(index: Option<int>, width: Option<int>, height: Option<int>) returns (replies: seq<Reply>)
      requires Valid()
      modifies this, Registered(index)
      ensures Valid()
      ensures |replies| == 1
      ensures cameraType == old(cameraType) && connected == old(connected) && devices == old(devices)
      ensures index.None? ==> replies == [IndexRequired]
      ensures index.Some? && index.value !in connected ==> replies == [NotConnected(index.value)]
      ensures !(index.Some? && index.value in connected) ==> streaming == old(streaming) && tasks == old(tasks)
      ensures index.Some? && index.value in connected ==>
                var c := connected[index.value];
                || (&& c.isStreaming
                    && streaming == old(streaming)[index.value := true]
                    && tasks == old(tasks) + [StreamTask(index.value, c)]
                    && replies == [StreamStarted(c.width, c.height)])
                || (&& streaming == old(streaming)
                    && tasks == old(tasks)
                    && c.isStreaming == old(c.isStreaming)
                    && replies == [StreamStartFailed])
      ensures index.Some? && index.value in connected && !old(connected[index.value].isConnected) ==>
                replies == [StreamStartFailed] && unchanged(connected[index.value])
    {
      if index.None? {
        return [IndexRequired];
      }
      var i := index.value;
      if i !in connected {
        return [NotConnected(i)];
      }
      var camera := connected[i];
      var ok := camera.StartStream(width, height);
      if ok {
        streaming := streaming[i := true];
        replies := [StreamStarted(camera.width, camera.height)];
        tasks := tasks + [StreamTask(i, camera)];
      } else {
        replies := [StreamStartFailed];
      }
    }

    /**
     * stop_stream: for a registered index, asks the camera to stop (whatever
     * it returns) and lowers the streaming flag; otherwise silent.
     */
    method StopStream(index: Option<int>) returns (replies: seq<Reply>)
      requires Valid()
      modifies this, Registered(index)
      ensures Valid()
      ensures |replies| <= 1
      ensures cameraType == old(cameraType) && connected == old(connected)
      ensures devices == old(devices) && tasks == old(tasks)
      ensures index.None? ==> replies == [IndexRequired]
      ensures index.Some? && index.value !in connected ==> replies == []
      ensures !(index.Some? && index.value in connected) ==> streaming == old(streaming)
      ensures index.Some? && index.value in connected ==>
                && replies == [StreamStopped]
                && streaming == old(streaming)[index.value := false]
                && var c := connected[index.value]; c.stopCalls == old(c.stopCalls) + 1
    {
      if index.None? {
        return [IndexRequired];
      }
      var i := index.value;
      if i !in connected {
        return [];
      }
      var camera := connected[i];
      var _ := camera.StopStream();
      streaming := streaming[i := false];
      replies := [StreamStopped];
    }

    /**
     * getMin / getMax: for a registered index, reads the limit of `parameter`
     * (default ExposureTime); changes nothing.
     */
    method GetLimit(index: Option<int>, parameter: Option<string>, limit: Limit) returns (replies: seq<Reply>)
      ensures |replies| <= 1
      ensures index.None? ==> replies == [IndexRequired]
      ensures index.Some? && index.value !in connected ==> replies == []
      ensures index.Some? && index.value in connected ==>
                && |replies| == 1 && replies[0].LimitValue?
                && replies[0].limit == limit
                && replies[0].parameter == parameter.GetOr("ExposureTime")
      ensures index.Some? && index.value in connected ==>
                var c := connected[index.value];
                && (c.family == Ids && parameter.GetOr("ExposureTime") !in {"ExposureTime", "Gain"} ==>
                      replies[0].value.None?)
                && (c.family == Hikrobot && !(c.hasHandle && c.isConnected) ==> replies[0].value.None?)
                && (c.family != Mshot && replies[0].value.Some? ==> replies[0].value.value.RealV?)
    {
      if index.None? {
        return [IndexRequired];
      }
      var i := index.value;
      if i !in connected {
        return [];
      }
      var camera := connected[i];
      var param := parameter.GetOr("ExposureTime");
      var v := camera.GetParameterLimit(param, limit);
      replies := [LimitValue(limit, param, v)];
    }

    /**
     * getCurrent: for a registered index, reads the seven current values in
     * the reply's order; changes nothing.
     */
    method GetCurrent(index: Option<int>) returns (replies: seq<Reply>)
      ensures |replies| <= 1
      ensures index.None? ==> replies == [IndexRequired]
      ensures index.Some? && index.value !in connected ==> replies == []
      ensures index.Some? && index.value in connected ==>
                && |replies| == 1 && replies[0].CurrentValues?
                && |replies[0].values| == |CurrentParams|
                && forall k :: 0 <= k < |CurrentParams| ==> replies[0].values[k].0 == CurrentParams[k]
      ensures index.Some? && index.value in connected ==>
                var c := connected[index.value];
                && (c.family == Ids ==>
                      replies[0].values[0].1 == Some(IntV(c.width)) && replies[0].values[1].1 == Some(IntV(c.height)))
                && (c.family == Hikrobot && !(c.hasHandle && c.isConnected) ==>
                      forall k :: 0 <= k < |CurrentParams| ==> replies[0].values[k].1.None?)
                && (c.family == Hikrobot && replies[0].values[6].1.Some? ==>
                      replies[0].values[6].1.value.TextV? && replies[0].values[6].1.value.s in BalanceWhiteModes)
    {
      if index.None? {
        return [IndexRequired];
      }
      var i := index.value;
      if i !in connected {
        return [];
      }
      var camera := connected[i];
      var w := camera.GetParameterCurrent("Width");
      var h := camera.GetParameterCurrent("Height");
      var exposure := camera.GetParameterCurrent("ExposureTime");
      var gain := camera.GetParameterCurrent("Gain");
      var rate := camera.GetParameterCurrent("AcquisitionFrameRate");
      var format := camera.GetParameterCurrent("PixelFormat");
      var balance := camera.GetParameterCurrent("BalanceWhiteAuto");
      replies := [CurrentValues([("Width", w), ("Height", h), ("ExposureTime", exposure), ("Gain", gain),
                                 ("AcquisitionFrameRate", rate), ("PixelFormat", format),
                                 ("BalanceWhiteAuto", balance)])];
    }

    /** setValue: for a registered index, writes the parameter and echoes it with the outcome. */
    method SetValue(index: Option<int>, parameter: Option<string>, value: ParamValue) returns (replies: seq<Reply>)
      requires Valid()
      modifies Registered(index)
      ensures Valid()
      ensures |replies| <= 1
      ensures index.None? ==> replies == [IndexRequired]
      ensures index.Some? && index.value !in connected ==> replies == []
      ensures index.Some? && index.value in connected ==>
                && |replies| == 1 && replies[0].ValueSet?
                && replies[0].param == parameter && replies[0].written == value
      ensures index.Some? && index.value in connected ==>
                var c := connected[index.value];
                && (c.family == Ids && parameter != Some("ExposureTime") && parameter != Some("Gain") ==>
                      !replies[0].ok)
                && (c.family == Hikrobot && !(old(c.hasHandle) && old(c.isConnected)) ==> !replies[0].ok)
                && c.isConnected == old(c.isConnected) && c.isStreaming == old(c.isStreaming)
    {
      if index.None? {
        return [IndexRequired];
      }
      var i := index.value;
      if i !in connected {
        return [];
      }
      var camera := connected[i];
      var ok := camera.SetParameter(parameter, value);
      replies := [ValueSet(parameter, value, ok)];
    }

    /** saveSettings: for a registered index, acknowledges without touching the camera. */
    method SaveSettings(index: Option<int>) returns (replies: seq<Reply>)
      ensures index.None? ==> replies == [IndexRequired]
      ensures index.Some? && index.value !in connected ==> replies == []
      ensures index.Some? && index.value in connected ==> replies == [SettingsSaved]
    {
      if index.None? {
        return [IndexRequired];
      }
      if index.value !in connected {
        return [];
      }
      replies := [SettingsSaved];
    }

    /**
     * One pass of the receive loop: binary messages are skipped, malformed
     * JSON and non-object JSON get one error reply, an unknown command gets
     * nothing, and every known command sends at most one reply.
     */
    method HandleMessage(msg: Message) returns (replies: seq<Reply>)
      requires Valid()
      modifies this, env, connected.Values
      ensures Valid()
      ensures |replies| <= 1
      ensures msg.Binary? ==> replies == [] && unchanged(this) && unchanged(env)
      ensures msg == Text(Malformed) ==> replies == [InvalidJson] && unchanged(this) && unchanged(env)
      ensures msg == Text(NotObject) ==> replies == [HandlerError] && unchanged(this) && unchanged(env)
      ensures msg.Text? && msg.json.Object? && msg.json.request.command.GetOr("") !in Commands ==>
                replies == [] && unchanged(this) && unchanged(env)
      ensures msg.Text? && msg.json.Object? && msg.json.request.command.GetOr("") in IndexCommands
              && msg.json.request.index.None? ==>
                && replies == [IndexRequired]
                && connected == old(connected) && streaming == old(streaming) && unchanged(env)
                && cameraType == old(cameraType) && devices == old(devices) && tasks == old(tasks)
      ensures msg.Text? && msg.json.Object? && msg.json.request.command.GetOr("") in SilentCommands
              && msg.json.request.index.Some? && msg.json.request.index.value !in old(connected) ==>
                && replies == []
                && connected == old(connected) && streaming == old(streaming) && unchanged(env)
                && cameraType == old(cameraType) && devices == old(devices) && tasks == old(tasks)
                && forall c :: c in old(connected.Values) ==> unchanged(c)
    {
      match msg {
        case Binary(_) =>
          replies := [];
        case Text(Malformed) =>
          replies := [InvalidJson];
        case Text(NotObject) =>
          replies := [HandlerError];
        case Text(Object(req)) =>
          var command := req.command.GetOr("");
          if command == "set_camera" {
            replies := SetCamera(req.cameraType);
          } else if command == "get_devices" {
            replies := GetDevices();
          } else if command == "connect" {
            replies := Connect(req.index);
          } else if command == "disconnect" {
            replies := Disconnect(req.index);
          } else if command == "start_stream" {
            replies := StartStream(req.index, req.width, req.height);
          } else if command == "stop_stream" {
            replies := StopStream(req.index);
          } else if command == "getMin" {
            replies := GetLimit(req.index, req.parameter, Min);
          } else if command == "getMax" {
            replies := GetLimit(req.index, req.parameter, Max);
          } else if command == "getCurrent" {
            replies := GetCurrent(req.index);
          } else if command == "setValue" {
            replies := SetValue(req.index, req.parameter, req.value);
          } else if command == "saveSettings" {
            replies := SaveSettings(req.index);
          } else {
            replies := [];
          }
      }
    }

    /** Whether stream task `k` would go round its loop again. */
    predicate FlagRaised(k: nat)
      requires k < |tasks|
      reads this
    {
      tasks[k].index in streaming && streaming[tasks[k].index]
    }

    /** Stream task `k` has left its loop: it is gone from the task list, the others keep their order. */
    ghost predicate Ended(k: nat, before: seq<StreamTask>)
      requires k < |before|
      reads this
    {
      tasks == before[..k] + before[k + 1..]
    }

    /**
     * One iteration of task `k`'s `stream_frames` loop. With the flag down or
     * absent the stream task leaves its loop and sends nothing. Otherwise it
     * captures a frame; no frame, or an encoding that fails or comes out
     * empty, sends nothing and the loop goes on. An encoder that raises, or a
     * send that raises, ends the stream task through its exception handler,
     * leaving the flag as it is. `sent` is the JPEG delivered to the client
     * and `outcome` says how the round went.
     */
    method StreamStep(k: nat) returns (sent: Option<seq<bv8>>, ended: bool, outcome: StepOutcome)
      requires k < |tasks|
      modifies this`tasks
      ensures ended <==> Ended(k, old(tasks))
      ensures !ended ==> tasks == old(tasks)
      ensures outcome.FlagDown? <==> !old(FlagRaised(k))
      ensures ended <==> outcome.FlagDown? || outcome == Encode(EncodeRaised) || outcome.SendRaised?
      ensures sent.Some? <==> outcome.Delivered?
      ensures outcome.Encode? && outcome.jpeg.Encoded? ==> outcome.jpeg.bytes == []
      ensures outcome.NoFrame? || (outcome.Encode? && !outcome.jpeg.EncodeRaised?) ==> !ended && sent.None?
      ensures var t := old(tasks)[k];
              sent.Some? ==> |sent.value| > 0 && t.camera.isStreaming && t.camera.hasHandle && t.camera.family != Ids
      ensures var t := old(tasks)[k];
              old(FlagRaised(k)) && (t.camera.family == Ids || !t.camera.isStreaming || !t.camera.hasHandle) ==>
                outcome.NoFrame? && !ended && sent.None?
    {
      var t := tasks[k];
      if !FlagRaised(k) {
        tasks := tasks[..k] + tasks[k + 1..];
        return None, true, FlagDown;
      }
      var frame := t.camera.CaptureFrame();
      sent, ended, outcome := None, false, NoFrame;
      if frame.Some? {
        var jpeg: Encoding := *;  // frame_to_jpeg: cv2.imencode on the frame
        outcome := Encode(jpeg);
        match jpeg {
          case EncodeRaised =>
            ended := true;
          case NotEncoded =>
          case Encoded(bytes) =>
            if |bytes| > 0 {
              var delivered: bool := *;  // websocket.send did not raise
              if delivered {
                sent, outcome := Some(bytes), Delivered;
              } else {
                ended, outcome := true, SendRaised;
              }
            }
        }
      }
      if ended {
        tasks := tasks[..k] + tasks[k + 1..];
      }
    }

    /**
     * The `ConnectionClosed` handler: stops every registered camera that has
     * a streaming entry and lowers every streaming flag; the registry keeps
     * its cameras.
     */
    method ConnectionClosed()
      requires Valid()
      modifies this, connected.Values
      ensures Valid()
      ensures connected == old(connected) && cameraType == old(cameraType)
      ensures devices == old(devices) && tasks == old(tasks)
      ensures streaming.Keys == old(streaming).Keys
      ensures forall i :: i in streaming ==> !streaming[i]
      ensures forall i :: i in old(streaming) ==> connected[i].stopCalls > old(connected[i].stopCalls)
    {
      var pending := streaming.Keys;
      while pending != {}
        invariant pending <= streaming.Keys
        invariant streaming.Keys == old(streaming).Keys
        invariant connected == old(connected) && cameraType == old(cameraType)
        invariant devices == old(devices) && tasks == old(tasks)
        invariant Valid()
        invariant forall i :: i in streaming && i !in pending ==> !streaming[i]
        invariant forall i :: i in connected ==> connected[i].stopCalls >= old(connected[i].stopCalls)
        invariant forall i :: i in streaming && i !in pending ==> connected[i].stopCalls > old(connected[i].stopCalls)
        decreases pending
      {
        Inhabited(pending);
        var i :| i in pending;
        if i in connected {
          var _ := connected[i].StopStream();
        }
        streaming := streaming[i := false];
        pending := pending - {i};
      }
    }

    /**
     * After the connection closes, the next step of any stream task ends that
     * task without sending a frame.
     */
    method CloseEndsStreams(k: nat) returns (sent: Option<seq<bv8>>, ended: bool)
      requires Valid()
      requires k < |tasks|
      modifies this, connected.Values
      ensures sent.None? && ended
      ensures tasks == old(tasks)[..k] + old(tasks)[k + 1..]
    {
      ConnectionClosed();
      var outcome;
      sent, ended, outcome := StreamStep(k);
    }
  }
}
