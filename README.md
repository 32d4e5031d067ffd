# Camera control plane — a Dafny model

This project models the control plane of a camera streaming service. A
WebSocket client picks a camera vendor (IDS uEye, Mshot or Hikrobot MVS),
lists devices, connects to a device index, starts and stops a JPEG frame
stream, and reads and writes camera parameters. The model covers three parts:

- **The command dispatcher** `handle_client`, with its process-wide registry:
  - the selected `camera_type`;
  - `connected_cameras`, from index to camera object;
  - `streaming_cameras`, from index to streaming flag;
  - `camera_devices`.

  This is the class `CameraService.Service`. It has one method per command,
  and each method returns the list of replies it sends, which holds none or
  one. The module also has one step of the `stream_frames` loop and the
  cleanup that runs when the connection closes.
- **The per-device lifecycle objects.** `CameraBase` and its IDS, Mshot and
  Hikrobot variants become the class `Cameras.Camera`, which has a `family`
  field. Each method follows the code of each variant, branch by branch.
  Every vendor SDK call is a nondeterministic outcome: it succeeded, it
  failed, or it raised, or it returned some value. Two ghost counters
  (`disconnectCalls`, `stopCalls`) record that `disconnect()` and
  `stop_stream()` were called.
- **The DLL search-path configuration** in `camera_config.py`, in the module
  `CameraConfig`. It covers the `DLL_PATHS` table, `add_dll_paths`,
  `find_dll`, `initialize_camera_sdk` and the three configuration getters.
  PATH and `sys.path` live in an `Environment` object. `add_dll_paths` is
  proved against the left fold `AddDirs`. `os.path.exists`, applied to
  directories and files alike, is a parameter `pathExists`.

Small pure helpers sit in `Devices`:
- the camera-class lookup;
- the BalanceWhiteAuto name↔code maps;
- the GigE dotted-quad rendering of a 32-bit address, proved to parse back
  to the same address. Each octet lies in 0..255 because `Octets` returns
  `bv8` values, narrowed with a checked conversion.

`Strings` holds the string facts these need: Python's substring test and
decimal rendering.

Behaviours of the code the model keeps as they are:
- An unknown command sends no reply.
- `disconnect`, `stop_stream`, `getMin`, `getMax`, `getCurrent`, `setValue`
  and `saveSettings` on an unregistered index send no reply and change
  nothing.
- A second successful `connect` on an index overwrites the registry entry.
  The old camera object is not disconnected.
- When receiving a message fails with `ConnectionClosed`, the handler stops
  the streams and lowers every streaming flag. It leaves every camera
  registered and connected.
- "Streaming implies connected" does not hold for the camera objects. A
  Hikrobot `disconnect` whose `StopGrabbing` fails still clears
  `is_connected` and leaves `is_streaming` True.
- A stream task whose JPEG encoder raises leaves its loop through its
  exception handler, and its streaming flag stays True.

## Model

| member | source | states |
|---|---|---|
| Strings.ContainsIff | backend/camera_config.py:142 | Python's `path not in current_path` is false exactly when the directory occurs at some position of PATH |
| Strings.ContainsPrepend | backend/camera_config.py:143 | prepending a directory and separator to PATH keeps every substring PATH already had |
| Strings.NatToString | backend/websocket_camera_service.py:507 | `str()` of a number is a non-empty run of decimal digits, with a leading zero only for zero |
| Strings.NatToStringRoundTrip | backend/websocket_camera_service.py:507 | the decimal rendering of a number reads back as that number |
| Devices.CameraClassFor | backend/websocket_camera_service.py:796-804 | `get_camera_class` gives a class exactly for "ids", "mshot" and "hikrobot", and the class found is the one named by the type; None and any other string give None |
| Devices.CameraClassForName | backend/websocket_camera_service.py:796-804 | each vendor's own name selects that vendor's class |
| Devices.TruncateReal | backend/websocket_camera_service.py:773 | `int(value)` on a float truncates toward zero: the greatest integer not above a non-negative input, the least integer not below a negative one |
| Devices.BalanceWhiteName | backend/websocket_camera_service.py:760-762 | the read-back of BalanceWhiteAuto is always one of "Off", "Once" or "Continuous" |
| Devices.BalanceWhiteCode | backend/websocket_camera_service.py:784-786 | the code written for BalanceWhiteAuto is always 0, 1 or 2 |
| Devices.BalanceWhiteRoundTrip | backend/websocket_camera_service.py:784-786 | name→code→name gives back "Off", "Once" and "Continuous"; code→name→code gives back 0, 1 and 2; an unknown name writes code 0; a code of 3 or more reads back as "Off" |
| Devices.OctetsBijective | backend/websocket_camera_service.py:507 | the four octets recombine to the address, and four octets are the octets of the address they recombine to |
| Devices.FormatIpRoundTrip | backend/websocket_camera_service.py:507 | the dotted-quad string parses back to the same 32-bit address, so no two addresses render alike |
| Devices.DescribeHikrobot | backend/websocket_camera_service.py:502-522 | a GigE descriptor has interface GigE and an `ip` that parses back to `nCurrentIp`; a USB3 descriptor has interface USB and no `ip`; index, type, model and serial are those of the device |
| Devices.DescribeAllHikrobot | backend/websocket_camera_service.py:501-522 | the k-th descriptor has index k and describes the k-th enumerated device |
| CameraConfig.JoinPath | backend/camera_config.py:192 | `os.path.join(path, name)` starts with the directory and ends with the file name |
| CameraConfig.DllPaths | backend/camera_config.py:17-74 | `DLL_PATHS` has an entry exactly for "ids", "mshot" and "hikrobot" |
| CameraConfig.AddDirsGrowth | backend/camera_config.py:138-152 | `added_paths` only grows; PATH grows by at least one character per directory added; PATH is unchanged when nothing was added |
| CameraConfig.AddedIffPathChanged | backend/camera_config.py:154-159 | the loop added a directory exactly when PATH changed |
| CameraConfig.AddedAreExisting | backend/camera_config.py:139-145 | every directory prepended to PATH is one of the configured directories and exists |
| CameraConfig.AddDirsCovers | backend/camera_config.py:138-150 | afterwards every existing configured directory is a substring of PATH and an element of `sys.path` |
| CameraConfig.AddDirsStable | backend/camera_config.py:138-150 | when every existing directory is already in PATH and `sys.path`, the loop changes nothing |
| CameraConfig.SecondCallAddsNothing | backend/camera_config.py:138-159 | a second loop over the same directories, with the file system unchanged, adds nothing and leaves PATH and `sys.path` as they were |
| CameraConfig.AddDllPathsResult | backend/camera_config.py:130-159 | for a type not in `DLL_PATHS` nothing changes and nothing is added; otherwise PATH changes exactly when a directory was added |
| CameraConfig.AddDllPathsIdempotent | backend/camera_config.py:120-159 | calling `add_dll_paths` twice in a row, with the file system unchanged, the second call returns False and changes neither PATH nor `sys.path` |
| CameraConfig.SdkAvailable | backend/camera_config.py:255-256 | `availability.get(camera_type, False)` is the vendor's flag for the three known types and False for any other |
| CameraConfig.Environment.AddDllPaths | backend/camera_config.py:120-159 | PATH and `sys.path` become those of the fold `AddDllPathsResult`; the result is True exactly when PATH changed; an unknown type changes nothing |
| CameraConfig.Environment.InitializeCameraSdk | backend/camera_config.py:241-256 | runs `add_dll_paths` and returns the probe's availability for the type, False for an unknown type |
| CameraConfig.FirstWithSuffix | backend/camera_config.py:180-183 | the index found is that of the first listed file with the suffix, and None means no listed file has it |
| CameraConfig.DefaultNameIds | backend/camera_config.py:176-183 | with no name given, IDS searches for `ueye_api.dll` on Windows and `libueye_api.so` elsewhere |
| CameraConfig.DefaultNameMshot | backend/camera_config.py:176-183 | with no name given, Mshot searches for `mshot.dll` on Windows and `libmshot.so` elsewhere |
| CameraConfig.DefaultNameHikrobot | backend/camera_config.py:176-183 | with no name given, Hikrobot searches for `MvCameraControl.dll` on Windows and `libMvCameraControl.so` elsewhere |
| CameraConfig.SearchDirs | backend/camera_config.py:188-198 | the result is the joined path in the first directory where the file exists, and '' exactly when it exists in none |
| CameraConfig.FindDll | backend/camera_config.py:162-198 | '' for an unknown type or an empty chosen name; otherwise the joined path in the first platform directory holding the file, and '' exactly when none holds it |
| CameraConfig.GetServiceConfig | backend/camera_config.py:77-84 | the service listens on localhost:8765, with JPEG quality within 0..100, a positive frame rate and connection limit, and a 1 MiB buffer |
| CameraConfig.GetImageProcessingDefaults | backend/camera_config.py:87-106 | every operation is off and every factor neutral; the threshold is a byte value, the blur kernel odd and positive, and the two edge thresholds ordered |
| CameraConfig.GetCameraParamDefaults | backend/camera_config.py:109-117 | a 1920x1080 camera at 30 frames per second, positive exposure, white balance Off |
| Cameras.Camera.constructor | backend/websocket_camera_service.py:121-126 | a new camera is disconnected, not streaming, 0x0 and holds no vendor handle |
| Cameras.Camera.Connect | backend/websocket_camera_service.py:191-593 | every variant fails without its SDK and then changes nothing; on success the camera is connected and holds a handle; the streaming flag, the IDS buffer and the recorded resolution are untouched |
| Cameras.Camera.StopStream | backend/websocket_camera_service.py:251-650 | IDS: returns False and changes nothing unless it holds a handle and is streaming; True exactly when the stream ended; Mshot: the same guard; True exactly when the stream ended; Hikrobot: the same guard; a failed `StopGrabbing` returns False and leaves the camera streaming |
| Cameras.Camera.Disconnect | backend/websocket_camera_service.py:210-612 | IDS: stops an active stream first; with no handle it returns True; on success it is no longer connected; a failure to free memory or exit returns False with the connection flag as it was and the handle kept; Mshot: stops an active stream first; a failed close leaves it connected and returns False; otherwise it ends disconnected with True; Hikrobot: stops an active stream first and always ends disconnected with True, even when stopping failed, so it may still be streaming |
| Cameras.Camera.StartStream | backend/websocket_camera_service.py:226-638 | IDS: not connected gives False and no change; success means streaming; the size changes only when width and height are both non-zero; Mshot: the same guard; the resolution is set only when width and height are both non-zero; Hikrobot: the same guard; after a successful start with a requested size, that size is the current resolution and width and height are each either the old or the requested value; a failed start leaves the streaming flag unchanged |
| Cameras.Camera.CaptureFrame | backend/websocket_camera_service.py:262-714 | IDS never yields a frame, streaming or not; Mshot and Hikrobot yield nothing unless streaming with a handle (a Mshot `get_frame()` on a None handle raises and gives None) |
| Cameras.Camera.GetParameterLimit | backend/websocket_camera_service.py:277-740 | IDS gives a range value only for ExposureTime and Gain; Mshot gives nothing without a handle; Hikrobot gives nothing unless connected with a handle, and a value it gives is numeric |
| Cameras.Camera.GetParameterCurrent | backend/websocket_camera_service.py:307-765 | IDS reports its own width and height; it reports nothing beyond ExposureTime, Gain, Width and Height; Mshot gives nothing without a handle; Hikrobot gives nothing unless connected with a handle; integer parameters are numbers; BalanceWhiteAuto is a mode name; unknown parameters give nothing |
| Cameras.Camera.SetParameter | backend/websocket_camera_service.py:326-793 | IDS accepts only ExposureTime and Gain; nothing but the SDK setting changes; Mshot changes no field of the camera; Hikrobot fails unless connected with a handle and the parameter is known; a successful Width or Height write records `int(value)` |
| Cameras.Camera.GetDevices | backend/websocket_camera_service.py:168-528 | IDS: nothing without the SDK; every descriptor is an IDS USB device without an IP; Mshot: nothing without the SDK; every descriptor is a Mshot USB device without an IP; Hikrobot: nothing without the SDK; otherwise the descriptors of some enumerated devices, numbered in order |
| CameraService.ImportFlag | backend/websocket_camera_service.py:171 | the import-time flag of a vendor is the availability entry under the vendor's name |
| CameraService.Service.constructor | backend/websocket_camera_service.py:112-115 | the service starts with no camera type and empty registry, streaming map and device list |
| CameraService.Service.SetCamera | backend/websocket_camera_service.py:874-906 | every registered camera has had `disconnect()` called; the registry, streaming map and device list are empty; the type is the requested one; a non-empty type runs the SDK initialisation and reports the probe's availability; an empty or missing type reports success without touching PATH |
| CameraService.Service.GetDevices | backend/websocket_camera_service.py:909-925 | without a type: "not set" and no change; an unknown type: "Unknown camera type" and no change; otherwise the stored list is the vendor's devices and is the one sent; one reply always |
| CameraService.Service.Connect | backend/websocket_camera_service.py:928-955 | no index: "Device index required" and no change; an unknown type: "Unknown camera type" and no change; otherwise either a failure reply with the registry unchanged, or a new connected camera stored at the index (overwriting any previous one, which is not touched) and a reply carrying its width and height |
| CameraService.Service.Disconnect | backend/websocket_camera_service.py:958-971 | a registered index: the camera's `disconnect()` was called and the index left both maps; an unregistered index: no reply and no change |
| CameraService.Service.StartStream | backend/websocket_camera_service.py:974-1000 | an unregistered index: "not connected", no flag and no task; success: the flag is True, one task holding that camera is spawned, and the reply carries the camera's size; failure: "Failed to start stream" and the flag and task list unchanged |
| CameraService.Service.StopStream | backend/websocket_camera_service.py:1003-1014 | a registered index: the camera's `stop_stream()` was called and its flag is False whatever that returned; an unregistered index: no reply and no change |
| CameraService.Service.GetLimit | backend/websocket_camera_service.py:1017-1040 | a registered index gives one min or max reply for the requested parameter, defaulting to ExposureTime, with the vendor's value; an unregistered index gives no reply; nothing changes |
| CameraService.Service.GetCurrent | backend/websocket_camera_service.py:1043-1060 | a registered index gives one reply with the seven parameters in order, with the vendor-specific guarantees on their values; an unregistered index gives no reply |
| CameraService.Service.SetValue | backend/websocket_camera_service.py:1063-1085 | a registered index gives one reply echoing parameter and value with the outcome; the camera's connection and streaming flags are unchanged; an unregistered index gives no reply and changes nothing |
| CameraService.Service.SaveSettings | backend/websocket_camera_service.py:1088-1098 | a registered index gives "saved"; an unregistered index gives no reply; nothing changes |
| CameraService.Service.HandleMessage | backend/websocket_camera_service.py:863-1107 | every message gets at most one reply; binary messages and unknown commands change nothing and get none; malformed JSON gets "Invalid JSON"; a missing index gets "Device index required" and leaves the type, registry, streaming map, device list, stream tasks and PATH unchanged; the seven silent commands on an unregistered index change none of those and touch no camera |
| CameraService.Service.StreamStep | backend/websocket_camera_service.py:1124-1138 | the round's outcome is FlagDown exactly when the flag is down or absent; the stream task ends exactly on FlagDown, a raising encoder or a raising send, so no frame, an encoding that gives None and empty JPEG bytes keep the loop going; a JPEG is sent exactly on Delivered, is non-empty and comes from a streaming non-IDS camera with a handle; with the flag up, an IDS, non-streaming or handle-less camera gives NoFrame and the loop goes on; the task list changes exactly by removing this stream task when it ends |
| CameraService.Service.ConnectionClosed | backend/websocket_camera_service.py:1109-1118 | when receiving fails with `ConnectionClosed`: every streaming entry is False with the same keys; each of those cameras had `stop_stream()` called; the registry is unchanged |
| CameraService.Service.CloseEndsStreams | backend/websocket_camera_service.py:1109-1138 | after the `ConnectionClosed` handler, the next step of any stream task ends it without sending a frame |

## Left out

- JSON decoding is an input. A request carries `command`, `index`, `camera_type`, `parameter`, `value`, `width` and `height`, typed as the code uses them. The following are not modelled:
  - an `index` that is a string or a list, which Python would hash or reject;
  - a `parameter` given as an explicit null, which getMin and getMax would pass on instead of the ExposureTime default;
  - JSON `value` strings that `int()`/`float()` parse.
- The exception handler of `handle_client` is modelled only for non-object JSON, where `data.get` raises. Reply serialisation failures are left out: no command method raises in the model.
- The vendor SDKs (pyueye, mshot, MvCameraControl) are nondeterministic outcomes. Their values are passed through unexamined. This includes the import-time availability flags and the `check_camera_sdk_availability` probe, which are parameters of the service.
- Frame contents, the pixel-format reshaping and the Hikrobot aspect-ratio resize of `capture_frame` are left out, because they are NumPy and float arithmetic. `apply_image_processing` and `frame_to_jpeg` are left out too, because they are OpenCV wrappers. The model only records whether a frame exists and whether its encoding raised, failed or gave bytes.
- `CameraService.Service.ConnectionClosed` and `CameraService.Service.CloseEndsStreams` model the handler for a `ConnectionClosed` raised while receiving. On a normal close (codes 1000 and 1001) the message iterator ends without raising, `handle_client` returns without cleanup, and the flags stay True with the stream tasks still running until a send fails, and indefinitely for a task that never sends. That path is not modelled.
- The asyncio scheduling, the 33 ms sleep and the interleaving of stream tasks with commands are left out. `StreamStep` is one iteration of one task, and the caller chooses the order.
- The model does not distinguish PATH being unset from PATH being empty. It does not model `os.path.join`'s handling of absolute second parts or drive letters either. Directory names are treated as relative to nothing.
- The order in which `set_camera` disconnects the registered cameras is not modelled: the model disconnects them in an arbitrary order, where Python follows the dictionary's key order.
- The `add_dll_paths('hikrobot')` that `camera_config.py` runs at import time on Windows is not a separate step. The service's `Environment` starts from whatever PATH it is given.
- Descriptors: IDS and Mshot descriptors have no `ip` key at all, while the model gives every descriptor an `ip` field and sets it to None for them, the same as a Hikrobot USB descriptor. The IDS and Mshot model and serial fields are vendor values.
- Float parameter values: `ParamValue.RealV` holds the exact value of the double a JSON number decodes to, as a Dafny `real`. NaN, Infinity and -Infinity, which `json.loads` accepts, are not modelled: on them `int(value)` raises, so `set_parameter` returns False, and `float(value)` passes them to the SDK. The rounding of a long JSON decimal to the nearest double before `int()` truncates it (2.9999999999999999 gives 3) is not modelled either.
- `app.py`, the image-processing modules, the example clients and the setup scripts are not part of this model.
