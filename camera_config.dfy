/**
 * DLL search-path configuration of the camera service: where each vendor's
 * libraries live per platform, prepending existing library directories to the
 * process's PATH and Python import path, locating a vendor DLL, and the
 * service / image-processing / camera-parameter defaults.
 *
 * `os.path.exists` (on directories and files) is a parameter `pathExists: string -> bool`; the host platform and
 * the backend directory (and its parent) are a `Host` value.
 */
module CameraConfig {
  import opened Wrappers
  import opened Strings

  /** `'windows' if sys.platform == 'win32' else 'linux'`. */
  datatype Platform = Windows | Linux

  /** `os.pathsep`. */
  function PathListSeparator(p: Platform): char {
    if p == Windows then ';' else ':'
  }

  /** The directory separator written by `os.path.join` and `pathlib`. */
  function DirSeparator(p: Platform): char {
    if p == Windows then '\\' else '/'
  }

  predicate EndsWithDirSeparator(p: Platform, dir: string) {
    dir != [] && (dir[|dir| - 1] == '/' || (p == Windows && dir[|dir| - 1] == '\\'))
  }

  /** `os.path.join(dir, name)` for a relative file name. */
  function JoinPath(p: Platform, dir: string, name: string): (r: string)
    ensures EndsWith(r, name)
    ensures IsPrefix(dir, r)
  {
    if dir == [] || EndsWithDirSeparator(p, dir) then dir + name
    else dir + [DirSeparator(p)] + name
  }

  /** The host the service runs on: platform, `BASE_DIR` and `BASE_DIR.parent` as strings. */
  datatype Host = Host(platform: Platform, baseDir: string, parentDir: string)

  /** Library directories per platform and the vendor's library file names. */
  datatype DllEntry = DllEntry(windows: seq<string>, linux: seq<string>, dllFiles: seq<string>)

  const KnownTypes: set<string> := {"ids", "mshot", "hikrobot"}

  /** `str(BASE_DIR / 'libs' / vendor)`. */
  function LibsDir(h: Host, vendor: string): string {
    JoinPath(h.platform, JoinPath(h.platform, h.baseDir, "libs"), vendor)
  }

  /** `DLL_PATHS['ids']`. */
  function IdsEntry(h: Host): DllEntry {
    DllEntry(
      [ "C:\\Program Files\\IDS\\uEye\\Develop\\Bin64",
        "C:\\Program Files (x86)\\IDS\\uEye\\Develop\\Bin64",
        LibsDir(h, "ids") ],
      [ "/usr/lib", "/usr/local/lib", LibsDir(h, "ids") ],
      [ "ueye_api.dll", "libueye_api.so" ])
  }

  /** `DLL_PATHS['mshot']`. */
  function MshotEntry(h: Host): DllEntry {
    DllEntry(
      [ "C:\\Program Files\\Mshot",
        "C:\\Program Files (x86)\\Mshot",
        LibsDir(h, "mshot") ],
      [ "/usr/lib", "/usr/local/lib", LibsDir(h, "mshot") ],
      [ "mshot.dll", "libmshot.so" ])
  }

  /** `DLL_PATHS['hikrobot']`. */
  function HikrobotEntry(h: Host): DllEntry {
    DllEntry(
      [ "C:\\Program Files\\MVS\\Development\\Bin\\x64",
        "C:\\Program Files (x86)\\MVS\\Development\\Bin\\x64",
        "C:\\Program Files\\MVS\\Development\\Bin\\Win64",
        "C:\\Program Files (x86)\\MVS\\Development\\Bin\\Win64",
        "C:\\Program Files (x86)\\Common Files\\MVS\\Runtime\\Win64_x64",
        "C:\\Program Files\\Common Files\\MVS\\Runtime\\Win64_x64",
        "C:\\Program Files\\MVS\\Development\\Samples\\Python\\MvImport",
        "C:\\Program Files (x86)\\MVS\\Development\\Samples\\Python\\MvImport",
        LibsDir(h, "hikrobot"),
        JoinPath(h.platform, h.parentDir, "MvImport"),
        h.baseDir ],
      [ "/usr/lib", "/usr/local/lib", LibsDir(h, "hikrobot") ],
      [ "MvCameraControl.dll", "libMvCameraControl.so" ])
  }

  /** `DLL_PATHS.get(camera_type)`: configured exactly for the three known types. */
  function DllPaths(h: Host, cameraType: string): (e: Option<DllEntry>)
    ensures e.Some? <==> cameraType in KnownTypes
  {
    match cameraType
    case "ids" => Some(IdsEntry(h))
    case "mshot" => Some(MshotEntry(h))
    case "hikrobot" => Some(HikrobotEntry(h))
    case _ => None
  }

  /** `DLL_PATHS[camera_type].get(platform, [])`. */
  function PlatformDirs(e: DllEntry, p: Platform): seq<string> {
    if p == Windows then e.windows else e.linux
  }

  // ---------------------------------------------------------------------------
  // add_dll_paths

  /** PATH, `sys.path`, and the directories prepended to PATH so far (`added_paths`). */
  datatype EnvState = EnvState(path: string, sysPath: seq<string>, added: seq<string>)

  /** One iteration of the loop of `add_dll_paths` on directory `d`. */
  function AddDir(s: EnvState, d: string, sep: char, pathExists: string -> bool): EnvState {
    if !pathExists(d) then s
    else
      var s1 := if Contains(s.path, d) then s
                else s.(path := d + [sep] + s.path, added := s.added + [d]);
      if d in s1.sysPath then s1 else s1.(sysPath := [d] + s1.sysPath)
  }

  /** The loop of `add_dll_paths` over `dirs`, in order. */
  function AddDirs(s: EnvState, dirs: seq<string>, sep: char, pathExists: string -> bool): EnvState
  {
    if dirs == [] then s
    else AddDir(AddDirs(s, dirs[..|dirs| - 1], sep, pathExists), dirs[|dirs| - 1], sep, pathExists)
  }

  /**
   * PATH changes exactly when a directory was prepended: each prepend adds at
   * least the separator, and `added_paths` only grows.
   */
  lemma {:induction false} AddDirsGrowth(s: EnvState, dirs: seq<string>, sep: char, pathExists: string -> bool)
    ensures var r := AddDirs(s, dirs, sep, pathExists);
      && |s.added| <= |r.added| && r.added[..|s.added|] == s.added
      && |r.path| >= |s.path| + (|r.added| - |s.added|)
      && (|r.added| == |s.added| ==> r.path == s.path)
  {
    if dirs != [] {
      AddDirsGrowth(s, dirs[..|dirs| - 1], sep, pathExists);
    }
  }

  /** `add_dll_paths` reports True iff PATH was changed. */
  lemma AddedIffPathChanged(s: EnvState, dirs: seq<string>, sep: char, pathExists: string -> bool)
    requires s.added == []
    ensures var r := AddDirs(s, dirs, sep, pathExists);
      r.added != [] <==> r.path != s.path
  {
    AddDirsGrowth(s, dirs, sep, pathExists);
  }

  /** Every prepended directory is one of the scanned directories and exists. */
  lemma {:induction false} AddedAreExisting(s: EnvState, dirs: seq<string>, sep: char, pathExists: string -> bool)
    ensures var r := AddDirs(s, dirs, sep, pathExists);
      forall k :: |s.added| <= k < |r.added| ==> pathExists(r.added[k]) && r.added[k] in dirs
  {
    if dirs != [] {
      var prev := dirs[..|dirs| - 1];
      AddedAreExisting(s, prev, sep, pathExists);
      AddDirsGrowth(s, prev, sep, pathExists);
      var r0 := AddDirs(s, prev, sep, pathExists);
      var r := AddDirs(s, dirs, sep, pathExists);
      forall k | |s.added| <= k < |r.added|
        ensures pathExists(r.added[k]) && r.added[k] in dirs
      {
        if k < |r0.added| {
          assert r.added[k] == r0.added[k];
          assert r0.added[k] in prev;
        } else {
          assert r.added[k] == dirs[|dirs| - 1];
        }
      }
    }
  }

  /** After the loop every existing directory is a substring of PATH and an element of `sys.path`. */
  lemma {:induction false} AddDirsCovers(s: EnvState, dirs: seq<string>, sep: char, pathExists: string -> bool)
    ensures var r := AddDirs(s, dirs, sep, pathExists);
      forall k :: 0 <= k < |dirs| && pathExists(dirs[k]) ==> Contains(r.path, dirs[k]) && dirs[k] in r.sysPath
  {
    if dirs != [] {
      var prev := dirs[..|dirs| - 1];
      var d := dirs[|dirs| - 1];
      AddDirsCovers(s, prev, sep, pathExists);
      var r0 := AddDirs(s, prev, sep, pathExists);
      var r := AddDirs(s, dirs, sep, pathExists);
      assert r == AddDir(r0, d, sep, pathExists);
      forall k | 0 <= k < |dirs| && pathExists(dirs[k])
        ensures Contains(r.path, dirs[k]) && dirs[k] in r.sysPath
      {
        if k < |dirs| - 1 {
          assert dirs[k] == prev[k];
          if r.path != r0.path {
            ContainsPrepend(d + [sep], r0.path, dirs[k]);
            assert r.path == (d + [sep]) + r0.path;
          }
        } else if r.path != r0.path {
          assert IsPrefix(d, r.path);
        }
      }
    }
  }

  /** When every existing directory is already present in both, the loop changes nothing. */
  lemma {:induction false} AddDirsStable(s: EnvState, dirs: seq<string>, sep: char, pathExists: string -> bool)
    requires forall k :: 0 <= k < |dirs| && pathExists(dirs[k]) ==> Contains(s.path, dirs[k]) && dirs[k] in s.sysPath
    ensures AddDirs(s, dirs, sep, pathExists) == s
  {
    if dirs != [] {
      AddDirsStable(s, dirs[..|dirs| - 1], sep, pathExists);
    }
  }

  /** A second `add_dll_paths` over the same directories, with nothing else changed, adds nothing. */
  lemma SecondCallAddsNothing(s: EnvState, dirs: seq<string>, sep: char, pathExists: string -> bool)
    ensures var r := AddDirs(s, dirs, sep, pathExists);
      var again := AddDirs(EnvState(r.path, r.sysPath, []), dirs, sep, pathExists);
      again.added == [] && again.path == r.path && again.sysPath == r.sysPath
  {
    var r := AddDirs(s, dirs, sep, pathExists);
    AddDirsCovers(s, dirs, sep, pathExists);
    AddDirsStable(EnvState(r.path, r.sysPath, []), dirs, sep, pathExists);
  }

  /** The directories `add_dll_paths` scans for a known camera type on this host. */
  function DirsFor(h: Host, cameraType: string): seq<string>
    requires cameraType in KnownTypes
  {
    PlatformDirs(DllPaths(h, cameraType).value, h.platform)
  }

  /**
   * The environment `add_dll_paths(camera_type)` leaves, and the directories
   * it prepended to PATH: nothing changes for an unknown type, and PATH
   * changes exactly when some directory was prepended.
   */
  function AddDllPathsResult(h: Host, cameraType: string, pathExists: string -> bool,
                             path: string, sysPath: seq<string>): (r: EnvState)
    ensures cameraType !in KnownTypes ==> r == EnvState(path, sysPath, [])
    ensures r.added != [] <==> r.path != path
  {
    if cameraType in KnownTypes then
      var start := EnvState(path, sysPath, []);
      var dirs := DirsFor(h, cameraType);
      var sep := PathListSeparator(h.platform);
      AddedIffPathChanged(start, dirs, sep, pathExists);
      AddDirs(start, dirs, sep, pathExists)
    else EnvState(path, sysPath, [])
  }

  /** Running `add_dll_paths` twice in a row, with the file system unchanged, the second run changes nothing and returns False. */
  lemma AddDllPathsIdempotent(h: Host, cameraType: string, pathExists: string -> bool, path: string, sysPath: seq<string>)
    ensures var r := AddDllPathsResult(h, cameraType, pathExists, path, sysPath);
      var again := AddDllPathsResult(h, cameraType, pathExists, r.path, r.sysPath);
      again.added == [] && again.path == r.path && again.sysPath == r.sysPath
  {
    if cameraType in KnownTypes {
      SecondCallAddsNothing(EnvState(path, sysPath, []), DirsFor(h, cameraType), PathListSeparator(h.platform), pathExists);
    }
  }

  /** `check_camera_sdk_availability()`: which vendor packages import. */
  datatype Availability = Availability(ids: bool, mshot: bool, hikrobot: bool)

  /** The dictionary `check_camera_sdk_availability` returns. */
  function AvailabilityMap(a: Availability): map<string, bool> {
    map["ids" := a.ids, "mshot" := a.mshot, "hikrobot" := a.hikrobot]
  }

  /** `availability.get(camera_type, False)`. */
  function SdkAvailable(a: Availability, cameraType: string): (r: bool)
    ensures r <==> (cameraType == "ids" && a.ids) || (cameraType == "mshot" && a.mshot)
                   || (cameraType == "hikrobot" && a.hikrobot)
    ensures cameraType !in KnownTypes ==> !r
  {
    var m := AvailabilityMap(a);
    if cameraType in m then m[cameraType] else false
  }

  /** The process environment `add_dll_paths` edits: `os.environ['PATH']` and `sys.path`. */
  class Environment {
    var path: string
    var sysPath: seq<string>

    constructor (path: string, sysPath: seq<string>)
      ensures this.path == path && this.sysPath == sysPath
    {
      this.path := path;
      this.sysPath := sysPath;
    }

    /**
     * `add_dll_paths(camera_type)`: prepends each existing directory not yet a
     * substring of PATH to PATH, inserts each existing directory not yet in
     * `sys.path` at its front, and reports whether PATH gained a directory.
     */
    method AddDllPaths(cameraType: string, h: Host, pathExists: string -> bool) returns (added: bool)
      modifies this
      ensures var r := AddDllPathsResult(h, cameraType, pathExists, old(path), old(sysPath));
        path == r.path && sysPath == r.sysPath && added == (r.added != [])
      ensures added <==> path != old(path)
    {
      if cameraType !in KnownTypes {
        return false;
      }
      var dirs := DirsFor(h, cameraType);
      var sep := PathListSeparator(h.platform);
      ghost var init := EnvState(path, sysPath, []);
      var addedPaths: seq<string> := [];
      for i := 0 to |dirs|
        invariant AddDirs(init, dirs[..i], sep, pathExists) == EnvState(path, sysPath, addedPaths)
      {
        var d := dirs[i];
        assert dirs[..i + 1][..i] == dirs[..i];
        if pathExists(d) {
          var current := path;
          if !Contains(current, d) {
            path := d + [sep] + current;
            addedPaths := addedPaths + [d];
          }
          if d !in sysPath {
            sysPath := [d] + sysPath;
          }
        }
      }
      assert dirs[..|dirs|] == dirs;
      added := addedPaths != [];
    }

    /**
     * `initialize_camera_sdk(camera_type)`: runs `add_dll_paths`, then reports
     * the probed availability of that type, False for an unknown type.
     */
    method InitializeCameraSdk(cameraType: string, h: Host, pathExists: string -> bool, probe: Availability)
      returns (available: bool)
      modifies this
      ensures var r := AddDllPathsResult(h, cameraType, pathExists, old(path), old(sysPath));
        path == r.path && sysPath == r.sysPath
      ensures available == SdkAvailable(probe, cameraType)
    {
      var _ := AddDllPaths(cameraType, h, pathExists);
      available := SdkAvailable(probe, cameraType);
    }
  }

  // ---------------------------------------------------------------------------
  // find_dll

  /** Index of the first file name with the given suffix. */
  function FirstWithSuffix(files: seq<string>, suffix: string): (k: Option<nat>)
    ensures k.Some? ==> (k.value < |files| && EndsWith(files[k.value], suffix)
                         && forall j :: 0 <= j < k.value ==> !EndsWith(files[j], suffix))
    ensures k.None? ==> forall j :: 0 <= j < |files| ==> !EndsWith(files[j], suffix)
  {
    if files == [] then None
    else if EndsWith(files[0], suffix) then Some(0)
    else match FirstWithSuffix(files[1..], suffix)
      case Some(k) => Some(k + 1)
      case None => None
  }

  /**
   * The library name `find_dll` uses when none is given: the first listed file
   * ending in `.dll` (Windows) or `.so` (otherwise), else the first listed file,
   * else the empty string.
   */
  function DefaultDllName(files: seq<string>, p: Platform): string {
    var suffix := if p == Windows then ".dll" else ".so";
    match FirstWithSuffix(files, suffix)
    case Some(k) => files[k]
    case None => if files != [] then files[0] else ""
  }

  /** The file name `find_dll` searches for. */
  function ChosenDllName(h: Host, cameraType: string, dllName: Option<string>): string
    requires cameraType in KnownTypes
  {
    match dllName
    case Some(n) => n
    case None => DefaultDllName(DllPaths(h, cameraType).value.dllFiles, h.platform)
  }

  /** With no name given, the IDS platform library is the one searched for. */
  lemma DefaultNameIds(h: Host)
    ensures ChosenDllName(h, "ids", None) == if h.platform == Windows then "ueye_api.dll" else "libueye_api.so"
  {
    assert EndsWith("ueye_api.dll", ".dll") && !EndsWith("ueye_api.dll", ".so");
    assert EndsWith("libueye_api.so", ".so");
  }

  /** With no name given, the Mshot platform library is the one searched for. */
  lemma DefaultNameMshot(h: Host)
    ensures ChosenDllName(h, "mshot", None) == if h.platform == Windows then "mshot.dll" else "libmshot.so"
  {
    assert EndsWith("mshot.dll", ".dll") && !EndsWith("mshot.dll", ".so");
    assert EndsWith("libmshot.so", ".so");
  }

  /** With no name given, the Hikrobot platform library is the one searched for. */
  lemma DefaultNameHikrobot(h: Host)
    ensures ChosenDllName(h, "hikrobot", None)
         == if h.platform == Windows then "MvCameraControl.dll" else "libMvCameraControl.so"
  {
    assert EndsWith("MvCameraControl.dll", ".dll") && !EndsWith("MvCameraControl.dll", ".so");
    assert EndsWith("libMvCameraControl.so", ".so");
  }

  /**
   * The search loop of `find_dll`: the joined path of `name` in the first
   * directory of `dirs` where that file exists, or the empty string.
   */
  method SearchDirs(dirs: seq<string>, name: string, p: Platform, pathExists: string -> bool)
    returns (found: string)
    requires name != ""
    ensures found != "" ==>
            exists k :: (0 <= k < |dirs| && found == JoinPath(p, dirs[k], name) && pathExists(found)
                         && forall j :: 0 <= j < k ==> !pathExists(JoinPath(p, dirs[j], name)))
    ensures found == "" <==> forall k :: 0 <= k < |dirs| ==> !pathExists(JoinPath(p, dirs[k], name))
  {
    for i := 0 to |dirs|
      invariant forall j :: 0 <= j < i ==> !pathExists(JoinPath(p, dirs[j], name))
    {
      var candidate := JoinPath(p, dirs[i], name);
      if pathExists(candidate) {
        return candidate;
      }
    }
    return "";
  }

  /**
   * `find_dll(camera_type, dll_name)`: the empty string for an unknown type or
   * an empty chosen name; otherwise the search of this platform's directories.
   */
  method FindDll(cameraType: string, dllName: Option<string>, h: Host, pathExists: string -> bool)
    returns (found: string)
    ensures cameraType !in KnownTypes ==> found == ""
    ensures cameraType in KnownTypes && ChosenDllName(h, cameraType, dllName) == "" ==> found == ""
    ensures cameraType in KnownTypes && ChosenDllName(h, cameraType, dllName) != "" ==>
      var name := ChosenDllName(h, cameraType, dllName);
      var dirs := DirsFor(h, cameraType);
      && (found != "" ==>
            exists k :: (0 <= k < |dirs| && found == JoinPath(h.platform, dirs[k], name) && pathExists(found)
                         && forall j :: 0 <= j < k ==> !pathExists(JoinPath(h.platform, dirs[j], name))))
      && (found == "" <==> forall k :: 0 <= k < |dirs| ==> !pathExists(JoinPath(h.platform, dirs[k], name)))
  {
    if cameraType !in KnownTypes {
      return "";
    }
    var name := ChosenDllName(h, cameraType, dllName);
    if name == "" {
      return "";
    }
    found := SearchDirs(DirsFor(h, cameraType), name, h.platform, pathExists);
  }

  // ---------------------------------------------------------------------------
  // Configuration dictionaries

  /** `SERVICE_CONFIG`: a dictionary with a fixed set of keys, one field per key. */
  datatype ServiceConfig = ServiceConfig(host: string, port: int, maxConnections: int, frameRate: int,
                                         jpegQuality: int, bufferSize: int)

  /** `get_service_config()`: a copy of the service settings (datatype values are never shared). */
  function GetServiceConfig(): (c: ServiceConfig)
    ensures c.host == "localhost" && c.port == 8765
    ensures 0 <= c.jpegQuality <= 100
    ensures c.frameRate > 0 && c.maxConnections > 0
    ensures c.bufferSize == 1024 * 1024
  {
    ServiceConfig("localhost", 8765, 10, 30, 90, 1024 * 1024)
  }

  /** `IMAGE_PROCESSING_DEFAULTS`. */
  datatype ImageProcessingDefaults = ImageProcessingDefaults(
    rotation: int, flipHorizontal: bool, flipVertical: bool, grayscale: bool, threshold: bool,
    thresholdValue: int, brightness: int, contrast: real, gamma: real, saturation: real,
    blur: bool, blurKernelSize: int, sharpen: bool, sharpenStrength: real,
    histogramEqualization: bool, edgeDetection: bool, edgeThreshold1: int, edgeThreshold2: int)

  /** `get_image_processing_defaults()`: every operation switched off, every factor neutral. */
  function GetImageProcessingDefaults(): (c: ImageProcessingDefaults)
    ensures !c.flipHorizontal && !c.flipVertical && !c.grayscale && !c.threshold && !c.blur
    ensures !c.sharpen && !c.histogramEqualization && !c.edgeDetection
    ensures c.rotation == 0 && c.brightness == 0
    ensures c.contrast == 1.0 && c.gamma == 1.0 && c.saturation == 1.0 && c.sharpenStrength == 1.0
    ensures 0 <= c.thresholdValue <= 255
    ensures c.blurKernelSize > 0 && c.blurKernelSize % 2 == 1
    ensures c.edgeThreshold1 < c.edgeThreshold2
  {
    ImageProcessingDefaults(0, false, false, false, false, 128, 0, 1.0, 1.0, 1.0,
                            false, 5, false, 1.0, false, false, 100, 200)
  }

  /** `CAMERA_PARAM_DEFAULTS`. */
  datatype CameraParamDefaults = CameraParamDefaults(
    width: int, height: int, exposureTime: int, gain: real, acquisitionFrameRate: int,
    pixelFormat: string, balanceWhiteAuto: string)

  /** `get_camera_param_defaults()`: a 1920x1080 camera at 30 frames per second, white balance off. */
  function GetCameraParamDefaults(): (c: CameraParamDefaults)
    ensures c.width == 1920 && c.height == 1080
    ensures c.acquisitionFrameRate == 30 && c.exposureTime > 0
    ensures c.balanceWhiteAuto == "Off"
  {
    CameraParamDefaults(1920, 1080, 10000, 1.0, 30, "BGRa8", "Off")
  }
}
