/** The settings of the camera client: setting, resetting, restarting, the render mode, and the AI
    services (camera_local_client.cpp). Vendor calls and systemctl are oracles. */
module CameraSettings {
  import opened CameraParameters
  import opened ControlPacket
  import opened Decimal
  import opened Wrappers
  import Recording

  datatype RenderMode = PhotoQuarter | PhotoFull | Video4K60 | Video4K30 | Video1080p60 | Video1080p30

  type Settings = map<SettingId, string>

  /** `_settings[k]`: an absent key reads as the empty string (and is inserted, see Touched). */
  function Get(m: Settings, k: SettingId): string {
    if k in m then m[k] else ""
  }

  function Touch(m: Settings, k: SettingId): Settings {
    if k in m then m else m[k := ""]
  }

  datatype Camera = Camera(
    hasCamera: bool,               // _mav_camera
    hasIr: bool,                   // _ir_camera
    settings: Settings,
    store: Store,
    sensor: Recording.SensorMode,
    preview: int,                  // _preview_type
    render: RenderMode,
    ai: Services)

  datatype Services = Services(
    detectionUp: bool,             // object_detection.service
    trackingUp: bool,              // object_tracking.service
    serverRunning: bool,           // _tracking_server.running()
    control: Control)              // its packet index and cached packet

  const IDLE := Services(false, false, false, FRESH_CONTROL)

  // ----- render mode -----

  function RenderOf(m: Settings): RenderMode {
    var mode := Get(m, CamMode);
    if mode == "0" then
      if Get(m, PhotoRes) == "0" then PhotoFull else PhotoQuarter
    else if mode == "1" then
      var res := Get(m, VideoRes);
      if res == "0" then Video4K60
      else if res == "1" then Video4K30
      else if res == "2" then Video1080p60
      else if res == "3" then Video1080p30
      else PhotoQuarter
    else PhotoQuarter
  }

  /** The keys `init_render_mode` inserts by reading them. */
  function Touched(m: Settings): Settings {
    var m1 := Touch(m, CamMode);
    if m1[CamMode] == "0" then Touch(m1, PhotoRes)
    else if m1[CamMode] == "1" then Touch(m1, VideoRes)
    else m1
  }

  function Rendered(c: Camera): Camera {
    c.(settings := Touched(c.settings), render := RenderOf(c.settings))
  }

  // ----- AI function -----

  /** What `systemctl start` does: whether it succeeds, and whether a service that failed to start
      is up nevertheless. */
  datatype AiOutcome = AiOutcome(startOk: bool, upAnyway: bool)

  predicate IsAiMode(mode: string) {
    mode == "0" || mode == "1" || mode == "2"
  }

  predicate AiSucceeds(mode: string, o: AiOutcome) {
    mode == "0" || (IsAiMode(mode) && o.startOk)
  }

  function AiServices(s: Services, mode: string, o: AiOutcome): Services {
    var up := o.startOk || o.upAnyway;
    Services(mode == "1" && up, mode == "2" && up, mode != "0" && o.startOk,
             if mode == "2" && o.startOk then Issue(s.control, DETECT_ONLY) else s.control)
  }

  /** `set_ai_function`: the other service is stopped first; a failed start stops the tracking
      server and falls back to mode 0. An unknown mode changes nothing. */
  function SetAi(c: Camera, mode: string, o: AiOutcome): Camera {
    if !IsAiMode(mode) then c
    else c.(settings := c.settings[AiFunction := if AiSucceeds(mode, o) then mode else "0"],
            ai := AiServices(c.ai, mode, o))
  }

  // ----- setters -----

  datatype Outcome = Applied | Refused | Threw

  /** `std::stof`: the number a text reads as; None is its exception. */
  type FloatReader = string -> Option<real>

  /** The answers a setter gets: from the RGB and the IR camera, from systemctl, and from `std::stof`. */
  datatype Answers = Answers(rgbOk: bool, irOk: bool, ai: AiOutcome, stof: FloatReader)

  function OkOr(ok: bool): Outcome {
    if ok then Applied else Refused
  }

  /** A setter that reads an integer with `std::stoi` first. */
  function IntegerSetter(value: string, low: int, high: int, ok: bool): Outcome {
    match Stoi(value)
    case Parsed(v) => OkOr(low <= v <= high && ok)
    case _ => Threw
  }

  /** Whether the `set_*` member for a setting succeeds. An unknown sensor mode succeeds too. */
  function SetterOutcome(hasIr: bool, id: SettingId, value: string, a: Answers): Outcome {
    match id
    case CamSensorMode => Applied
    case CamDisplayMode => IntegerSetter(value, INT32_MIN, INT32_MAX, true)
    case VideoFormat => OkOr(a.rgbOk && (hasIr ==> a.irOk))
    case ExposureValue => if a.stof(value).Some? then OkOr(a.rgbOk) else Threw
    case Iso => IntegerSetter(value, INT32_MIN, INT32_MAX, a.rgbOk)
    case Metering => IntegerSetter(value, 0, 4, a.rgbOk)
    case Sharpness => IntegerSetter(value, 0, 2, a.rgbOk)
    case AeLock => IntegerSetter(value, INT32_MIN, INT32_MAX, a.rgbOk)
    case IrPalette => IntegerSetter(value, INT32_MIN, INT32_MAX, hasIr && a.irOk)
    case IrFfcMode => IntegerSetter(value, INT32_MIN, INT32_MAX, hasIr && a.irOk)
    case IrFfc => OkOr(hasIr)
    case AiFunction => OkOr(AiSucceeds(value, a.ai))
    case TakeInterval => Refused
    case Other(_) => Refused
    case _ => OkOr(a.rgbOk)
  }

  function SensorOf(value: string, before: Recording.SensorMode): Recording.SensorMode {
    if value == "0" then Recording.Normal
    else if value == "1" then Recording.IR
    else if value == "2" then Recording.Dual
    else before
  }

  function PreviewOf(value: string, before: int): int {
    match Stoi(value)
    case Parsed(v) => v
    case _ => before
  }

  /** What the `set_*` member for a setting does to the client, whatever its outcome: DNG forces
      full photo resolution, in memory only, even if the camera refuses it. */
  function SetterEffect(c: Camera, id: SettingId, value: string, a: Answers): Camera {
    if id.AiFunction? then SetAi(c, value, a.ai)
    else c.(sensor := if id.CamSensorMode? then SensorOf(value, c.sensor) else c.sensor,
            preview := if id.CamDisplayMode? then PreviewOf(value, c.preview) else c.preview,
            settings := if id.PhotoFormat? && value == "1" then c.settings[PhotoRes := "0"] else c.settings)
  }

  datatype Reply = Success | NoSystem | WrongArgument | Exception

  predicate RefreshesRender(id: SettingId) {
    id == CamMode || id == PhotoRes || id == VideoRes || id == PhotoFormat
  }

  /** After a setter succeeded. */
  function Accepted(c: Camera, id: SettingId, value: string, opens: bool): Camera {
    var m := c.settings[id := value];
    c.(settings := if RefreshesRender(id) then Touched(m) else m,
       store := if id == AiFunction then c.store else Put(c.store, id, value, opens),
       render := if RefreshesRender(id) then RenderOf(m) else c.render)
  }

  /** `set_setting`. */
  function Set(c: Camera, id: SettingId, value: string, a: Answers, opens: bool): (Camera, Reply) {
    if !c.hasCamera then (c, NoSystem)
    else if id !in c.settings then (c, WrongArgument)
    else
      var d := SetterEffect(c, id, value, a);
      match SetterOutcome(c.hasIr, id, value, a)
      case Applied => (Accepted(d, id, value, opens), Success)
      case Refused => (d, Success)
      case Threw => (d, Exception)
  }

  /** `_settings[k] = v; _camera_param.set_value(k, v)`. */
  function Assign(c: Camera, k: SettingId, v: string, opens: bool): Camera {
    c.(settings := c.settings[k := v], store := Put(c.store, k, v, opens))
  }

  /** The defaults a successful vendor reset writes, in the code's order: modes and photo. */
  function ResetModeSettings(c: Camera, opens: bool): Camera {
    var c1 := Assign(c, CamSensorMode, "0", opens).(sensor := Recording.Normal);
    var c2 := Assign(c1, CamDisplayMode, "0", opens);
    var c3 := Assign(c2, PhotoRes, "1", opens);
    var c4 := Assign(c3, PhotoQuality, "0", opens);
    Assign(c4, PhotoFormat, "0", opens)
  }

  /** White balance and exposure. */
  function ResetExposureSettings(c: Camera, opens: bool): Camera {
    var c1 := Assign(c, WhiteBalance, "0", opens);
    var c2 := Assign(c1, ExposureMode, "0", opens);
    var c3 := Assign(c2, ExposureValue, "0", opens);
    var c4 := Assign(c3, Iso, "125", opens);
    Assign(c4, ShutterSpeed, "0.01", opens)
  }

  /** The rest; the AE lock and the AI function are not stored. */
  function ResetOtherSettings(c: Camera, opens: bool): Camera {
    var c1 := Assign(c, VideoRes, "1", opens);
    var c2 := Assign(c1, VideoFormat, "0", opens);
    var c3 := Assign(c2, Metering, "0", opens);
    var c4 := Assign(c3, Sharpness, "0", opens);
    c4.(settings := c4.settings[AeLock := "0"][AiFunction := "0"])
  }

  /** AI off, render mode, display mode. */
  function FinishedReset(c: Camera, ai: AiOutcome): Camera {
    Rendered(SetAi(c, "0", ai)).(preview := 0)
  }

  /** `reset_settings`, the wait for its worker included. */
  function Reset(c: Camera, vendorOk: bool, ai: AiOutcome, opens: bool): (Camera, Reply) {
    if !c.hasCamera then (c, NoSystem)
    else
      var photo := Assign(c, CamMode, "0", opens);
      if !vendorOk then (photo, Success)
      else
        var defaults := ResetOtherSettings(ResetExposureSettings(ResetModeSettings(photo, opens), opens), opens);
        (FinishedReset(defaults, ai), Success)
  }

  // ----- tracking commands -----

  /** `enable_tracking_point`: reads the camera mode (inserting it if absent) and sends the pixel. */
  function TrackPoint(c: Camera, px: real, py: real): Camera {
    var height := SourceHeight(Get(c.settings, CamMode));
    c.(settings := Touch(c.settings, CamMode),
       ai := c.ai.(control := Issue(c.ai.control, Request(true, true, Pixel(px, SOURCE_WIDTH), Pixel(py, height)))))
  }

  /** `disable_tracking`. */
  function TrackOff(c: Camera): Camera {
    c.(ai := c.ai.(control := Issue(c.ai.control, DETECT_ONLY)))
  }

  // ----- init -----

  /** MAVCAM_INIT_PHOTO_RESOLUTION: not set, "0", "1", or any other text. */
  datatype EnvPhotoRes = Unset | EnvFull | EnvQuarter | EnvOther

  /** What a start reads from its environment and its cameras. */
  datatype Env = Env(
    cameraMode: Option<string>,    // MAVCAM_INIT_CAMERA_MODE
    photoRes: EnvPhotoRes,
    hasIr: bool,
    vendorPhotoRes: string,        // get_photo_resolution_mode as "0" or "1"
    vendorVideoRes: string,        // get_video_resolution_mode as "0" to "3"
    vendorH265: bool,
    vendorWhiteBalance: string,    // get_white_balance as "0" to "5"
    vendorEv: string,
    vendorIso: string,
    vendorShutter: string,
    irPalette: string,
    irFfcMode: string)

  /** The value `init` falls back to for a setting with nothing stored. */
  function Default(k: SettingId, env: Env): string {
    match k
    case CamMode => if env.cameraMode.Some? && env.cameraMode.value != "" && env.cameraMode.value[0] == '1' then "1" else "0"
    case PhotoRes => env.vendorPhotoRes
    case VideoRes => env.vendorVideoRes
    case VideoFormat => if env.vendorH265 then "1" else "0"
    case WhiteBalance => env.vendorWhiteBalance
    case ExposureValue => env.vendorEv
    case Iso => env.vendorIso
    case ShutterSpeed => env.vendorShutter
    case IrPalette => if env.hasIr then env.irPalette else "0"
    case IrFfcMode => if env.hasIr then env.irFfcMode else "1"
    case TakeInterval => "1800"
    case _ => "0"
  }

  /** The settings that are stored and read back as they are. */
  predicate Restorable(k: SettingId) {
    k != PhotoRes && !k.AeLock? && !k.IrFfc? && !k.AiFunction? && !k.TakeInterval? && !k.Other?
  }

  predicate Volatile(k: SettingId) {
    k.AeLock? || k.IrFfc? || k.AiFunction?
  }

  /** A stored camera mode is only ever read as photo or video. */
  function Normalised(k: SettingId, stored: string): string {
    if k.CamMode? && stored != "0" then "1" else stored
  }

  /** The value of setting `k` after `init` on a store with the texts of `root`. */
  function InitValue(root: Root, k: SettingId, env: Env): string {
    if Volatile(k) then "0"
    else if k.PhotoRes? && env.photoRes.EnvFull? then "0"
    else if k.PhotoRes? && env.photoRes.EnvQuarter? then "1"
    else if k.PhotoRes? && env.photoRes.EnvOther? then ""
    else if |TextOf(root, k)| == 0 then Default(k, env)
    else Normalised(k, TextOf(root, k))
  }

  const KNOWN: set<SettingId> :=
    {CamMode, CamSensorMode, CamDisplayMode, PhotoRes, PhotoQuality, PhotoFormat, VideoRes, VideoFormat,
     WhiteBalance, ExposureMode, ExposureValue, Iso, ShutterSpeed, Metering, Sharpness, AeLock,
     IrPalette, IrFfcMode, IrFfc, AiFunction}

  /** The settings `init` knows at its end: all of them, but an environment that names no photo
      resolution leaves that one to be inserted, empty, when the render mode is read in photo mode. */
  predicate Initialised(root: Root, k: SettingId, env: Env) {
    k in KNOWN && (k.PhotoRes? && env.photoRes.EnvOther? ==> InitValue(root, CamMode, env) == "0")
  }

  /** The settings after `init`. */
  function InitSettings(root: Root, env: Env): Settings {
    map k | k in KNOWN && Initialised(root, k, env) :: InitValue(root, k, env)
  }

  /** Whether `init` writes a default for a setting with nothing stored. */
  predicate StoresDefault(k: SettingId, env: Env) {
    Restorable(k) || k.TakeInterval? || (k.PhotoRes? && env.photoRes.Unset?)
  }

  /** The client right after a start from `file` on which every file write succeeded. */
  ghost predicate JustStarted(c: Camera, file: Option<Root>, env: Env) {
    && c.hasCamera && c.hasIr == env.hasIr
    && c.settings == InitSettings(Loaded(file), env)
    && Durable(c.store)
    && (forall k :: TextOf(c.store.root, k) ==
          if |TextOf(Loaded(file), k)| == 0 && StoresDefault(k, env) then Default(k, env) else TextOf(Loaded(file), k))
    && c.render == RenderOf(c.settings)
    && !c.ai.detectionUp && !c.ai.trackingUp && !c.ai.serverRunning
  }

  /** Whether a stored value is handed to its setter again. */
  predicate AppliesStored(m: Settings, k: SettingId) {
    match k
    case CamSensorMode | CamDisplayMode | WhiteBalance | ExposureMode | VideoFormat | Metering | Sharpness => true
    case IrPalette | IrFfcMode => true
    case ExposureValue => Get(m, ExposureMode) == "0"
    case Iso | ShutterSpeed => Get(m, ExposureMode) == "1"
    case _ => false
  }

  /** Whether reading a stored value ends in an exception: the take-photo interval is read as an
      integer, other values may be handed to their setter, whose success does not matter. */
  predicate StoredThrows(c: Camera, k: SettingId, stored: string, a: Answers) {
    && |stored| > 0
    && if k.TakeInterval? then !Stoi(stored).Parsed?
       else AppliesStored(c.settings, k) && SetterOutcome(c.hasIr, k, stored, a).Threw?
  }

  /** Where a start takes a setting from: the store with a fallback, or the environment. An
      environment that is set but names no resolution leaves the setting unknown. */
  datatype Source = Stored(fallback: string) | Given(value: string) | Unnamed

  datatype Step = Step(key: SettingId, source: Source)

  function PhotoResSource(env: Env): Source {
    match env.photoRes
    case Unset => Stored(env.vendorPhotoRes)
    case EnvFull => Given("0")
    case EnvQuarter => Given("1")
    case EnvOther => Unnamed
  }

  /** What `init_mav_camera` loads, in its order. */
  function CameraSteps(env: Env): seq<Step> {
    [Step(CamMode, Stored(Default(CamMode, env))),
     Step(PhotoRes, PhotoResSource(env)),
     Step(VideoRes, Stored(env.vendorVideoRes)),
     Step(VideoFormat, Stored(Default(VideoFormat, env))),
     Step(PhotoQuality, Stored("0")),
     Step(PhotoFormat, Stored("0")),
     Step(TakeInterval, Stored("1800"))]
  }

  /** What `init` loads next, the video format for the second time. */
  function SettingSteps(env: Env): seq<Step> {
    [Step(CamSensorMode, Stored("0")),
     Step(CamDisplayMode, Stored("0")),
     Step(WhiteBalance, Stored(env.vendorWhiteBalance)),
     Step(ExposureMode, Stored("0")),
     Step(ExposureValue, Stored(env.vendorEv)),
     Step(Iso, Stored(env.vendorIso)),
     Step(ShutterSpeed, Stored(env.vendorShutter)),
     Step(VideoFormat, Stored("0")),
     Step(Metering, Stored("0")),
     Step(Sharpness, Stored("0"))]
  }

  /** What `init` loads once the IR camera is open. */
  function IrSteps(env: Env): seq<Step> {
    [Step(IrPalette, Stored(Default(IrPalette, env))),
     Step(IrFfcMode, Stored(Default(IrFfcMode, env)))]
  }

  function LoadedValue(k: SettingId, stored: string, fallback: string): string {
    if |stored| == 0 then fallback else Normalised(k, stored)
  }

  function LoadedStore(s: Store, k: SettingId, fallback: string, opens: bool): Store {
    var read := Peek(s, k);
    if |TextOf(s.root, k)| == 0 then Put(read, k, fallback, opens) else read
  }

  /** With nothing stored, the RGB sensor and stream are selected. */
  function LoadedSensor(k: SettingId, stored: string, before: Recording.SensorMode): Recording.SensorMode {
    if !k.CamSensorMode? then before
    else if |stored| == 0 then Recording.Normal
    else SensorOf(stored, before)
  }

  function LoadedPreview(k: SettingId, stored: string, before: int): int {
    if !k.CamDisplayMode? then before
    else if |stored| == 0 then 0
    else PreviewOf(stored, before)
  }

  /** The take-photo interval is stored but is not a setting. */
  function LoadedSettings(m: Settings, k: SettingId, v: string): Settings {
    if k.TakeInterval? then m else m[k := v]
  }

  /** One `init_*` member: the stored value, or a default that is stored. None is an exception. */
  function Load(c: Camera, k: SettingId, fallback: string, a: Answers, opens: bool): Option<Camera> {
    var stored := TextOf(c.store.root, k);
    if StoredThrows(c, k, stored, a) then None
    else Some(c.(settings := LoadedSettings(c.settings, k, LoadedValue(k, stored, fallback)),
                 store := LoadedStore(c.store, k, fallback, opens),
                 sensor := LoadedSensor(k, stored, c.sensor),
                 preview := LoadedPreview(k, stored, c.preview)))
  }

  function LoadStep(c: Camera, step: Step, a: Answers, opens: bool): Option<Camera> {
    match step.source
    case Stored(fallback) => Load(c, step.key, fallback, a, opens)
    case Given(value) => Some(c.(settings := c.settings[step.key := value]))
    case Unnamed => Some(c)
  }

  function LoadAll(c: Camera, steps: seq<Step>, a: Answers, opens: bool): Option<Camera>
    decreases |steps|
  {
    if |steps| == 0 then Some(c)
    else
      var d :- LoadStep(c, steps[0], a, opens);
      LoadAll(d, steps[1..], a, opens)
  }

  /** Render mode, AE lock, IR camera. */
  function PreparedForIr(c: Camera, env: Env): Camera {
    var rendered := Rendered(c);
    rendered.(settings := rendered.settings[AeLock := "0"], hasIr := env.hasIr)
  }

  /** FFC trigger idle, AI off. */
  function Quiet(c: Camera, ai: AiOutcome): Camera {
    var off := SetAi(c.(settings := c.settings[IrFfc := "0"]), "0", ai);
    off.(settings := off.settings[AiFunction := "0"])
  }

  /** `init`, once the render bridge, the camera and the storage manager are open. */
  function Init(c: Camera, env: Env, a: Answers, opens: bool): Option<Camera> {
    var c1 :- LoadAll(c.(hasCamera := true), CameraSteps(env), a, opens);
    var c2 :- LoadAll(c1, SettingSteps(env), a, opens);
    var c3 :- LoadAll(PreparedForIr(c2, env), IrSteps(env), a, opens);
    Some(Quiet(c3, a.ai))
  }
}
