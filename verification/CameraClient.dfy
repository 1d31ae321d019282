/** The camera client itself (camera_local_client.cpp): every method leaves the client as the
    specification says, and the calls keep what the laws promise. */
module CameraClient {
  import opened AiLaws
  import opened CameraParameters
  import opened CameraSettings
  import opened ClientRuns
  import opened ControlPacket
  import opened Decimal
  import opened SettingRules
  import opened StartRules
  import opened StartupLaws
  import opened StreamLaws
  import opened Wrappers
  import Recording

  lemma ResetCells(c: Camera, vendorOk: bool, ai: AiOutcome, opens: bool)
    requires Complete(c)
    ensures forall k :: CellOf(Reset(c, vendorOk, ai, opens).0, k) == ResetOrKept(CellOf(c, k), k, vendorOk, opens)
    ensures vendorOk ==>
              var d := Reset(c, vendorOk, ai, opens).0;
              !d.ai.detectionUp && !d.ai.trackingUp && !d.ai.serverRunning && d.preview == 0 && d.sensor == Recording.Normal
  {
    CompleteHasModes(c);
    forall k
      ensures CellOf(Reset(c, vendorOk, ai, opens).0, k) == ResetOrKept(CellOf(c, k), k, vendorOk, opens)
    {
      ResetAt(c, vendorOk, ai, opens, k);
    }
    ResetServices(c, vendorOk, ai, opens);
    if vendorOk {
      ResetStreams(c, ai, opens);
    }
  }

  class CameraLocalClient {
    const params: CameraParam
    var hasCamera: bool
    var hasIr: bool
    var settings: Settings
    var sensorMode: Recording.SensorMode
    var previewType: int
    var renderMode: RenderMode
    var detectionUp: bool
    var trackingUp: bool
    var serverRunning: bool
    var control: Control

    constructor (params: CameraParam, sensorMode: Recording.SensorMode, previewType: int)
      ensures this.params == params
      ensures Now() == Camera(false, false, map[], params.Now(), sensorMode, previewType, PhotoQuarter, IDLE)
    {
      this.params := params;
      hasCamera, hasIr, settings := false, false, map[];
      this.sensorMode, this.previewType, renderMode := sensorMode, previewType, PhotoQuarter;
      detectionUp, trackingUp, serverRunning, control := false, false, false, FRESH_CONTROL;
    }

    function Now(): Camera
      reads this, params
    {
      Camera(hasCamera, hasIr, settings, params.Now(), sensorMode, previewType, renderMode,
             Services(detectionUp, trackingUp, serverRunning, control))
    }

    /** `_settings[k]`, which inserts an empty text for an absent key. */
    method Read(k: SettingId) returns (v: string)
      modifies this`settings
      ensures settings == Touch(old(settings), k) && v == settings[k]
    {
      if k !in settings {
        settings := settings[k := ""];
      }
      v := settings[k];
    }

    /** `init_render_mode`. (The code's second test repeats its first and is never reached.) */
    method InitRenderMode()
      modifies this`settings, this`renderMode
      ensures Now() == Rendered(old(Now()))
    {
      renderMode := PhotoQuarter;
      var mode := Read(CamMode);
      if mode == "0" {
        var photo := Read(PhotoRes);
        if photo == "0" {
          renderMode := PhotoFull;
        }
      } else if mode == "1" {
        var video := Read(VideoRes);
        if video == "0" {
          renderMode := Video4K60;
        } else if video == "1" {
          renderMode := Video4K30;
        } else if video == "2" {
          renderMode := Video1080p60;
        } else if video == "3" {
          renderMode := Video1080p30;
        }
      }
    }

    /** `set_ai_function`. */
    method SetAiFunction(mode: string, o: AiOutcome) returns (ok: bool)
      modifies this
      ensures Now() == SetAi(old(Now()), mode, o)
      ensures ok <==> mode == "0" || ((mode == "1" || mode == "2") && o.startOk)
      ensures if mode == "0" || mode == "1" || mode == "2" then FollowsRequest(Now(), AiRequest(mode, o))
              else Now() == old(Now())
    {
      SetAiFollows(Now(), mode, o);
      if mode != "0" && mode != "1" && mode != "2" {
        return false;
      }
      if mode == "0" {
        settings := settings[AiFunction := "0"];
        detectionUp := false;
        trackingUp := false;
        serverRunning := false;
        return true;
      }
      if mode == "1" {
        trackingUp := false;
      } else {
        detectionUp := false;
      }
      if !serverRunning {
        serverRunning := true;
      }
      if mode == "1" {
        detectionUp := o.startOk || o.upAnyway;
      } else {
        trackingUp := o.startOk || o.upAnyway;
      }
      if !o.startOk {
        serverRunning := false;
        settings := settings[AiFunction := "0"];
        return false;
      }
      if mode == "2" {
        control := Issue(control, DETECT_ONLY);
      }
      settings := settings[AiFunction := mode];
      ok := true;
    }

    /** `set_camera_sensor_mode`. */
    method SetSensorMode(value: string)
      modifies this`sensorMode
      ensures sensorMode == SensorOf(value, old(sensorMode))
    {
      if value == "0" {
        sensorMode := Recording.Normal;
      } else if value == "1" {
        sensorMode := Recording.IR;
      } else if value == "2" {
        sensorMode := Recording.Dual;
      }
    }

    /** `set_camera_display_mode`. */
    method SetDisplayMode(value: string) returns (outcome: Outcome)
      modifies this`previewType
      ensures previewType == PreviewOf(value, old(previewType))
      ensures outcome == if Stoi(value).Parsed? then Applied else Threw
    {
      var number := Stoi(value);
      if !number.Parsed? {
        return Threw;
      }
      previewType := number.value;
      outcome := Applied;
    }

    /** `set_photo_format`. */
    method SetPhotoFormat(value: string, a: Answers) returns (outcome: Outcome)
      modifies this`settings
      ensures settings == (if value == "1" then old(settings)[PhotoRes := "0"] else old(settings))
      ensures outcome == OkOr(a.rgbOk)
    {
      if value == "1" {
        settings := settings[PhotoRes := "0"];
      }
      outcome := OkOr(a.rgbOk);
    }

    /** `set_video_format`: the RGB camera, then the IR camera if there is one. */
    method SetVideoFormat(a: Answers) returns (outcome: Outcome)
      ensures outcome == if a.rgbOk && (hasIr ==> a.irOk) then Applied else Refused
    {
      var success := a.rgbOk;
      if hasIr {
        success := success && a.irOk;
      }
      outcome := OkOr(success);
    }

    /** `set_exposure_value`. */
    method SetExposureValue(value: string, a: Answers) returns (outcome: Outcome)
      ensures outcome == if a.stof(value).None? then Threw else if a.rgbOk then Applied else Refused
    {
      var number := a.stof(value);
      if number.None? {
        return Threw;
      }
      outcome := OkOr(a.rgbOk);
    }

    /** `set_iso` and `set_ae_lock`. */
    method SetNumber(value: string, a: Answers) returns (outcome: Outcome)
      ensures outcome == IntegerSetter(value, INT32_MIN, INT32_MAX, a.rgbOk)
    {
      ParsedIsInt32(value);
      var number := Stoi(value);
      if !number.Parsed? {
        return Threw;
      }
      outcome := OkOr(a.rgbOk);
    }

    /** `set_metering_mode` and `set_sharpness`: 0 to `high`. */
    method SetLevel(value: string, high: int, a: Answers) returns (outcome: Outcome)
      ensures outcome == IntegerSetter(value, 0, high, a.rgbOk)
    {
      var level := Stoi(value);
      if !level.Parsed? {
        return Threw;
      }
      if level.value < 0 || level.value > high {
        return Refused;
      }
      outcome := OkOr(a.rgbOk);
    }

    /** `set_ir_palette` and `set_ir_ffc_mode`: the number is read even without an IR camera. */
    method SetIrNumber(value: string, a: Answers) returns (outcome: Outcome)
      ensures outcome == IntegerSetter(value, INT32_MIN, INT32_MAX, hasIr && a.irOk)
    {
      ParsedIsInt32(value);
      var number := Stoi(value);
      if !number.Parsed? {
        return Threw;
      }
      if hasIr {
        return OkOr(a.irOk);
      }
      outcome := Refused;
    }

    /** The `set_*` members that only read their text and ask cameras. */
    method AskCameras(id: SettingId, value: string, a: Answers) returns (outcome: Outcome)
      requires id != CamSensorMode && id != CamDisplayMode && id != PhotoFormat && id != AiFunction
      ensures outcome == SetterOutcome(hasIr, id, value, a)
    {
      match id {
        case VideoFormat => outcome := SetVideoFormat(a);
        case ExposureValue => outcome := SetExposureValue(value, a);
        case Iso | AeLock => outcome := SetNumber(value, a);
        case Metering => outcome := SetLevel(value, 4, a);
        case Sharpness => outcome := SetLevel(value, 2, a);
        case IrPalette | IrFfcMode => outcome := SetIrNumber(value, a);
        case IrFfc => outcome := OkOr(hasIr);
        case TakeInterval => outcome := Refused;
        case Other(_) => outcome := Refused;
        case _ => outcome := OkOr(a.rgbOk);
      }
    }

    /** The dispatch of `set_setting` to the `set_*` members. */
    method CallSetter(id: SettingId, value: string, a: Answers) returns (outcome: Outcome)
      modifies this
      ensures Now() == SetterEffect(old(Now()), id, value, a)
      ensures outcome == SetterOutcome(old(hasIr), id, value, a)
    {
      match id {
        case CamSensorMode =>
          SetSensorMode(value);
          outcome := Applied;
        case CamDisplayMode =>
          ParsedIsInt32(value);
          outcome := SetDisplayMode(value);
        case PhotoFormat => outcome := SetPhotoFormat(value, a);
        case AiFunction =>
          var ok := SetAiFunction(value, a.ai);
          outcome := OkOr(ok);
        case _ => outcome := AskCameras(id, value, a);
      }
    }

    /** What `set_setting` does once the setter succeeded. */
    method KeepSetting(id: SettingId, value: string, opens: bool)
      modifies this`settings, this`renderMode, params
      ensures Now() == Accepted(old(Now()), id, value, opens)
    {
      settings := settings[id := value];
      if id != AiFunction {
        var stored := params.SetValue(id, value, opens);
      }
      if RefreshesRender(id) {
        InitRenderMode();
      }
    }

    /** `set_setting`. */
    method SetSetting(id: SettingId, value: string, a: Answers, opens: bool) returns (r: Reply)
      modifies this, params
      ensures (Now(), r) == Set(old(Now()), id, value, a, opens)
      ensures !old(Handled(Now(), id)) ==> r == (if old(hasCamera) then WrongArgument else NoSystem) && Now() == old(Now())
      ensures old(Complete(Now()) && id in settings) ==> AsRuled(old(Now()), id, value, a, opens, Now(), r)
    {
      ghost var before := Now();
      if Complete(before) && id in before.settings {
        SetIsAsRuled(before, id, value, a, opens);
      }
      if !hasCamera {
        return NoSystem;
      }
      if id !in settings {
        return WrongArgument;
      }
      var outcome := CallSetter(id, value, a);
      if outcome.Threw? {
        return Exception;
      }
      if outcome.Applied? {
        KeepSetting(id, value, opens);
      }
      r := Success;
    }

    /** One line pair of `reset_settings`. */
    method AssignSetting(k: SettingId, v: string, opens: bool)
      modifies this`settings, params
      ensures Now() == Assign(old(Now()), k, v, opens)
    {
      settings := settings[k := v];
      var stored := params.SetValue(k, v, opens);
    }

    method ResetModes(opens: bool)
      modifies this`settings, this`sensorMode, params
      ensures Now() == ResetModeSettings(old(Now()), opens)
    {
      AssignSetting(CamSensorMode, "0", opens);
      sensorMode := Recording.Normal;
      AssignSetting(CamDisplayMode, "0", opens);
      AssignSetting(PhotoRes, "1", opens);
      AssignSetting(PhotoQuality, "0", opens);
      AssignSetting(PhotoFormat, "0", opens);
    }

    method ResetExposure(opens: bool)
      modifies this`settings, params
      ensures Now() == ResetExposureSettings(old(Now()), opens)
    {
      AssignSetting(WhiteBalance, "0", opens);
      AssignSetting(ExposureMode, "0", opens);
      AssignSetting(ExposureValue, "0", opens);
      AssignSetting(Iso, "125", opens);
      AssignSetting(ShutterSpeed, "0.01", opens);
    }

    method ResetOthers(opens: bool)
      modifies this`settings, params
      ensures Now() == ResetOtherSettings(old(Now()), opens)
    {
      AssignSetting(VideoRes, "1", opens);
      AssignSetting(VideoFormat, "0", opens);
      AssignSetting(Metering, "0", opens);
      AssignSetting(Sharpness, "0", opens);
      settings := settings[AeLock := "0"];
      settings := settings[AiFunction := "0"];
    }

    method FinishReset(ai: AiOutcome)
      modifies this
      ensures Now() == FinishedReset(old(Now()), ai)
    {
      var off := SetAiFunction("0", ai);
      InitRenderMode();
      previewType := 0;
    }

    /** `reset_settings`; `told` is whether the callback is told of success; the call itself
        succeeds either way. */
    method ResetSettings(vendorOk: bool, ai: AiOutcome, opens: bool) returns (r: Reply, told: Option<bool>)
      modifies this, params
      ensures (Now(), r) == Reset(old(Now()), vendorOk, ai, opens)
      ensures old(Complete(Now())) ==>
                forall k :: CellOf(Now(), k) == ResetOrKept(old(CellOf(Now(), k)), k, vendorOk, opens)
      ensures old(Complete(Now())) && vendorOk ==> !detectionUp && !trackingUp && !serverRunning && previewType == 0
      ensures old(Complete(Now())) && vendorOk ==> sensorMode == Recording.Normal
      ensures r == if old(hasCamera) then Success else NoSystem
      ensures told == if !old(hasCamera) then None else Some(vendorOk)
    {
      ghost var before := Now();
      if Complete(before) {
        ResetCells(before, vendorOk, ai, opens);
      }
      if !hasCamera {
        return NoSystem, None;
      }
      AssignSetting(CamMode, "0", opens);
      if vendorOk {
        ResetModes(opens);
        ResetExposure(opens);
        ResetOthers(opens);
        FinishReset(ai);
      }
      r, told := Success, Some(vendorOk);
    }

    /** One coordinate of `enable_tracking_point`. */
    method ScaleToPixel(p: real, size: int) returns (v: uint16)
      requires IsSourceSize(size)
      ensures v == Pixel(p, size)
    {
      var clamped := if p > 1.0 then 1.0 else p;
      clamped := if clamped < 0.0 then 0.0 else clamped;
      var scaled := (clamped * size as real).Floor;
      v := if scaled >= size then size - 1 else scaled;
    }

    /** `send_control_command` of the tracking server, as far as the client depends on it. */
    method SendCommand(r: Request, connected: bool, sent: int) returns (ok: bool)
      modifies this`control
      ensures control == Issue(old(control), r) && (ok <==> !connected || sent == PACKET_SIZE)
    {
      control := Issue(control, r);
      ok := !connected || sent == PACKET_SIZE;
    }

    /** `enable_tracking_point`; `connected` is whether a tracking client is, and `sent` what writing
        the packet to it returns. */
    method EnableTrackingPoint(px: real, py: real, connected: bool, sent: int) returns (ok: bool)
      modifies this`settings, this`control
      ensures Now() == TrackPoint(old(Now()), px, py)
      ensures ok <==> !connected || sent == PACKET_SIZE
      ensures |control.cache| == PACKET_SIZE && Decode(control.cache).Some?
      ensures var command := Decode(control.cache).value;
              && command.detection && command.tracking
              && Falls(px, 1920, command.x) && Falls(py, if settings[CamMode] == "0" then 1440 else 1080, command.y)
    {
      TrackedPointIsCached(Now(), px, py);
      var mode := Read(CamMode);
      var column := ScaleToPixel(px, SOURCE_WIDTH);
      var row := ScaleToPixel(py, SourceHeight(mode));
      ok := SendCommand(Request(true, true, column, row), connected, sent);
    }

    /** `disable_tracking`. */
    method DisableTracking(connected: bool, sent: int) returns (ok: bool)
      modifies this`control
      ensures Now() == TrackOff(old(Now())) && (ok <==> !connected || sent == PACKET_SIZE)
      ensures |control.cache| == PACKET_SIZE
      ensures Decode(control.cache) == Some(Command((old(control.index) + 1) % 256, 0, 0, true, false))
    {
      TrackOffAsksForDetection(Now());
      ok := SendCommand(DETECT_ONLY, connected, sent);
    }

    /** `get_setting`: the text of a known setting. */
    method GetSetting(id: SettingId) returns (r: Reply, value: string)
      ensures id in settings ==> r == Success && value == settings[id]
      ensures id !in settings ==> r == WrongArgument
    {
      if id !in settings {
        return WrongArgument, "";
      }
      r, value := Success, settings[id];
    }

    /** Hands a stored value to its setter. */
    method Reapply(k: SettingId, stored: string, a: Answers) returns (ok: bool)
      requires |stored| > 0
      modifies this
      ensures ok <==> !StoredThrows(old(Now()), k, stored, a)
      ensures ok ==> Now() == old(Now()).(sensor := LoadedSensor(k, stored, old(sensorMode)),
                                          preview := LoadedPreview(k, stored, old(previewType)))
    {
      if k == TakeInterval {
        return Stoi(stored).Parsed?;
      }
      if AppliesStored(settings, k) {
        var outcome := CallSetter(k, stored, a);
        return !outcome.Threw?;
      }
      ok := true;
    }

    /** What a start does for a setting with nothing stored. */
    method StoreDefault(k: SettingId, fallback: string, opens: bool)
      modifies this, params
      ensures Now() == old(Now()).(settings := LoadedSettings(old(settings), k, fallback),
                                   store := Put(old(params.Now()), k, fallback, opens),
                                   sensor := LoadedSensor(k, "", old(sensorMode)),
                                   preview := LoadedPreview(k, "", old(previewType)))
    {
      if k == CamSensorMode {
        sensorMode := Recording.Normal;
      } else if k == CamDisplayMode {
        previewType := 0;
      }
      var kept := params.SetValue(k, fallback, opens);
      if k != TakeInterval {
        settings := settings[k := fallback];
      }
    }

    /** One `init_*` member. */
    method LoadSetting(k: SettingId, fallback: string, a: Answers, opens: bool) returns (ok: bool)
      modifies this, params
      ensures ok <==> Load(old(Now()), k, fallback, a, opens).Some?
      ensures ok ==> Now() == Load(old(Now()), k, fallback, a, opens).value
    {
      var stored := params.GetValue(k);
      if |stored| == 0 {
        StoreDefault(k, fallback, opens);
      } else {
        ok := Reapply(k, stored, a);
        if !ok {
          return;
        }
        settings := LoadedSettings(settings, k, Normalised(k, stored));
      }
      ok := true;
    }

    /** One setting of a start, from the store or from the environment. */
    method LoadOne(step: Step, a: Answers, opens: bool) returns (ok: bool)
      modifies this, params
      ensures ok <==> LoadStep(old(Now()), step, a, opens).Some?
      ensures ok ==> Now() == LoadStep(old(Now()), step, a, opens).value
    {
      match step.source {
        case Stored(fallback) =>
          ok := LoadSetting(step.key, fallback, a, opens);
        case Given(value) =>
          settings := settings[step.key := value];
          ok := true;
        case Unnamed =>
          ok := true;
      }
    }

    /** A sequence of `init_*` members, up to the first exception. */
    method LoadSteps(steps: seq<Step>, a: Answers, opens: bool) returns (ok: bool)
      modifies this, params
      ensures ok <==> LoadAll(old(Now()), steps, a, opens).Some?
      ensures ok ==> Now() == LoadAll(old(Now()), steps, a, opens).value
    {
      ok := true;
      for i := 0 to |steps|
        invariant ok && LoadAll(Now(), steps[i..], a, opens) == LoadAll(old(Now()), steps, a, opens)
      {
        assert steps[i..][1..] == steps[i + 1..];
        ok := LoadOne(steps[i], a, opens);
        if !ok { return; }
      }
    }

    method PrepareForIr(env: Env)
      modifies this
      ensures Now() == PreparedForIr(old(Now()), env)
    {
      InitRenderMode();
      settings := settings[AeLock := "0"];
      hasIr := env.hasIr;
    }

    method FinishInit(ai: AiOutcome)
      modifies this
      ensures Now() == Quiet(old(Now()), ai)
    {
      settings := settings[IrFfc := "0"];
      var off := SetAiFunction("0", ai);
      settings := settings[AiFunction := "0"];
    }

    /** `init`; false is an exception from a stored number that does not parse. */
    method Start(env: Env, a: Answers, opens: bool) returns (ok: bool)
      modifies this, params
      ensures ok <==> Init(old(Now()), env, a, opens).Some?
      ensures ok ==> Now() == Init(old(Now()), env, a, opens).value
      ensures ok && opens && old(Constructed(Now(), params.file)) ==>
                && JustStarted(Now(), old(params.file), env)
                && AsksCameras(Now(), Loaded(old(params.file)), env)
                && TakesConstants(Now(), Loaded(old(params.file)), env)
                && TakesTexts(Now(), Loaded(old(params.file)), env)
      ensures ok <==> forall k :: !Breaks(old(params.root), k, a.stof)
    {
      StartThrowsIff(Now(), env, a, opens);
      ghost var before := Now();
      hasCamera := true;
      ok := LoadSteps(CameraSteps(env), a, opens);
      if !ok { return; }
      ok := LoadSteps(SettingSteps(env), a, opens);
      if !ok { return; }
      PrepareForIr(env);
      ok := LoadSteps(IrSteps(env), a, opens);
      if !ok { return; }
      FinishInit(a.ai);
      if opens && Constructed(before, before.store.file) {
        StartLoadsTheStore(before, before.store.file, env, a);
        StartFollowsRules(before, before.store.file, env, a);
      }
    }
  }
}
