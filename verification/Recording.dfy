/** Photos, video recording and SD-card supervision (camera_local_client.cpp, `take_photo`,
    `start_video`, `stop_video`, `check_sdcard_status`). The vendor cameras are oracles: each call
    is told its outcome, and a recorder changes state exactly when a call on it succeeds. */
module Recording {
  import opened CaptureFiles
  import opened Wrappers

  datatype SensorMode = Normal | IR | Dual

  datatype Result = Success | Denied | Busy | Error | InProgress | NoSystem | Timeout | Unknown | WrongArgument

  datatype Led = LedNormal | LedSdCardError | LedRecording | LedTakePhoto

  /** LED commands issued by the SD-card supervision are told from those of photos and videos. */
  datatype LedCommand = LedCommand(bySdCard: bool, led: Led)

  datatype StorageInfo = StorageInfo(formatted: bool, availableMib: int)

  const MIN_AVAILABLE_MIB := 200

  /** The fields of the client that recording touches, and what the two recorders really do. */
  datatype Video = Video(
    sensor: SensorMode,
    hasIr: bool,
    flag: bool,                    // _is_recording_video
    rgbRecording: bool,
    irRecording: bool,
    storage: StorageInfo,
    sdcardValid: Option<bool>,
    leds: seq<LedCommand>)

  function AddLed(v: Video, bySdCard: bool, led: Led): Video {
    v.(leds := v.leds + [LedCommand(bySdCard, led)])
  }

  /** What starting does once the action mutex is held. */
  function Started(v: Video, rgb: Result, irOk: bool): (Video, Result) {
    if v.sensor.IR? then
      if !v.hasIr then (v, Success)
      else if irOk then (AddLed(v.(irRecording := true, flag := true), false, LedRecording), Success)
      else (v, Error)
    else
      var usesIr := v.sensor.Dual? && v.hasIr;
      var recording := v.(rgbRecording := v.rgbRecording || rgb.Success?, irRecording := v.irRecording || (usesIr && irOk));
      var ok := if usesIr then irOk else rgb.Success?;
      (if ok then AddLed(recording.(flag := true), false, LedRecording) else recording,
       if usesIr && !irOk then Error else rgb)
  }

  /** What stopping does once the action mutex is held. */
  function Stopped(v: Video, rgb: Result, irOk: bool): (Video, Result) {
    if !v.flag then (v, Success)
    else if v.sensor.IR? then
      if !v.hasIr then (v, Success)
      else if irOk then (AddLed(v.(irRecording := false, flag := false), false, LedNormal), Success)
      else (v, Error)
    else
      var usesIr := v.sensor.Dual? && v.hasIr;
      var recording := v.(rgbRecording := v.rgbRecording && !rgb.Success?, irRecording := v.irRecording && !(usesIr && irOk));
      var ok := if usesIr then irOk else rgb.Success?;
      (if ok then AddLed(recording.(flag := false), false, LedNormal) else recording, rgb)
  }

  predicate ShouldBeValid(info: StorageInfo) {
    info.formatted && info.availableMib >= MIN_AVAILABLE_MIB
  }

  predicate IsEdge(v: Video, info: StorageInfo) {
    v.sdcardValid != Some(ShouldBeValid(info))
  }

  /** A recording that must be stopped because the card just became invalid. */
  predicate StopWanted(v: Video, info: StorageInfo) {
    IsEdge(v, info) && !ShouldBeValid(info) && v.flag
  }

  /** The LED and the remembered validity after an edge. */
  function NoteEdge(v: Video, valid: bool): Video {
    AddLed(v, true, if valid then LedNormal else LedSdCardError).(sdcardValid := Some(valid))
  }

  /** What an edge to validity `valid` does, the stop included. */
  function AfterEdge(v: Video, hasCamera: bool, valid: bool, rgb: Result, irOk: bool): Video {
    NoteEdge(if !valid && v.flag && hasCamera then Stopped(v, rgb, irOk).0 else v, valid)
  }

  function Reported(v: Video, hasCamera: bool, info: StorageInfo, rgb: Result, irOk: bool): Video {
    var seen := v.(storage := info);
    if IsEdge(v, info) then AfterEdge(seen, hasCamera, ShouldBeValid(info), rgb, irOk) else seen
  }

  // ----- what the calls do to each field -----

  predicate UsesRgb(mode: SensorMode) {
    mode.Normal? || mode.Dual?
  }

  predicate UsesIr(mode: SensorMode, hasIr: bool) {
    hasIr && (mode.IR? || mode.Dual?)
  }

  /** The answer that decides: the IR camera's if the mode uses it, else the RGB camera's. */
  predicate Succeeds(v: Video, rgb: Result, irOk: bool) {
    if UsesIr(v.sensor, v.hasIr) then irOk else UsesRgb(v.sensor) && rgb.Success?
  }

  predicate SameElsewhere(v: Video, w: Video) {
    w.sensor == v.sensor && w.hasIr == v.hasIr && w.storage == v.storage && w.sdcardValid == v.sdcardValid
  }

  /** A start turns on each recorder of the mode whose camera accepts it, the flag if the deciding
      camera does, and then the recording LED once. Its result is the RGB camera's answer, unless the
      mode is IR alone or the IR camera refuses. */
  predicate StartDoes(v: Video, rgb: Result, irOk: bool, w: Video, r: Result) {
    && SameElsewhere(v, w)
    && w.rgbRecording == (v.rgbRecording || (UsesRgb(v.sensor) && rgb.Success?))
    && w.irRecording == (v.irRecording || (UsesIr(v.sensor, v.hasIr) && irOk))
    && w.flag == (v.flag || Succeeds(v, rgb, irOk))
    && w.leds == v.leds + (if Succeeds(v, rgb, irOk) then [LedCommand(false, LedRecording)] else [])
    && r == (if UsesIr(v.sensor, v.hasIr) && !irOk then Error else if v.sensor.IR? then Success else rgb)
  }

  /** A stop without a recording changes nothing; else it turns off each recorder of the mode whose
      camera accepts it, the flag if the deciding camera does, and then the recording LED once. Its
      result is the RGB camera's answer, unless the mode is IR alone. */
  predicate StopDoes(v: Video, rgb: Result, irOk: bool, w: Video, r: Result) {
    if !v.flag then w == v && r == Success
    else
      && SameElsewhere(v, w)
      && w.rgbRecording == (v.rgbRecording && !(UsesRgb(v.sensor) && rgb.Success?))
      && w.irRecording == (v.irRecording && !(UsesIr(v.sensor, v.hasIr) && irOk))
      && w.flag == !Succeeds(v, rgb, irOk)
      && w.leds == v.leds + (if Succeeds(v, rgb, irOk) then [LedCommand(false, LedNormal)] else [])
      && r == (if !v.sensor.IR? then rgb else if UsesIr(v.sensor, v.hasIr) && !irOk then Error else Success)
  }

  /** A card is valid when formatted with at least 200 MiB. A report that changes the validity is
      remembered and lights one LED; one that ends it stops a recording first. */
  predicate ReportDoes(v: Video, hasCamera: bool, info: StorageInfo, rgb: Result, irOk: bool, w: Video) {
    var valid := info.formatted && info.availableMib >= 200;
    var edge := v.sdcardValid != Some(valid);
    var stops := edge && !valid && v.flag && hasCamera;
    && w.sensor == v.sensor && w.hasIr == v.hasIr && w.storage == info && w.sdcardValid == Some(valid)
    && w.rgbRecording == (v.rgbRecording && !(stops && UsesRgb(v.sensor) && rgb.Success?))
    && w.irRecording == (v.irRecording && !(stops && UsesIr(v.sensor, v.hasIr) && irOk))
    && w.flag == (v.flag && !(stops && Succeeds(v, rgb, irOk)))
    && w.leds == v.leds + (if stops && Succeeds(v, rgb, irOk) then [LedCommand(false, LedNormal)] else [])
                        + (if edge then [LedCommand(true, if valid then LedNormal else LedSdCardError)] else [])
  }

  lemma StartedDoes(v: Video, rgb: Result, irOk: bool)
    ensures StartDoes(v, rgb, irOk, Started(v, rgb, irOk).0, Started(v, rgb, irOk).1)
  {
  }

  lemma StoppedDoes(v: Video, rgb: Result, irOk: bool)
    ensures StopDoes(v, rgb, irOk, Stopped(v, rgb, irOk).0, Stopped(v, rgb, irOk).1)
  {
  }

  lemma StoppedForCard(v: Video, rgb: Result, irOk: bool)
    requires v.flag
    ensures var w := Stopped(v, rgb, irOk).0;
            && SameElsewhere(v, w)
            && w.rgbRecording == (v.rgbRecording && !(UsesRgb(v.sensor) && rgb.Success?))
            && w.irRecording == (v.irRecording && !(UsesIr(v.sensor, v.hasIr) && irOk))
            && w.flag == !Succeeds(v, rgb, irOk)
            && w.leds == v.leds + (if Succeeds(v, rgb, irOk) then [LedCommand(false, LedNormal)] else [])
  {
    StoppedDoes(v, rgb, irOk);
  }

  lemma NotedEdge(v: Video, valid: bool)
    ensures var w := NoteEdge(v, valid);
            w == v.(sdcardValid := Some(valid),
                    leds := v.leds + [LedCommand(true, if valid then LedNormal else LedSdCardError)])
  {
  }

  lemma StoppingReportDoes(v: Video, info: StorageInfo, rgb: Result, irOk: bool)
    requires v.sdcardValid != Some(false) && v.flag && !(info.formatted && info.availableMib >= 200)
    ensures ReportDoes(v, true, info, rgb, irOk, Reported(v, true, info, rgb, irOk))
  {
    var seen := v.(storage := info);
    StoppedForCard(seen, rgb, irOk);
    NotedEdge(Stopped(seen, rgb, irOk).0, false);
  }

  lemma ReportedDoes(v: Video, hasCamera: bool, info: StorageInfo, rgb: Result, irOk: bool)
    ensures ReportDoes(v, hasCamera, info, rgb, irOk, Reported(v, hasCamera, info, rgb, irOk))
  {
    var valid := info.formatted && info.availableMib >= 200;
    if v.sdcardValid != Some(valid) && !valid && v.flag && hasCamera {
      StoppingReportDoes(v, info, rgb, irOk);
    } else if v.sdcardValid != Some(valid) {
      NotedEdge(v.(storage := info), valid);
    }
  }

  class CameraRecorder {
    const hasMavCamera: bool
    var hasIr: bool
    var sensorMode: SensorMode
    var isRecordingVideo: bool
    var rgbRecording: bool
    var irRecording: bool
    var storage: StorageInfo
    var sdcardValid: Option<bool>
    var leds: seq<LedCommand>
    var imageCount: nat

    constructor (hasMavCamera: bool, hasIr: bool, sensorMode: SensorMode, storage: StorageInfo)
      ensures Now() == Video(sensorMode, hasIr, false, false, false, storage, None, [])
      ensures this.hasMavCamera == hasMavCamera && imageCount == 0
    {
      this.hasMavCamera := hasMavCamera;
      this.hasIr, this.sensorMode, this.storage := hasIr, sensorMode, storage;
      isRecordingVideo, rgbRecording, irRecording := false, false, false;
      sdcardValid, leds, imageCount := None, [], 0;
    }

    function Now(): Video
      reads this
    {
      Video(sensorMode, hasIr, isRecordingVideo, rgbRecording, irRecording, storage, sdcardValid, leds)
    }

    method SwitchLed(bySdCard: bool, led: Led)
      modifies this`leds
      ensures Now() == AddLed(old(Now()), bySdCard, led)
    {
      leds := leds + [LedCommand(bySdCard, led)];
    }

    /** `start_video`. `pathEmpty` is whether the storage manager has no path; `rgb` and `irOk` are
        what the cameras answer if they are called. */
    method StartVideo(pathEmpty: bool, rgb: Result, irOk: bool) returns (r: Result)
      modifies this
      ensures !hasMavCamera ==> r == NoSystem && Now() == old(Now())
      ensures hasMavCamera && (old(storage.availableMib) < MIN_AVAILABLE_MIB || pathEmpty) ==>
                r == Denied && Now() == old(Now())
      ensures hasMavCamera && old(storage.availableMib) >= MIN_AVAILABLE_MIB && !pathEmpty ==>
                (Now(), r) == Started(old(Now()), rgb, irOk)
      ensures hasMavCamera && old(storage.availableMib) < 200 ==> r == Denied && Now() == old(Now())
      ensures hasMavCamera && old(storage.availableMib) >= 200 && !pathEmpty ==>
                StartDoes(old(Now()), rgb, irOk, Now(), r)
      ensures imageCount == old(imageCount)
    {
      StartedDoes(Now(), rgb, irOk);
      if !hasMavCamera {
        return NoSystem;
      }
      if storage.availableMib < MIN_AVAILABLE_MIB || pathEmpty {
        return Denied;
      }
      r := Success;
      var success := false;
      if sensorMode.IR? && hasIr {
        success := irOk;
        if success {
          irRecording := true;
        } else {
          r := Error;
        }
      } else if sensorMode.Normal? || sensorMode.Dual? {
        r := rgb;
        success := rgb.Success?;
        if success {
          rgbRecording := true;
        }
        if sensorMode.Dual? && hasIr {
          success := irOk;
          if success {
            irRecording := true;
          } else {
            r := Error;
          }
        }
      }
      if success {
        isRecordingVideo := true;
        SwitchLed(false, LedRecording);
      }
    }

    /** `stop_video`. */
    method StopVideo(rgb: Result, irOk: bool) returns (r: Result)
      modifies this
      ensures !hasMavCamera ==> r == NoSystem && Now() == old(Now())
      ensures hasMavCamera ==> (Now(), r) == Stopped(old(Now()), rgb, irOk)
      ensures hasMavCamera ==> StopDoes(old(Now()), rgb, irOk, Now(), r)
      ensures imageCount == old(imageCount)
    {
      StoppedDoes(Now(), rgb, irOk);
      if !hasMavCamera {
        return NoSystem;
      }
      r := Success;
      if !isRecordingVideo {
        return;
      }
      var success := false;
      if sensorMode.IR? && hasIr {
        success := irOk;
        if success {
          irRecording := false;
        } else {
          r := Error;
        }
      } else if sensorMode.Normal? || sensorMode.Dual? {
        r := rgb;
        success := rgb.Success?;
        if success {
          rgbRecording := false;
        }
        if sensorMode.Dual? && hasIr {
          success := irOk;
          if success {
            irRecording := false;
          }
        }
      }
      if success {
        isRecordingVideo := false;
        SwitchLed(false, LedNormal);
      }
    }

    /** The end of `check_sdcard_status`. */
    method RememberValidity(valid: bool)
      modifies this
      ensures Now() == NoteEdge(old(Now()), valid) && imageCount == old(imageCount)
    {
      SwitchLed(true, if valid then LedNormal else LedSdCardError);
      sdcardValid := Some(valid);
    }

    /** The stop of `check_sdcard_status`, whose result is ignored. */
    method StopForCard(rgb: Result, irOk: bool)
      modifies this
      ensures Now() == if hasMavCamera then Stopped(old(Now()), rgb, irOk).0 else old(Now())
      ensures imageCount == old(imageCount)
    {
      var r := StopVideo(rgb, irOk);
    }

    /** The branch of `check_sdcard_status` for an edge. */
    method TakeEdge(valid: bool, rgb: Result, irOk: bool) returns (stopAttempted: bool)
      modifies this
      ensures Now() == AfterEdge(old(Now()), hasMavCamera, valid, rgb, irOk) && imageCount == old(imageCount)
      ensures stopAttempted <==> !valid && old(isRecordingVideo)
    {
      stopAttempted := !valid && isRecordingVideo;
      if stopAttempted {
        StopForCard(rgb, irOk);
      }
      RememberValidity(valid);
    }

    /** The storage callback: stores the report and runs `check_sdcard_status`. A stop is attempted
        exactly at an edge to invalid while recording. */
    method StorageReported(info: StorageInfo, rgb: Result, irOk: bool) returns (stopAttempted: bool)
      modifies this
      ensures Now() == Reported(old(Now()), hasMavCamera, info, rgb, irOk)
      ensures ReportDoes(old(Now()), hasMavCamera, info, rgb, irOk, Now())
      ensures stopAttempted <==>
                old(sdcardValid) != Some(false) && old(isRecordingVideo)
                && !(info.formatted && info.availableMib >= 200)
    {
      ReportedDoes(Now(), hasMavCamera, info, rgb, irOk);
      storage := info;
      stopAttempted := false;
      var formatted := storage.formatted;
      var full := storage.availableMib < MIN_AVAILABLE_MIB;
      var shouldBeValid := formatted && !full;
      if sdcardValid.None? || sdcardValid.value != shouldBeValid {
        stopAttempted := TakeEdge(shouldBeValid, rgb, irOk);
      }
    }

    /** `take_photo`; `files` are the paths handed to the RGB and the IR camera, in that order. */
    method TakePhoto(folder: string, brand: string, index: nat, photoFormat: string, rgb: Result, irOk: bool)
      returns (r: Result, files: seq<string>)
      modifies this
      ensures !hasMavCamera ==> r == NoSystem && files == [] && imageCount == old(imageCount)
      ensures hasMavCamera && (storage.availableMib < MIN_AVAILABLE_MIB || folder == "") ==>
                r == Denied && files == [] && imageCount == old(imageCount)
      ensures hasMavCamera && storage.availableMib >= MIN_AVAILABLE_MIB && folder != "" ==>
                match sensorMode
                case IR =>
                  && files == (if hasIr then [CapturePath(folder, brand, index, "jpg")] else [])
                  && r == (if hasIr && !irOk then Error else Success)
                  && imageCount == old(imageCount) + (if hasIr && irOk then 1 else 0)
                case Normal =>
                  && files == [CapturePath(folder, brand, index, if photoFormat == "0" then "jpg" else "dng")]
                  && r == rgb && imageCount == old(imageCount) + (if rgb.Success? then 1 else 0)
                case Dual =>
                  && files == [CapturePath(folder, brand, index, if photoFormat == "0" then "jpg" else "dng")]
                              + (if hasIr then [CapturePath(folder, brand, index + 1, "jpg")] else [])
                  && r == rgb
                  && imageCount == old(imageCount) + (if (if hasIr then irOk else rgb.Success?) then 1 else 0)
      ensures forall i, j :: 0 <= i < j < |files| ==> files[i] != files[j]
      ensures Now() == old(Now()).(leds := leds)
      ensures leds == old(leds) + if imageCount > old(imageCount) then [LedCommand(false, LedTakePhoto)] else []
    {
      files := [];
      if !hasMavCamera {
        return NoSystem, [];
      }
      if storage.availableMib < MIN_AVAILABLE_MIB || folder == "" {
        return Denied, [];
      }
      DualShotFilesDiffer(folder, brand, index, photoFormat);
      r := Success;
      var success := false;
      if sensorMode.IR? {
        if hasIr {
          files := [CapturePath(folder, brand, index, PhotoExtension(true, photoFormat))];
          success := irOk;
          if !success {
            r := Error;
          }
        }
      } else {
        files := [CapturePath(folder, brand, index, PhotoExtension(false, photoFormat))];
        r := rgb;
        success := rgb.Success?;
        if sensorMode.Dual? && hasIr {
          files := files + [CapturePath(folder, brand, index + 1, PhotoExtension(true, photoFormat))];
          success := irOk;
        }
      }
      if success {
        imageCount := imageCount + 1;
        SwitchLed(false, LedTakePhoto);
      }
    }
  }

  // ----- whole runs: starts, stops, storage reports and mode changes interleave -----

  /** A storage report that is waiting for the action mutex to stop the recording. It holds the
      storage mutex. */
  datatype Pending = Pending(valid: bool)

  datatype System = System(
    video: Video,
    checked: map<nat, int>,        // callers past the storage check, with the reading they saw
    pending: Option<Pending>,
    reports: seq<StorageInfo>,     // all reports so far
    startReadings: seq<int>)       // for every call of a vendor start, the reading its caller saw

  datatype Event =
    | Check(t: nat, pathEmpty: bool)            // start_video up to the action mutex
    | Start(t: nat, rgb: Result, irOk: bool)    // the rest of start_video
    | Stop(rgb: Result, irOk: bool)
    | Report(info: StorageInfo)                 // a report up to the action mutex
    | ReportStop(rgb: Result, irOk: bool)       // the rest of a report that wants a stop
    | ChangeMode(mode: SensorMode)              // set_setting or reset_settings, with no mutex

  predicate Enabled(s: System, e: Event) {
    match e
    case Check(t, _) => s.pending.None? && t !in s.checked
    case Start(t, _, _) => t in s.checked
    case Stop(_, _) => true
    case Report(_) => s.pending.None?
    case ReportStop(_, _) => s.pending.Some?
    case ChangeMode(_) => true
  }

  /** Starting calls a vendor camera unless the mode is IR and there is none. */
  predicate CallsVendor(v: Video) {
    !v.sensor.IR? || v.hasIr
  }

  function Apply(s: System, e: Event): System
    requires Enabled(s, e)
  {
    match e
    case Check(t, pathEmpty) =>
      var reading := s.video.storage.availableMib;
      if reading < MIN_AVAILABLE_MIB || pathEmpty then s else s.(checked := s.checked[t := reading])
    case Start(t, rgb, irOk) =>
      s.(video := Started(s.video, rgb, irOk).0, checked := s.checked - {t},
         startReadings := if CallsVendor(s.video) then s.startReadings + [s.checked[t]] else s.startReadings)
    case Stop(rgb, irOk) => s.(video := Stopped(s.video, rgb, irOk).0)
    case Report(info) =>
      var seen := s.(video := s.video.(storage := info), reports := s.reports + [info]);
      if !IsEdge(s.video, info) then seen
      else if StopWanted(s.video, info) then seen.(pending := Some(Pending(ShouldBeValid(info))))
      else seen.(video := NoteEdge(seen.video, ShouldBeValid(info)))
    case ReportStop(rgb, irOk) =>
      s.(video := NoteEdge(Stopped(s.video, rgb, irOk).0, s.pending.value.valid), pending := None)
    case ChangeMode(mode) => s.(video := s.video.(sensor := mode))
  }

  ghost predicate IsRun(s: System, events: seq<Event>)
    decreases |events|
  {
    events == [] || (Enabled(s, events[0]) && IsRun(Apply(s, events[0]), events[1..]))
  }

  ghost function Run(s: System, events: seq<Event>): System
    requires IsRun(s, events)
    decreases |events|
  {
    if events == [] then s else Run(Apply(s, events[0]), events[1..])
  }

  function InitSystem(sensor: SensorMode, hasIr: bool, storage: StorageInfo): System {
    System(Video(sensor, hasIr, false, false, false, storage, None, []), map[], None, [], [])
  }

  predicate SameCameras(a: SensorMode, b: SensorMode, hasIr: bool) {
    UsesRgb(a) == UsesRgb(b) && UsesIr(a, hasIr) == UsesIr(b, hasIr)
  }

  /** Each recorder runs exactly when the flag is set and the sensor mode uses its camera. */
  predicate Agrees(v: Video) {
    && v.rgbRecording == (v.flag && UsesRgb(v.sensor))
    && v.irRecording == (v.flag && UsesIr(v.sensor, v.hasIr))
    && (v.flag ==> UsesRgb(v.sensor) || UsesIr(v.sensor, v.hasIr))
  }

  predicate BothCameras(v: Video) {
    v.sensor.Dual? && v.hasIr
  }

  /** When an event keeps the agreement: where both cameras are called they must answer alike, and a
      mode may only change at rest or to one that uses the same cameras. */
  predicate Keeps(s: System, e: Event) {
    match e
    case Check(_, _) => true
    case Start(_, rgb, irOk) => !BothCameras(s.video) || s.video.flag || rgb.Success? == irOk
    case Stop(rgb, irOk) => !BothCameras(s.video) || !s.video.flag || rgb.Success? == irOk
    case Report(_) => true
    case ReportStop(rgb, irOk) => !BothCameras(s.video) || !s.video.flag || rgb.Success? == irOk
    case ChangeMode(mode) => !s.video.flag || SameCameras(s.video.sensor, mode, s.video.hasIr)
  }

  /** From any agreeing state, and for every event and answer, the agreement is kept exactly then. */
  lemma StepKeepsAgreementIff(s: System, e: Event)
    requires Agrees(s.video) && Enabled(s, e)
    ensures Agrees(Apply(s, e).video) <==> Keeps(s, e)
  {
  }

  ghost predicate AllKeep(s: System, events: seq<Event>)
    requires IsRun(s, events)
    decreases |events|
  {
    events != [] ==> Keeps(s, events[0]) && AllKeep(Apply(s, events[0]), events[1..])
  }

  /** Flag and recorders agree now and after every event of the run. */
  ghost predicate AgreesThroughout(s: System, events: seq<Event>)
    requires IsRun(s, events)
    decreases |events|
  {
    Agrees(s.video) && (events != [] ==> AgreesThroughout(Apply(s, events[0]), events[1..]))
  }

  lemma {:induction false} AgreesThroughoutIff(s: System, events: seq<Event>)
    requires IsRun(s, events) && Agrees(s.video)
    ensures AgreesThroughout(s, events) <==> AllKeep(s, events)
    ensures AllKeep(s, events) ==> Agrees(Run(s, events).video)
    decreases |events|
  {
    if events != [] {
      StepKeepsAgreementIff(s, events[0]);
      if Keeps(s, events[0]) {
        AgreesThroughoutIff(Apply(s, events[0]), events[1..]);
      }
    }
  }

  /** Over any run from rest, in any mode and with mode changes, the recorders are in the state the
      flag and the sensor mode say after every event, exactly when every event keeps the agreement;
      the flag is then the real state of the recorders. */
  lemma FlagIsRecorderState(sensor: SensorMode, hasIr: bool, storage: StorageInfo, events: seq<Event>)
    requires IsRun(InitSystem(sensor, hasIr, storage), events)
    ensures var s := InitSystem(sensor, hasIr, storage);
            && (AgreesThroughout(s, events) <==> AllKeep(s, events))
            && (AllKeep(s, events) ==>
                  var v := Run(s, events).video;
                  Agrees(v) && v.flag == (v.rgbRecording || v.irRecording))
  {
    AgreesThroughoutIff(InitSystem(sensor, hasIr, storage), events);
  }

  predicate NoModeChange(events: seq<Event>) {
    forall e :: e in events ==> !e.ChangeMode?
  }

  lemma {:induction false} SingleCameraKeeps(s: System, events: seq<Event>)
    requires IsRun(s, events) && NoModeChange(events) && !BothCameras(s.video)
    ensures AllKeep(s, events)
    decreases |events|
  {
    if events != [] {
      assert events[0] in events;
      assert !BothCameras(Apply(s, events[0]).video);
      SingleCameraKeeps(Apply(s, events[0]), events[1..]);
    }
  }

  /** With a fixed mode that does not use both cameras, that is every run: whatever fails and however
      starts, stops and reports interleave, the flag is the recorder's real state. */
  lemma FixedModeFlagIsRecorderState(sensor: SensorMode, hasIr: bool, storage: StorageInfo, events: seq<Event>)
    requires IsRun(InitSystem(sensor, hasIr, storage), events) && NoModeChange(events)
    requires !(sensor.Dual? && hasIr)
    ensures var v := Run(InitSystem(sensor, hasIr, storage), events).video;
            Agrees(v) && v.flag == (v.rgbRecording || v.irRecording)
  {
    SingleCameraKeeps(InitSystem(sensor, hasIr, storage), events);
    FlagIsRecorderState(sensor, hasIr, storage, events);
  }

  lemma {:induction false} RunFollowsIr(s: System, events: seq<Event>)
    requires IsRun(s, events) && NoModeChange(events) && BothCameras(s.video)
    requires s.video.flag == s.video.irRecording
    ensures Run(s, events).video.flag == Run(s, events).video.irRecording
    decreases |events|
  {
    if events != [] {
      assert events[0] in events;
      assert BothCameras(Apply(s, events[0]).video);
      RunFollowsIr(Apply(s, events[0]), events[1..]);
    }
  }

  /** In Dual mode the flag is the IR recorder's real state over every run, whatever either camera
      answers: the IR answer alone decides it. */
  lemma DualFlagFollowsIr(storage: StorageInfo, events: seq<Event>)
    requires IsRun(InitSystem(Dual, true, storage), events) && NoModeChange(events)
    ensures var v := Run(InitSystem(Dual, true, storage), events).video;
            v.flag == v.irRecording
  {
    RunFollowsIr(InitSystem(Dual, true, storage), events);
  }

  /** In Dual mode, from any state in which flag and both recorders agree: a start keeps the three
      together exactly when they were recording already or the cameras answer alike; a stop exactly
      when they were not, or the cameras answer alike. */
  lemma DualStepAgreement(v: Video, rgb: Result, irOk: bool)
    requires BothCameras(v) && v.flag == v.rgbRecording == v.irRecording
    ensures var w := Started(v, rgb, irOk).0;
            w.flag == w.rgbRecording == w.irRecording <==> v.flag || rgb.Success? == irOk
    ensures var w := Stopped(v, rgb, irOk).0;
            w.flag == w.rgbRecording == w.irRecording <==> !v.flag || rgb.Success? == irOk
  {
  }

  /** The failing run: one start on which only the RGB camera succeeds leaves it recording with the
      flag down, so that a stop does nothing. */
  lemma DualDisagreement(storage: StorageInfo) returns (events: seq<Event>)
    requires storage.availableMib >= MIN_AVAILABLE_MIB
    ensures IsRun(InitSystem(Dual, true, storage), events) && NoModeChange(events)
    ensures var v := Run(InitSystem(Dual, true, storage), events).video;
            !v.flag && v.rgbRecording && !v.irRecording && Stopped(v, Success, true).0 == v
  {
    var s0 := InitSystem(Dual, true, storage);
    var check, start := Check(0, false), Start(0, Success, false);
    var s1 := Apply(s0, check);
    var s2 := Apply(s1, start);
    events := [check, start];
    assert events[1..] == [start] && [start][1..] == [];
    assert IsRun(s2, []) && Run(s2, []) == s2;
    assert IsRun(s1, [start]) && Run(s1, [start]) == s2;
  }

  /** The stop that ends a recording reaches every camera that records, or no camera at all. */
  predicate StopReachesAll(from: SensorMode, to: SensorMode, hasIr: bool) {
    || (to.IR? && !hasIr)
    || ((UsesRgb(from) ==> UsesRgb(to)) && (UsesIr(from, hasIr) ==> UsesIr(to, hasIr)))
  }

  /** A recording begun in any mode, then a change of sensor mode, then a stop on which every camera
      succeeds: the flag tells the truth about the recorders exactly when that stop reaches every
      camera that records, or none. */
  lemma ModeChangeWhileRecording(v: Video, mode: SensorMode)
    requires Agrees(v) && v.flag
    ensures var w := Stopped(v.(sensor := mode), Success, true).0;
            w.flag == (w.rgbRecording || w.irRecording) <==> StopReachesAll(v.sensor, mode, v.hasIr)
  {
  }

  /** In every failing case the flag is down and a recorder is on: the RGB one after a change to IR,
      the IR one after a change to Normal (which is what a reset does). */
  lemma ModeChangeLeavesRecorderOn(v: Video, mode: SensorMode)
    requires Agrees(v) && v.flag && !StopReachesAll(v.sensor, mode, v.hasIr)
    ensures var w := Stopped(v.(sensor := mode), Success, true).0;
            && !w.flag
            && (mode.IR? ==> w.rgbRecording && !w.irRecording)
            && (mode.Normal? ==> w.irRecording && !w.rgbRecording)
    ensures !mode.Dual?
  {
  }

  predicate ReadingsOk(s: System) {
    && (forall t :: t in s.checked ==> s.checked[t] >= MIN_AVAILABLE_MIB)
    && (forall i :: 0 <= i < |s.startReadings| ==> s.startReadings[i] >= MIN_AVAILABLE_MIB)
  }

  lemma {:induction false} RunKeepsReadings(s: System, events: seq<Event>)
    requires IsRun(s, events) && ReadingsOk(s)
    ensures ReadingsOk(Run(s, events))
    decreases |events|
  {
    if events != [] {
      RunKeepsReadings(Apply(s, events[0]), events[1..]);
    }
  }

  /** Every vendor start follows a storage reading of at least 200 MiB by its caller, in any mode. */
  lemma StartsFollowGoodReadings(sensor: SensorMode, hasIr: bool, storage: StorageInfo, events: seq<Event>, i: nat)
    requires IsRun(InitSystem(sensor, hasIr, storage), events)
    requires i < |Run(InitSystem(sensor, hasIr, storage), events).startReadings|
    ensures Run(InitSystem(sensor, hasIr, storage), events).startReadings[i] >= 200
  {
    RunKeepsReadings(InitSystem(sensor, hasIr, storage), events);
  }

  // ----- the calls are the events of a run -----

  /** An uninterrupted call of `start_video` is its two events. */
  lemma StartIsItsEvents(s: System, t: nat, pathEmpty: bool, rgb: Result, irOk: bool)
    requires s.pending.None? && t !in s.checked
    ensures var checked := Apply(s, Check(t, pathEmpty));
            if s.video.storage.availableMib < 200 || pathEmpty then checked == s
            else
              && Enabled(checked, Start(t, rgb, irOk))
              && StartDoes(s.video, rgb, irOk, Apply(checked, Start(t, rgb, irOk)).video, Started(s.video, rgb, irOk).1)
  {
    StartedDoes(s.video, rgb, irOk);
  }

  lemma StopIsItsEvent(s: System, rgb: Result, irOk: bool)
    ensures StopDoes(s.video, rgb, irOk, Apply(s, Stop(rgb, irOk)).video, Stopped(s.video, rgb, irOk).1)
  {
    StoppedDoes(s.video, rgb, irOk);
  }

  /** An uninterrupted storage report is its event, followed by the stop it is waiting for, if any:
      the class and the runs do the same. */
  lemma ReportIsItsEvents(s: System, info: StorageInfo, rgb: Result, irOk: bool)
    requires s.pending.None?
    ensures var reported := Apply(s, Report(info));
            var done := if reported.pending.Some? then Apply(reported, ReportStop(rgb, irOk)) else reported;
            && done.pending.None?
            && done.video == Reported(s.video, true, info, rgb, irOk)
            && ReportDoes(s.video, true, info, rgb, irOk, done.video)
  {
    ReportedDoes(s.video, true, info, rgb, irOk);
  }

  // ----- SD-card supervision as a fold over the reports -----

  /** Adjacent duplicates removed. */
  function Dedup(bs: seq<bool>): seq<bool> {
    if |bs| < 2 then bs
    else if bs[|bs| - 1] == bs[|bs| - 2] then Dedup(bs[..|bs| - 1])
    else Dedup(bs[..|bs| - 1]) + [bs[|bs| - 1]]
  }

  lemma {:induction false} DedupAlternates(bs: seq<bool>)
    ensures forall i :: 0 < i < |Dedup(bs)| ==> Dedup(bs)[i] != Dedup(bs)[i - 1]
    ensures (bs == [] <==> Dedup(bs) == [])
    ensures bs != [] ==> Dedup(bs)[|Dedup(bs)| - 1] == bs[|bs| - 1] && Dedup(bs)[0] == bs[0]
  {
    if |bs| >= 2 {
      DedupAlternates(bs[..|bs| - 1]);
    }
  }

  function Validities(reports: seq<StorageInfo>): seq<bool> {
    seq(|reports|, i requires 0 <= i < |reports| => ShouldBeValid(reports[i]))
  }

  function SdLeds(leds: seq<LedCommand>): seq<Led> {
    if leds == [] then []
    else
      var last := leds[|leds| - 1];
      SdLeds(leds[..|leds| - 1]) + if last.bySdCard then [last.led] else []
  }

  function LedsFor(valid: seq<bool>): seq<Led> {
    if valid == [] then []
    else LedsFor(valid[..|valid| - 1]) + [if valid[|valid| - 1] then LedNormal else LedSdCardError]
  }

  /** The reports whose edge has been handled: all but one that is still waiting to stop. */
  function Handled(s: System): seq<StorageInfo>
    requires s.pending.Some? ==> s.reports != []
  {
    if s.pending.Some? then s.reports[..|s.reports| - 1] else s.reports
  }

  predicate SdInv(s: System) {
    && (s.pending.Some? ==>
          && s.reports != [] && !s.pending.value.valid
          && !ShouldBeValid(s.reports[|s.reports| - 1]) && s.video.sdcardValid != Some(false))
    && Follows(s.video, Validities(Handled(s)))
  }

  /** Remembered validity and SD-driven LEDs are those of a sequence of validities. */
  predicate Follows(v: Video, valid: seq<bool>) {
    && v.sdcardValid == (if valid == [] then None else Some(valid[|valid| - 1]))
    && SdLeds(v.leds) == LedsFor(Dedup(valid))
  }

  lemma SdLedsSnoc(leds: seq<LedCommand>, c: LedCommand)
    ensures SdLeds(leds + [c]) == SdLeds(leds) + if c.bySdCard then [c.led] else []
  {
    assert (leds + [c])[..|leds|] == leds;
  }

  lemma OwnLedsDoNotCount(leds: seq<LedCommand>, led: Led)
    ensures SdLeds(leds + [LedCommand(false, led)]) == SdLeds(leds)
  {
    SdLedsSnoc(leds, LedCommand(false, led));
  }

  lemma VideoLeds(v: Video, rgb: Result, irOk: bool)
    ensures var w := Started(v, rgb, irOk).0;
            w.leds == v.leds || w.leds == v.leds + [LedCommand(false, LedRecording)]
    ensures var w := Stopped(v, rgb, irOk).0;
            w.leds == v.leds || w.leds == v.leds + [LedCommand(false, LedNormal)]
    ensures Started(v, rgb, irOk).0.sdcardValid == Stopped(v, rgb, irOk).0.sdcardValid == v.sdcardValid
  {
  }

  lemma StartLeavesSdAlone(v: Video, rgb: Result, irOk: bool)
    ensures SdLeds(Started(v, rgb, irOk).0.leds) == SdLeds(v.leds)
    ensures Started(v, rgb, irOk).0.sdcardValid == v.sdcardValid
  {
    VideoLeds(v, rgb, irOk);
    OwnLedsDoNotCount(v.leds, LedRecording);
  }

  lemma StopLeavesSdAlone(v: Video, rgb: Result, irOk: bool)
    ensures SdLeds(Stopped(v, rgb, irOk).0.leds) == SdLeds(v.leds)
    ensures Stopped(v, rgb, irOk).0.sdcardValid == v.sdcardValid
  {
    VideoLeds(v, rgb, irOk);
    OwnLedsDoNotCount(v.leds, LedNormal);
  }

  lemma EdgeFollows(v: Video, valid: seq<bool>, b: bool)
    requires Follows(v, valid) && v.sdcardValid != Some(b)
    ensures Follows(NoteEdge(v, b), valid + [b])
  {
    SdLedsSnoc(v.leds, LedCommand(true, if b then LedNormal else LedSdCardError));
    var longer := valid + [b];
    assert longer[..|valid|] == valid;
    assert Dedup(longer) == Dedup(valid) + [b];
    assert Dedup(longer)[..|Dedup(valid)|] == Dedup(valid);
  }

  lemma NoEdgeFollows(v: Video, valid: seq<bool>, b: bool)
    requires Follows(v, valid) && v.sdcardValid == Some(b)
    ensures Follows(v, valid + [b])
  {
    assert (valid + [b])[..|valid|] == valid;
  }

  lemma ValiditiesSnoc(reports: seq<StorageInfo>, info: StorageInfo)
    ensures Validities(reports + [info]) == Validities(reports) + [ShouldBeValid(info)]
  {
  }

  lemma ReportKeepsSdInv(s: System, info: StorageInfo)
    requires SdInv(s) && Enabled(s, Report(info))
    ensures SdInv(Apply(s, Report(info)))
  {
    ValiditiesSnoc(s.reports, info);
    assert (s.reports + [info])[..|s.reports|] == s.reports;
    var seen := s.video.(storage := info);
    if !IsEdge(s.video, info) {
      NoEdgeFollows(seen, Validities(s.reports), ShouldBeValid(info));
    } else if !StopWanted(s.video, info) {
      EdgeFollows(seen, Validities(s.reports), ShouldBeValid(info));
    }
  }

  lemma ReportStopKeepsSdInv(s: System, rgb: Result, irOk: bool)
    requires SdInv(s) && Enabled(s, ReportStop(rgb, irOk))
    ensures SdInv(Apply(s, ReportStop(rgb, irOk)))
  {
    StopLeavesSdAlone(s.video, rgb, irOk);
    var info := s.reports[|s.reports| - 1];
    ValiditiesSnoc(Handled(s), info);
    assert Handled(s) + [info] == s.reports;
    EdgeFollows(Stopped(s.video, rgb, irOk).0, Validities(Handled(s)), false);
  }

  /** What leaves the reports, the remembered validity and the SD-driven LEDs alone keeps the
      invariant. */
  lemma UnrelatedKeepsSdInv(s: System, t: System)
    requires SdInv(s) && t.reports == s.reports && t.pending == s.pending
    requires t.video.sdcardValid == s.video.sdcardValid && SdLeds(t.video.leds) == SdLeds(s.video.leds)
    ensures SdInv(t)
  {
  }

  lemma UnrelatedEvent(s: System, e: Event)
    requires Enabled(s, e) && !e.Report? && !e.ReportStop?
    ensures var t := Apply(s, e);
            && t.reports == s.reports && t.pending == s.pending
            && t.video.sdcardValid == s.video.sdcardValid && SdLeds(t.video.leds) == SdLeds(s.video.leds)
  {
    match e
    case Start(_, rgb, irOk) => StartLeavesSdAlone(s.video, rgb, irOk);
    case Stop(rgb, irOk) => StopLeavesSdAlone(s.video, rgb, irOk);
    case _ =>
  }

  lemma StepKeepsSdInv(s: System, e: Event)
    requires SdInv(s) && Enabled(s, e)
    ensures SdInv(Apply(s, e))
  {
    match e
    case Report(info) => ReportKeepsSdInv(s, info);
    case ReportStop(rgb, irOk) => ReportStopKeepsSdInv(s, rgb, irOk);
    case _ =>
      UnrelatedEvent(s, e);
      UnrelatedKeepsSdInv(s, Apply(s, e));
  }

  lemma {:induction false} RunKeepsSdInv(s: System, events: seq<Event>)
    requires SdInv(s) && IsRun(s, events)
    ensures SdInv(Run(s, events))
    decreases |events|
  {
    if events != [] {
      StepKeepsSdInv(s, events[0]);
      RunKeepsSdInv(Apply(s, events[0]), events[1..]);
    }
  }

  /** However recordings and reports interleave, once no report is in the middle of its stop the
      remembered validity is that of the last report, and the SD-driven LED commands are the
      validities of all reports with adjacent duplicates removed. */
  lemma SupervisionIsAFold(sensor: SensorMode, hasIr: bool, storage: StorageInfo, events: seq<Event>)
    requires IsRun(InitSystem(sensor, hasIr, storage), events)
    requires Run(InitSystem(sensor, hasIr, storage), events).pending.None?
    ensures var s := Run(InitSystem(sensor, hasIr, storage), events);
            && s.video.sdcardValid
               == (if s.reports == [] then None else Some(ShouldBeValid(s.reports[|s.reports| - 1])))
            && SdLeds(s.video.leds) == LedsFor(Dedup(Validities(s.reports)))
  {
    RunKeepsSdInv(InitSystem(sensor, hasIr, storage), events);
  }
}
