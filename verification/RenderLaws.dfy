/** The render mode follows the camera mode and the resolutions, except in two situations. */
module RenderLaws {
  import opened CameraParameters
  import opened CameraSettings
  import opened ClientRuns
  import opened StartedClient
  import opened StartupLaws
  import opened Wrappers

  predicate Rendering(c: Camera) {
    c.render == RenderOf(c.settings)
  }

  // ----- what a render mode says -----

  /** The resolution setting that matters in a camera mode. */
  function ResolutionKey(mode: string): SettingId {
    if mode == "0" then PhotoRes else VideoRes
  }

  predicate Canonical(m: Settings) {
    || (Get(m, CamMode) == "0" && (Get(m, PhotoRes) == "0" || Get(m, PhotoRes) == "1"))
    || (Get(m, CamMode) == "1" && IsVideoRes(Get(m, VideoRes)))
  }

  predicate IsVideoRes(v: string) {
    v == "0" || v == "1" || v == "2" || v == "3"
  }

  /** The camera mode and its resolution, read back from a render mode. */
  function Shown(r: RenderMode): (string, string) {
    match r
    case PhotoQuarter => ("0", "1")
    case PhotoFull => ("0", "0")
    case Video4K60 => ("1", "0")
    case Video4K30 => ("1", "1")
    case Video1080p60 => ("1", "2")
    case Video1080p30 => ("1", "3")
  }

  /** The render mode of settings with known values tells the camera mode and its resolution. */
  lemma RenderShowsSettings(m: Settings)
    requires Canonical(m)
    ensures Shown(RenderOf(m)) == (Get(m, CamMode), Get(m, ResolutionKey(Get(m, CamMode))))
  {
  }

  // ----- one call -----

  lemma AssignedMode(m: Settings, id: SettingId, value: string)
    requires id != CamMode && id != PhotoRes && id != VideoRes
    ensures RenderOf(m[id := value]) == RenderOf(m)
  {
    RenderOfThree(m, m[id := value]);
  }

  /** DNG leaves the render mode behind exactly when the camera refuses it in photo mode at quarter
      resolution. */
  predicate RefusedDng(c: Camera, id: SettingId, value: string, a: Answers) {
    && Handled(c, id) && id.PhotoFormat? && value == "1" && !a.rgbOk
    && Get(c.settings, CamMode) == "0" && Get(c.settings, PhotoRes) != "0"
  }

  lemma SetterKeepsMode(c: Camera, id: SettingId, value: string, a: Answers)
    requires !id.PhotoFormat? || value != "1"
    ensures var d := SetterEffect(c, id, value, a);
            d.render == c.render && RenderOf(d.settings) == RenderOf(c.settings)
  {
    if id.AiFunction? && IsAiMode(value) {
      AssignedMode(c.settings, AiFunction, SetAi(c, value, a.ai).settings[AiFunction]);
    }
  }

  lemma DngMode(m: Settings)
    ensures RenderOf(m[PhotoRes := "0"]) == RenderOf(m) <==> !(Get(m, CamMode) == "0" && Get(m, PhotoRes) != "0")
  {
  }

  lemma AcceptedKeepsRendering(c: Camera, id: SettingId, value: string, opens: bool)
    requires HasModes(c.settings) && (RefreshesRender(id) || Rendering(c))
    ensures Rendering(Accepted(c, id, value, opens))
  {
    AcceptedForm(c, id, value, opens);
    if RefreshesRender(id) {
      ReadingModesInsertsTheResolution(c.settings[id := value]);
    } else {
      AssignedMode(c.settings, id, value);
    }
  }

  /** A call of `set_setting` keeps the render mode in step, except for a refused DNG. */
  lemma SetKeepsRendering(c: Camera, id: SettingId, value: string, a: Answers, opens: bool)
    requires Complete(c) && Rendering(c)
    ensures Rendering(Set(c, id, value, a, opens).0) <==> !RefusedDng(c, id, value, a)
  {
    if id in c.settings {
      var d := SetterEffect(c, id, value, a);
      SetterKeepsComplete(c, id, value, a);
      if id.PhotoFormat? && value == "1" {
        DngMode(c.settings);
      } else {
        SetterKeepsMode(c, id, value, a);
      }
      if SetterOutcome(c.hasIr, id, value, a).Applied? {
        AcceptedKeepsRendering(d, id, value, opens);
      }
    }
  }

  /** Any accepted change of a mode or a resolution brings the render mode back in step. */
  lemma RefreshHeals(c: Camera, id: SettingId, value: string, a: Answers, opens: bool)
    requires Complete(c) && Applies(c, id, value, a) && RefreshesRender(id)
    ensures Rendering(Set(c, id, value, a, opens).0)
  {
    SetterKeepsComplete(c, id, value, a);
    AcceptedKeepsRendering(SetterEffect(c, id, value, a), id, value, opens);
  }

  /** A refused reset has switched the camera mode to photo without refreshing the render mode. */
  predicate SwitchedUnnoticed(m: Settings) {
    && Get(m, CamMode) != "0"
    && (Get(m, PhotoRes) == "0" || (Get(m, CamMode) == "1" && IsVideoRes(Get(m, VideoRes))))
  }

  lemma PhotoMode(m: Settings)
    ensures RenderOf(m[CamMode := "0"]) == RenderOf(m) <==> !SwitchedUnnoticed(m)
  {
  }

  lemma ResetKeepsRendering(c: Camera, vendorOk: bool, ai: AiOutcome, opens: bool)
    requires Complete(c) && Rendering(c)
    ensures Rendering(Reset(c, vendorOk, ai, opens).0) <==> vendorOk || !SwitchedUnnoticed(c.settings)
  {
    if vendorOk {
      var photo := Assign(c, CamMode, "0", opens);
      CompleteHasModes(c);
      ResetKeepsModes(photo, opens);
      FinishedResetAt(ResetOtherSettings(ResetExposureSettings(ResetModeSettings(photo, opens), opens), opens), ai, CamMode);
    } else {
      PhotoMode(c.settings);
    }
  }

  // ----- runs -----

  predicate Behaves(c: Camera, op: Op) {
    match op
    case SetOp(id, value, a, _) => !RefusedDng(c, id, value, a)
    case ResetOp(vendorOk, _, _) => vendorOk || !SwitchedUnnoticed(c.settings)
    case _ => true
  }

  predicate AllBehave(c: Camera, ops: seq<Op>)
    decreases |ops|
  {
    |ops| > 0 ==> Behaves(c, ops[0]) && AllBehave(After(c, ops[0]), ops[1..])
  }

  lemma TrackKeepsRendering(c: Camera, px: real, py: real)
    requires Complete(c)
    ensures TrackPoint(c, px, py).settings == c.settings
  {
    CompleteHasModes(c);
  }

  lemma OpKeepsRendering(c: Camera, op: Op)
    requires Complete(c) && Rendering(c)
    ensures Rendering(After(c, op)) <==> Behaves(c, op)
  {
    match op
    case SetOp(id, value, a, opens) => SetKeepsRendering(c, id, value, a, opens);
    case ResetOp(vendorOk, ai, opens) => ResetKeepsRendering(c, vendorOk, ai, opens);
    case TrackPointOp(px, py) => TrackKeepsRendering(c, px, py);
    case TrackOffOp =>
  }

  /** The render mode is in step now and after every call of the run. */
  predicate RendersThroughout(c: Camera, ops: seq<Op>)
    decreases |ops|
  {
    Rendering(c) && (|ops| > 0 ==> RendersThroughout(After(c, ops[0]), ops[1..]))
  }

  /** From any state in step, the render mode is the one the settings ask for after every call of a
      run exactly when no call is a DNG refused at quarter resolution in photo mode or a refused reset
      that switches the mode. */
  lemma {:induction false} RunKeepsRendering(c: Camera, ops: seq<Op>)
    requires Complete(c) && Rendering(c)
    ensures RendersThroughout(c, ops) <==> AllBehave(c, ops)
    ensures AllBehave(c, ops) ==> Complete(AfterAll(c, ops)) && Rendering(AfterAll(c, ops))
    decreases |ops|
  {
    if |ops| > 0 {
      var d := After(c, ops[0]);
      OpKeepsComplete(c, ops[0]);
      OpKeepsRendering(c, ops[0]);
      if Rendering(d) {
        RunKeepsRendering(d, ops[1..]);
      }
    }
  }

  /** A run in which the camera accepts every photo format and reset behaves. */
  lemma {:induction false} WillingCameraBehaves(c: Camera, ops: seq<Op>)
    requires forall op :: op in ops ==> (op.SetOp? && op.id.PhotoFormat? ==> op.answers.rgbOk) && (op.ResetOp? ==> op.vendorOk)
    ensures AllBehave(c, ops)
    decreases |ops|
  {
    if |ops| > 0 {
      WillingCameraBehaves(After(c, ops[0]), ops[1..]);
    }
  }

  /** From a start on, whatever its environment and writes, over every run in which the camera accepts
      each photo format and each reset, the render mode is the one the settings ask for. */
  lemma RunsFromStartRender(blank: Camera, env: Env, a: Answers, opens: bool, ops: seq<Op>)
    requires blank.settings == map[]
    requires forall op :: op in ops ==> (op.SetOp? && op.id.PhotoFormat? ==> op.answers.rgbOk) && (op.ResetOp? ==> op.vendorOk)
    ensures var started := Init(blank, env, a, opens);
            started.Some? ==>
              var c := AfterAll(started.value, ops); c.render == RenderOf(c.settings)
  {
    if Init(blank, env, a, opens).Some? {
      var c := Init(blank, env, a, opens).value;
      StartLeaves(blank, env, a, opens);
      WillingCameraBehaves(c, ops);
      RunKeepsRendering(c, ops);
    }
  }
}
