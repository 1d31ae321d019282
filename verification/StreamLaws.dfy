/** The sensor and the preview stream in use follow their settings. */
module StreamLaws {
  import opened CameraParameters
  import opened CameraSettings
  import opened ClientRuns
  import opened Decimal
  import opened StartedClient
  import opened StartupLaws
  import opened Wrappers
  import Recording

  /** Selecting the sensor its setting names would change nothing. */
  predicate SensorFollows(c: Camera) {
    SensorOf(Get(c.settings, CamSensorMode), c.sensor) == c.sensor
  }

  predicate PreviewFollows(c: Camera) {
    PreviewOf(Get(c.settings, CamDisplayMode), c.preview) == c.preview
  }

  predicate Streaming(c: Camera) {
    SensorFollows(c) && PreviewFollows(c)
  }

  /** With a known mode or a number as its setting, what a stream is follows from the setting. */
  lemma StreamingMeans(c: Camera)
    requires Streaming(c)
    ensures Get(c.settings, CamSensorMode) == "0" ==> c.sensor == Recording.Normal
    ensures Get(c.settings, CamSensorMode) == "1" ==> c.sensor == Recording.IR
    ensures Get(c.settings, CamSensorMode) == "2" ==> c.sensor == Recording.Dual
    ensures Stoi(Get(c.settings, CamDisplayMode)).Parsed? ==> c.preview == Stoi(Get(c.settings, CamDisplayMode)).value
  {
  }

  lemma ZeroStream(before: Recording.SensorMode, preview: int)
    ensures SensorOf("0", before) == Recording.Normal && PreviewOf("0", preview) == 0
  {
    assert ToString(0) == "0";
    StoiOfToString(0);
  }

  // ----- start -----

  /** The streams fall back to "0". */
  predicate StreamStep(step: Step) {
    step.key.CamSensorMode? || step.key.CamDisplayMode? ==> step.source == Stored("0")
  }

  predicate LoadsKey(steps: seq<Step>, k: SettingId) {
    exists i :: 0 <= i < |steps| && steps[i].key == k
  }

  lemma LoadFollows(c: Camera, j: SettingId, fallback: string, a: Answers, opens: bool)
    requires Load(c, j, fallback, a, opens).Some?
    requires j.CamSensorMode? || j.CamDisplayMode? ==> fallback == "0"
    ensures var d := Load(c, j, fallback, a, opens).value;
            && (j.CamSensorMode? || SensorFollows(c) ==> SensorFollows(d))
            && (j.CamDisplayMode? || PreviewFollows(c) ==> PreviewFollows(d))
  {
    ZeroStream(c.sensor, c.preview);
  }

  lemma LoadStepFollows(c: Camera, step: Step, a: Answers, opens: bool)
    requires LoadStep(c, step, a, opens).Some? && StreamStep(step)
    ensures var d := LoadStep(c, step, a, opens).value;
            && (step.key.CamSensorMode? || SensorFollows(c) ==> SensorFollows(d))
            && (step.key.CamDisplayMode? || PreviewFollows(c) ==> PreviewFollows(d))
  {
    if step.source.Stored? {
      LoadFollows(c, step.key, step.source.fallback, a, opens);
    }
  }

  lemma {:induction false} LoadAllFollows(c: Camera, steps: seq<Step>, a: Answers, opens: bool)
    requires LoadAll(c, steps, a, opens).Some? && forall step :: step in steps ==> StreamStep(step)
    ensures var d := LoadAll(c, steps, a, opens).value;
            && (LoadsKey(steps, CamSensorMode) || SensorFollows(c) ==> SensorFollows(d))
            && (LoadsKey(steps, CamDisplayMode) || PreviewFollows(c) ==> PreviewFollows(d))
    decreases |steps|
  {
    if |steps| > 0 {
      assert steps[0] in steps;
      LoadStepFollows(c, steps[0], a, opens);
      LoadsFirstOrRest(steps, CamSensorMode);
      LoadsFirstOrRest(steps, CamDisplayMode);
      LoadAllFollows(LoadStep(c, steps[0], a, opens).value, steps[1..], a, opens);
    }
  }

  lemma LoadsFirstOrRest(steps: seq<Step>, k: SettingId)
    requires |steps| > 0
    ensures LoadsKey(steps, k) ==> steps[0].key == k || LoadsKey(steps[1..], k)
  {
    if LoadsKey(steps, k) && steps[0].key != k {
      var i :| 0 <= i < |steps| && steps[i].key == k;
      assert steps[1..][i - 1].key == k;
    }
  }

  lemma SettingStepsLoadStreams(env: Env)
    ensures forall step :: step in SettingSteps(env) ==> StreamStep(step)
    ensures LoadsKey(SettingSteps(env), CamSensorMode) && LoadsKey(SettingSteps(env), CamDisplayMode)
  {
    assert SettingSteps(env)[0].key == CamSensorMode && SettingSteps(env)[1].key == CamDisplayMode;
  }

  lemma IrStageFollows(c: Camera, env: Env, a: Answers, opens: bool)
    requires Streaming(c) && LoadAll(PreparedForIr(c, env), IrSteps(env), a, opens).Some?
    ensures Streaming(Quiet(LoadAll(PreparedForIr(c, env), IrSteps(env), a, opens).value, a.ai))
  {
    PreparedFollows(c, env);
    LoadAllFollows(PreparedForIr(c, env), IrSteps(env), a, opens);
    QuietFollows(LoadAll(PreparedForIr(c, env), IrSteps(env), a, opens).value, a.ai);
  }

  lemma PreparedFollows(c: Camera, env: Env)
    requires Streaming(c)
    ensures Streaming(PreparedForIr(c, env))
  {
  }

  lemma QuietFollows(c: Camera, ai: AiOutcome)
    requires Streaming(c)
    ensures Streaming(Quiet(c, ai))
  {
  }

  /** A start selects the streams of its settings, whatever was stored and whether or not it could
      write. */
  lemma StartFollows(c: Camera, env: Env, a: Answers, opens: bool)
    ensures Init(c, env, a, opens).Some? ==> Streaming(Init(c, env, a, opens).value)
  {
    if Init(c, env, a, opens).Some? {
      var c1 := LoadAll(c.(hasCamera := true), CameraSteps(env), a, opens).value;
      SettingStepsLoadStreams(env);
      LoadAllFollows(c1, SettingSteps(env), a, opens);
      IrStageFollows(LoadAll(c1, SettingSteps(env), a, opens).value, env, a, opens);
    }
  }

  // ----- runs -----

  lemma SelectingTwice(value: string, before: Recording.SensorMode, preview: int)
    ensures SensorOf(value, SensorOf(value, before)) == SensorOf(value, before)
    ensures PreviewOf(value, PreviewOf(value, preview)) == PreviewOf(value, preview)
  {
  }

  /** A setter that succeeds leaves the streams as its value selects them. */
  lemma SetterStreams(c: Camera, id: SettingId, value: string, a: Answers)
    requires Streaming(c)
    ensures var d := SetterEffect(c, id, value, a);
            && (if id.CamSensorMode? then SensorOf(value, d.sensor) == d.sensor else SensorFollows(d))
            && (if id.CamDisplayMode? then PreviewOf(value, d.preview) == d.preview else PreviewFollows(d))
  {
    SelectingTwice(value, c.sensor, c.preview);
  }

  /** A setter that does not succeed leaves them alone. */
  lemma FailedSetterStreams(c: Camera, id: SettingId, value: string, a: Answers)
    requires Streaming(c) && !SetterOutcome(c.hasIr, id, value, a).Applied?
    ensures Streaming(SetterEffect(c, id, value, a))
  {
  }

  lemma AcceptedStreams(c: Camera, id: SettingId, value: string, opens: bool)
    requires HasModes(c.settings)
    requires if id.CamSensorMode? then SensorOf(value, c.sensor) == c.sensor else SensorFollows(c)
    requires if id.CamDisplayMode? then PreviewOf(value, c.preview) == c.preview else PreviewFollows(c)
    ensures Streaming(Accepted(c, id, value, opens))
  {
    AcceptedForm(c, id, value, opens);
  }

  lemma SetKeepsStreaming(c: Camera, id: SettingId, value: string, a: Answers, opens: bool)
    requires Complete(c) && Streaming(c)
    ensures Streaming(Set(c, id, value, a, opens).0)
  {
    if id in c.settings {
      SetterKeepsComplete(c, id, value, a);
      if SetterOutcome(c.hasIr, id, value, a).Applied? {
        SetterStreams(c, id, value, a);
        AcceptedStreams(SetterEffect(c, id, value, a), id, value, opens);
      } else {
        FailedSetterStreams(c, id, value, a);
      }
    }
  }

  lemma ResetStreams(c: Camera, ai: AiOutcome, opens: bool)
    requires HasModes(c.settings) && c.hasCamera
    ensures var d := Reset(c, true, ai, opens).0; d.sensor == Recording.Normal && d.preview == 0
  {
    var modes := ResetModeSettings(Assign(c, CamMode, "0", opens), opens);
    var exposure := ResetExposureSettings(modes, opens);
    assert modes.sensor == Recording.Normal;
    assert exposure.sensor == Recording.Normal;
    assert ResetOtherSettings(exposure, opens).sensor == Recording.Normal;
  }

  lemma ResetStreamSettings(c: Camera, ai: AiOutcome, opens: bool, k: SettingId)
    requires HasModes(c.settings) && c.hasCamera && (k == CamSensorMode || k == CamDisplayMode)
    ensures Get(Reset(c, true, ai, opens).0.settings, k) == "0"
  {
    ResetAt(c, true, ai, opens, k);
    assert CellOf(Reset(c, true, ai, opens).0, k).value == Some("0");
  }

  lemma ResetKeepsStreaming(c: Camera, vendorOk: bool, ai: AiOutcome, opens: bool)
    requires Complete(c) && Streaming(c)
    ensures Streaming(Reset(c, vendorOk, ai, opens).0)
  {
    CompleteHasModes(c);
    if vendorOk {
      var d := Reset(c, vendorOk, ai, opens).0;
      ResetStreams(c, ai, opens);
      ResetStreamSettings(c, ai, opens, CamSensorMode);
      ResetStreamSettings(c, ai, opens, CamDisplayMode);
      ZeroStream(d.sensor, d.preview);
    }
  }

  lemma TrackKeepsStreaming(c: Camera, px: real, py: real)
    requires Complete(c) && Streaming(c)
    ensures Streaming(TrackPoint(c, px, py))
  {
    CompleteHasModes(c);
    assert TrackPoint(c, px, py).settings == c.settings;
  }

  lemma {:induction false} RunKeepsStreaming(c: Camera, ops: seq<Op>)
    requires Complete(c) && Streaming(c)
    ensures Complete(AfterAll(c, ops)) && Streaming(AfterAll(c, ops))
    decreases |ops|
  {
    if |ops| > 0 {
      match ops[0] {
        case SetOp(id, value, a, opens) => SetKeepsStreaming(c, id, value, a, opens);
        case ResetOp(vendorOk, ai, opens) => ResetKeepsStreaming(c, vendorOk, ai, opens);
        case TrackPointOp(px, py) => TrackKeepsStreaming(c, px, py);
        case TrackOffOp =>
      }
      OpKeepsComplete(c, ops[0]);
      RunKeepsStreaming(After(c, ops[0]), ops[1..]);
    }
  }

  /** From a start on, whatever its environment and writes, over every run of calls, the sensor and
      the preview stream in use are those of their settings: the known sensor modes select their
      sensor, a number its preview. */
  lemma RunsFromStartStream(blank: Camera, env: Env, a: Answers, opens: bool, ops: seq<Op>)
    requires blank.settings == map[]
    ensures var started := Init(blank, env, a, opens);
            started.Some? ==>
              var c := AfterAll(started.value, ops);
              var mode, display := Get(c.settings, CamSensorMode), Stoi(Get(c.settings, CamDisplayMode));
              && (mode == "0" ==> c.sensor == Recording.Normal)
              && (mode == "1" ==> c.sensor == Recording.IR)
              && (mode == "2" ==> c.sensor == Recording.Dual)
              && (display.Parsed? ==> c.preview == display.value)
  {
    if Init(blank, env, a, opens).Some? {
      var c := Init(blank, env, a, opens).value;
      StartLeaves(blank, env, a, opens);
      StartFollows(blank, env, a, opens);
      RunKeepsStreaming(c, ops);
      StreamingMeans(AfterAll(c, ops));
    }
  }
}
