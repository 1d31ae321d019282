/** A start never fails on what a running client stored: every stored number still reads as one. */
module StartCompletes {
  import opened CameraParameters
  import opened CameraSettings
  import opened ClientRuns
  import opened Decimal
  import opened RestartLaws
  import opened StartedClient
  import opened StartupLaws
  import opened Wrappers

  /** The stored texts a start reads with `std::stoi`; the exposure value it reads with `std::stof`. */
  predicate IsInteger(k: SettingId) {
    k.CamDisplayMode? || k.Iso? || k.Metering? || k.Sharpness? || k.IrPalette? || k.IrFfcMode? || k.TakeInterval?
  }

  predicate Fits(k: SettingId, text: string, stof: FloatReader) {
    |text| > 0 ==> (IsInteger(k) ==> Stoi(text).Parsed?) && (k.ExposureValue? ==> stof(text).Some?)
  }

  ghost predicate Readable(root: Root, stof: FloatReader) {
    forall k :: Fits(k, TextOf(root, k), stof)
  }

  /** The numbers the vendor cameras print. */
  predicate PrintsNumbers(env: Env, stof: FloatReader) {
    && Fits(Iso, env.vendorIso, stof) && Fits(IrPalette, env.irPalette, stof) && Fits(IrFfcMode, env.irFfcMode, stof)
    && Fits(ExposureValue, env.vendorEv, stof)
  }

  lemma DefaultsPrinted()
    ensures ToString(0) == "0" && ToString(1) == "1" && ToString(125) == "125" && ToString(1800) == "1800"
  {
    assert Digits(0) == "0" && Digits(1) == "1";
    assert Digits(12) == Digits(1) + "2";
    assert Digits(125) == Digits(12) + "5";
    assert Digits(18) == Digits(1) + "8";
    assert Digits(180) == Digits(18) + "0";
    assert Digits(1800) == Digits(180) + "0";
  }

  lemma DefaultsRead()
    ensures Stoi("0").Parsed? && Stoi("1").Parsed? && Stoi("125").Parsed? && Stoi("1800").Parsed?
  {
    DefaultsPrinted();
    PrintedReads(0, "0");
    PrintedReads(1, "1");
    PrintedReads(125, "125");
    PrintedReads(1800, "1800");
  }

  lemma PrintedReads(v: int, text: string)
    requires IsInt32(v) && ToString(v) == text
    ensures Stoi(text).Parsed?
  {
    StoiOfToString(v);
  }

  // ----- one step, then all of them -----

  lemma StoreFits(s: Store, j: SettingId, fallback: string, opens: bool, stof: FloatReader)
    requires Readable(s.root, stof) && Fits(j, fallback, stof)
    ensures Readable(LoadedStore(s, j, fallback, opens).root, stof)
  {
    forall k
      ensures Fits(k, TextOf(LoadedStore(s, j, fallback, opens).root, k), stof)
    {
      assert Fits(k, TextOf(s.root, k), stof);
      PeekAt(s, j, k);
      PutAt(Peek(s, j), j, fallback, opens, k);
    }
  }

  lemma FittingTextsDoNotThrow(c: Camera, k: SettingId, a: Answers)
    requires Fits(k, TextOf(c.store.root, k), a.stof)
    ensures !StoredThrows(c, k, TextOf(c.store.root, k), a)
  {
  }

  predicate StepFits(step: Step, stof: FloatReader) {
    step.source.Stored? ==> Fits(step.key, step.source.fallback, stof)
  }

  lemma LoadStepFits(c: Camera, step: Step, a: Answers, opens: bool)
    requires Readable(c.store.root, a.stof) && StepFits(step, a.stof)
    ensures LoadStep(c, step, a, opens).Some?
    ensures Readable(LoadStep(c, step, a, opens).value.store.root, a.stof)
  {
    if step.source.Stored? {
      assert Fits(step.key, TextOf(c.store.root, step.key), a.stof);
      FittingTextsDoNotThrow(c, step.key, a);
      StoreFits(c.store, step.key, step.source.fallback, opens, a.stof);
    }
  }

  lemma {:induction false} LoadAllFits(c: Camera, steps: seq<Step>, a: Answers, opens: bool)
    requires Readable(c.store.root, a.stof) && forall step :: step in steps ==> StepFits(step, a.stof)
    ensures LoadAll(c, steps, a, opens).Some?
    ensures Readable(LoadAll(c, steps, a, opens).value.store.root, a.stof)
    decreases |steps|
  {
    if |steps| > 0 {
      assert steps[0] in steps;
      LoadStepFits(c, steps[0], a, opens);
      LoadAllFits(LoadStep(c, steps[0], a, opens).value, steps[1..], a, opens);
    }
  }

  /** "0" fits every setting. */
  lemma ZeroFits(k: SettingId, stof: FloatReader)
    requires stof("0").Some?
    ensures Fits(k, "0", stof)
  {
    DefaultsRead();
  }

  lemma OtherDefaultsFit(stof: FloatReader)
    ensures Fits(TakeInterval, "1800", stof) && Fits(IrFfcMode, "1", stof)
  {
    DefaultsRead();
  }

  lemma DefaultOfNumber(k: SettingId, env: Env)
    requires IsInteger(k) || k.ExposureValue?
    ensures var v := Default(k, env);
            || v == "0"
            || (k == Iso && v == env.vendorIso) || (k == ExposureValue && v == env.vendorEv)
            || (k == IrPalette && v == env.irPalette) || (k == IrFfcMode && (v == env.irFfcMode || v == "1"))
            || (k == TakeInterval && v == "1800")
  {
  }

  lemma DefaultFits(k: SettingId, env: Env, stof: FloatReader)
    requires PrintsNumbers(env, stof) && stof("0").Some?
    ensures Fits(k, Default(k, env), stof)
  {
    if IsInteger(k) || k.ExposureValue? {
      DefaultOfNumber(k, env);
      ZeroFits(k, stof);
      OtherDefaultsFit(stof);
    }
  }

  /** Every step falls back to the default of its setting, or to "0". */
  predicate UsesDefault(step: Step, env: Env) {
    step.source.Stored? ==> step.source.fallback == Default(step.key, env) || step.source.fallback == "0"
  }

  lemma StepsUseDefaults(env: Env)
    ensures forall step :: step in CameraSteps(env) ==> UsesDefault(step, env)
    ensures forall step :: step in SettingSteps(env) ==> UsesDefault(step, env)
    ensures forall step :: step in IrSteps(env) ==> UsesDefault(step, env)
  {
  }

  lemma StepsFit(steps: seq<Step>, env: Env, stof: FloatReader)
    requires forall step :: step in steps ==> UsesDefault(step, env)
    requires PrintsNumbers(env, stof) && stof("0").Some?
    ensures forall step :: step in steps ==> StepFits(step, stof)
  {
    forall step | step in steps
      ensures StepFits(step, stof)
    {
      assert UsesDefault(step, env);
      DefaultFits(step.key, env, stof);
      ZeroFits(step.key, stof);
    }
  }

  /** A start from a store whose numbers read as numbers goes through, and leaves such a store. */
  lemma StartGoesThrough(c: Camera, env: Env, a: Answers, opens: bool)
    requires Readable(c.store.root, a.stof) && PrintsNumbers(env, a.stof) && a.stof("0").Some?
    ensures Init(c, env, a, opens).Some?
    ensures Readable(Init(c, env, a, opens).value.store.root, a.stof)
  {
    StepsUseDefaults(env);
    StepsFit(CameraSteps(env), env, a.stof);
    StepsFit(SettingSteps(env), env, a.stof);
    StepsFit(IrSteps(env), env, a.stof);
    var c0 := c.(hasCamera := true);
    LoadAllFits(c0, CameraSteps(env), a, opens);
    var c1 := LoadAll(c0, CameraSteps(env), a, opens).value;
    LoadAllFits(c1, SettingSteps(env), a, opens);
    var c2 := LoadAll(c1, SettingSteps(env), a, opens).value;
    LoadAllFits(PreparedForIr(c2, env), IrSteps(env), a, opens);
  }

  // ----- runs keep the store readable -----

  lemma AcceptedNumberReads(hasIr: bool, id: SettingId, value: string, a: Answers)
    requires SetterOutcome(hasIr, id, value, a).Applied?
    ensures Fits(id, value, a.stof)
  {
  }

  /** A stored text after a call is the old one, or one that a setter or a reset accepted. */
  lemma SetKeepsFit(c: Camera, id: SettingId, value: string, a: Answers, opens: bool, k: SettingId)
    requires Complete(c) && Handled(c, id) && !k.AiFunction? && Fits(k, TextOf(c.store.root, k), a.stof)
    ensures Fits(k, TextOf(Set(c, id, value, a, opens).0.store.root, k), a.stof)
  {
    CompleteHasModes(c);
    SetAt(c, id, value, a, opens, k);
    assert CellOf(c, k).stored == TextOf(c.store.root, k);
    if k == id && Applies(c, id, value, a) {
      AcceptedNumberReads(c.hasIr, id, value, a);
    }
    assert CellOf(Set(c, id, value, a, opens).0, k).stored == TextOf(Set(c, id, value, a, opens).0.store.root, k);
  }

  lemma ResetValueFits(k: SettingId, stof: FloatReader)
    requires stof("0").Some?
    ensures Fits(k, ResetValue(k), stof)
  {
    if k.Iso? {
      DefaultsRead();
    } else if IsInteger(k) || k.ExposureValue? {
      ZeroFits(k, stof);
    }
  }

  lemma ResetKeepsFit(c: Camera, vendorOk: bool, ai: AiOutcome, opens: bool, k: SettingId, stof: FloatReader)
    requires Complete(c) && Fits(k, TextOf(c.store.root, k), stof) && stof("0").Some?
    ensures Fits(k, TextOf(Reset(c, vendorOk, ai, opens).0.store.root, k), stof)
  {
    CompleteHasModes(c);
    ResetAt(c, vendorOk, ai, opens, k);
    ResetValueFits(k, stof);
    assert CellOf(c, k).stored == TextOf(c.store.root, k);
    assert CellOf(Reset(c, vendorOk, ai, opens).0, k).stored == TextOf(Reset(c, vendorOk, ai, opens).0.store.root, k);
  }

  lemma OpKeepsFit(c: Camera, op: Op, k: SettingId, stof: FloatReader)
    requires Complete(c) && Fits(k, TextOf(c.store.root, k), stof) && stof("0").Some? && Reads(op, stof)
    ensures Fits(k, TextOf(After(c, op).store.root, k), stof)
  {
    match op
    case SetOp(id, value, a, opens) =>
      if id in c.settings && !k.AiFunction? {
        SetKeepsFit(c, id, value, a, opens, k);
      }
    case ResetOp(vendorOk, ai, opens) => ResetKeepsFit(c, vendorOk, ai, opens, k, stof);
    case _ =>
  }

  lemma OpKeepsDurable(c: Camera, op: Op, k: SettingId)
    requires Complete(c) && DurableAt(c.store, k)
    ensures DurableAt(After(c, op).store, k)
  {
    CompleteHasModes(c);
    match op
    case SetOp(id, value, a, opens) => PutAt(c.store, id, value, opens, k);
    case ResetOp(vendorOk, ai, opens) => ResetAt(c, vendorOk, ai, opens, k);
    case _ =>
  }

  lemma {:induction false} RunKeepsFit(c: Camera, ops: seq<Op>, k: SettingId, stof: FloatReader)
    requires Complete(c) && DurableAt(c.store, k) && Fits(k, TextOf(c.store.root, k), stof)
    requires stof("0").Some? && forall op :: op in ops ==> Reads(op, stof)
    ensures DurableAt(AfterAll(c, ops).store, k) && Fits(k, TextOf(AfterAll(c, ops).store.root, k), stof)
    decreases |ops|
  {
    if |ops| > 0 {
      assert ops[0] in ops;
      OpKeepsComplete(c, ops[0]);
      OpKeepsDurable(c, ops[0], k);
      OpKeepsFit(c, ops[0], k, stof);
      RunKeepsFit(After(c, ops[0]), ops[1..], k, stof);
    }
  }

  // ----- starts keep the store durable -----

  lemma LoadStepKeepsDurable(c: Camera, step: Step, a: Answers, opens: bool, k: SettingId)
    requires DurableAt(c.store, k) && LoadStep(c, step, a, opens).Some?
    ensures DurableAt(LoadStep(c, step, a, opens).value.store, k)
  {
    if step.source.Stored? {
      PeekAt(c.store, step.key, k);
      PutAt(Peek(c.store, step.key), step.key, step.source.fallback, opens, k);
    }
  }

  lemma {:induction false} LoadAllKeepsDurable(c: Camera, steps: seq<Step>, a: Answers, opens: bool, k: SettingId)
    requires DurableAt(c.store, k) && LoadAll(c, steps, a, opens).Some?
    ensures DurableAt(LoadAll(c, steps, a, opens).value.store, k)
    decreases |steps|
  {
    if |steps| > 0 {
      LoadStepKeepsDurable(c, steps[0], a, opens, k);
      LoadAllKeepsDurable(LoadStep(c, steps[0], a, opens).value, steps[1..], a, opens, k);
    }
  }

  lemma StartKeepsDurable(c: Camera, env: Env, a: Answers, opens: bool, k: SettingId)
    requires DurableAt(c.store, k) && Init(c, env, a, opens).Some?
    ensures DurableAt(Init(c, env, a, opens).value.store, k)
  {
    var c0 := c.(hasCamera := true);
    LoadAllKeepsDurable(c0, CameraSteps(env), a, opens, k);
    var c1 := LoadAll(c0, CameraSteps(env), a, opens).value;
    LoadAllKeepsDurable(c1, SettingSteps(env), a, opens, k);
    var c2 := LoadAll(c1, SettingSteps(env), a, opens).value;
    LoadAllKeepsDurable(PreparedForIr(c2, env), IrSteps(env), a, opens, k);
  }

  /** From a readable file, whatever the environment, the calls, valid or not, and the writes that
      succeed: the start goes through, so does the next one on the file it left, and that file is
      readable again. */
  lemma StartAfterAnyRun(blank: Camera, file: Option<Root>, env: Env, a: Answers, opens: bool, ops: seq<Op>,
                         next: Camera, env2: Env, a2: Answers, opens2: bool)
    requires Constructed(blank, file) && Readable(Loaded(file), a.stof) && a2.stof == a.stof
    requires PrintsNumbers(env, a.stof) && PrintsNumbers(env2, a.stof) && a.stof("0").Some?
    requires forall op :: op in ops ==> Reads(op, a.stof)
    requires Init(blank, env, a, opens).Some? ==>
               Constructed(next, AfterAll(Init(blank, env, a, opens).value, ops).store.file)
    ensures Init(blank, env, a, opens).Some? && Init(next, env2, a2, opens2).Some?
    ensures Readable(Loaded(AfterAll(Init(blank, env, a, opens).value, ops).store.file), a.stof)
  {
    StartGoesThrough(blank, env, a, opens);
    StartLeaves(blank, env, a, opens);
    var c := Init(blank, env, a, opens).value;
    forall k
      ensures Fits(k, TextOf(next.store.root, k), a.stof)
    {
      assert DurableAt(blank.store, k);
      StartKeepsDurable(blank, env, a, opens, k);
      assert Fits(k, TextOf(c.store.root, k), a.stof);
      RunKeepsFit(c, ops, k, a.stof);
    }
    StartGoesThrough(next, env2, a2, opens2);
  }

  lemma ModeOnlyIsReadable(stof: FloatReader)
    ensures Readable(map[CamMode := Text("0")], stof)
  {
    forall k
      ensures Fits(k, TextOf(map[CamMode := Text("0")], k), stof)
    {
      assert k != CamMode ==> TextOf(map[CamMode := Text("0")], k) == "";
    }
  }

  /** A store against its environment: video is asked for, photo mode is stored; the start goes
      through, in photo mode. */
  lemma StoredModeBeatsEnvironment(blank: Camera, env: Env, a: Answers)
    requires env.cameraMode == Some("1") && PrintsNumbers(env, a.stof) && a.stof("0").Some?
    requires Constructed(blank, Some(map[CamMode := Text("0")]))
    ensures EnvAsks(env, "1") && Init(blank, env, a, true).Some?
    ensures var m := Init(blank, env, a, true).value.settings; CamMode in m && m[CamMode] == "0"
  {
    var file := Some(map[CamMode := Text("0")]);
    ModeOnlyIsReadable(a.stof);
    StartGoesThrough(blank, env, a, true);
    StartLoadsTheStore(blank, file, env, a);
    assert InitValue(Loaded(file), CamMode, env) == "0";
  }
}
