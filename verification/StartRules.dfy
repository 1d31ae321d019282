/** What a start gives each setting, said setting by setting, and when a start ends in an exception. */
module StartRules {
  import opened CameraParameters
  import opened CameraSettings
  import opened Decimal
  import opened SettingRules
  import opened StartedClient
  import opened StartupLaws
  import opened Wrappers

  // ----- values -----

  predicate NothingStored(root: Root, k: SettingId) {
    |TextOf(root, k)| == 0
  }

  /** The setting has the value in memory, in the object to be written, and in the file. */
  predicate Has(c: Camera, k: SettingId, v: string) {
    && k in c.settings && c.settings[k] == v
    && TextOf(c.store.root, k) == v && TextOf(Loaded(c.store.file), k) == v
  }

  /** With nothing stored: the camera's own answers. */
  ghost predicate AsksCameras(c: Camera, root: Root, env: Env) {
    && (NothingStored(root, PhotoRes) && env.photoRes.Unset? ==> Has(c, PhotoRes, env.vendorPhotoRes))
    && (NothingStored(root, VideoRes) ==> Has(c, VideoRes, env.vendorVideoRes))
    && (NothingStored(root, VideoFormat) ==> Has(c, VideoFormat, if env.vendorH265 then "1" else "0"))
    && (NothingStored(root, WhiteBalance) ==> Has(c, WhiteBalance, env.vendorWhiteBalance))
    && (NothingStored(root, ExposureValue) ==> Has(c, ExposureValue, env.vendorEv))
    && (NothingStored(root, Iso) ==> Has(c, Iso, env.vendorIso))
    && (NothingStored(root, ShutterSpeed) ==> Has(c, ShutterSpeed, env.vendorShutter))
    && (NothingStored(root, IrPalette) ==> Has(c, IrPalette, if env.hasIr then env.irPalette else "0"))
    && (NothingStored(root, IrFfcMode) ==> Has(c, IrFfcMode, if env.hasIr then env.irFfcMode else "1"))
  }

  /** The camera mode of the environment is video when its text begins with a 1. */
  predicate EnvIsVideo(env: Env) {
    env.cameraMode.Some? && |env.cameraMode.value| > 0 && env.cameraMode.value[0] == '1'
  }

  /** With nothing stored: the environment's camera mode, and the constants. */
  ghost predicate TakesConstants(c: Camera, root: Root, env: Env) {
    && (NothingStored(root, CamMode) ==> Has(c, CamMode, if EnvIsVideo(env) then "1" else "0"))
    && (NothingStored(root, CamSensorMode) ==> Has(c, CamSensorMode, "0"))
    && (NothingStored(root, CamDisplayMode) ==> Has(c, CamDisplayMode, "0"))
    && (NothingStored(root, PhotoQuality) ==> Has(c, PhotoQuality, "0"))
    && (NothingStored(root, PhotoFormat) ==> Has(c, PhotoFormat, "0"))
    && (NothingStored(root, ExposureMode) ==> Has(c, ExposureMode, "0"))
    && (NothingStored(root, Metering) ==> Has(c, Metering, "0"))
    && (NothingStored(root, Sharpness) ==> Has(c, Sharpness, "0"))
    && (NothingStored(root, TakeInterval) ==>
          TextOf(c.store.root, TakeInterval) == "1800" && TextOf(Loaded(c.store.file), TakeInterval) == "1800")
  }

  /** The settings whose stored text becomes their value as it is. */
  predicate TakesStored(k: SettingId, env: Env) {
    || k == CamSensorMode || k == CamDisplayMode || k == PhotoQuality || k == PhotoFormat || k == VideoRes || k == VideoFormat
    || k == WhiteBalance || k == ExposureMode || k == ExposureValue || k == Iso || k == ShutterSpeed
    || k == Metering || k == Sharpness || k == IrPalette || k == IrFfcMode
    || (k == PhotoRes && env.photoRes.Unset?)
  }

  /** Stored texts: kept as they are; a camera mode reads as photo or video; an environment that names
      a photo resolution overrules the stored one; three settings always start at "0". */
  ghost predicate TakesTexts(c: Camera, root: Root, env: Env) {
    && (forall k :: TakesStored(k, env) && !NothingStored(root, k) ==> Has(c, k, TextOf(root, k)))
    && (!NothingStored(root, CamMode) ==>
          && CamMode in c.settings && c.settings[CamMode] == (if TextOf(root, CamMode) == "0" then "0" else "1")
          && TextOf(c.store.root, CamMode) == TextOf(root, CamMode))
    && (env.photoRes.EnvFull? ==> PhotoRes in c.settings && c.settings[PhotoRes] == "0")
    && (env.photoRes.EnvQuarter? ==> PhotoRes in c.settings && c.settings[PhotoRes] == "1")
    && (forall k :: k == AeLock || k == IrFfc || k == AiFunction ==> k in c.settings && c.settings[k] == "0")
  }

  lemma StartedText(c: Camera, file: Option<Root>, env: Env, k: SettingId)
    requires JustStarted(c, file, env)
    ensures TextOf(Loaded(c.store.file), k) == TextOf(c.store.root, k)
    ensures TextOf(c.store.root, k)
         == if NothingStored(Loaded(file), k) && StoresDefault(k, env) then Default(k, env) else TextOf(Loaded(file), k)
  {
    assert DurableAt(c.store, k);
  }

  lemma ValueWithNothingStored(root: Root, k: SettingId, env: Env)
    requires NothingStored(root, k) && (TakesStored(k, env) || k == CamMode)
    ensures Initialised(root, k, env) && InitValue(root, k, env) == Default(k, env) && StoresDefault(k, env)
  {
  }

  lemma FallsBack(c: Camera, file: Option<Root>, env: Env, k: SettingId)
    requires JustStarted(c, file, env) && NothingStored(Loaded(file), k)
    requires TakesStored(k, env) || k == CamMode
    ensures Has(c, k, Default(k, env))
  {
    StartedText(c, file, env, k);
    ValueWithNothingStored(Loaded(file), k, env);
    assert k in InitSettings(Loaded(file), env);
  }

  lemma CameraDefaults(env: Env)
    ensures Default(PhotoRes, env) == env.vendorPhotoRes && Default(VideoRes, env) == env.vendorVideoRes
    ensures Default(VideoFormat, env) == if env.vendorH265 then "1" else "0"
    ensures Default(WhiteBalance, env) == env.vendorWhiteBalance && Default(ExposureValue, env) == env.vendorEv
    ensures Default(Iso, env) == env.vendorIso && Default(ShutterSpeed, env) == env.vendorShutter
    ensures Default(IrPalette, env) == if env.hasIr then env.irPalette else "0"
    ensures Default(IrFfcMode, env) == if env.hasIr then env.irFfcMode else "1"
  {
  }

  lemma ConstantDefaults(env: Env)
    ensures Default(CamMode, env) == if EnvIsVideo(env) then "1" else "0"
    ensures Default(CamSensorMode, env) == Default(CamDisplayMode, env) == Default(PhotoQuality, env) == "0"
    ensures Default(PhotoFormat, env) == Default(ExposureMode, env) == Default(Metering, env) == "0"
    ensures Default(Sharpness, env) == "0" && Default(TakeInterval, env) == "1800"
  {
  }

  lemma StartAsksCameras(c: Camera, file: Option<Root>, env: Env)
    requires JustStarted(c, file, env)
    ensures AsksCameras(c, Loaded(file), env)
  {
    CameraDefaults(env);
    forall k | NothingStored(Loaded(file), k) && (TakesStored(k, env) || k == CamMode)
      ensures Has(c, k, Default(k, env))
    {
      FallsBack(c, file, env, k);
    }
  }

  lemma StartTakesConstants(c: Camera, file: Option<Root>, env: Env)
    requires JustStarted(c, file, env)
    ensures TakesConstants(c, Loaded(file), env)
  {
    ConstantDefaults(env);
    StartedText(c, file, env, TakeInterval);
    forall k | NothingStored(Loaded(file), k) && (TakesStored(k, env) || k == CamMode)
      ensures Has(c, k, Default(k, env))
    {
      FallsBack(c, file, env, k);
    }
  }

  lemma ValueOfStoredText(root: Root, k: SettingId, env: Env)
    requires !NothingStored(root, k) && TakesStored(k, env)
    ensures Initialised(root, k, env) && InitValue(root, k, env) == TextOf(root, k)
  {
  }

  lemma KeepsText(c: Camera, file: Option<Root>, env: Env, k: SettingId)
    requires JustStarted(c, file, env) && !NothingStored(Loaded(file), k) && TakesStored(k, env)
    ensures Has(c, k, TextOf(Loaded(file), k))
  {
    StartedText(c, file, env, k);
    ValueOfStoredText(Loaded(file), k, env);
    assert k in InitSettings(Loaded(file), env);
  }

  lemma StartTakesTexts(c: Camera, file: Option<Root>, env: Env)
    requires JustStarted(c, file, env)
    ensures TakesTexts(c, Loaded(file), env)
  {
    forall k | TakesStored(k, env) && !NothingStored(Loaded(file), k)
      ensures Has(c, k, TextOf(Loaded(file), k))
    {
      KeepsText(c, file, env, k);
    }
    StartedText(c, file, env, CamMode);
    assert c.settings[CamMode] == InitValue(Loaded(file), CamMode, env);
    GivenValues(c, file, env);
  }

  lemma GivenValues(c: Camera, file: Option<Root>, env: Env)
    requires JustStarted(c, file, env)
    ensures env.photoRes.EnvFull? ==> PhotoRes in c.settings && c.settings[PhotoRes] == "0"
    ensures env.photoRes.EnvQuarter? ==> PhotoRes in c.settings && c.settings[PhotoRes] == "1"
    ensures forall k :: k == AeLock || k == IrFfc || k == AiFunction ==> k in c.settings && c.settings[k] == "0"
  {
  }

  /** A completed start whose writes succeed gives every setting its stored text, and where nothing is
      stored the camera's own answer, the environment's mode, or a constant. */
  lemma StartFollowsRules(c: Camera, file: Option<Root>, env: Env, a: Answers)
    requires Constructed(c, file)
    ensures var d := Init(c, env, a, true);
            d.Some? ==>
              AsksCameras(d.value, Loaded(file), env) && TakesConstants(d.value, Loaded(file), env)
              && TakesTexts(d.value, Loaded(file), env)
  {
    StartLoadsTheStore(c, file, env, a);
    if Init(c, env, a, true).Some? {
      var d := Init(c, env, a, true).value;
      StartAsksCameras(d, file, env);
      StartTakesConstants(d, file, env);
      StartTakesTexts(d, file, env);
    }
  }

  // ----- exceptions -----

  /** The stored texts a start always reads as integers. */
  predicate AlwaysRead(k: SettingId) {
    k == TakeInterval || k == CamDisplayMode || k == Metering || k == Sharpness || k == IrPalette || k == IrFfcMode
  }

  function ExposureText(root: Root): string {
    if NothingStored(root, ExposureMode) then "0" else TextOf(root, ExposureMode)
  }

  /** A stored text that ends a start: no integer where one is always read, an ISO that is no integer in
      manual exposure, or an exposure value that is no float in automatic exposure. */
  predicate Breaks(root: Root, k: SettingId, stof: FloatReader) {
    && !NothingStored(root, k)
    && (|| (AlwaysRead(k) && !Stoi(TextOf(root, k)).Parsed?)
        || (k == Iso && ExposureText(root) == "1" && !Stoi(TextOf(root, k)).Parsed?)
        || (k == ExposureValue && ExposureText(root) == "0" && stof(TextOf(root, k)).None?))
  }

  predicate CanBreak(k: SettingId) {
    AlwaysRead(k) || k == Iso || k == ExposureValue
  }

  lemma ReapplyingFails(c: Camera, k: SettingId, text: string, a: Answers)
    requires k in KNOWN
    ensures SetterOutcome(c.hasIr, k, text, a).Threw? <==> Fails(k, text, a.stof)
  {
    Rules(c.hasIr, k, text, a);
  }

  lemma ThrowsIffBreaks(c: Camera, k: SettingId, a: Answers, root: Root)
    requires k in KNOWN || k == TakeInterval
    requires CanBreak(k) ==> TextOf(c.store.root, k) == TextOf(root, k)
    requires k == Iso || k == ExposureValue ==> Get(c.settings, ExposureMode) == ExposureText(root)
    ensures StoredThrows(c, k, TextOf(c.store.root, k), a) <==> Breaks(root, k, a.stof)
  {
    if k != TakeInterval {
      ReapplyingFails(c, k, TextOf(c.store.root, k), a);
    }
  }

  /** Reading ISO and exposure value comes after loading the exposure mode. */
  predicate ExposureFirst(c: Camera, steps: seq<Step>, root: Root) {
    forall i :: 0 <= i < |steps| && (steps[i].key == Iso || steps[i].key == ExposureValue) ==>
      Get(c.settings, ExposureMode) == ExposureText(root) || LoadsExposure(steps, i)
  }

  predicate LoadsExposure(steps: seq<Step>, i: nat)
    requires i <= |steps|
  {
    exists j :: 0 <= j < i && steps[j] == Step(ExposureMode, Stored("0"))
  }

  /** The texts still to be read are the original ones. */
  predicate TextsUntouched(c: Camera, steps: seq<Step>, root: Root) {
    forall step :: step in steps && (CanBreak(step.key) || step.key == ExposureMode) ==>
      TextOf(c.store.root, step.key) == TextOf(root, step.key)
  }

  predicate Readers(steps: seq<Step>) {
    forall step :: step in steps ==>
      (step.key in KNOWN || step.key == TakeInterval) && (CanBreak(step.key) ==> step.source.Stored?)
  }

  lemma LoadStepText(c: Camera, step: Step, a: Answers, opens: bool, k: SettingId)
    requires LoadStep(c, step, a, opens).Some? && k != step.key
    ensures TextOf(LoadStep(c, step, a, opens).value.store.root, k) == TextOf(c.store.root, k)
  {
    if step.source.Stored? {
      PeekAt(c.store, step.key, k);
      PutAt(Peek(c.store, step.key), step.key, step.source.fallback, opens, k);
    }
  }

  lemma {:induction false} LoadAllText(c: Camera, steps: seq<Step>, a: Answers, opens: bool, k: SettingId)
    requires LoadAll(c, steps, a, opens).Some? && forall step :: step in steps ==> step.key != k
    ensures TextOf(LoadAll(c, steps, a, opens).value.store.root, k) == TextOf(c.store.root, k)
    decreases |steps|
  {
    if |steps| > 0 {
      assert steps[0] in steps;
      LoadStepText(c, steps[0], a, opens, k);
      LoadAllText(LoadStep(c, steps[0], a, opens).value, steps[1..], a, opens, k);
    }
  }

  lemma FirstStepThrows(c: Camera, step: Step, a: Answers, opens: bool, root: Root)
    requires Readers([step]) && TextsUntouched(c, [step], root) && ExposureFirst(c, [step], root)
    ensures LoadStep(c, step, a, opens).None? <==> Breaks(root, step.key, a.stof)
  {
    assert step in [step] && [step][0] == step;
    assert !LoadsExposure([step], 0);
    if step.source.Stored? {
      ThrowsIffBreaks(c, step.key, a, root);
    }
  }

  lemma ExposureLoaded(c: Camera, step: Step, a: Answers, opens: bool, root: Root)
    requires LoadStep(c, step, a, opens).Some?
    requires step.key == ExposureMode ==> TextOf(c.store.root, ExposureMode) == TextOf(root, ExposureMode)
    requires Get(c.settings, ExposureMode) == ExposureText(root) || step == Step(ExposureMode, Stored("0"))
    requires step.key == ExposureMode ==> step == Step(ExposureMode, Stored("0"))
    ensures Get(LoadStep(c, step, a, opens).value.settings, ExposureMode) == ExposureText(root)
  {
  }

  lemma RestReady(c: Camera, steps: seq<Step>, a: Answers, opens: bool, root: Root)
    requires |steps| > 0 && Distinct(steps) && LoadStep(c, steps[0], a, opens).Some?
    requires Readers(steps) && TextsUntouched(c, steps, root) && ExposureFirst(c, steps, root)
    requires forall step :: step in steps && step.key == ExposureMode ==> step == Step(ExposureMode, Stored("0"))
    ensures var d := LoadStep(c, steps[0], a, opens).value;
            TextsUntouched(d, steps[1..], root) && ExposureFirst(d, steps[1..], root)
  {
    var d := LoadStep(c, steps[0], a, opens).value;
    var rest := steps[1..];
    assert steps[0] in steps;
    forall step | step in rest && (CanBreak(step.key) || step.key == ExposureMode)
      ensures TextOf(d.store.root, step.key) == TextOf(root, step.key)
    {
      var i :| 0 <= i < |rest| && rest[i] == step;
      assert steps[i + 1] == step && steps[0].key != steps[i + 1].key;
      LoadStepText(c, steps[0], a, opens, step.key);
    }
    forall i | 0 <= i < |rest| && (rest[i].key == Iso || rest[i].key == ExposureValue)
      ensures Get(d.settings, ExposureMode) == ExposureText(root) || LoadsExposure(rest, i)
    {
      assert steps[i + 1] == rest[i];
      if LoadsExposure(steps, i + 1) {
        var j :| 0 <= j < i + 1 && steps[j] == Step(ExposureMode, Stored("0"));
        if j == 0 {
          ExposureLoaded(c, steps[0], a, opens, root);
        } else {
          assert rest[j - 1] == steps[j];
        }
      } else {
        ExposureLoaded(c, steps[0], a, opens, root);
      }
    }
  }

  lemma {:induction false} LoadAllThrows(c: Camera, steps: seq<Step>, a: Answers, opens: bool, root: Root)
    requires Distinct(steps) && Readers(steps) && TextsUntouched(c, steps, root) && ExposureFirst(c, steps, root)
    requires forall step :: step in steps && step.key == ExposureMode ==> step == Step(ExposureMode, Stored("0"))
    ensures LoadAll(c, steps, a, opens).None? <==> exists step :: step in steps && Breaks(root, step.key, a.stof)
    decreases |steps|
  {
    if |steps| > 0 {
      var first, rest := steps[0], steps[1..];
      assert first in steps;
      assert forall step :: step in steps <==> step == first || step in rest;
      assert ExposureFirst(c, [first], root) by {
        assert !LoadsExposure(steps, 0);
      }
      FirstStepThrows(c, first, a, opens, root);
      if LoadStep(c, first, a, opens).Some? {
        RestReady(c, steps, a, opens, root);
        LoadAllThrows(LoadStep(c, first, a, opens).value, rest, a, opens, root);
      }
    }
  }

  lemma CameraStepsRead(env: Env)
    ensures Distinct(CameraSteps(env)) && Readers(CameraSteps(env))
    ensures forall step :: step in CameraSteps(env) ==> step.key != ExposureMode && step.key != Iso && step.key != ExposureValue
  {
    CameraStepKeys(env);
    forall step | step in CameraSteps(env)
      ensures (step.key in KNOWN || step.key == TakeInterval) && (CanBreak(step.key) ==> step.source.Stored?)
    {
      CameraKeyIsKnown(step.key);
    }
  }

  lemma CameraKeyIsKnown(k: SettingId)
    requires CameraKey(k)
    ensures (k in KNOWN || k == TakeInterval) && (CanBreak(k) ==> k == TakeInterval)
  {
  }

  lemma SettingKeyIsKnown(k: SettingId)
    requires SettingKey(k) || IrKey(k)
    ensures k in KNOWN
  {
  }

  lemma AllStored(steps: seq<Step>)
    requires forall step :: step in steps ==> (SettingKey(step.key) || IrKey(step.key)) && step.source.Stored?
    ensures Readers(steps)
  {
    forall step | step in steps
      ensures step.key in KNOWN
    {
      SettingKeyIsKnown(step.key);
    }
  }

  lemma SettingStepsAreStored(env: Env)
    ensures forall step :: step in SettingSteps(env) ==> step.source.Stored?
  {
  }

  lemma ExposureStepIsPlain(env: Env)
    ensures forall step :: step in SettingSteps(env) && step.key == ExposureMode ==> step == Step(ExposureMode, Stored("0"))
    ensures forall i :: 0 <= i < |SettingSteps(env)| && (SettingSteps(env)[i].key == Iso || SettingSteps(env)[i].key == ExposureValue) ==>
              LoadsExposure(SettingSteps(env), i)
  {
    assert SettingSteps(env)[3] == Step(ExposureMode, Stored("0"));
  }

  lemma CameraStageThrows(c: Camera, env: Env, a: Answers, opens: bool)
    ensures LoadAll(c, CameraSteps(env), a, opens).None? <==> Breaks(c.store.root, TakeInterval, a.stof)
  {
    var steps := CameraSteps(env);
    CameraStepsRead(env);
    LoadAllThrows(c, steps, a, opens, c.store.root);
    assert Step(TakeInterval, Stored("1800")) in steps;
    forall step | step in steps && Breaks(c.store.root, step.key, a.stof)
      ensures step.key == TakeInterval
    {
      CameraStepKeys(env);
      CameraKeyIsKnown(step.key);
    }
  }

  /** The texts of the settings loaded later are still the original ones. */
  lemma CameraStageText(c: Camera, env: Env, a: Answers, opens: bool, k: SettingId)
    requires LoadAll(c, CameraSteps(env), a, opens).Some? && !CameraKey(k)
    ensures TextOf(LoadAll(c, CameraSteps(env), a, opens).value.store.root, k) == TextOf(c.store.root, k)
  {
    CameraStepKeys(env);
    LoadAllText(c, CameraSteps(env), a, opens, k);
  }

  lemma SettingStageThrows(c: Camera, env: Env, a: Answers, opens: bool, root: Root)
    requires forall k :: SettingKey(k) && (CanBreak(k) || k == ExposureMode) ==> TextOf(c.store.root, k) == TextOf(root, k)
    ensures LoadAll(c, SettingSteps(env), a, opens).None? <==> exists k :: SettingKey(k) && Breaks(root, k, a.stof)
  {
    var steps := SettingSteps(env);
    SettingStepsAreDistinct(env);
    SettingStepKeys(env);
    SettingStepsAreStored(env);
    AllStored(steps);
    ExposureStepIsPlain(env);
    LoadAllThrows(c, steps, a, opens, root);
    forall k | SettingKey(k) && Breaks(root, k, a.stof)
      ensures exists step :: step in steps && Breaks(root, step.key, a.stof)
    {
      SettingStepsContain(k, env);
      assert Step(k, SettingSource(k, env)).key == k;
    }
  }

  lemma SettingStageText(c: Camera, env: Env, a: Answers, opens: bool, k: SettingId)
    requires LoadAll(c, SettingSteps(env), a, opens).Some? && !SettingKey(k)
    ensures TextOf(LoadAll(c, SettingSteps(env), a, opens).value.store.root, k) == TextOf(c.store.root, k)
  {
    SettingStepKeys(env);
    LoadAllText(c, SettingSteps(env), a, opens, k);
  }

  lemma IrStageThrows(c: Camera, env: Env, a: Answers, opens: bool, root: Root)
    requires forall k :: IrKey(k) ==> TextOf(c.store.root, k) == TextOf(root, k)
    ensures LoadAll(c, IrSteps(env), a, opens).None? <==> exists k :: IrKey(k) && Breaks(root, k, a.stof)
  {
    var steps := IrSteps(env);
    IrStepKeys(env);
    AllStored(steps);
    assert forall step :: step in steps ==> step.key != ExposureMode && step.key != Iso && step.key != ExposureValue;
    LoadAllThrows(c, steps, a, opens, root);
    forall k | IrKey(k) && Breaks(root, k, a.stof)
      ensures exists step :: step in steps && Breaks(root, step.key, a.stof)
    {
      assert Step(k, SourceOf(k, env)) in steps && Step(k, SourceOf(k, env)).key == k;
    }
  }

  predicate Late(k: SettingId) {
    SettingKey(k) || IrKey(k)
  }

  lemma IrStageOfStart(c2: Camera, env: Env, a: Answers, opens: bool, root: Root)
    requires forall k :: IrKey(k) ==> TextOf(c2.store.root, k) == TextOf(root, k)
    ensures LoadAll(PreparedForIr(c2, env), IrSteps(env), a, opens).None? <==> exists k :: IrKey(k) && Breaks(root, k, a.stof)
  {
    var prepared := PreparedForIr(c2, env);
    assert prepared.store == c2.store;
    IrStageThrows(prepared, env, a, opens, root);
  }

  lemma IrTexts(c1: Camera, env: Env, a: Answers, opens: bool, root: Root, c2: Camera)
    requires forall k :: !CameraKey(k) ==> TextOf(c1.store.root, k) == TextOf(root, k)
    requires LoadAll(c1, SettingSteps(env), a, opens) == Some(c2)
    ensures forall k :: IrKey(k) ==> TextOf(c2.store.root, k) == TextOf(root, k)
  {
    forall k | IrKey(k)
      ensures TextOf(c2.store.root, k) == TextOf(root, k)
    {
      SettingStageText(c1, env, a, opens, k);
    }
  }

  /** The stages after the camera's. */
  lemma LateStagesThrow(c1: Camera, env: Env, a: Answers, opens: bool, root: Root)
    requires forall k :: !CameraKey(k) ==> TextOf(c1.store.root, k) == TextOf(root, k)
    ensures LoadAll(c1, SettingSteps(env), a, opens).Some?
            && LoadAll(PreparedForIr(LoadAll(c1, SettingSteps(env), a, opens).value, env), IrSteps(env), a, opens).Some?
       <==> !(exists k :: Late(k) && Breaks(root, k, a.stof))
  {
    SettingStageThrows(c1, env, a, opens, root);
    if LoadAll(c1, SettingSteps(env), a, opens).Some? {
      var c2 := LoadAll(c1, SettingSteps(env), a, opens).value;
      IrTexts(c1, env, a, opens, root, c2);
      IrStageOfStart(c2, env, a, opens, root);
    }
  }

  lemma BreakingKeys(root: Root, k: SettingId, stof: FloatReader)
    requires Breaks(root, k, stof)
    ensures k == TakeInterval || Late(k)
  {
  }

  /** Whatever the environment, the cameras' answers and the writes that succeed, a start ends in an
      exception exactly when some stored text breaks it. */
  lemma StartThrowsIff(c: Camera, env: Env, a: Answers, opens: bool)
    ensures Init(c, env, a, opens).None? <==> exists k :: Breaks(c.store.root, k, a.stof)
  {
    var c0, root := c.(hasCamera := true), c.store.root;
    CameraStageThrows(c0, env, a, opens);
    forall k | Breaks(root, k, a.stof)
      ensures k == TakeInterval || Late(k)
    {
      BreakingKeys(root, k, a.stof);
    }
    if LoadAll(c0, CameraSteps(env), a, opens).Some? {
      var c1 := LoadAll(c0, CameraSteps(env), a, opens).value;
      forall k | !CameraKey(k)
        ensures TextOf(c1.store.root, k) == TextOf(root, k)
      {
        CameraStageText(c0, env, a, opens, k);
      }
      LateStagesThrow(c1, env, a, opens, root);
    }
  }
}
