/** What a start leaves for the calls that follow, whatever its environment and whichever of its file
    writes succeed. */
module StartedClient {
  import opened CameraParameters
  import opened CameraSettings
  import opened ClientRuns
  import opened StartupLaws
  import opened Wrappers

  /** The steps give setting `k` a value. */
  predicate Inserts(steps: seq<Step>, k: SettingId) {
    k != TakeInterval && exists i :: 0 <= i < |steps| && steps[i].key == k && !steps[i].source.Unnamed?
  }

  lemma InsertsFirstOrRest(steps: seq<Step>, k: SettingId)
    requires |steps| > 0
    ensures Inserts(steps, k) <==>
              (k != TakeInterval && steps[0].key == k && !steps[0].source.Unnamed?) || Inserts(steps[1..], k)
  {
    if Inserts(steps[1..], k) {
      var i :| 0 <= i < |steps[1..]| && steps[1..][i].key == k && !steps[1..][i].source.Unnamed?;
      assert steps[i + 1] == steps[1..][i];
    }
    if Inserts(steps, k) && !(steps[0].key == k && !steps[0].source.Unnamed?) {
      var i :| 0 <= i < |steps| && steps[i].key == k && !steps[i].source.Unnamed?;
      assert steps[1..][i - 1] == steps[i];
    }
  }

  lemma LoadKey(c: Camera, j: SettingId, fallback: string, a: Answers, opens: bool, k: SettingId)
    requires Load(c, j, fallback, a, opens).Some?
    ensures var d := Load(c, j, fallback, a, opens).value;
            && (k in d.settings <==> k in c.settings || (k != TakeInterval && j == k))
            && (j != k ==> Get(d.settings, k) == Get(c.settings, k))
  {
  }

  lemma LoadStepKey(c: Camera, step: Step, a: Answers, opens: bool, k: SettingId)
    requires step.key == TakeInterval ==> step.source.Stored?
    ensures var d := LoadStep(c, step, a, opens);
            d.Some? ==>
              && (k in d.value.settings <==> k in c.settings || (k != TakeInterval && step.key == k && !step.source.Unnamed?))
              && (step.key != k ==> Get(d.value.settings, k) == Get(c.settings, k))
  {
    if step.source.Stored? && LoadStep(c, step, a, opens).Some? {
      LoadKey(c, step.key, step.source.fallback, a, opens, k);
    }
  }

  /** The interval comes from the store only. */
  predicate StoredInterval(steps: seq<Step>) {
    forall step :: step in steps && step.key == TakeInterval ==> step.source.Stored?
  }

  lemma {:induction false} LoadAllKey(c: Camera, steps: seq<Step>, a: Answers, opens: bool, k: SettingId)
    requires LoadAll(c, steps, a, opens).Some? && StoredInterval(steps)
    ensures var d := LoadAll(c, steps, a, opens).value;
            && (k in d.settings <==> k in c.settings || Inserts(steps, k))
            && (!(exists step :: step in steps && step.key == k) ==> Get(d.settings, k) == Get(c.settings, k))
    decreases |steps|
  {
    if |steps| > 0 {
      assert steps[0] in steps;
      LoadStepKey(c, steps[0], a, opens, k);
      InsertsFirstOrRest(steps, k);
      LoadAllKey(LoadStep(c, steps[0], a, opens).value, steps[1..], a, opens, k);
    }
  }

  lemma CameraStepKeys(env: Env)
    ensures forall step :: step in CameraSteps(env) ==> CameraKey(step.key)
    ensures StoredInterval(CameraSteps(env))
  {
  }

  lemma SettingStepKeys(env: Env)
    ensures forall step :: step in SettingSteps(env) ==> SettingKey(step.key)
    ensures StoredInterval(SettingSteps(env))
  {
    SettingStepsAreSettings(env);
    assert !SettingKey(TakeInterval);
  }

  lemma SettingStepsAreSettings(env: Env)
    ensures forall step :: step in SettingSteps(env) ==> SettingKey(step.key)
  {
  }

  lemma IrStepKeys(env: Env)
    ensures forall step :: step in IrSteps(env) ==> IrKey(step.key)
    ensures StoredInterval(IrSteps(env))
  {
  }

  lemma InsertsStep(steps: seq<Step>, step: Step)
    requires step in steps && step.key != TakeInterval && !step.source.Unnamed?
    ensures Inserts(steps, step.key)
  {
  }

  lemma CameraStepsInsert(env: Env, k: SettingId)
    ensures Inserts(CameraSteps(env), k) <==>
              CameraKey(k) && k != TakeInterval && (k.PhotoRes? ==> !env.photoRes.EnvOther?)
  {
    var steps := CameraSteps(env);
    CameraStepKeys(env);
    if CameraKey(k) && k != TakeInterval && (k.PhotoRes? ==> !env.photoRes.EnvOther?) {
      InsertsStep(steps, Step(k, SourceOf(k, env)));
    }
    if Inserts(steps, k) {
      var i :| 0 <= i < |steps| && steps[i].key == k && !steps[i].source.Unnamed?;
      assert steps[i] in steps;
    }
  }

  lemma SettingStepsInsert(env: Env, k: SettingId)
    ensures Inserts(SettingSteps(env), k) <==> SettingKey(k)
  {
    var steps := SettingSteps(env);
    SettingStepKeys(env);
    if SettingKey(k) {
      SettingStepsContain(k, env);
      InsertsStep(steps, Step(k, SettingSource(k, env)));
    }
    if Inserts(steps, k) {
      var i :| 0 <= i < |steps| && steps[i].key == k && !steps[i].source.Unnamed?;
      assert steps[i] in steps;
    }
  }

  lemma IrStepsInsert(env: Env, k: SettingId)
    ensures Inserts(IrSteps(env), k) <==> IrKey(k)
  {
    var steps := IrSteps(env);
    IrStepKeys(env);
    if IrKey(k) {
      InsertsStep(steps, Step(k, SourceOf(k, env)));
    }
    if Inserts(steps, k) {
      var i :| 0 <= i < |steps| && steps[i].key == k && !steps[i].source.Unnamed?;
      assert steps[i] in steps;
    }
  }

  lemma PreparedKey(c: Camera, env: Env, k: SettingId)
    requires HasModes(c.settings)
    ensures var d := PreparedForIr(c, env);
            && d.ai == c.ai && d.hasCamera == c.hasCamera && d.render == RenderOf(d.settings)
            && (k in c.settings || k == AeLock ==> k in d.settings)
            && (k in d.settings ==> k in c.settings || k == AeLock || k == PhotoRes)
  {
    ReadingModesInsertsTheResolution(c.settings);
    RenderOfThree(Shown(c.settings), Shown(c.settings)[AeLock := "0"]);
  }

  lemma QuietKey(c: Camera, ai: AiOutcome, k: SettingId)
    ensures var d := Quiet(c, ai);
            && d.hasCamera == c.hasCamera && d.render == c.render && RenderOf(d.settings) == RenderOf(c.settings)
            && AiFunction in d.settings && d.settings[AiFunction] == "0"
            && d.ai == Services(false, false, false, c.ai.control)
            && (k in d.settings <==> k in c.settings || k == IrFfc || k == AiFunction)
  {
    RenderOfThree(Quiet(c, ai).settings, c.settings);
  }

  predicate LoadedKey(k: SettingId, env: Env) {
    SettingKey(k) || (CameraKey(k) && k != TakeInterval && (k.PhotoRes? ==> !env.photoRes.EnvOther?))
  }

  /** The settings once the camera and its values are loaded. */
  lemma KeysBeforeIr(c: Camera, env: Env, a: Answers, opens: bool, c1: Camera, c2: Camera, k: SettingId)
    requires c.settings == map[] && LoadAll(c.(hasCamera := true), CameraSteps(env), a, opens) == Some(c1)
    requires LoadAll(c1, SettingSteps(env), a, opens) == Some(c2)
    ensures c2.hasCamera && c2.ai == c.ai && (k in c2.settings <==> LoadedKey(k, env))
  {
    var c0 := c.(hasCamera := true);
    CameraStepKeys(env);
    CameraStepsInsert(env, k);
    LoadAllKey(c0, CameraSteps(env), a, opens, k);
    LoadAllSameRest(c0, CameraSteps(env), a, opens);
    SettingStepKeys(env);
    SettingStepsInsert(env, k);
    LoadAllKey(c1, SettingSteps(env), a, opens, k);
    LoadAllSameRest(c1, SettingSteps(env), a, opens);
  }

  predicate LateKey(k: SettingId) {
    IrKey(k) || Volatile(k)
  }

  lemma KeysAfterIr(c: Camera, env: Env, a: Answers, opens: bool, c3: Camera, k: SettingId)
    requires HasModes(c.settings) && LoadAll(PreparedForIr(c, env), IrSteps(env), a, opens) == Some(c3)
    ensures var m := Quiet(c3, a.ai).settings;
            && (k in c.settings || LateKey(k) ==> k in m)
            && (k in m ==> k in c.settings || LateKey(k) || k == PhotoRes)
  {
    PreparedKey(c, env, k);
    IrStepKeys(env);
    IrStepsInsert(env, k);
    LoadAllKey(PreparedForIr(c, env), IrSteps(env), a, opens, k);
    QuietKey(c3, a.ai, k);
  }

  /** The rest of `init` reads the render mode off what is loaded, and ends with the AI off. */
  lemma RestAfterIr(c: Camera, env: Env, a: Answers, opens: bool, c3: Camera)
    requires HasModes(c.settings) && c.hasCamera
    requires LoadAll(PreparedForIr(c, env), IrSteps(env), a, opens) == Some(c3)
    ensures var d := Quiet(c3, a.ai);
            && d.hasCamera && d.render == RenderOf(d.settings)
            && AiFunction in d.settings && d.settings[AiFunction] == "0"
            && d.ai == Services(false, false, false, c.ai.control)
  {
    var prepared := PreparedForIr(c, env);
    PreparedKey(c, env, AiFunction);
    LoadAllSameRest(prepared, IrSteps(env), a, opens);
    IrKeepsModes(prepared, env, a, opens);
    QuietKey(c3, a.ai, AiFunction);
  }

  lemma IrKeepsMode(c: Camera, env: Env, a: Answers, opens: bool, k: SettingId)
    requires LoadAll(c, IrSteps(env), a, opens).Some? && RenderKey(k)
    ensures Get(LoadAll(c, IrSteps(env), a, opens).value.settings, k) == Get(c.settings, k)
  {
    IrStepKeys(env);
    assert !IrKey(k);
    LoadAllKey(c, IrSteps(env), a, opens, k);
  }

  lemma IrKeepsModes(c: Camera, env: Env, a: Answers, opens: bool)
    requires LoadAll(c, IrSteps(env), a, opens).Some?
    ensures RenderOf(LoadAll(c, IrSteps(env), a, opens).value.settings) == RenderOf(c.settings)
  {
    var d := LoadAll(c, IrSteps(env), a, opens).value;
    forall k | RenderKey(k)
      ensures Get(d.settings, k) == Get(c.settings, k)
    {
      IrKeepsMode(c, env, a, opens, k);
    }
    RenderOfThree(d.settings, c.settings);
  }

  lemma LoadedOrLateIsKnown(k: SettingId, env: Env)
    ensures LoadedKey(k, env) || LateKey(k) || k == PhotoRes ==> k in KNOWN
    ensures k in KNOWN && (k != PhotoRes || !env.photoRes.EnvOther?) ==> LoadedKey(k, env) || LateKey(k)
  {
  }

  lemma StagesLeave(c: Camera, env: Env, a: Answers, opens: bool, c1: Camera, c2: Camera, c3: Camera)
    requires c.settings == map[] && LoadAll(c.(hasCamera := true), CameraSteps(env), a, opens) == Some(c1)
    requires LoadAll(c1, SettingSteps(env), a, opens) == Some(c2)
    requires LoadAll(PreparedForIr(c2, env), IrSteps(env), a, opens) == Some(c3)
    ensures var d := Quiet(c3, a.ai);
            && Complete(d) && (!env.photoRes.EnvOther? ==> Full(d))
            && d.render == RenderOf(d.settings)
            && AiFunction in d.settings && d.settings[AiFunction] == "0"
            && d.ai == Services(false, false, false, c.ai.control)
  {
    var d := Quiet(c3, a.ai);
    KeysBeforeIr(c, env, a, opens, c1, c2, CamMode);
    KeysBeforeIr(c, env, a, opens, c1, c2, VideoRes);
    RestAfterIr(c2, env, a, opens, c3);
    forall k
      ensures k in d.settings ==> k in KNOWN
      ensures k in KNOWN && (k != PhotoRes || !env.photoRes.EnvOther?) ==> k in d.settings
    {
      KeysBeforeIr(c, env, a, opens, c1, c2, k);
      KeysAfterIr(c2, env, a, opens, c3, k);
      LoadedOrLateIsKnown(k, env);
    }
    KeysMakeComplete(d, env);
  }

  lemma KeysMakeComplete(d: Camera, env: Env)
    requires d.hasCamera && forall k :: k in d.settings ==> k in KNOWN
    requires forall k :: k in KNOWN && (k != PhotoRes || !env.photoRes.EnvOther?) ==> k in d.settings
    ensures Complete(d) && (!env.photoRes.EnvOther? ==> Full(d))
  {
    assert PhotoRes in KNOWN;
  }

  /** Whatever the environment and whichever writes succeed, a start of a constructed client leaves
      known settings, all but possibly the photo resolution, the matching render mode, and AI off,
      and sends no control packet. */
  lemma StartLeaves(c: Camera, env: Env, a: Answers, opens: bool)
    requires c.settings == map[]
    ensures Init(c, env, a, opens).Some? ==>
              var d := Init(c, env, a, opens).value;
              && Complete(d) && (!env.photoRes.EnvOther? ==> Full(d))
              && d.render == RenderOf(d.settings)
              && AiFunction in d.settings && d.settings[AiFunction] == "0"
              && d.ai == Services(false, false, false, c.ai.control)
  {
    if Init(c, env, a, opens).Some? {
      var c1 := LoadAll(c.(hasCamera := true), CameraSteps(env), a, opens).value;
      var c2 := LoadAll(c1, SettingSteps(env), a, opens).value;
      StagesLeave(c, env, a, opens, c1, c2, LoadAll(PreparedForIr(c2, env), IrSteps(env), a, opens).value);
    }
  }
}
