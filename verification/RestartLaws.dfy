/** A restart brings the settings back: what a new client loads from the file is what the running
    client has in memory. */
module RestartLaws {
  import opened CameraParameters
  import opened CameraSettings
  import opened ClientRuns
  import opened StartupLaws
  import opened Wrappers

  /** A setting held in memory as a start would read it from its stored text. */
  predicate Kept(cell: Cell, k: SettingId) {
    && cell.value.Some?
    && |cell.stored| > 0
    && cell.value.value == Normalised(k, cell.stored)
  }

  predicate InSync(c: Camera, k: SettingId) {
    DurableAt(c.store, k) && Kept(CellOf(c, k), k)
  }

  /** A value the parameter file can give back: empty texts read as absent, and a camera mode is
      only ever read as "0" or "1". */
  predicate Storable(k: SettingId, value: string) {
    |value| > 0 && Normalised(k, value) == value
  }

  /** A call that gives setting `k` only a storable value, and whose file write then succeeds. */
  predicate Canonical(k: SettingId, op: Op) {
    match op
    case SetOp(id, value, _, opens) => id == k ==> opens && Storable(k, value)
    case ResetOp(vendorOk, _, opens) => k.CamMode? || (vendorOk && ResetStores(k)) ==> opens
    case _ => true
  }

  predicate SetsDng(op: Op) {
    op.SetOp? && op.id.PhotoFormat? && op.value == "1"
  }

  /** The settings a call leaves in step with the file. */
  predicate Restored(k: SettingId, op: Op) {
    Restorable(k) || (k.PhotoRes? && !SetsDng(op))
  }

  lemma ResetValueIsStorable(k: SettingId)
    ensures Storable(k, ResetValue(k))
  {
  }

  lemma OpKeepsSync(c: Camera, op: Op, k: SettingId)
    requires Complete(c) && Canonical(k, op) && Restored(k, op) && InSync(c, k)
    ensures InSync(After(c, op), k)
  {
    CompleteHasModes(c);
    match op
    case SetOp(id, value, a, opens) =>
      if id in c.settings {
        SetAt(c, id, value, a, opens, k);
      }
    case ResetOp(vendorOk, ai, opens) =>
      ResetAt(c, vendorOk, ai, opens, k);
      ResetValueIsStorable(k);
    case _ =>
  }

  lemma {:induction false} RunKeepsSync(c: Camera, ops: seq<Op>, k: SettingId)
    requires Complete(c) && InSync(c, k)
    requires forall op :: op in ops ==> Canonical(k, op) && Restored(k, op)
    ensures Complete(AfterAll(c, ops)) && InSync(AfterAll(c, ops), k)
    decreases |ops|
  {
    if |ops| > 0 {
      OpKeepsComplete(c, ops[0]);
      OpKeepsSync(c, ops[0], k);
      RunKeepsSync(After(c, ops[0]), ops[1..], k);
    }
  }

  /** What a start falls back to for a setting is a value it can store. */
  predicate DefaultIsStorable(k: SettingId, env: Env) {
    Storable(k, Default(k, env))
  }

  lemma StartIsInSync(c: Camera, file: Option<Root>, env: Env, k: SettingId)
    requires JustStarted(c, file, env)
    requires Restorable(k) || (k.PhotoRes? && env.photoRes.Unset?)
    requires DefaultIsStorable(k, env)
    ensures InSync(c, k)
  {
    assert c.settings[k] == InitValue(Loaded(file), k, env);
    assert TextOf(c.store.root, k)
        == if |TextOf(Loaded(file), k)| == 0 then Default(k, env) else TextOf(Loaded(file), k);
  }

  /** The setting a restart finds, in step with the file. */
  lemma RestartReads(c: Camera, k: SettingId, env: Env)
    requires InSync(c, k) && (Restorable(k) || (k.PhotoRes? && env.photoRes.Unset?))
    ensures k in c.settings && InitValue(Loaded(c.store.file), k, env) == c.settings[k]
  {
    assert CellOf(c, k).value == Some(c.settings[k]);
  }

  /** After a start, any run of calls that give a setting only storable values and write them, and a
      restart from the file, in any environment, the setting has the value it had, whatever else the
      calls do. So does the photo resolution, unless DNG was ever asked for or an environment sets it. */
  lemma RestartRestores(c: Camera, file: Option<Root>, env: Env, ops: seq<Op>,
                        blank: Camera, env2: Env, a2: Answers, k: SettingId)
    requires JustStarted(c, file, env)
    requires Restorable(k) || (k.PhotoRes? && env.photoRes.Unset? && env2.photoRes.Unset?)
    requires DefaultIsStorable(k, env)
    requires forall op :: op in ops ==> Canonical(k, op) && Restored(k, op)
    requires Constructed(blank, AfterAll(c, ops).store.file)
    ensures var before, after := AfterAll(c, ops), Init(blank, env2, a2, true);
            && k in before.settings
            && (after.Some? ==> k in after.value.settings && after.value.settings[k] == before.settings[k])
  {
    var file2 := AfterAll(c, ops).store.file;
    StartIsInSync(c, file, env, k);
    StartedIsComplete(c, file, env);
    RunKeepsSync(c, ops, k);
    RestartReads(AfterAll(c, ops), k, env2);
    StartLoadsTheStore(blank, file2, env2, a2);
    if Init(blank, env2, a2, true).Some? {
      assert Init(blank, env2, a2, true).value.settings[k] == InitValue(Loaded(file2), k, env2);
    }
  }

  /** The AE lock, the FFC trigger and the AI function always start at "0". */
  lemma RestartClearsVolatile(blank: Camera, file: Option<Root>, env: Env, a: Answers, k: SettingId)
    requires Volatile(k) && Constructed(blank, file)
    ensures var after := Init(blank, env, a, true);
            after.Some? ==> k in after.value.settings && after.value.settings[k] == "0"
  {
    StartLoadsTheStore(blank, file, env, a);
  }

  /** What a restart makes of a single accepted value: a failed write keeps the old one, an empty
      text gives way to the default, and a camera mode other than "0" comes back as video. */
  lemma RestartAfterSet(c: Camera, id: SettingId, value: string, a: Answers, opens: bool, env: Env)
    requires Complete(c) && InSync(c, id) && Restorable(id) && Applies(c, id, value, a)
    ensures var d := Set(c, id, value, a, opens).0;
            && d.settings[id] == value
            && InitValue(Loaded(d.store.file), id, env)
                 == (if !opens then c.settings[id] else if |value| == 0 then Default(id, env) else Normalised(id, value))
            && (opens && |value| > 0 ==> (InitValue(Loaded(d.store.file), id, env) == value <==> Storable(id, value)))
  {
    CompleteHasModes(c);
    var d := Set(c, id, value, a, opens).0;
    SetAt(c, id, value, a, opens, id);
    assert CellOf(d, id).value == Some(value);
    assert CellOf(c, id).value == Some(c.settings[id]);
  }

  /** DNG moves the photo resolution in memory only: a restart brings the old one back, so the two
      agree exactly when the photo resolution was full already. */
  lemma DngResolutionIsForgotten(c: Camera, a: Answers, opens: bool, env: Env)
    requires Complete(c) && InSync(c, PhotoRes) && env.photoRes.Unset?
    ensures var d := Set(c, PhotoFormat, "1", a, opens).0;
            && d.settings[PhotoRes] == "0"
            && InitValue(Loaded(d.store.file), PhotoRes, env) == c.settings[PhotoRes]
            && (InitValue(Loaded(d.store.file), PhotoRes, env) == d.settings[PhotoRes] <==> c.settings[PhotoRes] == "0")
  {
    CompleteHasModes(c);
    var d := Set(c, PhotoFormat, "1", a, opens).0;
    SetAt(c, PhotoFormat, "1", a, opens, PhotoRes);
    assert CellOf(d, PhotoRes).value == Some("0");
    assert CellOf(c, PhotoRes).value == Some(c.settings[PhotoRes]);
  }

  // ----- environment against store -----

  /** The camera mode the environment asks for: its first character decides. */
  predicate EnvAsks(env: Env, mode: string) {
    && env.cameraMode.Some? && |env.cameraMode.value| > 0
    && (mode == "0" || mode == "1") && env.cameraMode.value[0] == mode[0]
  }

  /** A start follows the camera mode of the environment exactly when nothing is stored or the stored
      mode reads as the same one: a stored value wins. */
  lemma EnvironmentModeIsOnlyAFallback(root: Root, env: Env, mode: string)
    requires EnvAsks(env, mode)
    ensures InitValue(root, CamMode, env) == mode <==>
              |TextOf(root, CamMode)| == 0 || Normalised(CamMode, TextOf(root, CamMode)) == mode
  {
    assert Default(CamMode, env) == mode;
  }
}
