/** Runs of the camera client, and what one call does to one setting. */
module ClientRuns {
  import opened CameraParameters
  import opened CameraSettings
  import opened StartupLaws
  import opened Wrappers
  import Recording

  datatype Op =
    | SetOp(id: SettingId, value: string, answers: Answers, opens: bool)
    | ResetOp(vendorOk: bool, ai: AiOutcome, opens: bool)
    | TrackPointOp(px: real, py: real)
    | TrackOffOp

  /** The call reads floats with `stof`. */
  ghost predicate Reads(op: Op, stof: FloatReader) {
    op.SetOp? ==> op.answers.stof == stof
  }

  function After(c: Camera, op: Op): Camera {
    match op
    case SetOp(id, value, answers, opens) => Set(c, id, value, answers, opens).0
    case ResetOp(vendorOk, ai, opens) => Reset(c, vendorOk, ai, opens).0
    case TrackPointOp(px, py) => TrackPoint(c, px, py)
    case TrackOffOp => TrackOff(c)
  }

  function AfterAll(c: Camera, ops: seq<Op>): Camera
    decreases |ops|
  {
    if |ops| == 0 then c else AfterAll(After(c, ops[0]), ops[1..])
  }

  /** The modes are known, so that reading the render mode inserts at most the photo resolution. */
  predicate HasModes(m: Settings) {
    CamMode in m && VideoRes in m
  }

  // ----- one setting -----

  /** A call that is carried out at all. */
  predicate Handled(c: Camera, id: SettingId) {
    c.hasCamera && id in c.settings
  }

  /** A call whose setter succeeds. */
  predicate Applies(c: Camera, id: SettingId, value: string, a: Answers) {
    Handled(c, id) && SetterOutcome(c.hasIr, id, value, a).Applied?
  }

  /** What the calls keep of a client and of one setting's durability. */
  predicate KeepsRest(c: Camera, d: Camera, k: SettingId) {
    d.hasCamera == c.hasCamera && (DurableAt(c.store, k) ==> DurableAt(d.store, k))
  }

  lemma AssignAt(c: Camera, j: SettingId, v: string, opens: bool, k: SettingId)
    ensures var d := Assign(c, j, v, opens);
            && KeepsRest(c, d, k)
            && CellOf(d, k) == if k == j then Cell(Some(v), if opens then v else CellOf(c, k).stored) else CellOf(c, k)
  {
    PutAt(c.store, j, v, opens, k);
  }

  /** What a setter itself does to a setting: only the AI function and, for DNG, the photo
      resolution change, in memory only. */
  lemma SetterAt(c: Camera, id: SettingId, value: string, a: Answers, k: SettingId)
    requires HasModes(c.settings)
    ensures var d := SetterEffect(c, id, value, a);
            && HasModes(d.settings) && d.store == c.store && d.hasCamera == c.hasCamera && d.render == c.render
            && CellOf(d, k) == if k.PhotoRes? && id.PhotoFormat? && value == "1" then CellOf(c, k).(value := Some("0"))
                               else if k.AiFunction? && id.AiFunction? then CellOf(SetAi(c, value, a.ai), k)
                               else CellOf(c, k)
  {
  }

  predicate InPhotoMode(m: Settings) {
    Get(m, CamMode) == "0"
  }

  /** Settings once the render mode was read: in photo mode an unknown photo resolution is empty. */
  function Shown(m: Settings): Settings {
    if InPhotoMode(m) && PhotoRes !in m then m[PhotoRes := ""] else m
  }

  lemma ReadingModesInsertsTheResolution(m: Settings)
    requires HasModes(m)
    ensures Touched(m) == Shown(m) && RenderOf(Shown(m)) == RenderOf(m)
  {
    RenderOfThree(Shown(m), m);
  }

  lemma AcceptedForm(c: Camera, id: SettingId, value: string, opens: bool)
    requires HasModes(c.settings)
    ensures var m := c.settings[id := value];
            Accepted(c, id, value, opens)
            == c.(settings := if RefreshesRender(id) then Shown(m) else m,
                  store := if id.AiFunction? then c.store else Put(c.store, id, value, opens),
                  render := if RefreshesRender(id) then RenderOf(m) else c.render)
  {
    ReadingModesInsertsTheResolution(c.settings[id := value]);
  }

  lemma ShownAt(m: Settings, text: string, k: SettingId)
    ensures CellIn(Shown(m), text, k) == InsertIf(InPhotoMode(m), k, CellIn(m, text, k))
  {
  }

  lemma MovedAt(m: Settings, id: SettingId, value: string, text: string, k: SettingId)
    ensures CellIn(m[id := value], text, k) == if k == id then Cell(Some(value), text) else CellIn(m, text, k)
  {
  }

  lemma AcceptedText(s: Store, id: SettingId, value: string, opens: bool, k: SettingId)
    ensures TextOf((if id.AiFunction? then s else Put(s, id, value, opens)).root, k)
         == if k == id && opens && !id.AiFunction? then value else TextOf(s.root, k)
  {
    PutAt(s, id, value, opens, k);
  }

  lemma AcceptedAt(c: Camera, id: SettingId, value: string, opens: bool, k: SettingId)
    requires HasModes(c.settings)
    ensures CellOf(Accepted(c, id, value, opens), k)
         == InsertIf(RefreshesRender(id) && InPhotoMode(c.settings[id := value]), k,
                     if k == id then Cell(Some(value), if opens && !id.AiFunction? then value else CellOf(c, k).stored)
                     else CellOf(c, k))
  {
    var m := c.settings[id := value];
    var text := if k == id && opens && !id.AiFunction? then value else TextOf(c.store.root, k);
    AcceptedForm(c, id, value, opens);
    AcceptedText(c.store, id, value, opens, k);
    ShownAt(m, text, k);
    MovedAt(c.settings, id, value, text, k);
    assert CellOf(Accepted(c, id, value, opens), k) == CellIn(if RefreshesRender(id) then Shown(m) else m, text, k);
  }

  /** A setting after `set_setting`: the named one takes the value if its setter succeeds, DNG moves
      the photo resolution in memory, reading the render mode inserts an unknown photo resolution,
      and nothing else moves. */
  function SetCell(m: Settings, cell: Cell, applies: bool, id: SettingId, value: string, opens: bool, k: SettingId): Cell {
    var moved :=
      if k == id && applies then Cell(Some(value), if opens then value else cell.stored)
      else if k.PhotoRes? && id.PhotoFormat? && value == "1" then cell.(value := Some("0"))
      else cell;
    InsertIf(applies && RefreshesRender(id) && InPhotoMode(m[id := value]), k, moved)
  }

  lemma SetterKeepsPhotoMode(c: Camera, id: SettingId, value: string, a: Answers)
    ensures InPhotoMode(SetterEffect(c, id, value, a).settings[id := value]) == InPhotoMode(c.settings[id := value])
  {
  }

  lemma AppliedAt(c: Camera, id: SettingId, value: string, a: Answers, opens: bool, k: SettingId)
    requires HasModes(c.settings) && !k.AiFunction?
    ensures CellOf(Accepted(SetterEffect(c, id, value, a), id, value, opens), k)
         == SetCell(c.settings, CellOf(c, k), true, id, value, opens, k)
  {
    SetterAt(c, id, value, a, k);
    SetterKeepsPhotoMode(c, id, value, a);
    AcceptedAt(SetterEffect(c, id, value, a), id, value, opens, k);
  }

  lemma SetKeepsRest(c: Camera, id: SettingId, value: string, a: Answers, opens: bool, k: SettingId)
    ensures KeepsRest(c, Set(c, id, value, a, opens).0, k)
  {
    PutAt(c.store, id, value, opens, k);
  }

  /** `set_setting`, setting by setting. */
  lemma SetAt(c: Camera, id: SettingId, value: string, a: Answers, opens: bool, k: SettingId)
    requires HasModes(c.settings) && Handled(c, id) && !k.AiFunction?
    ensures var d := Set(c, id, value, a, opens).0;
            && KeepsRest(c, d, k)
            && CellOf(d, k) == SetCell(c.settings, CellOf(c, k), Applies(c, id, value, a), id, value, opens, k)
  {
    SetKeepsRest(c, id, value, a, opens, k);
    if Applies(c, id, value, a) {
      AppliedAt(c, id, value, a, opens, k);
    } else {
      SetterAt(c, id, value, a, k);
    }
  }

  /** `set_setting`, at the AI function: its store text never moves. */
  lemma SetAtAi(c: Camera, id: SettingId, value: string, a: Answers, opens: bool)
    requires HasModes(c.settings) && Handled(c, id)
    ensures CellOf(Set(c, id, value, a, opens).0, AiFunction)
         == if id.AiFunction? && IsAiMode(value)
            then CellOf(c, AiFunction).(value := Some(if AiSucceeds(value, a.ai) then value else "0"))
            else CellOf(c, AiFunction)
  {
    SetterAt(c, id, value, a, AiFunction);
    AcceptedAt(SetterEffect(c, id, value, a), id, value, opens, AiFunction);
  }

  // ----- reset -----

  /** The settings a successful reset rewrites and stores, besides the camera mode. The IR camera's
      settings are not among them. */
  predicate ResetStores(k: SettingId) {
    ResetModeKey(k) || ResetExposureKey(k) || ResetOtherKey(k)
  }

  predicate ResetModeKey(k: SettingId) {
    k.CamSensorMode? || k.CamDisplayMode? || k.PhotoRes? || k.PhotoQuality? || k.PhotoFormat?
  }

  predicate ResetExposureKey(k: SettingId) {
    k.WhiteBalance? || k.ExposureMode? || k.ExposureValue? || k.Iso? || k.ShutterSpeed?
  }

  predicate ResetOtherKey(k: SettingId) {
    k.VideoRes? || k.VideoFormat? || k.Metering? || k.Sharpness?
  }

  function ResetValue(k: SettingId): string {
    if k.PhotoRes? || k.VideoRes? then "1"
    else if k.Iso? then "125"
    else if k.ShutterSpeed? then "0.01"
    else "0"
  }

  function ResetCell(cell: Cell, k: SettingId, opens: bool): Cell {
    Cell(Some(ResetValue(k)), if opens then ResetValue(k) else cell.stored)
  }

  lemma ResetModesAt(c: Camera, opens: bool, k: SettingId)
    ensures KeepsRest(c, ResetModeSettings(c, opens), k)
    ensures CellOf(ResetModeSettings(c, opens), k)
         == if ResetModeKey(k) then ResetCell(CellOf(c, k), k, opens) else CellOf(c, k)
  {
    var c1 := Assign(c, CamSensorMode, "0", opens).(sensor := Recording.Normal);
    var c2 := Assign(c1, CamDisplayMode, "0", opens);
    var c3 := Assign(c2, PhotoRes, "1", opens);
    var c4 := Assign(c3, PhotoQuality, "0", opens);
    AssignAt(c, CamSensorMode, "0", opens, k);
    AssignAt(c1, CamDisplayMode, "0", opens, k);
    AssignAt(c2, PhotoRes, "1", opens, k);
    AssignAt(c3, PhotoQuality, "0", opens, k);
    AssignAt(c4, PhotoFormat, "0", opens, k);
  }

  lemma ResetExposureAt(c: Camera, opens: bool, k: SettingId)
    ensures KeepsRest(c, ResetExposureSettings(c, opens), k)
    ensures CellOf(ResetExposureSettings(c, opens), k)
         == if ResetExposureKey(k) then ResetCell(CellOf(c, k), k, opens) else CellOf(c, k)
  {
    var c1 := Assign(c, WhiteBalance, "0", opens);
    var c2 := Assign(c1, ExposureMode, "0", opens);
    var c3 := Assign(c2, ExposureValue, "0", opens);
    var c4 := Assign(c3, Iso, "125", opens);
    AssignAt(c, WhiteBalance, "0", opens, k);
    AssignAt(c1, ExposureMode, "0", opens, k);
    AssignAt(c2, ExposureValue, "0", opens, k);
    AssignAt(c3, Iso, "125", opens, k);
    AssignAt(c4, ShutterSpeed, "0.01", opens, k);
  }

  lemma ResetOthersAt(c: Camera, opens: bool, k: SettingId)
    ensures KeepsRest(c, ResetOtherSettings(c, opens), k)
    ensures CellOf(ResetOtherSettings(c, opens), k)
         == if ResetOtherKey(k) then ResetCell(CellOf(c, k), k, opens)
            else ZeroIf(k.AeLock? || k.AiFunction?, CellOf(c, k))
  {
    var c1 := Assign(c, VideoRes, "1", opens);
    var c2 := Assign(c1, VideoFormat, "0", opens);
    var c3 := Assign(c2, Metering, "0", opens);
    AssignAt(c, VideoRes, "1", opens, k);
    AssignAt(c1, VideoFormat, "0", opens, k);
    AssignAt(c2, Metering, "0", opens, k);
    AssignAt(c3, Sharpness, "0", opens, k);
  }

  lemma FinishedResetAt(c: Camera, ai: AiOutcome, k: SettingId)
    requires HasModes(c.settings) && PhotoRes in c.settings
    ensures var d := FinishedReset(c, ai);
            && d.render == RenderOf(d.settings) && d.preview == 0 && HasModes(d.settings)
            && KeepsRest(c, d, k)
            && CellOf(d, k) == ZeroIf(k.AiFunction?, CellOf(c, k))
  {
    ReadingModesInsertsTheResolution(c.settings[AiFunction := "0"]);
  }

  lemma ResetDefaultsAt(c: Camera, opens: bool, k: SettingId)
    ensures var d := ResetOtherSettings(ResetExposureSettings(ResetModeSettings(c, opens), opens), opens);
            && KeepsRest(c, d, k)
            && CellOf(d, k) == if ResetStores(k) then ResetCell(CellOf(c, k), k, opens)
                               else ZeroIf(k.AeLock? || k.AiFunction?, CellOf(c, k))
  {
    var c1 := ResetModeSettings(c, opens);
    var c2 := ResetExposureSettings(c1, opens);
    ResetModesAt(c, opens, k);
    ResetExposureAt(c1, opens, k);
    ResetOthersAt(c2, opens, k);
  }

  /** A setting after `reset_settings`. */
  function ResetOrKept(cell: Cell, k: SettingId, vendorOk: bool, opens: bool): Cell {
    if k.CamMode? || (vendorOk && ResetStores(k)) then ResetCell(cell, k, opens)
    else ZeroIf(vendorOk && (k.AeLock? || k.AiFunction?), cell)
  }

  /** `reset_settings`, setting by setting. */
  lemma ResetAt(c: Camera, vendorOk: bool, ai: AiOutcome, opens: bool, k: SettingId)
    requires HasModes(c.settings) && c.hasCamera
    ensures var d := Reset(c, vendorOk, ai, opens).0;
            && KeepsRest(c, d, k)
            && CellOf(d, k) == ResetOrKept(CellOf(c, k), k, vendorOk, opens)
  {
    var photo := Assign(c, CamMode, "0", opens);
    AssignAt(c, CamMode, "0", opens, k);
    if vendorOk {
      var defaults := ResetOtherSettings(ResetExposureSettings(ResetModeSettings(photo, opens), opens), opens);
      ResetDefaultsAt(photo, opens, k);
      ResetKeepsModes(photo, opens);
      FinishedResetAt(defaults, ai, k);
    }
  }

  lemma ResetKeepsModes(c: Camera, opens: bool)
    requires HasModes(c.settings)
    ensures var m := ResetOtherSettings(ResetExposureSettings(ResetModeSettings(c, opens), opens), opens).settings;
            HasModes(m) && PhotoRes in m
  {
    var d := ResetOtherSettings(ResetExposureSettings(ResetModeSettings(c, opens), opens), opens);
    ResetDefaultsAt(c, opens, CamMode);
    ResetDefaultsAt(c, opens, PhotoRes);
    ResetDefaultsAt(c, opens, VideoRes);
    assert CellOf(c, CamMode).value.Some?;
    assert CellOf(d, CamMode).value.Some? && CellOf(d, PhotoRes).value.Some? && CellOf(d, VideoRes).value.Some?;
  }

  // ----- known settings -----

  /** Known settings only, and all of them but possibly the photo resolution. */
  predicate Complete(c: Camera) {
    c.hasCamera && KNOWN - {PhotoRes} <= c.settings.Keys <= KNOWN
  }

  /** All of them. */
  predicate Full(c: Camera) {
    Complete(c) && PhotoRes in c.settings
  }

  lemma StartedIsComplete(c: Camera, file: Option<Root>, env: Env)
    requires JustStarted(c, file, env)
    ensures Complete(c) && (!env.photoRes.EnvOther? ==> Full(c))
  {
    forall k | k in KNOWN - {PhotoRes}
      ensures k in c.settings
    {
      assert k in InitSettings(Loaded(file), env);
    }
  }

  lemma CompleteHasModes(c: Camera)
    requires Complete(c)
    ensures HasModes(c.settings) && AiFunction in c.settings
  {
    assert CamMode in KNOWN - {PhotoRes} && VideoRes in KNOWN - {PhotoRes} && AiFunction in KNOWN - {PhotoRes};
  }

  /** What the calls keep of the set of settings. */
  predicate KeepsKeys(c: Camera, d: Camera) {
    d.hasCamera == c.hasCamera && c.settings.Keys <= d.settings.Keys <= c.settings.Keys + {PhotoRes}
  }

  lemma KeepingKeysKeepsComplete(c: Camera, d: Camera)
    requires Complete(c) && KeepsKeys(c, d)
    ensures Complete(d) && (Full(c) ==> Full(d))
  {
    assert PhotoRes in KNOWN;
  }

  lemma SetterKeepsKeys(c: Camera, id: SettingId, value: string, a: Answers)
    requires AiFunction in c.settings
    ensures KeepsKeys(c, SetterEffect(c, id, value, a))
  {
  }

  lemma AcceptedKeepsKeys(c: Camera, id: SettingId, value: string, opens: bool)
    requires HasModes(c.settings) && id in c.settings
    ensures KeepsKeys(c, Accepted(c, id, value, opens))
  {
    AcceptedForm(c, id, value, opens);
  }

  lemma SetterKeepsComplete(c: Camera, id: SettingId, value: string, a: Answers)
    requires Complete(c)
    ensures Complete(SetterEffect(c, id, value, a)) && HasModes(SetterEffect(c, id, value, a).settings)
  {
    CompleteHasModes(c);
    SetterKeepsKeys(c, id, value, a);
    KeepingKeysKeepsComplete(c, SetterEffect(c, id, value, a));
  }

  lemma SetKeepsComplete(c: Camera, id: SettingId, value: string, a: Answers, opens: bool)
    requires Complete(c)
    ensures var d := Set(c, id, value, a, opens).0; Complete(d) && (Full(c) ==> Full(d))
  {
    if id in c.settings {
      var d := SetterEffect(c, id, value, a);
      CompleteHasModes(c);
      SetterKeepsKeys(c, id, value, a);
      KeepingKeysKeepsComplete(c, d);
      AcceptedKeepsKeys(d, id, value, opens);
      KeepingKeysKeepsComplete(d, Accepted(d, id, value, opens));
    }
  }

  lemma ResetKeepsComplete(c: Camera, vendorOk: bool, ai: AiOutcome, opens: bool)
    requires Complete(c)
    ensures var d := Reset(c, vendorOk, ai, opens).0; Complete(d) && (Full(c) ==> Full(d))
  {
    var d := Reset(c, vendorOk, ai, opens).0;
    CompleteHasModes(c);
    ResetAt(c, vendorOk, ai, opens, CamMode);
    forall k
      ensures k in d.settings <==> k in c.settings || (vendorOk && k.PhotoRes?)
    {
      ResetKeepsKey(c, vendorOk, ai, opens, k);
    }
    KeepingKeysKeepsComplete(c, d);
  }

  lemma RewrittenIsKnown(c: Camera, k: SettingId)
    requires Complete(c) && (k.CamMode? || k.AeLock? || k.AiFunction? || (ResetStores(k) && !k.PhotoRes?))
    ensures k in c.settings
  {
    assert k in KNOWN - {PhotoRes};
  }

  lemma ResetKeepsKey(c: Camera, vendorOk: bool, ai: AiOutcome, opens: bool, k: SettingId)
    requires Complete(c)
    ensures k in Reset(c, vendorOk, ai, opens).0.settings <==> k in c.settings || (vendorOk && k.PhotoRes?)
  {
    CompleteHasModes(c);
    ResetAt(c, vendorOk, ai, opens, k);
    if k.CamMode? || k.AeLock? || k.AiFunction? || (ResetStores(k) && !k.PhotoRes?) {
      RewrittenIsKnown(c, k);
    }
    assert CellOf(Reset(c, vendorOk, ai, opens).0, k).value.Some? <==> k in Reset(c, vendorOk, ai, opens).0.settings;
  }

  /** No call removes a setting, and none adds one but the photo resolution. */
  lemma OpKeepsComplete(c: Camera, op: Op)
    requires Complete(c)
    ensures Complete(After(c, op)) && (Full(c) ==> Full(After(c, op)))
  {
    match op
    case SetOp(id, value, a, opens) => SetKeepsComplete(c, id, value, a, opens);
    case ResetOp(vendorOk, ai, opens) => ResetKeepsComplete(c, vendorOk, ai, opens);
    case TrackPointOp(_, _) => CompleteHasModes(c);
    case TrackOffOp =>
  }
}
