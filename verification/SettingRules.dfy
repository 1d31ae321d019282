/** When a setting is accepted: which cameras it asks, which numbers it reads, and what an accepted or
    refused value leaves, said setting by setting. */
module SettingRules {
  import opened CameraParameters
  import opened CameraSettings
  import opened ClientRuns
  import opened Decimal
  import opened StartupLaws
  import opened Wrappers
  import Recording

  /** The settings handed to the RGB camera. */
  predicate AsksRgb(id: SettingId) {
    || id == CamMode || id == PhotoRes || id == PhotoQuality || id == PhotoFormat || id == VideoRes || id == VideoFormat
    || id == WhiteBalance || id == ExposureMode || id == ExposureValue || id == Iso || id == ShutterSpeed
    || id == Metering || id == Sharpness || id == AeLock
  }

  /** The settings handed to the IR camera, if there is one. */
  predicate AsksIr(id: SettingId) {
    id == VideoFormat || id == IrPalette || id == IrFfcMode
  }

  /** The settings that are refused without an IR camera. */
  predicate NeedsIr(id: SettingId) {
    id == IrPalette || id == IrFfcMode || id == IrFfc
  }

  /** The settings read as integers, and the integers they admit. */
  predicate ReadsInteger(id: SettingId) {
    || id == CamDisplayMode || id == Iso || id == Metering || id == Sharpness || id == AeLock
    || id == IrPalette || id == IrFfcMode
  }

  predicate Admits(id: SettingId, v: int) {
    (id == Metering ==> 0 <= v <= 4) && (id == Sharpness ==> 0 <= v <= 2)
  }

  /** A text that is no number where one is read ends the call with an exception. */
  predicate Fails(id: SettingId, value: string, stof: FloatReader) {
    (ReadsInteger(id) && !Stoi(value).Parsed?) || (id == ExposureValue && stof(value).None?)
  }

  predicate Willing(hasIr: bool, id: SettingId, a: Answers) {
    && (AsksRgb(id) ==> a.rgbOk)
    && (AsksIr(id) && hasIr ==> a.irOk)
    && (NeedsIr(id) ==> hasIr)
  }

  /** The AI function accepts "0", and "1" and "2" if their service starts. */
  predicate AiAccepts(value: string, o: AiOutcome) {
    value == "0" || ((value == "1" || value == "2") && o.startOk)
  }

  /** A value is accepted when it reads as it must and every camera it asks answers ok. */
  predicate Accepts(hasIr: bool, id: SettingId, value: string, a: Answers) {
    && !Fails(id, value, a.stof)
    && (ReadsInteger(id) && Stoi(value).Parsed? ==> Admits(id, Stoi(value).value))
    && Willing(hasIr, id, a)
    && (id == AiFunction ==> AiAccepts(value, a.ai))
  }

  lemma IntegerOutcome(value: string, low: int, high: int, ok: bool)
    ensures IntegerSetter(value, low, high, ok).Threw? <==> !Stoi(value).Parsed?
    ensures IntegerSetter(value, low, high, ok).Applied? <==> Stoi(value).Parsed? && low <= Stoi(value).value <= high && ok
  {
  }

  lemma ParsedIsInt32(value: string)
    ensures Stoi(value).Parsed? ==> INT32_MIN <= Stoi(value).value <= INT32_MAX
  {
  }

  function Low(id: SettingId): int {
    if id == Metering || id == Sharpness then 0 else INT32_MIN
  }

  function High(id: SettingId): int {
    if id == Metering then 4 else if id == Sharpness then 2 else INT32_MAX
  }

  lemma IntegerForm(hasIr: bool, id: SettingId, value: string, a: Answers)
    requires ReadsInteger(id)
    ensures SetterOutcome(hasIr, id, value, a) == IntegerSetter(value, Low(id), High(id), Willing(hasIr, id, a))
  {
  }

  lemma IntegerRules(hasIr: bool, id: SettingId, value: string, a: Answers)
    requires ReadsInteger(id)
    ensures SetterOutcome(hasIr, id, value, a).Applied? <==> Accepts(hasIr, id, value, a)
    ensures SetterOutcome(hasIr, id, value, a).Threw? <==> Fails(id, value, a.stof)
  {
    ParsedIsInt32(value);
    IntegerForm(hasIr, id, value, a);
    IntegerOutcome(value, Low(id), High(id), Willing(hasIr, id, a));
  }

  lemma TextRules(hasIr: bool, id: SettingId, value: string, a: Answers)
    requires id in KNOWN && !ReadsInteger(id)
    ensures SetterOutcome(hasIr, id, value, a).Applied? <==> Accepts(hasIr, id, value, a)
    ensures SetterOutcome(hasIr, id, value, a).Threw? <==> Fails(id, value, a.stof)
  {
  }

  lemma Rules(hasIr: bool, id: SettingId, value: string, a: Answers)
    requires id in KNOWN
    ensures SetterOutcome(hasIr, id, value, a).Applied? <==> Accepts(hasIr, id, value, a)
    ensures SetterOutcome(hasIr, id, value, a).Threw? <==> Fails(id, value, a.stof)
  {
    if ReadsInteger(id) {
      IntegerRules(hasIr, id, value, a);
    } else {
      TextRules(hasIr, id, value, a);
    }
  }

  lemma AppliesIsAccepts(c: Camera, id: SettingId, value: string, a: Answers)
    requires Complete(c)
    ensures Applies(c, id, value, a) <==> id in c.settings && Accepts(c.hasIr, id, value, a)
  {
    if id in c.settings {
      Rules(c.hasIr, id, value, a);
    }
  }

  // ----- what a call leaves at the named setting -----

  /** In memory, in the object to be written, and in the file. */
  predicate Holds(c: Camera, id: SettingId, value: string) {
    id in c.settings && c.settings[id] == value
  }

  predicate HoldsStored(c: Camera, id: SettingId, value: string) {
    TextOf(c.store.root, id) == value && TextOf(Loaded(c.store.file), id) == value
  }

  lemma AcceptedIsHeld(c: Camera, id: SettingId, value: string, a: Answers, opens: bool)
    requires Complete(c) && id in c.settings && Accepts(c.hasIr, id, value, a)
    ensures var (d, r) := Set(c, id, value, a, opens);
            && r == Success && Holds(d, id, value)
            && (if opens && id != AiFunction then HoldsStored(d, id, value) else d.store == c.store)
  {
    Rules(c.hasIr, id, value, a);
    SetterKeepsComplete(c, id, value, a);
    AcceptedForm(SetterEffect(c, id, value, a), id, value, opens);
    PutAt(c.store, id, value, opens, id);
  }

  lemma RefusedIsNotHeld(c: Camera, id: SettingId, value: string, a: Answers, opens: bool)
    requires Complete(c) && id in c.settings && !Accepts(c.hasIr, id, value, a)
    ensures var (d, r) := Set(c, id, value, a, opens);
            && r == (if Fails(id, value, a.stof) then Exception else Success)
            && d.store == c.store && d.render == c.render
            && (id != AiFunction ==> Holds(d, id, c.settings[id]))
  {
    Rules(c.hasIr, id, value, a);
  }

  /** For every setting of a complete client and every value: if the value reads as it must and every
      camera it asks answers ok, the setting holds it and, if the file opens, so does the file; if
      not, the setting, its stored text, the file and the render mode are as before, and the call ends
      in an exception exactly when the text is no number. */
  lemma SetFollowsRules(c: Camera, id: SettingId, value: string, a: Answers, opens: bool)
    requires Complete(c) && id in c.settings
    ensures var (d, r) := Set(c, id, value, a, opens);
            if Accepts(c.hasIr, id, value, a) then Taken(c, id, value, opens, d, r)
            else NotTaken(c, id, value, a.stof, d, r)
  {
    if Accepts(c.hasIr, id, value, a) {
      AcceptedIsHeld(c, id, value, a, opens);
    } else {
      RefusedIsNotHeld(c, id, value, a, opens);
    }
  }

  /** The sensor a text selects. */
  function Selected(value: string, before: Recording.SensorMode): Recording.SensorMode {
    if value == "0" then Recording.Normal
    else if value == "1" then Recording.IR
    else if value == "2" then Recording.Dual
    else before
  }

  /** What an accepted value leaves. */
  predicate Taken(c: Camera, id: SettingId, value: string, opens: bool, d: Camera, r: Reply) {
    && r == Success && Holds(d, id, value)
    && (if opens && id != AiFunction then HoldsStored(d, id, value) else d.store == c.store)
  }

  /** What any other value leaves. */
  predicate NotTaken(c: Camera, id: SettingId, value: string, stof: FloatReader, d: Camera, r: Reply)
    requires id in c.settings
  {
    && r == (if Fails(id, value, stof) then Exception else Success)
    && d.store == c.store && d.render == c.render
    && (id != AiFunction ==> Holds(d, id, c.settings[id]))
  }

  /** A handled call of a complete client, by the rules: the named setting is taken or not, the other
      settings stay (but for the photo resolution), and the sensor moves only with its setting. */
  ghost predicate AsRuled(c: Camera, id: SettingId, value: string, a: Answers, opens: bool, d: Camera, r: Reply)
    requires id in c.settings
  {
    && Complete(d)
    && (if Accepts(c.hasIr, id, value, a) then Taken(c, id, value, opens, d, r) else NotTaken(c, id, value, a.stof, d, r))
    && (forall k :: k != AiFunction ==>
          CellOf(d, k) == SetCell(c.settings, CellOf(c, k), Accepts(c.hasIr, id, value, a), id, value, opens, k))
    && d.sensor == (if id == CamSensorMode then Selected(value, c.sensor) else c.sensor)
  }

  lemma SensorAsRuled(c: Camera, id: SettingId, value: string, a: Answers, opens: bool)
    requires Handled(c, id)
    ensures Set(c, id, value, a, opens).0.sensor == if id == CamSensorMode then Selected(value, c.sensor) else c.sensor
  {
  }

  lemma SetIsAsRuled(c: Camera, id: SettingId, value: string, a: Answers, opens: bool)
    requires Complete(c) && id in c.settings
    ensures AsRuled(c, id, value, a, opens, Set(c, id, value, a, opens).0, Set(c, id, value, a, opens).1)
  {
    SetKeepsComplete(c, id, value, a, opens);
    SetFollowsRules(c, id, value, a, opens);
    SensorAsRuled(c, id, value, a, opens);
    AppliesIsAccepts(c, id, value, a);
    forall k | k != AiFunction
      ensures CellOf(Set(c, id, value, a, opens).0, k)
           == SetCell(c.settings, CellOf(c, k), Accepts(c.hasIr, id, value, a), id, value, opens, k)
    {
      CompleteHasModes(c);
      SetAt(c, id, value, a, opens, k);
    }
  }

  // ----- the camera mode -----

  /** The render mode of photo and of video mode, from the resolution. */
  function PhotoRender(resolution: string): RenderMode {
    if resolution == "0" then PhotoFull else PhotoQuarter
  }

  function VideoRender(resolution: string): RenderMode {
    if resolution == "0" then Video4K60
    else if resolution == "1" then Video4K30
    else if resolution == "2" then Video1080p60
    else if resolution == "3" then Video1080p30
    else PhotoQuarter
  }

  lemma RenderOfModes(m: Settings)
    ensures Get(m, CamMode) == "0" ==> RenderOf(m) == PhotoRender(Get(m, PhotoRes))
    ensures Get(m, CamMode) == "1" ==> RenderOf(m) == VideoRender(Get(m, VideoRes))
    ensures Get(m, CamMode) != "0" && Get(m, CamMode) != "1" ==> RenderOf(m) == PhotoQuarter
  {
  }

  /** Reading the render mode inserts the camera mode and the resolution that matters in it, empty if
      they were unknown, and changes no known setting. */
  lemma RenderModeInserts(c: Camera, k: SettingId)
    ensures var m, n := c.settings, Rendered(c).settings;
            && (k in n <==>
                  (k in m || k == CamMode || (k == PhotoRes && Get(m, CamMode) == "0") || (k == VideoRes && Get(m, CamMode) == "1")))
            && (k in n ==> n[k] == if k in m then m[k] else "")
  {
  }

  /** A willing camera changes its mode: photo or video, with the render mode of the resolution. */
  lemma ModeChanges(c: Camera, value: string, a: Answers, opens: bool)
    requires Complete(c) && a.rgbOk
    ensures var d := Set(c, CamMode, value, a, opens).0;
            && Holds(d, CamMode, value)
            && (value == "0" ==> d.render == PhotoRender(Get(c.settings, PhotoRes)))
            && (value == "1" ==> d.render == VideoRender(Get(c.settings, VideoRes)))
  {
    CompleteHasModes(c);
    Rules(c.hasIr, CamMode, value, a);
    AcceptedForm(SetterEffect(c, CamMode, value, a), CamMode, value, opens);
    RenderOfModes(c.settings[CamMode := value]);
  }
}
