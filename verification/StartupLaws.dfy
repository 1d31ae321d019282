/** What a start of the camera client leaves in its settings and its store. */
module StartupLaws {
  import opened CameraParameters
  import opened CameraSettings
  import opened Wrappers

  /** One setting: its value in memory, and the text stored for it. */
  datatype Cell = Cell(value: Option<string>, stored: string)

  function CellIn(m: Settings, text: string, k: SettingId): Cell {
    Cell(if k in m then Some(m[k]) else None, text)
  }

  function CellOf(c: Camera, k: SettingId): Cell {
    CellIn(c.settings, TextOf(c.store.root, k), k)
  }

  // ----- one step -----

  function LoadCell(cell: Cell, k: SettingId, fallback: string): Cell {
    var text := if |cell.stored| == 0 then fallback else cell.stored;
    Cell(if k.TakeInterval? then cell.value else Some(LoadedValue(k, cell.stored, fallback)), text)
  }

  function StepCell(cell: Cell, step: Step): Cell {
    match step.source
    case Stored(fallback) => LoadCell(cell, step.key, fallback)
    case Given(value) => cell.(value := Some(value))
    case Unnamed => cell
  }

  /** What the loading steps leave alone. */
  predicate SameRest(c: Camera, d: Camera) {
    d == c.(settings := d.settings, store := d.store, sensor := d.sensor, preview := d.preview)
  }

  lemma LoadStoreAt(s: Store, j: SettingId, fallback: string, k: SettingId)
    requires DurableAt(s, k)
    ensures var t := LoadedStore(s, j, fallback, true);
            && DurableAt(t, k)
            && TextOf(t.root, k) == if k == j && |TextOf(s.root, k)| == 0 then fallback else TextOf(s.root, k)
  {
    PeekAt(s, j, k);
    PutAt(Peek(s, j), j, fallback, true, k);
  }

  lemma LoadAt(c: Camera, j: SettingId, fallback: string, a: Answers, k: SettingId)
    requires DurableAt(c.store, k) && Load(c, j, fallback, a, true).Some?
    ensures var d := Load(c, j, fallback, a, true).value;
            && DurableAt(d.store, k)
            && CellOf(d, k) == if k == j then LoadCell(CellOf(c, k), k, fallback) else CellOf(c, k)
  {
    LoadStoreAt(c.store, j, fallback, k);
  }

  lemma GivenAt(c: Camera, j: SettingId, value: string, k: SettingId)
    ensures CellOf(c.(settings := c.settings[j := value]), k)
         == if k == j then CellOf(c, k).(value := Some(value)) else CellOf(c, k)
  {
  }

  /** A step touches its own cell and no other. */
  lemma LoadStepAt(c: Camera, step: Step, a: Answers, k: SettingId)
    requires DurableAt(c.store, k) && LoadStep(c, step, a, true).Some?
    ensures var d := LoadStep(c, step, a, true).value;
            && DurableAt(d.store, k)
            && CellOf(d, k) == if k == step.key then StepCell(CellOf(c, k), step) else CellOf(c, k)
  {
    match step.source
    case Stored(fallback) => LoadAt(c, step.key, fallback, a, k);
    case Given(value) => GivenAt(c, step.key, value, k);
    case Unnamed =>
  }

  lemma {:induction false} LoadAllSameRest(c: Camera, steps: seq<Step>, a: Answers, opens: bool)
    requires LoadAll(c, steps, a, opens).Some?
    ensures SameRest(c, LoadAll(c, steps, a, opens).value)
    decreases |steps|
  {
    if |steps| > 0 {
      LoadAllSameRest(LoadStep(c, steps[0], a, opens).value, steps[1..], a, opens);
    }
  }

  // ----- all steps -----

  function CellAfter(cell: Cell, steps: seq<Step>, k: SettingId): Cell
    decreases |steps|
  {
    if |steps| == 0 then cell
    else CellAfter(if steps[0].key == k then StepCell(cell, steps[0]) else cell, steps[1..], k)
  }

  lemma {:induction false} LoadAllAt(c: Camera, steps: seq<Step>, a: Answers, k: SettingId)
    requires DurableAt(c.store, k) && LoadAll(c, steps, a, true).Some?
    ensures var d := LoadAll(c, steps, a, true).value;
            DurableAt(d.store, k) && CellOf(d, k) == CellAfter(CellOf(c, k), steps, k)
    decreases |steps|
  {
    if |steps| > 0 {
      LoadStepAt(c, steps[0], a, k);
      LoadAllAt(LoadStep(c, steps[0], a, true).value, steps[1..], a, k);
    }
  }

  /** No setting is loaded twice. */
  predicate Distinct(steps: seq<Step>) {
    forall i, j :: 0 <= i < j < |steps| ==> steps[i].key != steps[j].key
  }

  lemma {:induction false} NotLoaded(cell: Cell, steps: seq<Step>, k: SettingId)
    requires forall step :: step in steps ==> step.key != k
    ensures CellAfter(cell, steps, k) == cell
  {
    if |steps| > 0 {
      NotLoaded(cell, steps[1..], k);
    }
  }

  lemma {:induction false} LoadedOnce(cell: Cell, steps: seq<Step>, step: Step)
    requires Distinct(steps) && step in steps
    ensures CellAfter(cell, steps, step.key) == StepCell(cell, step)
  {
    if steps[0] == step {
      NotLoaded(StepCell(cell, step), steps[1..], step.key);
    } else {
      var i :| 0 <= i < |steps| && steps[i] == step;
      assert steps[0].key != steps[i].key;
      LoadedOnce(cell, steps[1..], step);
    }
  }

  // ----- the steps of init -----

  predicate CameraKey(k: SettingId) {
    k.CamMode? || k.PhotoRes? || k.VideoRes? || k.VideoFormat? || k.PhotoQuality? || k.PhotoFormat? || k.TakeInterval?
  }

  predicate SettingKey(k: SettingId) {
    k.CamSensorMode? || k.CamDisplayMode? || k.WhiteBalance? || k.ExposureMode? || k.ExposureValue? || k.Iso?
    || k.ShutterSpeed? || k.VideoFormat? || k.Metering? || k.Sharpness?
  }

  predicate IrKey(k: SettingId) {
    k.IrPalette? || k.IrFfcMode?
  }

  function SourceOf(k: SettingId, env: Env): Source {
    if k.PhotoRes? then PhotoResSource(env) else Stored(Default(k, env))
  }

  function CameraCell(cell: Cell, k: SettingId, env: Env): Cell {
    if CameraKey(k) then StepCell(cell, Step(k, SourceOf(k, env))) else cell
  }

  lemma CameraStepsLoad(cell: Cell, k: SettingId, env: Env)
    ensures CellAfter(cell, CameraSteps(env), k) == CameraCell(cell, k, env)
  {
    if CameraKey(k) {
      LoadedOnce(cell, CameraSteps(env), Step(k, SourceOf(k, env)));
    } else {
      NotLoaded(cell, CameraSteps(env), k);
    }
  }

  /** The video format is loaded a second time here, with a fallback of its own. */
  function SettingSource(k: SettingId, env: Env): Source {
    if k.VideoFormat? then Stored("0") else Stored(Default(k, env))
  }

  function SettingCell(cell: Cell, k: SettingId, env: Env): Cell {
    if SettingKey(k) then StepCell(cell, Step(k, SettingSource(k, env))) else cell
  }

  lemma SettingStepsAreDistinct(env: Env)
    ensures Distinct(SettingSteps(env))
  {
  }

  lemma SettingStepsContain(k: SettingId, env: Env)
    requires SettingKey(k)
    ensures Step(k, SettingSource(k, env)) in SettingSteps(env)
  {
  }

  lemma SettingStepsLoad(cell: Cell, k: SettingId, env: Env)
    ensures CellAfter(cell, SettingSteps(env), k) == SettingCell(cell, k, env)
  {
    if SettingKey(k) {
      SettingStepsAreDistinct(env);
      SettingStepsContain(k, env);
      LoadedOnce(cell, SettingSteps(env), Step(k, SettingSource(k, env)));
    } else {
      NotLoaded(cell, SettingSteps(env), k);
    }
  }

  function IrCell(cell: Cell, k: SettingId, env: Env): Cell {
    if IrKey(k) then StepCell(cell, Step(k, SourceOf(k, env))) else cell
  }

  lemma IrStepsLoad(cell: Cell, k: SettingId, env: Env)
    ensures CellAfter(cell, IrSteps(env), k) == IrCell(cell, k, env)
  {
    if IrKey(k) {
      LoadedOnce(cell, IrSteps(env), Step(k, SourceOf(k, env)));
    } else {
      NotLoaded(cell, IrSteps(env), k);
    }
  }

  // ----- init -----

  predicate RenderKey(k: SettingId) {
    k == CamMode || k == PhotoRes || k == VideoRes
  }

  /** The render mode depends on three settings. */
  lemma RenderOfThree(m: Settings, n: Settings)
    requires forall k :: RenderKey(k) ==> Get(m, k) == Get(n, k)
    ensures RenderOf(m) == RenderOf(n)
  {
    assert RenderKey(CamMode) && RenderKey(PhotoRes) && RenderKey(VideoRes);
  }

  function ZeroIf(zero: bool, cell: Cell): Cell {
    cell.(value := if zero then Some("0") else cell.value)
  }

  /** Reading the render mode in photo mode inserts an unknown photo resolution as an empty text. */
  function InsertIf(photo: bool, k: SettingId, cell: Cell): Cell {
    cell.(value := if photo && k.PhotoRes? && cell.value.None? then Some("") else cell.value)
  }

  lemma PreparedAt(c: Camera, env: Env, k: SettingId)
    requires CamMode in c.settings && VideoRes in c.settings
    ensures var d := PreparedForIr(c, env);
            && d.store == c.store
            && d.hasCamera == c.hasCamera && d.hasIr == env.hasIr && d.render == RenderOf(c.settings)
            && CellOf(d, k) == ZeroIf(k.AeLock?, InsertIf(c.settings[CamMode] == "0", k, CellOf(c, k)))
  {
  }

  lemma QuietAt(c: Camera, ai: AiOutcome, k: SettingId)
    ensures var d := Quiet(c, ai);
            && d.store == c.store && d.hasCamera == c.hasCamera && d.hasIr == c.hasIr && d.render == c.render
            && d.ai == Services(false, false, false, c.ai.control)
            && CellOf(d, k) == ZeroIf(k.IrFfc? || k.AiFunction?, CellOf(c, k))
  {
  }

  /** A client as constructed, on the store a new process loads. */
  predicate Constructed(c: Camera, file: Option<Root>) {
    c.settings == map[] && c.store == Store(Loaded(file), file)
  }

  function InitCell(root: Root, k: SettingId, env: Env): Cell {
    Cell(if Initialised(root, k, env) then Some(InitValue(root, k, env)) else None,
         if |TextOf(root, k)| == 0 && StoresDefault(k, env) then Default(k, env) else TextOf(root, k))
  }

  /** A cell on its way through `init`. */
  function CellBeforeIr(root: Root, k: SettingId, env: Env): Cell {
    SettingCell(CameraCell(Cell(None, TextOf(root, k)), k, env), k, env)
  }

  function CellAfterIr(photo: bool, k: SettingId, env: Env, cell: Cell): Cell {
    ZeroIf(k.IrFfc? || k.AiFunction?, IrCell(ZeroIf(k.AeLock?, InsertIf(photo, k, cell)), k, env))
  }

  lemma BeforeIr(root: Root, k: SettingId, env: Env)
    requires !k.PhotoRes?
    ensures CellBeforeIr(root, k, env)
         == if CameraKey(k) || SettingKey(k) then LoadCell(Cell(None, TextOf(root, k)), k, Default(k, env))
            else Cell(None, TextOf(root, k))
  {
  }

  lemma LoadedThroughInit(root: Root, k: SettingId, env: Env, photo: bool)
    requires (CameraKey(k) || SettingKey(k)) && !k.PhotoRes?
    ensures CellAfterIr(photo, k, env, CellBeforeIr(root, k, env)) == InitCell(root, k, env)
  {
    BeforeIr(root, k, env);
    assert CellAfterIr(photo, k, env, CellBeforeIr(root, k, env)) == CellBeforeIr(root, k, env);
  }

  lemma PhotoResThroughInit(root: Root, env: Env)
    ensures CellAfterIr(InitValue(root, CamMode, env) == "0", PhotoRes, env, CellBeforeIr(root, PhotoRes, env))
         == InitCell(root, PhotoRes, env)
  {
    var cell := CellBeforeIr(root, PhotoRes, env);
    assert cell == StepCell(Cell(None, TextOf(root, PhotoRes)), Step(PhotoRes, PhotoResSource(env)));
  }

  lemma OthersThroughInit(root: Root, k: SettingId, env: Env, photo: bool)
    requires !CameraKey(k) && !SettingKey(k)
    ensures CellAfterIr(photo, k, env, CellBeforeIr(root, k, env)) == InitCell(root, k, env)
  {
    BeforeIr(root, k, env);
  }

  lemma CellsPassThroughInit(root: Root, k: SettingId, env: Env)
    ensures CellAfterIr(InitValue(root, CamMode, env) == "0", k, env, CellBeforeIr(root, k, env)) == InitCell(root, k, env)
  {
    if k.PhotoRes? {
      PhotoResThroughInit(root, env);
    } else if CameraKey(k) || SettingKey(k) {
      LoadedThroughInit(root, k, env, InitValue(root, CamMode, env) == "0");
    } else {
      OthersThroughInit(root, k, env, InitValue(root, CamMode, env) == "0");
    }
  }

  /** The client before its IR camera is opened: every setting loaded that will be. */
  ghost predicate ReadyForIr(c: Camera, root: Root, env: Env) {
    c.hasCamera && forall k :: DurableAt(c.store, k) && CellOf(c, k) == CellBeforeIr(root, k, env)
  }

  lemma LoadsBeforeIr(c: Camera, file: Option<Root>, env: Env, a: Answers, c1: Camera, c2: Camera)
    requires Constructed(c, file)
    requires LoadAll(c.(hasCamera := true), CameraSteps(env), a, true) == Some(c1)
    requires LoadAll(c1, SettingSteps(env), a, true) == Some(c2)
    ensures ReadyForIr(c2, Loaded(file), env)
  {
    LoadAllSameRest(c.(hasCamera := true), CameraSteps(env), a, true);
    LoadAllSameRest(c1, SettingSteps(env), a, true);
    forall k
      ensures DurableAt(c2.store, k) && CellOf(c2, k) == CellBeforeIr(Loaded(file), k, env)
    {
      LoadsBeforeIrAt(c, file, env, a, c1, c2, k);
    }
  }

  lemma LoadsBeforeIrAt(c: Camera, file: Option<Root>, env: Env, a: Answers, c1: Camera, c2: Camera, k: SettingId)
    requires Constructed(c, file)
    requires LoadAll(c.(hasCamera := true), CameraSteps(env), a, true) == Some(c1)
    requires LoadAll(c1, SettingSteps(env), a, true) == Some(c2)
    ensures DurableAt(c2.store, k) && CellOf(c2, k) == CellBeforeIr(Loaded(file), k, env)
  {
    var c0 := c.(hasCamera := true);
    assert CellOf(c0, k) == Cell(None, TextOf(Loaded(file), k));
    LoadAllAt(c0, CameraSteps(env), a, k);
    CameraStepsLoad(CellOf(c0, k), k, env);
    LoadAllAt(c1, SettingSteps(env), a, k);
    SettingStepsLoad(CellOf(c1, k), k, env);
  }

  lemma ModesAreLoaded(c: Camera, root: Root, env: Env)
    requires ReadyForIr(c, root, env)
    ensures CamMode in c.settings && VideoRes in c.settings
    ensures c.settings[CamMode] == InitValue(root, CamMode, env)
  {
    assert CellOf(c, CamMode).value == Some(InitValue(root, CamMode, env));
    assert CellOf(c, VideoRes).value.Some?;
  }

  lemma TextOfCell(c: Camera, k: SettingId)
    ensures Get(c.settings, k) == if CellOf(c, k).value.Some? then CellOf(c, k).value.value else ""
  {
  }

  lemma KeptText(c: Camera, d: Camera, k: SettingId, env: Env)
    requires CamMode in c.settings && RenderKey(k)
    requires CellOf(d, k) == CellAfterIr(c.settings[CamMode] == "0", k, env, CellOf(c, k))
    ensures Get(d.settings, k) == Get(c.settings, k)
  {
    TextOfCell(c, k);
    TextOfCell(d, k);
  }

  /** From the preparation for the IR camera to the end of `init`. */
  lemma LoadsAfterIrAt(c: Camera, env: Env, a: Answers, c3: Camera, k: SettingId)
    requires CamMode in c.settings && VideoRes in c.settings && DurableAt(c.store, k) && c.hasCamera
    requires LoadAll(PreparedForIr(c, env), IrSteps(env), a, true) == Some(c3)
    ensures var d := Quiet(c3, a.ai);
            && DurableAt(d.store, k) && d.hasCamera && d.hasIr == env.hasIr && d.render == RenderOf(c.settings)
            && !d.ai.detectionUp && !d.ai.trackingUp && !d.ai.serverRunning
            && CellOf(d, k) == CellAfterIr(c.settings[CamMode] == "0", k, env, CellOf(c, k))
  {
    var prepared := PreparedForIr(c, env);
    PreparedAt(c, env, k);
    LoadAllSameRest(prepared, IrSteps(env), a, true);
    LoadAllAt(prepared, IrSteps(env), a, k);
    IrStepsLoad(CellOf(prepared, k), k, env);
    QuietAt(c3, a.ai, k);
  }

  lemma CellsAreSettings(c: Camera, root: Root, env: Env)
    requires forall k :: CellOf(c, k) == InitCell(root, k, env)
    ensures c.settings == InitSettings(root, env)
  {
    var m := InitSettings(root, env);
    forall k
      ensures k in c.settings <==> k in m
      ensures k in m ==> c.settings[k] == m[k]
    {
      assert CellOf(c, k) == InitCell(root, k, env);
    }
  }

  lemma CellsMeanStarted(d: Camera, m: Settings, file: Option<Root>, env: Env)
    requires forall k :: CellOf(d, k) == InitCell(Loaded(file), k, env)
    requires forall k :: RenderKey(k) ==> Get(d.settings, k) == Get(m, k)
    requires Durable(d.store) && d.hasCamera && d.hasIr == env.hasIr && d.render == RenderOf(m)
    requires !d.ai.detectionUp && !d.ai.trackingUp && !d.ai.serverRunning
    ensures JustStarted(d, file, env)
  {
    CellsAreSettings(d, Loaded(file), env);
    RenderOfThree(d.settings, m);
    forall k
      ensures TextOf(d.store.root, k) == InitCell(Loaded(file), k, env).stored
    {
      assert CellOf(d, k) == InitCell(Loaded(file), k, env);
    }
  }

  lemma IrStageStarts(c: Camera, file: Option<Root>, env: Env, a: Answers, c3: Camera)
    requires ReadyForIr(c, Loaded(file), env)
    requires LoadAll(PreparedForIr(c, env), IrSteps(env), a, true) == Some(c3)
    ensures JustStarted(Quiet(c3, a.ai), file, env)
  {
    var d := Quiet(c3, a.ai);
    ModesAreLoaded(c, Loaded(file), env);
    forall k
      ensures CellOf(d, k) == InitCell(Loaded(file), k, env) && DurableAt(d.store, k)
      ensures RenderKey(k) ==> Get(d.settings, k) == Get(c.settings, k)
    {
      LoadsAfterIrAt(c, env, a, c3, k);
      CellsPassThroughInit(Loaded(file), k, env);
      if RenderKey(k) {
        KeptText(c, d, k, env);
      }
    }
    LoadsAfterIrAt(c, env, a, c3, CamMode);
    CellsMeanStarted(d, c.settings, file, env);
  }

  /** A start whose writes succeed leaves exactly the known settings, each with its stored value or
      its default, the same texts durably stored, the matching render mode, and AI off. */
  lemma StartLoadsTheStore(c: Camera, file: Option<Root>, env: Env, a: Answers)
    requires Constructed(c, file)
    ensures Init(c, env, a, true).Some? ==> JustStarted(Init(c, env, a, true).value, file, env)
  {
    if Init(c, env, a, true).Some? {
      var c1 := LoadAll(c.(hasCamera := true), CameraSteps(env), a, true).value;
      var c2 := LoadAll(c1, SettingSteps(env), a, true).value;
      LoadsBeforeIr(c, file, env, a, c1, c2);
      IrStageStarts(c2, file, env, a, LoadAll(PreparedForIr(c2, env), IrSteps(env), a, true).value);
    }
  }
}
