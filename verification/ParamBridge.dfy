/** The parameter bridge (mav_client.cpp): integer parameters enter the camera client as text and
    leave it again as integers. */
module ParamBridge {
  import opened CameraParameters
  import opened CameraClient
  import opened CameraSettings
  import opened ClientRuns
  import opened Decimal
  import opened StartCompletes
  import opened StartupLaws
  import opened Wrappers

  datatype ParamValue = IntParam(number: int) | FloatParam(float: real)

  type Params = map<SettingId, ParamValue>

  /** One element of the vector `retrieve_current_settings` fills. */
  datatype Entry = Entry(id: SettingId, text: string)

  predicate IsFloat(id: SettingId) {
    id.ShutterSpeed? || id.ExposureValue?
  }

  /** What a setting is provided as; None is an exception from `std::stof` or `std::stoi`. */
  function Read(e: Entry, stof: FloatReader): Option<ParamValue> {
    if IsFloat(e.id) then
      var r :- stof(e.text);
      Some(FloatParam(r))
    else
      match Stoi(e.text)
      case Parsed(v) => Some(IntParam(v))
      case _ => None
  }

  /** The leading entries that can be read: the exception comes at the first that cannot. */
  function Leading(es: seq<Entry>, stof: FloatReader): (n: nat)
    ensures n <= |es|
    ensures forall i :: 0 <= i < n ==> Read(es[i], stof).Some?
    ensures n < |es| ==> Read(es[n], stof).None?
  {
    if |es| == 0 || Read(es[0], stof).None? then 0 else 1 + Leading(es[1..], stof)
  }

  lemma LeadingRead(es: seq<Entry>, stof: FloatReader)
    ensures forall e :: e in es[..Leading(es, stof)] ==> Read(e, stof).Some?
  {
  }

  /** The parameters after providing entries one after another. */
  function Provide(p: Params, es: seq<Entry>, stof: FloatReader): Params
    requires forall e :: e in es ==> Read(e, stof).Some?
  {
    if |es| == 0 then p
    else
      var last := es[|es| - 1];
      Provide(p, es[..|es| - 1], stof)[last.id := Read(last, stof).value]
  }

  /** A vector with one entry for each setting, in any order. */
  predicate Lists(es: seq<Entry>, m: Settings) {
    && (forall i, j :: 0 <= i < j < |es| ==> es[i].id != es[j].id)
    && (forall e :: e in es ==> e.id in m && m[e.id] == e.text)
    && (forall k :: k in m ==> Entry(k, m[k]) in es)
  }

  predicate ReadableAt(m: Settings, k: SettingId, stof: FloatReader) {
    k in m ==> Read(Entry(k, m[k]), stof).Some?
  }

  ghost predicate AllReadable(m: Settings, stof: FloatReader) {
    forall k :: ReadableAt(m, k, stof)
  }

  /** Every entry can be read exactly when every setting can, whatever their order. */
  lemma ReadableListing(es: seq<Entry>, m: Settings, stof: FloatReader)
    requires Lists(es, m)
    ensures Leading(es, stof) == |es| <==> AllReadable(m, stof)
  {
    if AllReadable(m, stof) {
      forall i | 0 <= i < |es|
        ensures Read(es[i], stof).Some?
      {
        assert es[i] in es && es[i] == Entry(es[i].id, m[es[i].id]);
        assert ReadableAt(m, es[i].id, stof);
      }
    }
    if Leading(es, stof) == |es| {
      forall k
        ensures ReadableAt(m, k, stof)
      {
        if k in m {
          assert Entry(k, m[k]) in es;
        }
      }
    }
  }

  /** With distinct names, every entry keeps the value it was provided with. */
  lemma {:induction false} ProvideAt(p: Params, es: seq<Entry>, stof: FloatReader, i: nat)
    requires forall e :: e in es ==> Read(e, stof).Some?
    requires forall j, k :: 0 <= j < k < |es| ==> es[j].id != es[k].id
    requires i < |es|
    ensures es[i].id in Provide(p, es, stof) && Provide(p, es, stof)[es[i].id] == Read(es[i], stof).value
    decreases |es|
  {
    if i < |es| - 1 {
      ProvideAt(p, es[..|es| - 1], stof, i);
    }
  }

  lemma {:induction false} ProvideKeeps(p: Params, es: seq<Entry>, stof: FloatReader, k: SettingId)
    requires forall e :: e in es ==> Read(e, stof).Some?
    requires forall e :: e in es ==> e.id != k
    ensures k in Provide(p, es, stof) <==> k in p
    ensures k in p ==> Provide(p, es, stof)[k] == p[k]
    decreases |es|
  {
    if |es| > 0 {
      ProvideKeeps(p, es[..|es| - 1], stof, k);
    }
  }

  /** The settings as parameters. */
  function Bridged(m: Settings, stof: FloatReader): Params
    requires forall k :: ReadableAt(m, k, stof)
  {
    map k | k in m :: (assert ReadableAt(m, k, stof); Read(Entry(k, m[k]), stof).value)
  }

  /** Whatever order the settings are listed in, the parameter server ends with their values. */
  lemma FillIsOrderIndependent(p: Params, es: seq<Entry>, m: Settings, stof: FloatReader)
    requires Lists(es, m) && AllReadable(m, stof)
    ensures forall e :: e in es ==> Read(e, stof).Some?
    ensures Provide(p, es, stof) == p + Bridged(m, stof)
  {
    forall e | e in es
      ensures Read(e, stof).Some?
    {
      assert e == Entry(e.id, m[e.id]) && ReadableAt(m, e.id, stof);
    }
    var q, r := Provide(p, es, stof), p + Bridged(m, stof);
    forall k
      ensures k in q <==> k in r
      ensures k in q ==> q[k] == r[k]
    {
      if k in m {
        assert Entry(k, m[k]) in es;
        var i :| 0 <= i < |es| && es[i] == Entry(k, m[k]);
        ProvideAt(p, es, stof, i);
      } else {
        ProvideKeeps(p, es, stof, k);
      }
    }
  }

  // ----- the two kinds of parameter -----

  /** Shutter speed and exposure value read as floats, all other settings as integers. */
  predicate SettingReads(m: Settings, k: SettingId, stof: FloatReader)
    requires k in m
  {
    if k == ShutterSpeed || k == ExposureValue then stof(m[k]).Some? else Stoi(m[k]).Parsed?
  }

  predicate ProvidedAs(m: Settings, k: SettingId, stof: FloatReader, v: ParamValue)
    requires k in m
  {
    if k == ShutterSpeed || k == ExposureValue then stof(m[k]).Some? && v == FloatParam(stof(m[k]).value)
    else Stoi(m[k]).Parsed? && v == IntParam(Stoi(m[k]).value)
  }

  lemma SettingReadsAt(m: Settings, k: SettingId, stof: FloatReader)
    requires k in m
    ensures ReadableAt(m, k, stof) <==> SettingReads(m, k, stof)
    ensures ReadableAt(m, k, stof) ==> ProvidedAs(m, k, stof, Read(Entry(k, m[k]), stof).value)
  {
  }

  lemma SettingsRead(m: Settings, stof: FloatReader)
    ensures AllReadable(m, stof) <==> forall k :: k in m ==> SettingReads(m, k, stof)
    ensures AllReadable(m, stof) ==> forall k :: k in m ==> ProvidedAs(m, k, stof, Bridged(m, stof)[k])
  {
    forall k | k in m
      ensures ReadableAt(m, k, stof) <==> SettingReads(m, k, stof)
      ensures ReadableAt(m, k, stof) ==> ProvidedAs(m, k, stof, Read(Entry(k, m[k]), stof).value)
    {
      SettingReadsAt(m, k, stof);
    }
    if forall k :: k in m ==> SettingReads(m, k, stof) {
      forall k
        ensures ReadableAt(m, k, stof)
      {
        assert k in m ==> SettingReads(m, k, stof);
      }
    }
  }

  /** `MavClient`, with the settings side of the camera client and the parameter server. */
  class MavClient {
    const client: CameraLocalClient
    var params: Params

    constructor (client: CameraLocalClient)
      ensures this.client == client && params == map[]
    {
      this.client := client;
      params := map[];
    }

    /** The integer parameter callback of `subscribe_param_operation`. */
    method IntParamChanged(name: SettingId, value: int, a: Answers, opens: bool) returns (r: Reply)
      modifies client, client.params
      ensures (client.Now(), r) == Set(old(client.Now()), name, ToString(value), a, opens)
      ensures old(Complete(client.Now()) && Applies(client.Now(), name, ToString(value), a)) && IsInt32(value) ==>
                r == Success && name in client.settings && Stoi(client.settings[name]) == Parsed(value)
    {
      ghost var before := client.Now();
      if Complete(before) && Applies(before, name, ToString(value), a) && IsInt32(value) {
        StoiOfToString(value);
        AcceptedHolds(before, name, ToString(value), a, opens);
      }
      r := client.SetSetting(name, ToString(value), a, opens);
    }

    /** `retrieve_current_settings`: the settings in an order of the map's choosing. */
    method RetrieveCurrentSettings() returns (es: seq<Entry>)
      ensures Lists(es, client.settings)
    {
      es := [];
      var left := client.settings.Keys;
      while left != {}
        invariant left <= client.settings.Keys
        invariant forall i, j :: 0 <= i < j < |es| ==> es[i].id != es[j].id
        invariant forall e :: e in es ==> e.id in client.settings && e.id !in left && client.settings[e.id] == e.text
        invariant forall k :: k in client.settings && k !in left ==> Entry(k, client.settings[k]) in es
        decreases left
      {
        var k :| k in left;
        es := es + [Entry(k, client.settings[k])];
        left := left - {k};
      }
    }

    /** The loop of `fill_param`: it provides entries up to the first that does not read as a number,
        which ends it with an exception. */
    method ProvideEntries(es: seq<Entry>, stof: FloatReader) returns (ok: bool)
      modifies this`params
      ensures ok <==> Leading(es, stof) == |es|
      ensures params == Provide(old(params), es[..Leading(es, stof)], stof)
    {
      LeadingRead(es, stof);
      var i := 0;
      while i < |es|
        invariant 0 <= i <= Leading(es, stof)
        invariant params == Provide(old(params), es[..i], stof)
      {
        var read := Read(es[i], stof);
        if read.None? {
          return false;
        }
        params := params[es[i].id := read.value];
        assert es[..i + 1][..i] == es[..i];
        i := i + 1;
      }
      ok := true;
    }

    /** `fill_param`; false is the exception of a text that does not read as a number. */
    method FillParam(stof: FloatReader) returns (ok: bool)
      modifies this`params
      ensures ok <==> AllReadable(client.settings, stof)
      ensures ok ==> params == old(params) + Bridged(client.settings, stof)
      ensures ok <==> forall k :: k in client.settings ==> SettingReads(client.settings, k, stof)
      ensures ok ==> forall k :: k in client.settings ==> k in params && ProvidedAs(client.settings, k, stof, params[k])
    {
      SettingsRead(client.settings, stof);
      var es := RetrieveCurrentSettings();
      ok := ProvideEntries(es, stof);
      ReadableListing(es, client.settings, stof);
      if ok {
        assert es[..|es|] == es;
        FillIsOrderIndependent(old(params), es, client.settings, stof);
      }
    }
  }

  // ----- round trip -----

  lemma IntegerAccepted(value: string, v: int, low: int, high: int, ok: bool)
    requires Stoi(value) == Parsed(v)
    ensures IntegerSetter(value, low, high, ok).Applied? <==> low <= v <= high && ok
  {
  }

  /** Which integers the setters that read one accept. */
  lemma AcceptedNumbers(hasIr: bool, value: string, v: int, a: Answers)
    requires Stoi(value) == Parsed(v) && IsInt32(v)
    ensures SetterOutcome(hasIr, Metering, value, a).Applied? <==> 0 <= v <= 4 && a.rgbOk
    ensures SetterOutcome(hasIr, Sharpness, value, a).Applied? <==> 0 <= v <= 2 && a.rgbOk
    ensures SetterOutcome(hasIr, Iso, value, a).Applied? <==> a.rgbOk
    ensures SetterOutcome(hasIr, AeLock, value, a).Applied? <==> a.rgbOk
    ensures SetterOutcome(hasIr, CamDisplayMode, value, a).Applied?
    ensures SetterOutcome(hasIr, IrPalette, value, a).Applied? <==> hasIr && a.irOk
    ensures SetterOutcome(hasIr, IrFfcMode, value, a).Applied? <==> hasIr && a.irOk
  {
    IntegerAccepted(value, v, 0, 4, a.rgbOk);
    IntegerAccepted(value, v, 0, 2, a.rgbOk);
    IntegerAccepted(value, v, INT32_MIN, INT32_MAX, a.rgbOk);
    IntegerAccepted(value, v, INT32_MIN, INT32_MAX, true);
    IntegerAccepted(value, v, INT32_MIN, INT32_MAX, hasIr && a.irOk);
  }

  /** The same for integer parameters, over the whole 32-bit range. */
  lemma AcceptedRanges(hasIr: bool, v: int, a: Answers)
    requires IsInt32(v)
    ensures SetterOutcome(hasIr, Metering, ToString(v), a).Applied? <==> 0 <= v <= 4 && a.rgbOk
    ensures SetterOutcome(hasIr, Sharpness, ToString(v), a).Applied? <==> 0 <= v <= 2 && a.rgbOk
    ensures SetterOutcome(hasIr, Iso, ToString(v), a).Applied? <==> a.rgbOk
    ensures SetterOutcome(hasIr, AeLock, ToString(v), a).Applied? <==> a.rgbOk
    ensures SetterOutcome(hasIr, CamDisplayMode, ToString(v), a).Applied?
    ensures SetterOutcome(hasIr, IrPalette, ToString(v), a).Applied? <==> hasIr && a.irOk
    ensures SetterOutcome(hasIr, IrFfcMode, ToString(v), a).Applied? <==> hasIr && a.irOk
  {
    StoiOfToString(v);
    AcceptedNumbers(hasIr, ToString(v), v, a);
  }

  /** The AI function accepts 0, and 1 and 2 if their service starts. */
  lemma AcceptedAiModes(hasIr: bool, v: int, a: Answers)
    ensures SetterOutcome(hasIr, AiFunction, ToString(v), a).Applied? <==> v == 0 || (1 <= v <= 2 && a.ai.startOk)
  {
    IntIsAiMode(v);
  }

  lemma IntIsAiMode(v: int)
    ensures ToString(v) == "0" <==> v == 0
    ensures ToString(v) == "1" <==> v == 1
    ensures ToString(v) == "2" <==> v == 2
  {
    assert ToString(0) == "0" && ToString(1) == "1" && ToString(2) == "2";
    if ToString(v) == "0" { ToStringInjective(v, 0); }
    if ToString(v) == "1" { ToStringInjective(v, 1); }
    if ToString(v) == "2" { ToStringInjective(v, 2); }
  }

  /** An accepted setting holds the text it was set to. */
  lemma AcceptedHolds(c: Camera, id: SettingId, value: string, a: Answers, opens: bool)
    requires Complete(c) && Applies(c, id, value, a)
    ensures var m := Set(c, id, value, a, opens).0.settings; id in m && m[id] == value
  {
    SetterKeepsComplete(c, id, value, a);
    AcceptedForm(SetterEffect(c, id, value, a), id, value, opens);
  }

  // ----- when filling goes through -----

  /** The reset values of the two float settings read as numbers. */
  predicate ReadsDefaults(stof: FloatReader) {
    stof("0").Some? && stof("0.01").Some?
  }

  lemma DigitsRead()
    ensures Stoi("0").Parsed? && Stoi("1").Parsed? && Stoi("2").Parsed? && Stoi("125").Parsed?
  {
    PrintedReads(0, "0");
    PrintedReads(1, "1");
    PrintedReads(2, "2");
    DefaultsRead();
  }

  lemma ResetValueReads(k: SettingId, stof: FloatReader)
    requires ReadsDefaults(stof)
    ensures Read(Entry(k, ResetValue(k)), stof).Some?
  {
    if IsFloat(k) {
      assert ResetValue(k) == "0" || ResetValue(k) == "0.01";
    } else {
      DigitsRead();
    }
  }

  lemma ZeroReads(k: SettingId, stof: FloatReader)
    requires !IsFloat(k)
    ensures Read(Entry(k, "0"), stof).Some?
  {
    DigitsRead();
  }

  lemma AiModeReads(mode: string, stof: FloatReader)
    requires IsAiMode(mode)
    ensures Read(Entry(AiFunction, mode), stof).Some?
  {
    DigitsRead();
  }

  lemma CellReads(c: Camera, k: SettingId, v: string, stof: FloatReader)
    requires CellOf(c, k).value == Some(v)
    ensures ReadableAt(c.settings, k, stof) <==> Read(Entry(k, v), stof).Some?
  {
  }

  lemma SetKeepsReadableAt(c: Camera, id: SettingId, value: string, a: Answers, opens: bool,
                           stof: FloatReader, k: SettingId)
    requires Full(c) && Handled(c, id) && k in c.settings && ReadableAt(c.settings, k, stof)
    requires k == id && Applies(c, id, value, a) ==> Read(Entry(id, value), stof).Some?
    ensures ReadableAt(Set(c, id, value, a, opens).0.settings, k, stof)
  {
    var d := Set(c, id, value, a, opens).0;
    CellReads(c, k, c.settings[k], stof);
    if k.AiFunction? {
      SetAtAi(c, id, value, a, opens);
      var v := if id.AiFunction? && IsAiMode(value) then (if AiSucceeds(value, a.ai) then value else "0") else c.settings[k];
      if id.AiFunction? && IsAiMode(value) { AiModeReads(v, stof); }
      CellReads(d, k, v, stof);
    } else {
      SetAt(c, id, value, a, opens, k);
      var v := CellOf(d, k).value.value;
      if k.PhotoRes? { ZeroReads(k, stof); }
      CellReads(d, k, v, stof);
    }
  }

  /** An accepted setting keeps the parameters fillable exactly when its own text reads as a number
      (the setters of the camera mode, among others, accept any text). */
  lemma SetKeepsReadable(c: Camera, id: SettingId, value: string, a: Answers, opens: bool, stof: FloatReader)
    requires Full(c) && AllReadable(c.settings, stof)
    ensures AllReadable(Set(c, id, value, a, opens).0.settings, stof)
       <==> (Applies(c, id, value, a) ==> Read(Entry(id, value), stof).Some?)
  {
    var d := Set(c, id, value, a, opens).0;
    SetKeepsComplete(c, id, value, a, opens);
    if Applies(c, id, value, a) {
      AcceptedHolds(c, id, value, a, opens);
      assert ReadableAt(d.settings, id, stof) <==> Read(Entry(id, value), stof).Some?;
    }
    if id in c.settings && (Applies(c, id, value, a) ==> Read(Entry(id, value), stof).Some?) {
      forall k
        ensures ReadableAt(d.settings, k, stof)
      {
        assert ReadableAt(c.settings, k, stof);
        if k in c.settings {
          SetKeepsReadableAt(c, id, value, a, opens, stof, k);
        }
      }
    }
  }

  lemma ResetCellReads(cell: Cell, k: SettingId, vendorOk: bool, opens: bool, stof: FloatReader)
    requires cell.value.Some? && Read(Entry(k, cell.value.value), stof).Some? && ReadsDefaults(stof)
    ensures var reset := ResetOrKept(cell, k, vendorOk, opens).value;
            reset.Some? && Read(Entry(k, reset.value), stof).Some?
  {
    ResetValueReads(k, stof);
    assert ResetOrKept(cell, k, vendorOk, opens).value in [cell.value, Some(ResetValue(k))];
  }

  lemma ResetKeepsReadableAt(c: Camera, vendorOk: bool, ai: AiOutcome, opens: bool, stof: FloatReader, k: SettingId)
    requires Full(c) && k in c.settings && ReadableAt(c.settings, k, stof) && ReadsDefaults(stof)
    ensures ReadableAt(Reset(c, vendorOk, ai, opens).0.settings, k, stof)
  {
    var cell := CellOf(c, k);
    CompleteHasModes(c);
    CellReads(c, k, c.settings[k], stof);
    ResetAt(c, vendorOk, ai, opens, k);
    ResetCellReads(cell, k, vendorOk, opens, stof);
    CellReads(Reset(c, vendorOk, ai, opens).0, k, ResetOrKept(cell, k, vendorOk, opens).value.value, stof);
  }

  lemma ResetKeepsReadable(c: Camera, vendorOk: bool, ai: AiOutcome, opens: bool, stof: FloatReader)
    requires Full(c) && AllReadable(c.settings, stof) && ReadsDefaults(stof)
    ensures AllReadable(Reset(c, vendorOk, ai, opens).0.settings, stof)
  {
    var d := Reset(c, vendorOk, ai, opens).0;
    ResetKeepsComplete(c, vendorOk, ai, opens);
    forall k
      ensures ReadableAt(d.settings, k, stof)
    {
      assert ReadableAt(c.settings, k, stof);
      if k in c.settings {
        ResetKeepsReadableAt(c, vendorOk, ai, opens, stof, k);
      } else {
        assert k !in KNOWN;
      }
    }
  }

  lemma OpKeepsReadable(c: Camera, op: Op, stof: FloatReader)
    requires Full(c) && AllReadable(c.settings, stof) && ReadsDefaults(stof)
    requires op.SetOp? ==> Read(Entry(op.id, op.value), stof).Some?
    ensures AllReadable(After(c, op).settings, stof)
  {
    match op
    case SetOp(id, value, a, opens) => SetKeepsReadable(c, id, value, a, opens, stof);
    case ResetOp(vendorOk, ai, opens) => ResetKeepsReadable(c, vendorOk, ai, opens, stof);
    case TrackPointOp(px, py) => assert After(c, op).settings == c.settings;
    case TrackOffOp =>
  }

  /** Over any run whose accepted texts read as numbers, as every integer parameter's does, filling
      the parameters goes through. */
  lemma {:induction false} RunKeepsReadable(c: Camera, ops: seq<Op>, stof: FloatReader)
    requires Full(c) && AllReadable(c.settings, stof) && ReadsDefaults(stof)
    requires forall op :: op in ops && op.SetOp? ==> Read(Entry(op.id, op.value), stof).Some?
    ensures Full(AfterAll(c, ops)) && AllReadable(AfterAll(c, ops).settings, stof)
    decreases |ops|
  {
    if |ops| > 0 {
      assert ops[0] in ops;
      OpKeepsComplete(c, ops[0]);
      OpKeepsReadable(c, ops[0], stof);
      RunKeepsReadable(After(c, ops[0]), ops[1..], stof);
    }
  }

  /** Every accepted integer parameter, over the whole 32-bit range, is provided again unchanged, and
      the filling that provides it goes through. */
  lemma AcceptedIntComesBack(c: Camera, id: SettingId, v: int, a: Answers, opens: bool, p: Params, stof: FloatReader)
    requires Full(c) && AllReadable(c.settings, stof)
    requires IsInt32(v) && !IsFloat(id) && Applies(c, id, ToString(v), a)
    ensures var m := Set(c, id, ToString(v), a, opens).0.settings;
            && AllReadable(m, stof)
            && id in p + Bridged(m, stof) && (p + Bridged(m, stof))[id] == IntParam(v)
  {
    StoiOfToString(v);
    SetKeepsReadable(c, id, ToString(v), a, opens, stof);
    AcceptedHolds(c, id, ToString(v), a, opens);
  }

  /** A start whose environment names no photo resolution: in photo mode the setting is an empty text
      and filling the parameters fails; in video mode it does not exist and cannot be set. */
  lemma UnnamedResolutionStart(c: Camera, file: Option<Root>, env: Env, value: string, a: Answers, opens: bool,
                               stof: FloatReader)
    requires JustStarted(c, file, env) && env.photoRes.EnvOther?
    ensures if Get(c.settings, CamMode) == "0" then !AllReadable(c.settings, stof)
            else Set(c, PhotoRes, value, a, opens) == (c, WrongArgument)
  {
    assert c.settings[CamMode] == InitValue(Loaded(file), CamMode, env);
    if c.settings[CamMode] == "0" {
      assert c.settings[PhotoRes] == "";
      EmptyIsNoNumber();
      assert !ReadableAt(c.settings, PhotoRes, stof);
    }
  }

  // ----- from a start on -----

  /** The settings whose text a start takes from the store, or from a default. */
  predicate TakesText(k: SettingId, env: Env) {
    k in KNOWN && !Volatile(k) && !k.CamMode? && (k.PhotoRes? ==> env.photoRes.Unset?)
  }

  function StartText(root: Root, k: SettingId, env: Env): string {
    if |TextOf(root, k)| == 0 then Default(k, env) else TextOf(root, k)
  }

  predicate StartTextReads(root: Root, k: SettingId, env: Env, stof: FloatReader) {
    TakesText(k, env) ==> Read(Entry(k, StartText(root, k, env)), stof).Some?
  }

  /** A photo resolution inserted without a value. */
  predicate EmptyResolution(root: Root, env: Env) {
    env.photoRes.EnvOther? && InitValue(root, CamMode, env) == "0"
  }

  lemma ModeReads(root: Root, env: Env, stof: FloatReader)
    ensures Read(Entry(CamMode, InitValue(root, CamMode, env)), stof).Some?
  {
    assert InitValue(root, CamMode, env) == "0" || InitValue(root, CamMode, env) == "1";
    DigitsRead();
  }

  lemma ResolutionTexts(stof: FloatReader)
    ensures Read(Entry(PhotoRes, "0"), stof).Some? && Read(Entry(PhotoRes, "1"), stof).Some?
    ensures Read(Entry(PhotoRes, ""), stof).None?
  {
    DigitsRead();
    EmptyIsNoNumber();
  }

  lemma EmptyIsNoNumber()
    ensures Stoi("").InvalidArgument?
  {
  }

  lemma GivenResolutionReads(root: Root, env: Env, stof: FloatReader)
    requires !env.photoRes.Unset?
    ensures Read(Entry(PhotoRes, InitValue(root, PhotoRes, env)), stof).Some? <==> !env.photoRes.EnvOther?
  {
    ResolutionTexts(stof);
    assert InitValue(root, PhotoRes, env)
        == if env.photoRes.EnvFull? then "0" else if env.photoRes.EnvQuarter? then "1" else "";
  }

  lemma StartReadableAt(c: Camera, file: Option<Root>, env: Env, stof: FloatReader, k: SettingId)
    requires JustStarted(c, file, env)
    ensures ReadableAt(c.settings, k, stof) <==>
              StartTextReads(Loaded(file), k, env, stof) && !(k.PhotoRes? && EmptyResolution(Loaded(file), env))
  {
    if k in c.settings {
      assert c.settings[k] == InitValue(Loaded(file), k, env);
      if k.CamMode? {
        ModeReads(Loaded(file), env, stof);
      } else if Volatile(k) {
        ZeroReads(k, stof);
      } else if k.PhotoRes? && !env.photoRes.Unset? {
        GivenResolutionReads(Loaded(file), env, stof);
      } else {
        assert c.settings[k] == StartText(Loaded(file), k, env);
      }
    }
  }

  /** Right after a start the parameters can be filled exactly when every stored text, or default
      where nothing is stored, reads as a number, and the photo resolution has a value. */
  lemma StartIsReadableIff(c: Camera, file: Option<Root>, env: Env, stof: FloatReader)
    requires JustStarted(c, file, env)
    ensures AllReadable(c.settings, stof) <==>
              (forall k :: StartTextReads(Loaded(file), k, env, stof)) && !EmptyResolution(Loaded(file), env)
  {
    forall k
      ensures ReadableAt(c.settings, k, stof) <==>
                StartTextReads(Loaded(file), k, env, stof) && !(k.PhotoRes? && EmptyResolution(Loaded(file), env))
    {
      StartReadableAt(c, file, env, stof, k);
    }
    if AllReadable(c.settings, stof) {
      assert ReadableAt(c.settings, PhotoRes, stof);
    }
  }

  lemma ReadableText(root: Root, k: SettingId, env: Env, stof: FloatReader)
    requires StartTextReads(root, k, env, stof) && !k.TakeInterval?
    ensures Fits(k, TextOf(root, k), stof)
  {
    if |TextOf(root, k)| > 0 && (IsInteger(k) || k.ExposureValue?) {
      assert TakesText(k, env);
      assert StartText(root, k, env) == TextOf(root, k);
    }
  }

  lemma ReadableFile(root: Root, env: Env, stof: FloatReader)
    requires forall k :: StartTextReads(root, k, env, stof)
    requires Fits(TakeInterval, TextOf(root, TakeInterval), stof)
    ensures Readable(root, stof)
  {
    forall k
      ensures Fits(k, TextOf(root, k), stof)
    {
      assert StartTextReads(root, k, env, stof);
      if !k.TakeInterval? {
        ReadableText(root, k, env, stof);
      }
    }
  }

  /** From a start on a file of readable numbers, over any run of calls whose texts read as numbers:
      the start goes through, filling the parameters goes through at the end of the run, and every
      integer parameter then accepted, over the whole 32-bit range, is provided again unchanged. */
  lemma IntComesBackAfterAnyRun(blank: Camera, file: Option<Root>, env: Env, a0: Answers, ops: seq<Op>,
                                id: SettingId, v: int, a: Answers, opens: bool, p: Params)
    requires Constructed(blank, file) && !env.photoRes.EnvOther?
    requires PrintsNumbers(env, a0.stof) && ReadsDefaults(a0.stof)
    requires forall k :: StartTextReads(Loaded(file), k, env, a0.stof)
    requires Fits(TakeInterval, TextOf(Loaded(file), TakeInterval), a0.stof)
    requires forall op :: op in ops && op.SetOp? ==> Read(Entry(op.id, op.value), a0.stof).Some?
    ensures Init(blank, env, a0, true).Some?
    ensures var c := AfterAll(Init(blank, env, a0, true).value, ops);
            && Full(c) && AllReadable(c.settings, a0.stof)
            && (IsInt32(v) && !IsFloat(id) && Applies(c, id, ToString(v), a) ==>
                  var m := Set(c, id, ToString(v), a, opens).0.settings;
                  && AllReadable(m, a0.stof)
                  && id in p + Bridged(m, a0.stof) && (p + Bridged(m, a0.stof))[id] == IntParam(v))
  {
    ReadableFile(Loaded(file), env, a0.stof);
    StartGoesThrough(blank, env, a0, true);
    StartLoadsTheStore(blank, file, env, a0);
    var started := Init(blank, env, a0, true).value;
    StartedIsComplete(started, file, env);
    StartIsReadableIff(started, file, env, a0.stof);
    RunKeepsReadable(started, ops, a0.stof);
    var c := AfterAll(started, ops);
    if IsInt32(v) && !IsFloat(id) && Applies(c, id, ToString(v), a) {
      AcceptedIntComesBack(c, id, v, a, opens, p, a0.stof);
    }
  }
}
