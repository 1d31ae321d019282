/** The persistent parameter map (camera_param.cc): a JSON object in memory and its last written
    copy on disk. */
module CameraParameters {
  import opened Wrappers

  /** The settings of the camera, by the constants of camera_local_client.cpp lines 25-48. */
  datatype SettingId =
    | CamMode | CamSensorMode | CamDisplayMode
    | PhotoRes | PhotoQuality | PhotoFormat
    | VideoRes | VideoFormat
    | WhiteBalance | ExposureMode | ExposureValue | Iso | ShutterSpeed | Metering | Sharpness | AeLock
    | IrPalette | IrFfcMode | IrFfc
    | AiFunction
    | TakeInterval
    | Other(name: string)

  /** A member of the JSON object: reading an absent member leaves a null behind. */
  datatype Param = Null | Text(text: string)

  type Root = map<SettingId, Param>

  /** `asString` of a member; absent and null read as the empty string. */
  function TextOf(root: Root, k: SettingId): string {
    if k in root && root[k].Text? then root[k].text else ""
  }

  /** The object in memory, and the file (None if it is missing or does not parse). */
  datatype Store = Store(root: Root, file: Option<Root>)

  /** What a new process loads. */
  function Loaded(file: Option<Root>): Root {
    if file.None? then map[] else file.value
  }

  /** `set_value`; `opens` is whether the file can be opened for writing. */
  function Put(s: Store, k: SettingId, v: string, opens: bool): Store {
    if !opens then s
    else
      var root := s.root[k := Text(v)];
      Store(root, Some(root))
  }

  /** What reading a member leaves behind. */
  function Peek(s: Store, k: SettingId): Store {
    if k in s.root then s else s.(root := s.root[k := Null])
  }

  /** A restart would read this member as this process does. */
  predicate DurableAt(s: Store, k: SettingId) {
    TextOf(s.root, k) == TextOf(Loaded(s.file), k)
  }

  ghost predicate Durable(s: Store) {
    forall k :: DurableAt(s, k)
  }

  /** Durability is kept by every write, whether or not the file opens. */
  lemma PutAt(s: Store, j: SettingId, v: string, opens: bool, k: SettingId)
    ensures TextOf(Put(s, j, v, opens).root, k) == if k == j && opens then v else TextOf(s.root, k)
    ensures opens || DurableAt(s, k) ==> DurableAt(Put(s, j, v, opens), k)
  {
  }

  lemma PeekAt(s: Store, j: SettingId, k: SettingId)
    ensures TextOf(Peek(s, j).root, k) == TextOf(s.root, k)
    ensures DurableAt(s, k) ==> DurableAt(Peek(s, j), k)
  {
  }

  class CameraParam {
    var root: Root
    var file: Option<Root>

    constructor (file: Option<Root>)
      ensures Now() == Store(Loaded(file), file) && Durable(Now())
    {
      this.root := Loaded(file);
      this.file := file;
    }

    function Now(): Store
      reads this
    {
      Store(root, file)
    }

    method GetValue(k: SettingId) returns (v: string)
      modifies this`root
      ensures v == old(TextOf(root, k))
      ensures Now() == Peek(old(Now()), k)
      ensures root == (if k in old(root) then old(root) else old(root)[k := Null]) && file == old(file)
    {
      if k !in root {
        root := root[k := Null];
      }
      v := TextOf(root, k);
    }

    method SetValue(k: SettingId, v: string, opens: bool) returns (ok: bool)
      modifies this
      ensures ok == opens && Now() == Put(old(Now()), k, v, opens)
      ensures forall j :: TextOf(root, j) == if j == k && ok then v else TextOf(old(root), j)
      ensures ok || old(Durable(Now())) ==> Durable(Now())
    {
      if !opens {
        return false;
      }
      root := root[k := Text(v)];
      file := Some(root);
      ok := true;
    }
  }
}
