/** Detection frames and the meaning of one JSON line (tracking_server.cpp, `parse_line`). */
module FrameParser {
  import opened Decimal
  import opened Wrappers

  /** A JSON document as the reader hands it over. Numbers with a fraction are not part of the tree. */
  datatype Json =
    | Null
    | Bool(b: bool)
    | Int(i: int)
    | Str(s: string)
    | Arr(items: seq<Json>)
    | Obj(members: map<string, Json>)

  datatype TrackingObject = TrackingObject(name: string, x: int, y: int, width: int, height: int)

  datatype TrackingFrame =
    TrackingFrame(streamId: int, frameId: int, objectCount: int, objects: seq<TrackingObject>)

  const EMPTY_FRAME := TrackingFrame(0, 0, 0, [])

  /** What the parser does with a line. A JSON type error leaves the parser as an exception. */
  datatype Outcome = Rejected | Accepted(frame: TrackingFrame) | Throws

  /** `Json::Value::asInt`; None is the exception. */
  function AsInt(j: Json): Option<int> {
    match j
    case Null => Some(0)
    case Bool(b) => Some(if b then 1 else 0)
    case Int(i) => if IsInt32(i) then Some(i) else None
    case _ => None
  }

  /** `Json::Value::asString`; None is the exception. */
  function AsString(j: Json): Option<string> {
    match j
    case Null => Some("")
    case Bool(b) => Some(if b then "true" else "false")
    case Int(i) => Some(ToString(i))
    case Str(s) => Some(s)
    case _ => None
  }

  /** `value[key]`: a missing member reads as null; indexing anything but an object or null throws. */
  function Member(j: Json, key: string): Option<Json> {
    match j
    case Null => Some(Null)
    case Obj(m) => Some(if key in m then m[key] else Null)
    case _ => None
  }

  function IntMember(j: Json, key: string): Option<int> {
    match Member(j, key)
    case None => None
    case Some(v) => AsInt(v)
  }

  /** `read_dimension`: the short key wins whenever it is present. */
  function ReadDimension(position: Json, shortKey: string, longKey: string): Option<int> {
    if position.Obj? && shortKey in position.members then AsInt(position.members[shortKey])
    else IntMember(position, longKey)
  }

  function ParseObject(j: Json): Option<TrackingObject> {
    var position := Member(j, "position");
    var title := Member(j, "name");
    if position.None? || title.None? then None
    else
      var name := AsString(title.value);
      var x := IntMember(position.value, "x");
      var y := IntMember(position.value, "y");
      var w := ReadDimension(position.value, "w", "width");
      var h := ReadDimension(position.value, "h", "height");
      if name.None? || x.None? || y.None? || w.None? || h.None? then None
      else Some(TrackingObject(name.value, x.value, y.value, w.value, h.value))
  }

  /** All objects of an array in order; None if any of them throws. */
  function ParseObjects(items: seq<Json>): (r: Option<seq<TrackingObject>>)
    ensures r.Some? ==> |r.value| == |items|
  {
    if items == [] then Some([])
    else
      var front := ParseObjects(items[..|items| - 1]);
      var last := ParseObject(items[|items| - 1]);
      if front.None? || last.None? then None else Some(front.value + [last.value])
  }

  /** `static_cast<int32_t>(size_t)`. */
  function ToInt32(n: int): int {
    (n + 0x8000_0000) % 0x1_0000_0000 - 0x8000_0000
  }

  /** The meaning of a parsed line; None is a line the JSON reader refuses. */
  function ParseTree(tree: Option<Json>): Outcome {
    match tree
    case None => Rejected
    case Some(root) =>
      var streamId := IntMember(root, "stream_id");
      var frameId := IntMember(root, "frame_id");
      var count := IntMember(root, "object_count");
      var objects := Member(root, "objects");
      if streamId.None? || frameId.None? || count.None? || objects.None? then Throws
      else if !objects.value.Arr? then
        if count.value == 0 then Accepted(TrackingFrame(streamId.value, frameId.value, 0, [])) else Rejected
      else
        match ParseObjects(objects.value.items)
        case None => Throws
        case Some(os) => Accepted(TrackingFrame(streamId.value, frameId.value, ToInt32(|os|), os))
  }

  lemma {:induction false} ParseObjectsPointwise(items: seq<Json>)
    ensures ParseObjects(items).Some? <==> forall i :: 0 <= i < |items| ==> ParseObject(items[i]).Some?
    ensures ParseObjects(items).Some? ==>
              forall i :: 0 <= i < |items| ==> ParseObject(items[i]) == Some(ParseObjects(items).value[i])
  {
    if items != [] {
      var front := items[..|items| - 1];
      ParseObjectsPointwise(front);
      assert forall i :: 0 <= i < |front| ==> items[i] == front[i];
    }
  }

  // ----- what the members of a document say -----

  /** The integer a JSON value reads as: itself in the 32-bit range, 0 for null, 0 or 1 for a boolean. */
  predicate ReadsInt(j: Json, v: int) {
    || (j == Int(v) && -0x8000_0000 <= v <= 0x7fff_ffff)
    || (j == Null && v == 0)
    || (j == Bool(false) && v == 0)
    || (j == Bool(true) && v == 1)
  }

  predicate ReadsText(j: Json, t: string) {
    || j == Str(t)
    || (j == Null && t == "")
    || (j == Bool(false) && t == "false")
    || (j == Bool(true) && t == "true")
    || (j.Int? && t == ToString(j.i))
  }

  predicate IsContainer(j: Json) {
    j.Null? || j.Obj?
  }

  /** The value under a key; an absent one is null. */
  function Under(j: Json, key: string): Json
    requires IsContainer(j)
  {
    if j.Obj? && key in j.members then j.members[key] else Null
  }

  /** The value of a dimension: under the short key whenever that is present, else under the long one. */
  function Dimension(j: Json, short: string, long: string): Json
    requires IsContainer(j)
  {
    if j.Obj? && short in j.members then j.members[short] else Under(j, long)
  }

  predicate IntReadable(j: Json) {
    j.Null? || j.Bool? || (j.Int? && -0x8000_0000 <= j.i <= 0x7fff_ffff)
  }

  predicate TextReadable(j: Json) {
    !j.Arr? && !j.Obj?
  }

  /** A detection that can be read. */
  predicate ObjectReadable(j: Json) {
    && IsContainer(j) && TextReadable(Under(j, "name"))
    && IsContainer(Under(j, "position"))
    && var p := Under(j, "position");
       && IntReadable(Under(p, "x")) && IntReadable(Under(p, "y"))
       && IntReadable(Dimension(p, "w", "width")) && IntReadable(Dimension(p, "h", "height"))
  }

  /** A detection reads as `o`, member by member. */
  predicate ObjectReads(j: Json, o: TrackingObject) {
    && IsContainer(j) && IsContainer(Under(j, "position"))
    && ReadsText(Under(j, "name"), o.name)
    && var p := Under(j, "position");
       && ReadsInt(Under(p, "x"), o.x) && ReadsInt(Under(p, "y"), o.y)
       && ReadsInt(Dimension(p, "w", "width"), o.width) && ReadsInt(Dimension(p, "h", "height"), o.height)
  }

  lemma MemberIsUnder(j: Json, key: string)
    ensures Member(j, key) == if IsContainer(j) then Some(Under(j, key)) else None
  {
  }

  lemma AsIntReads(j: Json)
    ensures AsInt(j).Some? <==> IntReadable(j)
    ensures AsInt(j).Some? ==> ReadsInt(j, AsInt(j).value)
  {
  }

  lemma AsStringReads(j: Json)
    ensures AsString(j).Some? <==> TextReadable(j)
    ensures AsString(j).Some? ==> ReadsText(j, AsString(j).value)
  {
  }

  lemma IntMemberReads(j: Json, key: string)
    ensures IntMember(j, key).Some? <==> IsContainer(j) && IntReadable(Under(j, key))
    ensures IntMember(j, key).Some? ==> ReadsInt(Under(j, key), IntMember(j, key).value)
  {
    MemberIsUnder(j, key);
    if IsContainer(j) {
      AsIntReads(Under(j, key));
    }
  }

  lemma DimensionReads(j: Json, short: string, long: string)
    requires IsContainer(j)
    ensures ReadDimension(j, short, long).Some? <==> IntReadable(Dimension(j, short, long))
    ensures ReadDimension(j, short, long).Some? ==>
              ReadsInt(Dimension(j, short, long), ReadDimension(j, short, long).value)
  {
    AsIntReads(Dimension(j, short, long));
    IntMemberReads(j, long);
  }

  /** A detection is parsed exactly when its members can be read, and then to what they read as. */
  lemma ParsedObjectReads(j: Json)
    ensures ParseObject(j).Some? <==> ObjectReadable(j)
    ensures ParseObject(j).Some? ==> ObjectReads(j, ParseObject(j).value)
  {
    MemberIsUnder(j, "position");
    MemberIsUnder(j, "name");
    if IsContainer(j) {
      var p := Under(j, "position");
      AsStringReads(Under(j, "name"));
      IntMemberReads(p, "x");
      IntMemberReads(p, "y");
      if IsContainer(p) {
        DimensionReads(p, "w", "width");
        DimensionReads(p, "h", "height");
      }
    }
  }

  /** The head of a document: its stream, its frame, the announced count, and its objects. */
  predicate HeadReadable(root: Json) {
    && IsContainer(root)
    && IntReadable(Under(root, "stream_id")) && IntReadable(Under(root, "frame_id"))
    && IntReadable(Under(root, "object_count"))
  }

  predicate AllObjectsReadable(items: seq<Json>) {
    forall i :: 0 <= i < |items| ==> ObjectReadable(items[i])
  }

  /** Which documents are accepted, which are rejected, and which end the parser with an exception. */
  lemma OutcomeOfDocument(root: Json)
    ensures ParseTree(None).Rejected?
    ensures ParseTree(Some(root)).Accepted? <==>
              && HeadReadable(root)
              && (match Under(root, "objects")
                  case Arr(items) => AllObjectsReadable(items)
                  case _ => ReadsInt(Under(root, "object_count"), 0))
    ensures ParseTree(Some(root)).Rejected? <==>
              HeadReadable(root) && !Under(root, "objects").Arr? && !ReadsInt(Under(root, "object_count"), 0)
  {
    HeadReads(root);
    if HeadReadable(root) && Under(root, "objects").Arr? {
      ObjectsReadable(Under(root, "objects").items);
    }
  }

  lemma HeadReads(root: Json)
    ensures HeadReadable(root) <==>
              IntMember(root, "stream_id").Some? && IntMember(root, "frame_id").Some? && IntMember(root, "object_count").Some?
    ensures HeadReadable(root) ==>
              && ReadsInt(Under(root, "stream_id"), IntMember(root, "stream_id").value)
              && ReadsInt(Under(root, "frame_id"), IntMember(root, "frame_id").value)
              && ReadsInt(Under(root, "object_count"), IntMember(root, "object_count").value)
              && Member(root, "objects") == Some(Under(root, "objects"))
  {
    IntMemberReads(root, "stream_id");
    IntMemberReads(root, "frame_id");
    IntMemberReads(root, "object_count");
    MemberIsUnder(root, "objects");
  }

  lemma ObjectsReadable(items: seq<Json>)
    ensures ParseObjects(items).Some? <==> AllObjectsReadable(items)
  {
    ParseObjectsPointwise(items);
    forall i | 0 <= i < |items|
      ensures ParseObject(items[i]).Some? <==> ObjectReadable(items[i])
    {
      ParsedObjectReads(items[i]);
    }
  }

  /** What is published: the stream and frame numbers of the document; without an array of objects an
      empty frame; with one, all its detections in input order, each with the name and position its
      members read as and the short dimension keys preferred over the long ones. */
  lemma AcceptedObjects(root: Json)
    requires ParseTree(Some(root)).Accepted?
    ensures var f := ParseTree(Some(root)).frame;
            && IsContainer(root)
            && ReadsInt(Under(root, "stream_id"), f.streamId) && ReadsInt(Under(root, "frame_id"), f.frameId)
            && match Under(root, "objects")
               case Arr(items) =>
                 |f.objects| == |items| && (forall i :: 0 <= i < |items| ==> ObjectReads(items[i], f.objects[i]))
               case _ => f.objects == [] && f.objectCount == 0
  {
    HeadReads(root);
    if Under(root, "objects").Arr? {
      var items := Under(root, "objects").items;
      ParseObjectsPointwise(items);
      forall i | 0 <= i < |items|
        ensures ObjectReads(items[i], ParseTree(Some(root)).frame.objects[i])
      {
        ParsedObjectReads(items[i]);
      }
    }
  }

  /** The published count is the number of published objects exactly as long as that number is an
      int32; from 2^31 objects on the cast in the code wraps and the two differ. */
  lemma CountMatchesObjects(tree: Option<Json>)
    requires ParseTree(tree).Accepted?
    ensures var f := ParseTree(tree).frame;
            f.objectCount == |f.objects| <==> |f.objects| <= INT32_MAX
  {
    var n := |ParseTree(tree).frame.objects|;
    if n > INT32_MAX {
      assert (n + 0x8000_0000) % 0x1_0000_0000 < 0x1_0000_0000;
    }
  }
}
