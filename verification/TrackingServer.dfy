/** The tracking server as one thread sees it: reading a connection, publishing frames, issuing
    control commands (tracking_server.cpp). Interleavings are in ControlReplay, ServerLifecycle
    and FrameFreshness. */
module TrackingServer {
  import opened ControlPacket
  import opened FrameParser
  import opened LineFraming
  import opened Wrappers

  /** What one successful `recv` into the 4096-byte buffer can deliver. */
  type Chunk = s: string | 1 <= |s| <= 4096 witness "x"

  /** One turn of the receive loop. `Stopped` is the loop test finding `_running` false. */
  datatype Receive = Stopped | Timeout | Data(bytes: Chunk) | Closed

  /** The bytes a connection delivers before it ends. */
  function Received(script: seq<Receive>): string {
    if script == [] then ""
    else
      match script[0]
      case Data(bytes) => bytes + Received(script[1..])
      case Timeout => Received(script[1..])
      case Stopped => ""
      case Closed => ""
  }

  predicate Ends(script: seq<Receive>) {
    exists i :: 0 <= i < |script| && (script[i].Stopped? || script[i].Closed?)
  }

  /** A connection delivers its chunks one after the other: timeouts add nothing, and nothing counts
      after its end. */
  lemma {:induction false} ReceivedInOrder(before: seq<Receive>, after: seq<Receive>)
    ensures Ends(before) ==> Received(before + after) == Received(before)
    ensures !Ends(before) ==> Received(before + after) == Received(before) + Received(after)
    ensures forall bytes: Chunk :: Received([Data(bytes)]) == bytes
    ensures Received([Timeout]) == Received([Stopped]) == Received([Closed]) == ""
  {
    if before == [] {
      assert before + after == after;
    } else {
      assert (before + after)[1..] == before[1..] + after;
      if !before[0].Stopped? && !before[0].Closed? {
        assert Ends(before) <==> Ends(before[1..]) by { EndsLater(before); }
        ReceivedInOrder(before[1..], after);
      }
    }
  }

  lemma EndsLater(script: seq<Receive>)
    requires script != [] && !script[0].Stopped? && !script[0].Closed?
    ensures Ends(script) <==> Ends(script[1..])
  {
    if Ends(script[1..]) {
      var i :| 0 <= i < |script[1..]| && (script[1..][i].Stopped? || script[1..][i].Closed?);
      assert script[i + 1] == script[1..][i];
    }
    if Ends(script) {
      var i :| 0 <= i < |script| && (script[i].Stopped? || script[i].Closed?);
      assert script[1..][i - 1] == script[i];
    }
  }

  /** The JSON reader. */
  type Reader = string -> Option<Json>

  /** What a line means once it is read and parsed. */
  type Meaning = string -> Outcome

  function MeaningOf(reader: Reader): Meaning {
    line => ParseTree(reader(line))
  }

  /** What consuming lines changes: the latest frame, the frames passed to the callback, and
      whether the thread survived (an exception ends it). */
  datatype Feed = Feed(latest: TrackingFrame, delivered: seq<TrackingFrame>, alive: bool)

  function ConsumeLine(f: Feed, meaning: Meaning, callback: bool, line: string): Feed {
    match meaning(line)
    case Rejected => f
    case Accepted(frame) =>
      f.(latest := frame, delivered := if callback then f.delivered + [frame] else f.delivered)
    case Throws => f.(alive := false)
  }

  /** Lines in order, up to the first one that throws. */
  function Consume(f: Feed, meaning: Meaning, callback: bool, lines: seq<string>): Feed
    decreases |lines|
  {
    if lines == [] || !f.alive then f
    else Consume(ConsumeLine(f, meaning, callback, lines[0]), meaning, callback, lines[1..])
  }

  lemma {:induction false} ConsumeAppend(f: Feed, meaning: Meaning, callback: bool, a: seq<string>, b: seq<string>)
    ensures Consume(f, meaning, callback, a + b)
         == Consume(Consume(f, meaning, callback, a), meaning, callback, b)
    decreases |a|
  {
    if a == [] {
      assert a + b == b;
    } else if f.alive {
      assert (a + b)[1..] == a[1..] + b;
      ConsumeAppend(ConsumeLine(f, meaning, callback, a[0]), meaning, callback, a[1..], b);
    }
  }

  lemma TakeLine(f: Feed, meaning: Meaning, callback: bool, pending: string, p: nat)
    requires FindNewline(pending) == Some(p) && f.alive
    ensures Consume(f, meaning, callback, SplitLines(pending).lines)
         == Consume(ConsumeLine(f, meaning, callback, pending[..p]), meaning, callback, SplitLines(pending[p + 1..]).lines)
    ensures SplitLines(pending).rest == SplitLines(pending[p + 1..]).rest
  {
    assert SplitLines(pending).lines[1..] == SplitLines(pending[p + 1..]).lines;
  }

  /** Consuming what arrives next continues from the unfinished remainder. */
  lemma ResumeFeed(f: Feed, meaning: Meaning, callback: bool, got: string, more: string)
    ensures Consume(f, meaning, callback, SplitLines(got + more).lines)
         == Consume(Consume(f, meaning, callback, SplitLines(got).lines), meaning, callback,
                    SplitLines(SplitLines(got).rest + more).lines)
    ensures SplitLines(got + more).rest == SplitLines(SplitLines(got).rest + more).rest
  {
    SplitLinesAppend(got, more);
    ConsumeAppend(f, meaning, callback, SplitLines(got).lines, SplitLines(SplitLines(got).rest + more).lines);
  }

  /** The frames a list of lines publishes: the accepted ones, in order, before the first exception. */
  function Published(meaning: Meaning, lines: seq<string>): seq<TrackingFrame> {
    if lines == [] then []
    else
      match meaning(lines[0])
      case Rejected => Published(meaning, lines[1..])
      case Accepted(frame) => [frame] + Published(meaning, lines[1..])
      case Throws => []
  }

  /** The latest frame is the last one published and rejected lines leave it alone; the callback
      sees exactly the published frames. */
  lemma {:induction false} LatestIsLastPublished(f: Feed, meaning: Meaning, callback: bool, lines: seq<string>)
    requires f.alive
    ensures var g := Consume(f, meaning, callback, lines);
            var ps := Published(meaning, lines);
            && g.latest == (if ps == [] then f.latest else ps[|ps| - 1])
            && g.delivered == f.delivered + (if callback then ps else [])
            && (g.alive <==> forall i :: 0 <= i < |lines| ==> !meaning(lines[i]).Throws?)
    decreases |lines|
  {
    if lines != [] {
      var more := Published(meaning, lines[1..]);
      match meaning(lines[0])
      case Throws =>
        assert Consume(f, meaning, callback, lines) == f.(alive := false);
      case Rejected =>
        LatestIsLastPublished(f, meaning, callback, lines[1..]);
      case Accepted(frame) =>
        var g := ConsumeLine(f, meaning, callback, lines[0]);
        LatestIsLastPublished(g, meaning, callback, lines[1..]);
        assert f.delivered + [frame] + more == f.delivered + ([frame] + more);
    }
  }

  /** Every published frame announces as many objects as it carries, short of 2^31 objects. */
  lemma {:induction false} PublishedCounts(reader: Reader, lines: seq<string>, k: nat)
    requires k < |Published(MeaningOf(reader), lines)|
    ensures var f := Published(MeaningOf(reader), lines)[k];
            f.objectCount == |f.objects| <==> |f.objects| <= 0x7fff_ffff
  {
    match ParseTree(reader(lines[0]))
    case Rejected => PublishedCounts(reader, lines[1..], k);
    case Accepted(frame) =>
      if k == 0 {
        CountMatchesObjects(reader(lines[0]));
      } else {
        PublishedCounts(reader, lines[1..], k - 1);
      }
  }

  /** However the same bytes are cut into chunks, and wherever timeouts fall, a connection has the
      same effect. */
  lemma ChunkingDoesNotMatter(f: Feed, meaning: Meaning, callback: bool, lines: seq<string>, rest: string,
                              a: seq<Receive>, b: seq<Receive>)
    requires Received(a) == Received(b)
    requires Frames(lines, rest, Received(a))
    ensures Consume(f, meaning, callback, SplitLines(Received(b)).lines) == Consume(f, meaning, callback, lines)
    ensures SplitLines(Received(b)).rest == rest
  {
    FramingIsUnique(lines, rest, Received(a));
  }

  /** The complete lines of a sequence of connections: no line spans two of them. */
  function ConnectionLines(connections: seq<seq<Receive>>): seq<string> {
    if connections == [] then []
    else SplitLines(Received(connections[0])).lines + ConnectionLines(connections[1..])
  }

  lemma {:induction false} ConnectionsInOrder(a: seq<seq<Receive>>, b: seq<seq<Receive>>, last: seq<Receive>)
    ensures ConnectionLines(a + b) == ConnectionLines(a) + ConnectionLines(b)
    ensures ConnectionLines([last]) == SplitLines(Received(last)).lines
  {
    if a == [] {
      assert a + b == b;
    } else {
      assert (a + b)[1..] == a[1..] + b;
      ConnectionsInOrder(a[1..], b, last);
    }
  }

  /** Consuming the unfinished remainder together with the bytes still to come ends in `goal`. */
  ghost predicate WillEndAs(f: Feed, meaning: Meaning, callback: bool, pending: string, more: string,
                            goal: Feed, rest: string)
  {
    && Consume(f, meaning, callback, SplitLines(pending + more).lines) == goal
    && SplitLines(pending + more).rest == rest
  }

  lemma ChunkArrives(f: Feed, meaning: Meaning, callback: bool, pending: string, bytes: string, more: string,
                     goal: Feed, rest: string)
    requires WillEndAs(f, meaning, callback, pending, bytes + more, goal, rest)
    ensures var split := SplitLines(pending + bytes);
            var g := Consume(f, meaning, callback, split.lines);
            && OneLine(split.rest)
            && WillEndAs(g, meaning, callback, split.rest, more, goal, rest)
            && (!g.alive ==> g == goal)
  {
    AppendAssociative(pending, bytes, more);
    ResumeFeed(f, meaning, callback, pending + bytes, more);
    RestIsOneLine(pending + bytes);
    var split := SplitLines(pending + bytes);
    DeadFeedStays(Consume(f, meaning, callback, split.lines), meaning, callback, SplitLines(split.rest + more).lines);
  }

  lemma DeadFeedStays(f: Feed, meaning: Meaning, callback: bool, lines: seq<string>)
    ensures !f.alive ==> Consume(f, meaning, callback, lines) == f
  {
  }

  lemma NothingMoreToCome(f: Feed, meaning: Meaning, callback: bool, pending: string, goal: Feed, rest: string)
    requires OneLine(pending) && WillEndAs(f, meaning, callback, pending, "", goal, rest)
    ensures f == goal && pending == rest
  {
    assert pending + "" == pending;
  }

  class TrackingServer {
    const reader: Reader
    var callbackSet: bool
    var latestFrame: TrackingFrame
    var delivered: seq<TrackingFrame>  // every call of the callback
    var clientFd: int
    var controlPacketIndex: byte
    var latestControlPacket: seq<byte>
    var written: seq<byte>  // every byte written to clients

    constructor (reader: Reader)
      ensures this.reader == reader && !callbackSet
      ensures FeedNow(true) == Feed(EMPTY_FRAME, [], true)
      ensures ControlNow() == FRESH_CONTROL && clientFd == -1 && written == []
    {
      this.reader := reader;
      callbackSet := false;
      latestFrame, delivered := EMPTY_FRAME, [];
      clientFd, controlPacketIndex, latestControlPacket, written := -1, 0, [], [];
    }

    function FeedNow(alive: bool): Feed
      reads this
    {
      Feed(latestFrame, delivered, alive)
    }

    function ControlNow(): Control
      reads this
    {
      Control(controlPacketIndex, latestControlPacket)
    }

    method SetCallback()
      modifies this`callbackSet
      ensures callbackSet
    {
      callbackSet := true;
    }

    /** `parse_line` on a document the reader accepted or refused. */
    method ParseLine(line: string) returns (outcome: Outcome)
      ensures outcome == MeaningOf(reader)(line)
    {
      var tree := reader(line);
      if tree.None? {
        return Rejected;
      }
      var root := tree.value;
      var streamId := IntMember(root, "stream_id");
      var frameId := IntMember(root, "frame_id");
      var count := IntMember(root, "object_count");
      var objects := Member(root, "objects");
      if streamId.None? || frameId.None? || count.None? || objects.None? {
        return Throws;
      }
      if !objects.value.Arr? {
        return if count.value == 0 then Accepted(TrackingFrame(streamId.value, frameId.value, 0, [])) else Rejected;
      }
      var parsed := ParseArray(objects.value.items);
      if parsed.None? {
        return Throws;
      }
      outcome := Accepted(TrackingFrame(streamId.value, frameId.value, ToInt32(|parsed.value|), parsed.value));
    }

    /** The object loop of `parse_line`. */
    method ParseArray(items: seq<Json>) returns (r: Option<seq<TrackingObject>>)
      ensures r == ParseObjects(items)
    {
      var parsed: seq<TrackingObject> := [];
      for i := 0 to |items|
        invariant ParseObjects(items[..i]) == Some(parsed)
      {
        var detection := ParseObject(items[i]);
        if detection.None? {
          ParseObjectsPointwise(items);
          return None;
        }
        assert items[..i + 1][..i] == items[..i];
        parsed := parsed + [detection.value];
      }
      assert items[..|items|] == items;
      r := Some(parsed);
    }

    /** One turn of the inner loop of `handle_client`: parses a line and publishes the frame. */
    method TakeFrame(line: string) returns (alive: bool)
      modifies this`latestFrame, this`delivered
      ensures FeedNow(alive) == ConsumeLine(old(FeedNow(true)), MeaningOf(reader), callbackSet, line)
    {
      var outcome := ParseLine(line);
      if outcome.Accepted? {
        latestFrame := outcome.frame;
        if callbackSet {
          delivered := delivered + [outcome.frame];
        }
      }
      alive := !outcome.Throws?;
    }

    /** The inner loop of `handle_client`: takes every complete line off the pending bytes. */
    method DrainPending(received: string) returns (alive: bool, pending: string)
      modifies this`latestFrame, this`delivered
      ensures FeedNow(alive) == Consume(old(FeedNow(true)), MeaningOf(reader), callbackSet, SplitLines(received).lines)
      ensures alive ==> pending == SplitLines(received).rest
    {
      ghost var end := Consume(FeedNow(true), MeaningOf(reader), callbackSet, SplitLines(received).lines);
      alive, pending := true, received;
      var pos := FindNewline(pending);
      while pos.Some?
        invariant pos == FindNewline(pending)
        invariant SplitLines(pending).rest == SplitLines(received).rest
        invariant Consume(FeedNow(true), MeaningOf(reader), callbackSet, SplitLines(pending).lines) == end
        decreases |pending|
      {
        TakeLine(FeedNow(true), MeaningOf(reader), callbackSet, pending, pos.value);
        var line := pending[..pos.value];
        pending := pending[pos.value + 1..];
        pos := FindNewline(pending);
        alive := TakeFrame(line);
        if !alive {
          return;
        }
      }
    }

    /** Appends a chunk to the pending bytes and drains them; the ghost arguments say how the
        connection will go on. */
    method TakeChunk(before: string, bytes: string, ghost more: string, ghost end: Feed, ghost rest: string)
      returns (alive: bool, pending: string)
      requires WillEndAs(FeedNow(true), MeaningOf(reader), callbackSet, before, bytes + more, end, rest)
      modifies this`latestFrame, this`delivered
      ensures alive ==> OneLine(pending)
      ensures alive ==> WillEndAs(FeedNow(true), MeaningOf(reader), callbackSet, pending, more, end, rest)
      ensures !alive ==> FeedNow(false) == end
    {
      ChunkArrives(FeedNow(true), MeaningOf(reader), callbackSet, before, bytes, more, end, rest);
      alive, pending := DrainPending(before + bytes);
    }

    /** `handle_client`: frames the received bytes and publishes every line that parses. The
        pending bytes are returned only so that the contract can speak of them; the code drops them. */
    method HandleClient(script: seq<Receive>) returns (alive: bool, pending: string)
      modifies this`latestFrame, this`delivered
      ensures FeedNow(alive) == Consume(old(FeedNow(true)), MeaningOf(reader), callbackSet, SplitLines(Received(script)).lines)
      ensures alive ==> pending == SplitLines(Received(script)).rest && OneLine(pending)
    {
      ghost var goal := SplitLines(Received(script));
      ghost var end := Consume(FeedNow(true), MeaningOf(reader), callbackSet, goal.lines);
      alive, pending := true, "";
      var i := 0;
      assert script[0..] == script && "" + Received(script) == Received(script);
      while i < |script|
        invariant 0 <= i <= |script| && OneLine(pending)
        invariant WillEndAs(FeedNow(true), MeaningOf(reader), callbackSet, pending, Received(script[i..]), end, goal.rest)
      {
        assert script[i..][1..] == script[i + 1..];
        if script[i].Stopped? || script[i].Closed? {
          break;
        }
        if script[i].Data? {
          alive, pending := TakeChunk(pending, script[i].bytes, Received(script[i + 1..]), end, goal.rest);
          if !alive {
            return;
          }
        }
        i := i + 1;
      }
      NothingMoreToCome(FeedNow(true), MeaningOf(reader), callbackSet, pending, end, goal.rest);
    }

    /** The accept loop's view of its clients, one after the other: no partial line carries over. */
    method ServeClients(connections: seq<seq<Receive>>) returns (alive: bool)
      modifies this`latestFrame, this`delivered
      ensures FeedNow(alive) == Consume(old(FeedNow(true)), MeaningOf(reader), callbackSet, ConnectionLines(connections))
    {
      ghost var end := Consume(FeedNow(true), MeaningOf(reader), callbackSet, ConnectionLines(connections));
      alive := true;
      assert connections[0..] == connections;
      for i := 0 to |connections|
        invariant alive
        invariant Consume(FeedNow(true), MeaningOf(reader), callbackSet, ConnectionLines(connections[i..])) == end
      {
        assert connections[i..][1..] == connections[i + 1..];
        ConsumeAppend(FeedNow(true), MeaningOf(reader), callbackSet,
                      SplitLines(Received(connections[i])).lines, ConnectionLines(connections[i + 1..]));
        var dropped: string;
        alive, dropped := HandleClient(connections[i]);
        if !alive {
          return;
        }
      }
    }

    /** The packet bytes, written one by one into a zeroed std::array. */
    method BuildPacket(index: byte, r: Request) returns (packet: Packet)
      ensures packet == PacketFor(index, r)
    {
      packet := PADDING + [0, 0, 0, 0, 0, 0, 0];
      packet := packet[16 := index];
      packet := packet[17 := r.x % 256];
      packet := packet[18 := r.x / 256 % 256];
      packet := packet[19 := r.y % 256];
      packet := packet[20 := r.y / 256 % 256];
      packet := packet[21 := if r.detection then 1 else 0];
      packet := packet[22 := if r.tracking then 1 else 0];
    }

    /** `send_control_command`: builds the packet, caches it, and writes it if a client is connected.
        `sent` is what `send` returns if it is called. */
    method SendControlCommand(r: Request, sent: int) returns (ok: bool)
      requires -1 <= sent <= PACKET_SIZE
      modifies this`controlPacketIndex, this`latestControlPacket, this`written
      ensures ControlNow() == Issue(old(ControlNow()), r)
      ensures ok <==> clientFd < 0 || sent == PACKET_SIZE
      ensures written == old(written) + if clientFd < 0 || sent < 0 then [] else latestControlPacket[..sent]
    {
      controlPacketIndex := NextIndex(controlPacketIndex);
      var packet := BuildPacket(controlPacketIndex, r);
      latestControlPacket := packet;
      if clientFd < 0 {
        return true;
      }
      if sent >= 0 {
        written := written + packet[..sent];
      }
      ok := sent == PACKET_SIZE;
    }
  }
}
