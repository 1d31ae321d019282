/** The 23-byte control packet, its sequence number, and the pixel a tracking point is sent as. */
module ControlPacket {
  import opened Wrappers

  type byte = b: int | 0 <= b < 256

  type uint16 = v: int | 0 <= v < 0x1_0000

  const PACKET_SIZE := 23

  /** Bytes 0 to 15 of every packet. */
  const PADDING: seq<byte> := [0, 0, 0, 0, 0, 0, 0, 0, 0, 0, 0, 0, 0, 0, 0, 0]

  type Packet = p: seq<byte> | |p| == PACKET_SIZE witness PADDING + [0, 0, 0, 0, 0, 0, 0]

  /** What a control packet asks the client to do. */
  datatype Command = Command(index: byte, x: uint16, y: uint16, detection: bool, tracking: bool)

  /** Sixteen zero bytes, the index, x and y little-endian, then the two flags. */
  function Encode(c: Command): Packet {
    PADDING + [c.index, c.x % 256, c.x / 256, c.y % 256, c.y / 256,
               if c.detection then 1 else 0, if c.tracking then 1 else 0]
  }

  function FromLittleEndian(low: byte, high: byte): (v: uint16)
    ensures v % 256 == low && v / 256 == high
  {
    var l: int, h: int := low, high;
    l + 256 * h
  }

  /** Reads a packet; None if the padding or a flag byte is not one the encoder writes. */
  function Decode(p: Packet): Option<Command> {
    if p[..16] == PADDING && p[21] <= 1 && p[22] <= 1
    then Some(Command(p[16], FromLittleEndian(p[17], p[18]), FromLittleEndian(p[19], p[20]), p[21] == 1, p[22] == 1))
    else None
  }

  lemma DecodeOfEncode(c: Command)
    ensures Decode(Encode(c)) == Some(c)
    ensures Encode(c)[..16] == PADDING
  {
    assert Encode(c)[..16] == PADDING;
  }

  /** The 23 bytes of a packet, one by one: sixteen zeros, the index, x and y with the low byte first,
      and the flags as 0 or 1. */
  lemma PacketLayout(c: Command)
    ensures var p := Encode(c);
            && |p| == 23
            && (forall i :: 0 <= i < 16 ==> p[i] == 0)
            && p[16] == c.index
            && p[17] == c.x % 256 && p[18] == c.x / 256
            && p[19] == c.y % 256 && p[20] == c.y / 256
            && p[21] == (if c.detection then 1 else 0)
            && p[22] == (if c.tracking then 1 else 0)
  {
    var p := Encode(c);
    forall i | 0 <= i < 16
      ensures p[i] == 0
    {
      assert p[i] == PADDING[i];
    }
  }

  /** Decoding accepts nothing but encodings. */
  lemma EncodeOfDecode(p: Packet)
    requires Decode(p).Some?
    ensures Encode(Decode(p).value) == p
  {
    var q := Encode(Decode(p).value);
    assert p == p[..16] + p[16..];
    assert q[16..] == p[16..];
  }

  /** Splits a byte stream into packets and decodes each of them. */
  function DecodeStream(bytes: seq<byte>): Option<seq<Command>>
    decreases |bytes|
  {
    if bytes == [] then Some([])
    else if |bytes| < PACKET_SIZE then None
    else
      var first := Decode(bytes[..PACKET_SIZE]);
      var more := DecodeStream(bytes[PACKET_SIZE..]);
      if first.None? || more.None? then None else Some([first.value] + more.value)
  }

  function EncodeStream(cs: seq<Command>): seq<byte> {
    if cs == [] then [] else Encode(cs[0]) + EncodeStream(cs[1..])
  }

  lemma {:induction false} DecodeOfEncodeStream(cs: seq<Command>)
    ensures DecodeStream(EncodeStream(cs)) == Some(cs)
  {
    if cs != [] {
      var bytes := EncodeStream(cs);
      assert cs == [cs[0]] + cs[1..];
      assert bytes[..PACKET_SIZE] == Encode(cs[0]);
      assert bytes[PACKET_SIZE..] == EncodeStream(cs[1..]);
      DecodeOfEncode(cs[0]);
      DecodeOfEncodeStream(cs[1..]);
    }
  }

  // ----- sequence numbers -----

  /** `++_control_packet_index` on a uint8_t. */
  function NextIndex(i: byte): byte {
    (i + 1) % 256
  }

  /** The index after n commands from a fresh server, which is the index the n-th packet carries. */
  function IndexAfter(n: nat): byte {
    if n == 0 then 0 else NextIndex(IndexAfter(n - 1))
  }

  lemma {:induction false} IndexIsCountModulo(n: nat)
    ensures IndexAfter(n) == n % 256
  {
    if n > 0 {
      IndexIsCountModulo(n - 1);
      NextOfModulo(n - 1);
    }
  }

  lemma NextOfModulo(a: nat)
    ensures (a % 256 + 1) % 256 == (a + 1) % 256
  {
    var q, r := a / 256, a % 256;
    assert a + 1 == 256 * q + (r + 1);
  }

  /** Two packets carry the same index exactly when their distance is a multiple of 256, so any
      256 consecutive packets have distinct indices. */
  lemma IndicesRepeatEvery256(m: nat, n: nat)
    requires m <= n
    ensures IndexAfter(m) == IndexAfter(n) <==> (n - m) % 256 == 0
    ensures m < n < m + 256 ==> IndexAfter(m) != IndexAfter(n)
  {
    IndexIsCountModulo(m);
    IndexIsCountModulo(n);
    SameRemainder(m, n);
  }

  lemma SameRemainder(m: nat, n: nat)
    requires m <= n
    ensures m % 256 == n % 256 <==> (n - m) % 256 == 0
  {
    var k, r := m / 256, m % 256;
    var l, t := n / 256, n % 256;
    assert n - m == 256 * (l - k) + (t - r);
    RemainderOfSum(l - k, t - r);
  }

  lemma RemainderOfSum(q: int, d: int)
    requires -256 < d < 256
    ensures (256 * q + d) % 256 == 0 <==> d == 0
  {
    var e := (256 * q + d) / 256;
    if (256 * q + d) % 256 == 0 {
      assert d == 256 * (e - q);
    }
  }

  // ----- the command cache -----

  /** The arguments of one control command. */
  datatype Request = Request(detection: bool, tracking: bool, x: uint16, y: uint16)

  const DETECT_ONLY := Request(true, false, 0, 0)

  /** The server fields a command updates: the packet index and the cached packet. */
  datatype Control = Control(index: byte, cache: seq<byte>)

  const FRESH_CONTROL := Control(0, [])

  function PacketFor(index: byte, r: Request): Packet {
    Encode(Command(index, r.x, r.y, r.detection, r.tracking))
  }

  function Issue(c: Control, r: Request): Control {
    var next := NextIndex(c.index);
    Control(next, PacketFor(next, r))
  }

  function IssueAll(rs: seq<Request>): Control {
    if rs == [] then FRESH_CONTROL else Issue(IssueAll(rs[..|rs| - 1]), rs[|rs| - 1])
  }

  /** After any run of commands the cache is empty, or decodes to the latest command numbered by
      the length of the run modulo 256. */
  lemma {:induction false} CacheHoldsLatestCommand(rs: seq<Request>)
    ensures IssueAll(rs).index == |rs| % 256
    ensures rs == [] ==> IssueAll(rs).cache == []
    ensures rs != [] ==>
              var r := rs[|rs| - 1];
              && |IssueAll(rs).cache| == PACKET_SIZE
              && Decode(IssueAll(rs).cache) == Some(Command(|rs| % 256, r.x, r.y, r.detection, r.tracking))
  {
    if rs != [] {
      var r := rs[|rs| - 1];
      CacheHoldsLatestCommand(rs[..|rs| - 1]);
      NextOfModulo(|rs| - 1);
      DecodeOfEncode(Command(|rs| % 256, r.x, r.y, r.detection, r.tracking));
    }
  }

  // ----- tracking points -----

  const SOURCE_WIDTH := 1920
  const PHOTO_SOURCE_HEIGHT := 1440
  const VIDEO_SOURCE_HEIGHT := 1080

  function Clamp(p: real): real {
    if p < 0.0 then 0.0 else if p > 1.0 then 1.0 else p
  }

  function SourceHeight(cameraMode: string): int {
    if cameraMode == "0" then PHOTO_SOURCE_HEIGHT else VIDEO_SOURCE_HEIGHT
  }

  predicate IsSourceSize(size: int) {
    size == SOURCE_WIDTH || size == PHOTO_SOURCE_HEIGHT || size == VIDEO_SOURCE_HEIGHT
  }

  /** Clamp, scale, truncate, and pull the right and bottom edge back inside. */
  function Pixel(p: real, size: int): (v: uint16)
    requires IsSourceSize(size)
    ensures 0 <= v < size
  {
    var scaled := (Clamp(p) * size as real).Floor;
    if scaled >= size then size - 1 else scaled
  }

  lemma FloorMonotone(a: real, b: real)
    requires a <= b
    ensures a.Floor <= b.Floor
  {
  }

  /** The pixel is the truncated scaled point; only the far edge itself moves, by one pixel. */
  lemma PixelError(p: real, size: int)
    requires IsSourceSize(size)
    ensures Clamp(p) * size as real - 1.0 <= Pixel(p, size) as real <= Clamp(p) * size as real
    ensures Pixel(p, size) == (Clamp(p) * size as real).Floor <==> p < 1.0
  {
    if size == SOURCE_WIDTH {
    } else if size == PHOTO_SOURCE_HEIGHT {
    } else {
    }
  }

  /** Points outside the picture are pulled to its edge. */
  lemma PixelOutside(p: real, size: int)
    requires IsSourceSize(size)
    ensures p <= 0.0 ==> Pixel(p, size) == 0
    ensures p >= 1.0 ==> Pixel(p, size) == size - 1
    ensures 0.0 <= p <= 1.0 ==> p * size as real - 1.0 <= Pixel(p, size) as real <= p * size as real
  {
    PixelError(p, size);
    if p <= 0.0 {
      assert Clamp(p) == 0.0;
    }
  }

  lemma PixelMonotone(p: real, q: real, size: int)
    requires IsSourceSize(size)
    requires p <= q
    ensures Pixel(p, size) <= Pixel(q, size)
  {
    if size == SOURCE_WIDTH {
      assert Clamp(p) * 1920.0 <= Clamp(q) * 1920.0;
    } else if size == PHOTO_SOURCE_HEIGHT {
      assert Clamp(p) * 1440.0 <= Clamp(q) * 1440.0;
    } else {
      assert Clamp(p) * 1080.0 <= Clamp(q) * 1080.0;
    }
    FloorMonotone(Clamp(p) * size as real, Clamp(q) * size as real);
  }

  /** The height of the picture tracking points refer to. */
  lemma SourceHeights(cameraMode: string)
    ensures SOURCE_WIDTH == 1920 && SourceHeight(cameraMode) == if cameraMode == "0" then 1440 else 1080
  {
  }

  /** A pixel is where a point falls in a picture of `size` pixels: within one pixel of it, or at the
      edge it lies beyond. */
  predicate Falls(p: real, size: int, v: int) {
    && 0 <= v < size
    && (p <= 0.0 ==> v == 0)
    && (p >= 1.0 ==> v == size - 1)
    && (0.0 <= p <= 1.0 ==> p * size as real - 1.0 <= v as real <= p * size as real)
  }

  /** End to end: whatever point is asked for, in either camera mode, the packet decodes to tracking
      and detection on, at the pixel the point falls on in a picture of 1920 by 1440 pixels in photo
      mode and 1920 by 1080 otherwise. */
  lemma PointReachesClient(index: byte, px: real, py: real, cameraMode: string)
    ensures var h := SourceHeight(cameraMode);
            var d := Decode(Encode(Command(index, Pixel(px, SOURCE_WIDTH), Pixel(py, h), true, true)));
            && d.Some? && d.value.index == index && d.value.detection && d.value.tracking
            && Falls(px, 1920, d.value.x) && Falls(py, if cameraMode == "0" then 1440 else 1080, d.value.y)
  {
    var h := SourceHeight(cameraMode);
    DecodeOfEncode(Command(index, Pixel(px, SOURCE_WIDTH), Pixel(py, h), true, true));
    SourceHeights(cameraMode);
    PixelOutside(px, SOURCE_WIDTH);
    PixelOutside(py, h);
  }
}
