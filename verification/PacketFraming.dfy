/** What the two incremental packet parsers of the agent have in common: a fixed header that announces the payload length
    (packages/agent/src/mirror-packet-parser.ts, packages/agent/src/h264-stream.ts). */
module PacketFraming {
  import opened Common
  import opened Bytes

  const MAX_PACKET_BYTES := 8 * 1024 * 1024

  /** Mirror: flags, reserved, width, height, pts, length. Helper: length, key flag. */
  datatype Format = Mirror | Helper {
    function HeaderBytes(): (n: nat)
      ensures 0 < n
    {
      if Mirror? then 14 else 5
    }
  }

  function LengthOf(f: Format, header: seq<Byte>): nat
    requires f.HeaderBytes() <= |header|
  {
    if f.Mirror? then Read32(header, 10) else Read32(header, 0)
  }

  predicate IsCorrupt(f: Format, header: seq<Byte>) {
    && f.HeaderBytes() <= |header|
    && (|| LengthOf(f, header) == 0 || LengthOf(f, header) > MAX_PACKET_BYTES
        || (f.Mirror? && (Read16(header, 2) == 0 || Read16(header, 4) == 0)))
  }

  datatype Packet = Packet(header: seq<Byte>, payload: seq<Byte>)

  /** What stands at the front of a byte string. */
  datatype Front = Incomplete | Corrupt | Whole(packet: Packet, rest: seq<Byte>)

  function ReadFront(f: Format, bytes: seq<Byte>): (r: Front)
    ensures r.Whole? ==> bytes == r.packet.header + r.packet.payload + r.rest && |r.rest| < |bytes|
  {
    var h := f.HeaderBytes();
    if |bytes| < h then Incomplete
    else if IsCorrupt(f, bytes[..h]) then Corrupt
    else
      var end := h + LengthOf(f, bytes[..h]);
      if |bytes| < end then Incomplete else Whole(Packet(bytes[..h], bytes[h..end]), bytes[end..])
  }

  /** The packets at the front of a byte string, and what stopped the scan: a corrupt header or an incomplete packet. */
  datatype Scan = Scan(packets: seq<Packet>, rest: seq<Byte>, isCorrupt: bool)

  /** A whole packet in front of anything else. */
  function Before(packet: Packet, later: Scan): Scan {
    Scan([packet] + later.packets, later.rest, later.isCorrupt)
  }

  function ScanPackets(f: Format, bytes: seq<Byte>): Scan
    decreases |bytes|
  {
    match ReadFront(f, bytes)
    case Incomplete => Scan([], bytes, false)
    case Corrupt => Scan([], [], true)
    case Whole(packet, rest) =>
      Before(packet, ScanPackets(f, rest))
  }

  function After(first: Scan, second: Scan): Scan {
    Scan(first.packets + second.packets, second.rest, second.isCorrupt)
  }

  lemma FrontAppend(f: Format, a: seq<Byte>, b: seq<Byte>)
    ensures var r := ReadFront(f, a);
            !r.Incomplete? ==> ReadFront(f, a + b) == if r.Whole? then Whole(r.packet, r.rest + b) else Corrupt
  {
    var h := f.HeaderBytes();
    if |a| >= h {
      assert (a + b)[..h] == a[..h];
      var end := h + LengthOf(f, a[..h]);
      if |a| >= end {
        assert (a + b)[h..end] == a[h..end] && (a + b)[end..] == a[end..] + b;
      }
    }
  }

  lemma BeforeAfter(packet: Packet, first: Scan, second: Scan)
    ensures After(Before(packet, first), second) == Before(packet, After(first, second))
  {
    assert ([packet] + first.packets) + second.packets == [packet] + (first.packets + second.packets);
  }

  lemma AfterBefore(packets: seq<Packet>, packet: Packet, later: Scan)
    ensures After(Scan(packets, [], false), Before(packet, later)) == After(Scan(packets + [packet], [], false), later)
  {
    assert packets + ([packet] + later.packets) == (packets + [packet]) + later.packets;
  }

  /** Scanning more bytes later is scanning the unconsumed rest together with them; corruption is found once and for all. */
  lemma {:induction false} ScanAppend(f: Format, a: seq<Byte>, b: seq<Byte>)
    ensures var first := ScanPackets(f, a);
            ScanPackets(f, a + b) == if first.isCorrupt then first else After(first, ScanPackets(f, first.rest + b))
    decreases |a|
  {
    FrontAppend(f, a, b);
    match ReadFront(f, a)
    case Corrupt =>
    case Incomplete =>
      var second := ScanPackets(f, a + b);
      assert [] + second.packets == second.packets;
    case Whole(packet, rest) =>
      ScanAppend(f, rest, b);
      var first := ScanPackets(f, rest);
      BeforeAfter(packet, first, ScanPackets(f, first.rest + b));
  }

  /** State of an incremental parser: the unconsumed bytes, dropped for good at the first corruption. */
  datatype Parser = Parser(buffer: seq<Byte>, isPoisoned: bool)

  const FRESH := Parser([], false)

  /** Taking all whole packets off the buffer: the new state and what is returned, None for corruption. */
  function Consume(f: Format, buffer: seq<Byte>): (Parser, Option<seq<Packet>>) {
    var s := ScanPackets(f, buffer);
    if s.isCorrupt then (Parser([], true), None) else (Parser(s.rest, false), Some(s.packets))
  }

  function Push(f: Format, p: Parser, chunk: seq<Byte>): (Parser, Option<seq<Packet>>) {
    if p.isPoisoned then (p, None) else Consume(f, p.buffer + chunk)
  }

  /** The state after a series of pushes and all packets they returned. */
  function PushAll(f: Format, chunks: seq<seq<Byte>>): (Parser, seq<Packet>) {
    if chunks == [] then (FRESH, [])
    else
      var (p, emitted) := PushAll(f, chunks[..|chunks| - 1]);
      var (q, out) := Push(f, p, chunks[|chunks| - 1]);
      (q, emitted + if out.Some? then out.value else [])
  }

  lemma {:induction false} ConcatLast(chunks: seq<seq<Byte>>)
    requires chunks != []
    ensures Concat(chunks) == Concat(chunks[..|chunks| - 1]) + chunks[|chunks| - 1]
  {
    if |chunks| > 1 {
      ConcatLast(chunks[1..]);
      assert chunks[1..][..|chunks| - 2] == chunks[..|chunks| - 1][1..];
    }
  }

  /** However the bytes are cut into chunks: poison depends on the bytes alone, without corruption what was returned is
      exactly the packets of the whole stream, and with corruption it is a prefix of those before the corrupt header. */
  lemma {:induction false} ChunksDoNotMatter(f: Format, chunks: seq<seq<Byte>>)
    ensures var (p, emitted) := PushAll(f, chunks); var s := ScanPackets(f, Concat(chunks));
            && p.isPoisoned == s.isCorrupt && p.buffer == s.rest && emitted <= s.packets
            && (!s.isCorrupt ==> emitted == s.packets)
  {
    if chunks != [] {
      var before, last := chunks[..|chunks| - 1], chunks[|chunks| - 1];
      ChunksDoNotMatter(f, before);
      ConcatLast(chunks);
      ScanAppend(f, Concat(before), last);
      CorruptHasNoRest(f, Concat(before));
      CorruptHasNoRest(f, Concat(chunks));
    }
  }

  lemma {:induction false} CorruptHasNoRest(f: Format, bytes: seq<Byte>)
    ensures ScanPackets(f, bytes).isCorrupt ==> ScanPackets(f, bytes).rest == []
    decreases |bytes|
  {
    var r := ReadFront(f, bytes);
    if r.Whole? { CorruptHasNoRest(f, r.rest); }
  }

  /** Every cut into chunks returns all whole packets exactly when the stream is not corrupt or no packet comes before
      the corruption: a push that meets corruption discards the packets it had already collected. */
  lemma NothingIsLostIff(f: Format, stream: seq<Byte>)
    ensures var s := ScanPackets(f, stream);
            (forall chunks :: Concat(chunks) == stream ==> PushAll(f, chunks).1 == s.packets) <==> !s.isCorrupt || s.packets == []
  {
    var s := ScanPackets(f, stream);
    if !s.isCorrupt || s.packets == [] {
      forall chunks | Concat(chunks) == stream ensures PushAll(f, chunks).1 == s.packets {
        ChunksDoNotMatter(f, chunks);
      }
    } else {
      CorruptPushLosesAll(f, stream);
    }
  }

  const GOOD_PACKET: seq<Byte> := [0, 0, 0, 1, 1, 7]
  const ZERO_LENGTH: seq<Byte> := [0, 0, 0, 0, 0]

  lemma ZeroLengthIsCorrupt()
    ensures ReadFront(Helper, ZERO_LENGTH) == Corrupt
  {
    assert ZERO_LENGTH[..5] == ZERO_LENGTH;
  }

  lemma GoodPacketComesFirst(later: seq<Byte>)
    ensures ReadFront(Helper, GOOD_PACKET + later) == Whole(Packet([0, 0, 0, 1, 1], [7]), later)
  {
    var bytes := GOOD_PACKET + later;
    assert bytes[..5] == [0, 0, 0, 1, 1] && bytes[5..6] == [7] && bytes[6..] == later;
  }

  /** The condition does fail: a good packet and a zero length in one push lose the packet. */
  lemma LossHappens()
    ensures var stream := GOOD_PACKET + ZERO_LENGTH;
            && ScanPackets(Helper, stream) == Scan([Packet([0, 0, 0, 1, 1], [7])], [], true)
            && Concat([stream]) == stream && PushAll(Helper, [stream]).1 == []
            && !(forall chunks :: Concat(chunks) == stream ==> PushAll(Helper, chunks).1 == ScanPackets(Helper, stream).packets)
  {
    hide ReadFront;
    var stream := GOOD_PACKET + ZERO_LENGTH;
    ZeroLengthIsCorrupt();
    GoodPacketComesFirst(ZERO_LENGTH);
    assert ScanPackets(Helper, ZERO_LENGTH) == Scan([], [], true);
    CorruptPushLosesAll(Helper, stream);
  }

  lemma CorruptPushLosesAll(f: Format, stream: seq<Byte>)
    requires ScanPackets(f, stream).isCorrupt
    ensures Concat([stream]) == stream && PushAll(f, [stream]).1 == []
  {
    assert PushAll(f, [stream][..0]) == (FRESH, []);
    assert FRESH.buffer + stream == stream;
  }

  /** What a parser keeps between pushes stays below a header and the largest payload. */
  lemma {:induction false} RestIsSmall(f: Format, bytes: seq<Byte>)
    ensures |ScanPackets(f, bytes).rest| < f.HeaderBytes() + MAX_PACKET_BYTES
    decreases |bytes|
  {
    var r := ReadFront(f, bytes);
    if r.Whole? { RestIsSmall(f, r.rest); }
  }

  lemma BufferIsBounded(f: Format, chunks: seq<seq<Byte>>)
    ensures |PushAll(f, chunks).0.buffer| < f.HeaderBytes() + 0x80_0000
  {
    ChunksDoNotMatter(f, chunks);
    RestIsSmall(f, Concat(chunks));
  }

  function Wire(packets: seq<Packet>): seq<Byte> {
    if packets == [] then [] else packets[0].header + packets[0].payload + Wire(packets[1..])
  }

  /** A header of the right size that announces its payload's length. */
  predicate IsFramed(f: Format, p: Packet) {
    |p.header| == f.HeaderBytes() && LengthOf(f, p.header) == |p.payload|
  }

  /** Framed packets come back as they are up to the first whose header is corrupt. */
  lemma {:induction false} ScanWire(f: Format, packets: seq<Packet>)
    requires forall p :: p in packets ==> IsFramed(f, p)
    ensures var s := ScanPackets(f, Wire(packets));
            && s.packets <= packets
            && (s.isCorrupt <==> exists p :: p in packets && IsCorrupt(f, p.header))
            && (!s.isCorrupt ==> s.packets == packets && s.rest == [])
  {
    if packets != [] {
      var p, tail, bytes := packets[0], packets[1..], Wire(packets);
      var end := f.HeaderBytes() + |p.payload|;
      assert p in packets && IsFramed(f, p);
      assert bytes[..f.HeaderBytes()] == p.header;
      assert bytes[f.HeaderBytes()..end] == p.payload && bytes[end..] == Wire(tail);
      ScanWire(f, tail);
      assert packets == [p] + tail;
    }
  }
}
