/** Incremental parser of the mirroring stream (packages/agent/src/mirror-packet-parser.ts) against its encoder. */
module MirrorPacketParser {
  import opened Common
  import opened Bytes
  import opened PacketFraming
  import MirrorProtocol

  datatype MirrorPacket = MirrorPacket(isKey: bool, width: nat, height: nat, ptsMs: int, payload: seq<Byte>)

  datatype Dimensions = Dimensions(width: nat, height: nat)

  datatype PreambleResult = NeedMore | Bad | Good(dimensions: Dimensions)

  function ReadPreamble(bytes: seq<Byte>): (r: PreambleResult)
    ensures r.Good? ==> |bytes| >= MirrorProtocol.PREAMBLE_BYTES
  {
    if |bytes| < MirrorProtocol.PREAMBLE_BYTES then NeedMore
    else if Read32(bytes, 0) != MirrorProtocol.MAGIC || Read16(bytes, 4) != MirrorProtocol.VERSION
            || bytes[6] != MirrorProtocol.CODEC_H264 || Read16(bytes, 8) == 0 || Read16(bytes, 10) == 0 then Bad
    else Good(Dimensions(Read16(bytes, 8), Read16(bytes, 10)))
  }

  /** A preamble is accepted, as these dimensions, exactly if it is the one the device writes for them, whatever its reserved bytes
      are; and not before all its sixteen bytes are there. */
  lemma PreambleAcceptedIff(bytes: seq<Byte>, width: nat, height: nat)
    requires width < 0x1_0000 && height < 0x1_0000
    ensures var expected := MirrorProtocol.PreambleBytes(width, height);
            ReadPreamble(bytes) == Good(Dimensions(width, height)) <==>
              && width > 0 && height > 0 && |bytes| >= 16
              && bytes[..7] == expected[..7] && bytes[8..12] == expected[8..12]
  {
    var expected := MirrorProtocol.PreambleBytes(width, height);
    assert expected[0..4] == Be32(MirrorProtocol.MAGIC) && expected[4..6] == Be16(1) && expected[6] == 1;
    assert expected[8..10] == Be16(width) && expected[10..12] == Be16(height);
    assert expected[..7] == expected[0..4] + expected[4..6] + [expected[6]] && expected[8..12] == expected[8..10] + expected[10..12];
    if |bytes| >= 16 {
      assert bytes[..7] == bytes[0..4] + bytes[4..6] + [bytes[6]] && bytes[8..12] == bytes[8..10] + bytes[10..12];
      Write32Back(bytes, 0);
      Write16Back(bytes, 4);
      Write16Back(bytes, 8);
      Write16Back(bytes, 10);
      SameNumbers(bytes, expected);
    }
  }

  /** Equal slices read alike. */
  lemma SameNumbers(a: seq<Byte>, b: seq<Byte>)
    requires |a| >= 12 && |b| >= 12 && b[0..4] == Be32(MirrorProtocol.MAGIC)
    ensures a[..7] == b[..7] && a[8..12] == b[8..12] ==>
              Read32(a, 0) == Read32(b, 0) && Read16(a, 4) == Read16(b, 4) && a[6] == b[6]
              && Read16(a, 8) == Read16(b, 8) && Read16(a, 10) == Read16(b, 10)
  {
    if a[..7] == b[..7] && a[8..12] == b[8..12] {
      assert forall i :: 0 <= i < 7 ==> a[i] == a[..7][i] == b[i];
      assert forall i :: 0 <= i < 4 ==> a[8 + i] == a[8..12][i] == b[8 + i];
    }
  }

  function Decode(p: Packet): MirrorPacket
    requires |p.header| == MirrorProtocol.PACKET_HEADER_BYTES
  {
    MirrorPacket(p.header[0] % 2 == 1, Read16(p.header, 2), Read16(p.header, 4), Read32(p.header, 6), p.payload)
  }

  predicate HaveHeaders(packets: seq<Packet>) {
    forall i :: 0 <= i < |packets| ==> |packets[i].header| == MirrorProtocol.PACKET_HEADER_BYTES
  }

  function DecodeAll(packets: seq<Packet>): seq<MirrorPacket>
    requires HaveHeaders(packets)
  {
    seq(|packets|, i requires 0 <= i < |packets| => Decode(packets[i]))
  }

  lemma {:induction false} ScannedHaveHeaders(bytes: seq<Byte>)
    ensures HaveHeaders(ScanPackets(Mirror, bytes).packets)
    decreases |bytes|
  {
    var r := ReadFront(Mirror, bytes);
    if r.Whole? { ScannedHaveHeaders(r.rest); }
  }

  datatype ParserState = ParserState(framing: PacketFraming.Parser, preamble: Option<Dimensions>)

  const NEW_PARSER := ParserState(FRESH, None)

  /** One push: the preamble first, then packets. */
  function PushChunk(s: ParserState, chunk: seq<Byte>): (ParserState, Option<seq<Packet>>) {
    if s.framing.isPoisoned then (s, None)
    else if s.preamble.Some? then
      var (q, out) := Push(Mirror, s.framing, chunk);
      (s.(framing := q), out)
    else
      var bytes := s.framing.buffer + chunk;
      match ReadPreamble(bytes)
      case NeedMore => (s.(framing := PacketFraming.Parser(bytes, false)), Some([]))
      case Bad => (s.(framing := PacketFraming.Parser([], true)), None)
      case Good(d) =>
        var (q, out) := Consume(Mirror, bytes[MirrorProtocol.PREAMBLE_BYTES..]);
        (ParserState(q, Some(d)), out)
  }

  function PushChunks(chunks: seq<seq<Byte>>): (ParserState, seq<Packet>) {
    if chunks == [] then (NEW_PARSER, [])
    else
      var (p, emitted) := PushChunks(chunks[..|chunks| - 1]);
      var (q, out) := PushChunk(p, chunks[|chunks| - 1]);
      (q, emitted + if out.Some? then out.value else [])
  }

  /** What a stream says, read as a whole. */
  function ReadStream(bytes: seq<Byte>): (Option<Dimensions>, Scan) {
    match ReadPreamble(bytes)
    case NeedMore => (None, Scan([], bytes, false))
    case Bad => (None, Scan([], [], true))
    case Good(d) => (Some(d), ScanPackets(Mirror, bytes[MirrorProtocol.PREAMBLE_BYTES..]))
  }

  lemma PreambleStays(a: seq<Byte>, b: seq<Byte>)
    requires !ReadPreamble(a).NeedMore?
    ensures ReadPreamble(a + b) == ReadPreamble(a)
    ensures (a + b)[MirrorProtocol.PREAMBLE_BYTES..] == a[MirrorProtocol.PREAMBLE_BYTES..] + b
  {
  }

  /** The state after any series of pushes, told from the bytes received so far. */
  ghost predicate Follows(s: ParserState, emitted: seq<Packet>, bytes: seq<Byte>) {
    var (preamble, scan) := ReadStream(bytes);
    && s.preamble == preamble && s.framing.isPoisoned == scan.isCorrupt && s.framing.buffer == scan.rest
    && emitted <= scan.packets && (!scan.isCorrupt ==> emitted == scan.packets)
  }

  lemma PushFollows(s: ParserState, emitted: seq<Packet>, bytes: seq<Byte>, chunk: seq<Byte>)
    requires Follows(s, emitted, bytes)
    ensures var (t, out) := PushChunk(s, chunk);
            Follows(t, emitted + if out.Some? then out.value else [], bytes + chunk)
  {
    var n := MirrorProtocol.PREAMBLE_BYTES;
    match ReadPreamble(bytes)
    case NeedMore =>
      var r := ReadPreamble(bytes + chunk);
      if r.Good? {
        CorruptHasNoRest(Mirror, (bytes + chunk)[n..]);
      }
    case Bad => PreambleStays(bytes, chunk);
    case Good(_) =>
      PreambleStays(bytes, chunk);
      ScanAppend(Mirror, bytes[n..], chunk);
      CorruptHasNoRest(Mirror, bytes[n..]);
      CorruptHasNoRest(Mirror, bytes[n..] + chunk);
  }

  /** On any stream, cut anyhow: preamble, poison and buffer depend on the bytes alone; what was returned is all the
      packets of the stream if it is not corrupt, else a prefix of those before the corruption. */
  lemma {:induction false} ChunksFollow(chunks: seq<seq<Byte>>)
    ensures var (s, emitted) := PushChunks(chunks); Follows(s, emitted, Concat(chunks))
  {
    if chunks != [] {
      var before, last := chunks[..|chunks| - 1], chunks[|chunks| - 1];
      ChunksFollow(before);
      ConcatLast(chunks);
      var (s, emitted) := PushChunks(before);
      PushFollows(s, emitted, Concat(before), last);
    }
  }

  /** The same for streams with their preamble: every cut returns all packets before the corruption, or there is none,
      exactly when the stream is not corrupt or nothing precedes the corruption. */
  lemma NothingIsLostIff(stream: seq<Byte>)
    ensures var (_, scan) := ReadStream(stream);
            (forall chunks :: Concat(chunks) == stream ==> PushChunks(chunks).1 == scan.packets) <==> !scan.isCorrupt || scan.packets == []
  {
    var scan := ReadStream(stream).1;
    if !scan.isCorrupt || scan.packets == [] {
      forall chunks | Concat(chunks) == stream ensures PushChunks(chunks).1 == scan.packets {
        ChunksFollow(chunks);
      }
    } else {
      OnePushLosesAll(stream);
    }
  }

  lemma OnePushLosesAll(stream: seq<Byte>)
    requires ReadStream(stream).1.isCorrupt
    ensures Concat([stream]) == stream && PushChunks([stream]).1 == []
  {
    CorruptChunk(stream);
    SingleChunk(stream);
  }

  lemma CorruptChunk(stream: seq<Byte>)
    requires ReadStream(stream).1.isCorrupt
    ensures PushChunk(NEW_PARSER, stream).1.None?
  {
    assert NEW_PARSER.framing.buffer + stream == stream;
  }

  lemma SingleChunk(stream: seq<Byte>)
    ensures var out := PushChunk(NEW_PARSER, stream).1;
            PushChunks([stream]).1 == if out.Some? then out.value else []
  {
    hide PushChunk;
    assert PushChunks([stream][..0]) == (NEW_PARSER, []);
  }

  lemma BufferStaysSmall(chunks: seq<seq<Byte>>)
    ensures |PushChunks(chunks).0.framing.buffer| < MirrorProtocol.PACKET_HEADER_BYTES + MAX_PACKET_BYTES
  {
    ChunksFollow(chunks);
    var bytes := Concat(chunks);
    if ReadPreamble(bytes).Good? { RestIsSmall(Mirror, bytes[MirrorProtocol.PREAMBLE_BYTES..]); }
  }

  /** What the encoder takes: dimensions in range, a payload that is not empty, any 64-bit time stamp. */
  predicate IsEncodable(p: MirrorPacket) {
    MirrorProtocol.IsDimension(p.width) && MirrorProtocol.IsDimension(p.height) && 0 < |p.payload| < 0x8000_0000
  }

  function Encode(p: MirrorPacket): Packet {
    Packet(MirrorProtocol.HeaderBytes(p.isKey, p.width, p.height, p.ptsMs, |p.payload|), p.payload)
  }

  function EncodeAll(packets: seq<MirrorPacket>): seq<Packet> {
    seq(|packets|, i requires 0 <= i < |packets| => Encode(packets[i]))
  }

  /** The time stamp as it travels: its low 32 bits. */
  function Truncated(p: MirrorPacket): MirrorPacket {
    p.(ptsMs := ToUint32(p.ptsMs))
  }

  function TruncatedAll(packets: seq<MirrorPacket>): seq<MirrorPacket> {
    seq(|packets|, i requires 0 <= i < |packets| => Truncated(packets[i]))
  }

  lemma HeaderRoundTrip(p: MirrorPacket)
    requires IsEncodable(p)
    ensures IsFramed(Mirror, Encode(p)) && Decode(Encode(p)) == Truncated(p)
    ensures IsCorrupt(Mirror, Encode(p).header) <==> |p.payload| > MAX_PACKET_BYTES
  {
    hide Be16, Be32;
    var flags: seq<Byte> := [if p.isKey then MirrorProtocol.FLAG_KEY else 0] + [0];
    FieldsOf(flags, p.width, p.height, ToUint32(p.ptsMs), |p.payload|);
  }

  lemma FieldsOf(flags: seq<Byte>, width: nat, height: nat, pts: nat, length: nat)
    requires |flags| == 2
    ensures var header := flags + Be16(width) + Be16(height) + Be32(pts) + Be32(length);
            && |header| == 14 && header[0] == flags[0]
            && Read16(header, 2) == width % 0x1_0000 && Read16(header, 4) == height % 0x1_0000
            && Read32(header, 6) == ToUint32(pts) && Read32(header, 10) == ToUint32(length)
  {
    var header := flags + Be16(width) + Be16(height) + Be32(pts) + Be32(length);
    SlicesOf(flags, Be16(width), Be16(height), Be32(pts), Be32(length));
    Read16Back(header, 2, width);
    Read16Back(header, 4, height);
    Read32Back(header, 6, pts);
    Read32Back(header, 10, length);
  }

  lemma SlicesOf(flags: seq<Byte>, w: seq<Byte>, h: seq<Byte>, t: seq<Byte>, l: seq<Byte>)
    requires |flags| == |w| == |h| == 2 && |t| == |l| == 4
    ensures var header := flags + w + h + t + l;
            && |header| == 14 && header[0] == flags[0]
            && header[2..4] == w && header[4..6] == h && header[6..10] == t && header[10..14] == l
  {
  }

  lemma PreambleRoundTrip(width: nat, height: nat, later: seq<Byte>)
    requires MirrorProtocol.IsDimension(width) && MirrorProtocol.IsDimension(height)
    ensures var bytes := MirrorProtocol.PreambleBytes(width, height) + later;
            ReadPreamble(bytes) == Good(Dimensions(width, height)) && bytes[MirrorProtocol.PREAMBLE_BYTES..] == later
  {
    var p := MirrorProtocol.PreambleBytes(width, height);
    var bytes := p + later;
    assert bytes[0..4] == p[0..4] == Be32(MirrorProtocol.MAGIC);
    assert bytes[4..6] == p[4..6] == Be16(MirrorProtocol.VERSION);
    assert bytes[8..10] == p[8..10] == Be16(width);
    assert bytes[10..12] == p[10..12] == Be16(height);
    Read32Back(bytes, 0, MirrorProtocol.MAGIC);
    Read16Back(bytes, 4, MirrorProtocol.VERSION);
    Read16Back(bytes, 8, width);
    Read16Back(bytes, 10, height);
  }

  /** Whatever the encoder writes and however it arrives: the stream is taken as corrupt exactly when a payload is over
      8 MiB; otherwise the parser returns exactly the packets sent, stamps modulo 2^32, and keeps no byte back. */
  lemma EncodedStreamsComeBack(width: nat, height: nat, packets: seq<MirrorPacket>, chunks: seq<seq<Byte>>)
    requires MirrorProtocol.IsDimension(width) && MirrorProtocol.IsDimension(height)
    requires forall p :: p in packets ==> IsEncodable(p)
    requires Concat(chunks) == MirrorProtocol.PreambleBytes(width, height) + Wire(EncodeAll(packets))
    ensures var (s, emitted) := PushChunks(chunks);
            && s.preamble == Some(Dimensions(width, height))
            && (s.framing.isPoisoned <==> exists p :: p in packets && |p.payload| > 0x80_0000)
            && HaveHeaders(emitted) && DecodeAll(emitted) <= TruncatedAll(packets)
            && (!s.framing.isPoisoned ==> DecodeAll(emitted) == TruncatedAll(packets) && s.framing.buffer == [])
  {
    hide ReadPreamble, Wire, ScanPackets;
    var raw := EncodeAll(packets);
    PreambleRoundTrip(width, height, Wire(raw));
    ChunksFollow(chunks);
    EncodedAreFramed(packets);
    ScanWire(Mirror, raw);
    DecodesBack(packets, PushChunks(chunks).1);
  }

  lemma DecodesBack(packets: seq<MirrorPacket>, emitted: seq<Packet>)
    requires forall p :: p in packets ==> IsEncodable(p)
    requires emitted <= EncodeAll(packets)
    ensures HaveHeaders(emitted) && DecodeAll(emitted) == TruncatedAll(packets)[..|emitted|]
  {
    forall i | 0 <= i < |emitted| ensures |emitted[i].header| == 14 && Decode(emitted[i]) == Truncated(packets[i]) {
      assert emitted[i] == Encode(packets[i]) && packets[i] in packets;
      HeaderRoundTrip(packets[i]);
    }
  }

  lemma EncodedAreFramed(packets: seq<MirrorPacket>)
    requires forall p :: p in packets ==> IsEncodable(p)
    ensures forall p :: p in EncodeAll(packets) ==> IsFramed(Mirror, p)
    ensures (exists p :: p in EncodeAll(packets) && IsCorrupt(Mirror, p.header)) <==> exists p :: p in packets && |p.payload| > MAX_PACKET_BYTES
  {
    forall i | 0 <= i < |packets|
      ensures IsFramed(Mirror, Encode(packets[i]))
      ensures IsCorrupt(Mirror, Encode(packets[i]).header) <==> |packets[i].payload| > MAX_PACKET_BYTES
    {
      assert packets[i] in packets;
      HeaderRoundTrip(packets[i]);
    }
    forall p | p in packets ensures Encode(p) in EncodeAll(packets) {
      var i :| 0 <= i < |packets| && packets[i] == p;
      assert EncodeAll(packets)[i] == Encode(p);
    }
  }

  lemma DecodeAllAppend(packets: seq<Packet>, p: Packet)
    requires HaveHeaders(packets) && |p.header| == MirrorProtocol.PACKET_HEADER_BYTES
    ensures DecodeAll(packets + [p]) == DecodeAll(packets) + [Decode(p)]
  {
  }

  /** One round of the consuming loop, in terms of what it reads. */
  lemma FrontOf(b: seq<Byte>)
    requires |b| >= MirrorProtocol.PACKET_HEADER_BYTES
    ensures var n, length := MirrorProtocol.PACKET_HEADER_BYTES, Read32(b, 10);
            ReadFront(Mirror, b)
              == if Read16(b, 2) == 0 || Read16(b, 4) == 0 || length == 0 || length > MAX_PACKET_BYTES then Corrupt
                 else if |b| < n + length then Incomplete
                 else Whole(Packet(b[..n], b[n..n + length]), b[n + length..])
    ensures forall payload: seq<Byte> :: Decode(Packet(b[..MirrorProtocol.PACKET_HEADER_BYTES], payload))
              == MirrorPacket(b[0] % 2 == 1, Read16(b, 2), Read16(b, 4), Read32(b, 6), payload)
  {
    var h := b[..MirrorProtocol.PACKET_HEADER_BYTES];
    assert Read16(h, 2) == Read16(b, 2) && Read16(h, 4) == Read16(b, 4) && Read32(h, 6) == Read32(b, 6) && Read32(h, 10) == Read32(b, 10);
  }

  lemma ShortIsIncomplete(b: seq<Byte>)
    requires |b| < MirrorProtocol.PACKET_HEADER_BYTES
    ensures ReadFront(Mirror, b).Incomplete?
  {
  }

  class Parser {
    var buffer: seq<Byte>
    var isPoisoned: bool
    var parsedPreamble: Option<Dimensions>

    ghost function State(): ParserState
      reads this
    {
      ParserState(PacketFraming.Parser(buffer, isPoisoned), parsedPreamble)
    }

    constructor ()
      ensures State() == NEW_PARSER
    {
      buffer, isPoisoned, parsedPreamble := [], false, None;
    }

    /** Returns the packets completed by this chunk, None on corruption. */
    method PushBytes(chunk: seq<Byte>) returns (r: Option<seq<MirrorPacket>>)
      modifies this
      ensures var (t, out) := PushChunk(old(State()), chunk);
              && State() == t && r.Some? == out.Some?
              && (out.Some? ==> HaveHeaders(out.value) && r.value == DecodeAll(out.value))
    {
      if isPoisoned { return None; }
      buffer := buffer + chunk;
      if parsedPreamble.None? {
        var preamble := ConsumePreamble();
        if preamble.NeedMore? { return Some([]); }
        if preamble.Bad? {
          Poison();
          return None;
        }
        parsedPreamble := Some(preamble.dimensions);
      }
      r := ConsumePackets();
    }

    method ConsumePreamble() returns (r: PreambleResult)
      modifies this`buffer
      ensures r == ReadPreamble(old(buffer))
      ensures buffer == if r.Good? then old(buffer)[MirrorProtocol.PREAMBLE_BYTES..] else old(buffer)
    {
      if |buffer| < MirrorProtocol.PREAMBLE_BYTES { return NeedMore; }
      if Read32(buffer, 0) != MirrorProtocol.MAGIC { return Bad; }
      if Read16(buffer, 4) != MirrorProtocol.VERSION { return Bad; }
      if buffer[6] != MirrorProtocol.CODEC_H264 { return Bad; }
      var width, height := Read16(buffer, 8), Read16(buffer, 10);
      if width == 0 || height == 0 { return Bad; }
      buffer := buffer[MirrorProtocol.PREAMBLE_BYTES..];
      return Good(Dimensions(width, height));
    }

    method ConsumePackets() returns (r: Option<seq<MirrorPacket>>)
      requires !isPoisoned
      modifies this`buffer, this`isPoisoned
      ensures var (q, out) := Consume(Mirror, old(buffer));
              && PacketFraming.Parser(buffer, isPoisoned) == q && r.Some? == out.Some?
              && (out.Some? ==> HaveHeaders(out.value) && r.value == DecodeAll(out.value))
    {
      hide ReadFront, Decode, Read16, Read32;
      var packets := [];
      ghost var raw: seq<Packet> := [];
      ghost var whole := ScanPackets(Mirror, buffer);
      while |buffer| >= MirrorProtocol.PACKET_HEADER_BYTES
        invariant !isPoisoned && HaveHeaders(raw) && packets == DecodeAll(raw)
        invariant whole == After(Scan(raw, [], false), ScanPackets(Mirror, buffer))
        decreases |buffer|
      {
        FrontOf(buffer);
        var width, height, length := Read16(buffer, 2), Read16(buffer, 4), Read32(buffer, 10);
        if width == 0 || height == 0 || length == 0 || length > MAX_PACKET_BYTES {
          Poison();
          return None;
        }
        if |buffer| < MirrorProtocol.PACKET_HEADER_BYTES + length { break; }
        var end := MirrorProtocol.PACKET_HEADER_BYTES + length;
        packets := packets + [MirrorPacket(buffer[0] % 2 == 1, width, height, Read32(buffer, 6), buffer[MirrorProtocol.PACKET_HEADER_BYTES..end])];
        ghost var packet := ReadFront(Mirror, buffer).packet;
        DecodeAllAppend(raw, packet);
        AfterBefore(raw, packet, ScanPackets(Mirror, buffer[end..]));
        raw := raw + [packet];
        buffer := buffer[end..];
      }
      if |buffer| < MirrorProtocol.PACKET_HEADER_BYTES { ShortIsIncomplete(buffer); }
      assert raw + [] == raw;
      return Some(packets);
    }

    method Poison()
      modifies this`buffer, this`isPoisoned
      ensures isPoisoned && buffer == []
    {
      isPoisoned := true;
      buffer := [];
    }
  }
}
