/** Incremental parser of the capture helper's output (packages/agent/src/h264-stream.ts). */
module HelperPacketParser {
  import opened Common
  import opened Bytes
  import opened PacketFraming

  const HEADER_BYTES := 5

  datatype HelperPacket = HelperPacket(isKey: bool, payload: seq<Byte>)

  predicate HaveHeaders(packets: seq<Packet>) {
    forall i :: 0 <= i < |packets| ==> |packets[i].header| == HEADER_BYTES
  }

  function Decode(p: Packet): HelperPacket
    requires |p.header| == HEADER_BYTES
  {
    HelperPacket(p.header[4] == 1, p.payload)
  }

  function DecodeAll(packets: seq<Packet>): seq<HelperPacket>
    requires HaveHeaders(packets)
  {
    seq(|packets|, i requires 0 <= i < |packets| => Decode(packets[i]))
  }

  lemma DecodeAllAppend(packets: seq<Packet>, p: Packet)
    requires HaveHeaders(packets) && |p.header| == HEADER_BYTES
    ensures DecodeAll(packets + [p]) == DecodeAll(packets) + [Decode(p)]
  {
  }

  /** One round of the consuming loop, in terms of what it reads. */
  lemma FrontOf(b: seq<Byte>)
    requires |b| >= HEADER_BYTES
    ensures var length := Read32(b, 0);
            ReadFront(Helper, b)
              == if length == 0 || length > MAX_PACKET_BYTES then Corrupt
                 else if |b| < HEADER_BYTES + length then Incomplete
                 else Whole(Packet(b[..HEADER_BYTES], b[HEADER_BYTES..HEADER_BYTES + length]), b[HEADER_BYTES + length..])
  {
    assert Read32(b[..HEADER_BYTES], 0) == Read32(b, 0);
  }

  class Parser {
    var buffer: seq<Byte>
    var isPoisoned: bool

    ghost function State(): PacketFraming.Parser
      reads this
    {
      PacketFraming.Parser(buffer, isPoisoned)
    }

    constructor ()
      ensures State() == FRESH
    {
      buffer, isPoisoned := [], false;
    }

    /** Returns the packets completed by this chunk, None on corruption. */
    method PushBytes(chunk: seq<Byte>) returns (r: Option<seq<HelperPacket>>)
      modifies this
      ensures var (q, out) := Push(Helper, old(State()), chunk);
              && State() == q && r.Some? == out.Some?
              && (out.Some? ==> HaveHeaders(out.value) && r.value == DecodeAll(out.value))
    {
      if isPoisoned { return None; }
      buffer := buffer + chunk;
      var packets := [];
      ghost var raw: seq<Packet> := [];
      ghost var whole := ScanPackets(Helper, buffer);
      while |buffer| >= HEADER_BYTES
        invariant !isPoisoned && HaveHeaders(raw) && packets == DecodeAll(raw)
        invariant whole == After(Scan(raw, [], false), ScanPackets(Helper, buffer))
        decreases |buffer|
      {
        FrontOf(buffer);
        var length := Read32(buffer, 0);
        if length == 0 || length > MAX_PACKET_BYTES {
          isPoisoned := true;
          buffer := [];
          return None;
        }
        if |buffer| < HEADER_BYTES + length { break; }
        packets := packets + [HelperPacket(buffer[4] == 1, buffer[HEADER_BYTES..HEADER_BYTES + length])];
        ghost var packet := ReadFront(Helper, buffer).packet;
        DecodeAllAppend(raw, packet);
        AfterBefore(raw, packet, ScanPackets(Helper, buffer[HEADER_BYTES + length..]));
        raw := raw + [packet];
        buffer := buffer[HEADER_BYTES + length..];
      }
      assert ReadFront(Helper, buffer).Incomplete?;
      assert raw + [] == raw;
      return Some(packets);
    }
  }
}
