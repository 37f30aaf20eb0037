/** Output of the capture helper: AVCC samples become Annex-B packets (mirror-helper/Sources/DeviceStreamer.swift). */
module DeviceStreamer {
  import opened Common
  import opened Bytes
  import opened PacketFraming
  import opened HelperPacketParser

  const START_CODE: seq<Byte> := [0, 0, 0, 1]

  /** No complete unit (4-byte length, then that many bytes) begins at `offset`. */
  predicate IsCutOff(avcc: seq<Byte>, offset: nat)
    requires offset <= |avcc|
  {
    |avcc| < offset + 4 || |avcc| < offset + 4 + Read32(avcc, offset)
  }

  /** The complete NAL units of an AVCC buffer from `offset` on. */
  function Units(avcc: seq<Byte>, offset: nat): seq<seq<Byte>>
    requires offset <= |avcc|
    decreases |avcc| - offset
  {
    if IsCutOff(avcc, offset) then []
    else
      var end := offset + 4 + Read32(avcc, offset);
      [avcc[offset + 4..end]] + Units(avcc, end)
  }

  /** Section B.1 of ITU-T H.264: each unit behind a start code. */
  function StartCoded(units: seq<seq<Byte>>): seq<Byte> {
    if units == [] then [] else START_CODE + units[0] + StartCoded(units[1..])
  }

  function Avcc(units: seq<seq<Byte>>): seq<Byte> {
    if units == [] then [] else Be32(|units[0]|) + units[0] + Avcc(units[1..])
  }

  predicate AreUnits(units: seq<seq<Byte>>) {
    forall u :: u in units ==> |u| < 0x1_0000_0000
  }

  /** Whatever the buffer holds: it is the encoding of its units and a rest without a complete unit. */
  lemma {:induction false} UnitsAreAll(avcc: seq<Byte>, offset: nat) returns (end: nat)
    requires offset <= |avcc|
    ensures offset <= end <= |avcc| && IsCutOff(avcc, end)
    ensures avcc[offset..end] == Avcc(Units(avcc, offset)) && AreUnits(Units(avcc, offset))
    decreases |avcc| - offset
  {
    if IsCutOff(avcc, offset) {
      end := offset;
    } else {
      var next := offset + 4 + Read32(avcc, offset);
      end := UnitsAreAll(avcc, next);
      UnitJoins(avcc, offset, next, end);
    }
  }

  /** The unit at `offset` in front of those from `next` on. */
  lemma UnitJoins(avcc: seq<Byte>, offset: nat, next: nat, end: nat)
    requires offset <= |avcc| && !IsCutOff(avcc, offset) && next == offset + 4 + Read32(avcc, offset) <= end <= |avcc|
    requires avcc[next..end] == Avcc(Units(avcc, next))
    ensures avcc[offset..end] == Avcc(Units(avcc, offset)) && |avcc[offset + 4..next]| < 0x1_0000_0000
  {
    hide Units, Avcc, Be32;
    Write32Back(avcc, offset);
    UnitsStep(avcc, offset, next);
    AvccStep(avcc[offset + 4..next], Units(avcc, next));
    ThreeSlices(avcc, offset, offset + 4, next, end);
  }

  lemma UnitsStep(avcc: seq<Byte>, offset: nat, next: nat)
    requires offset <= |avcc| && !IsCutOff(avcc, offset) && next == offset + 4 + Read32(avcc, offset)
    ensures Units(avcc, offset) == [avcc[offset + 4..next]] + Units(avcc, next)
  {
  }

  lemma AvccStep(unit: seq<Byte>, later: seq<seq<Byte>>)
    ensures Avcc([unit] + later) == Be32(|unit|) + unit + Avcc(later)
  {
    assert ([unit] + later)[1..] == later;
  }

  lemma ThreeSlices(s: seq<Byte>, a: nat, b: nat, c: nat, d: nat)
    requires a <= b <= c <= d <= |s|
    ensures s[a..d] == s[a..b] + s[b..c] + s[c..d]
  {
  }

  /** There is no other way to read the buffer. */
  lemma {:induction false} UnitsOfAvcc(avcc: seq<Byte>, offset: nat, end: nat, units: seq<seq<Byte>>)
    requires offset <= end <= |avcc| && AreUnits(units)
    requires avcc[offset..end] == Avcc(units) && IsCutOff(avcc, end)
    ensures Units(avcc, offset) == units
    decreases |units|
  {
    if units != [] {
      assert units[0] in units;
      var next := offset + 4 + |units[0]|;
      SplitAt(avcc, offset, end, Be32(|units[0]|) + units[0], Avcc(units[1..]));
      UnitInFront(avcc, offset, units[0], next);
      UnitsOfAvcc(avcc, next, end, units[1..]);
    }
  }

  lemma UnitInFront(avcc: seq<Byte>, offset: nat, unit: seq<Byte>, next: nat)
    requires next == offset + 4 + |unit| <= |avcc| && |unit| < 0x1_0000_0000
    requires avcc[offset..next] == Be32(|unit|) + unit
    ensures Units(avcc, offset) == [unit] + Units(avcc, next)
  {
    SplitAt(avcc, offset, next, Be32(|unit|), unit);
    Read32Back(avcc, offset, |unit|);
    assert Read32(avcc, offset) == |unit| && avcc[offset + 4..next] == unit;
  }

  lemma SplitAt(s: seq<Byte>, start: nat, end: nat, a: seq<Byte>, b: seq<Byte>)
    requires start <= end <= |s| && s[start..end] == a + b
    ensures var i := start + |a|; i <= end && s[start..i] == a && s[i..end] == b
  {
    assert s[start..end][..|a|] == a && s[start..end][|a|..] == b;
  }

  lemma {:induction false} StartCodedSize(units: seq<seq<Byte>>)
    ensures |StartCoded(units)| == |Avcc(units)|
  {
    if units != [] { StartCodedSize(units[1..]); }
  }

  /** Converting never yields more bytes than it was given. */
  lemma ConversionDoesNotGrow(avcc: seq<Byte>)
    ensures |StartCoded(Units(avcc, 0))| <= |avcc|
  {
    var end := UnitsAreAll(avcc, 0);
    StartCodedSize(Units(avcc, 0));
  }

  /** Units written behind length prefixes come out behind start codes. */
  lemma AvccBecomesAnnexB(units: seq<seq<Byte>>)
    requires AreUnits(units)
    ensures StartCoded(Units(Avcc(units), 0)) == StartCoded(units)
  {
    assert Avcc(units)[0..|Avcc(units)|] == Avcc(units);
    UnitsOfAvcc(Avcc(units), 0, |Avcc(units)|, units);
  }

  /** The conversion loop; the array bounds are checked at every read. */
  method AppendAnnexB(data: array<Byte>, payload: seq<Byte>) returns (r: seq<Byte>)
    ensures r == payload + StartCoded(Units(data[..], 0))
  {
    hide Units, StartCoded;
    r := payload;
    var offset := 0;
    ghost var bytes := data[..];
    while offset + 4 <= data.Length
      invariant offset <= data.Length && bytes == data[..]
      invariant payload + StartCoded(Units(bytes, 0)) == r + StartCoded(Units(bytes, offset))
      decreases data.Length - offset
    {
      Round(bytes, offset, r);
      var prefix := data[offset..offset + 4];
      assert prefix == bytes[offset..offset + 4];
      var nalLength := Read32(prefix, 0);
      offset := offset + 4;
      if offset + nalLength > data.Length { return; }
      r := r + START_CODE;
      r := r + data[offset..offset + nalLength];
      offset := offset + nalLength;
    }
    NothingLeft(bytes, offset, r);
  }

  lemma NothingLeft(bytes: seq<Byte>, offset: nat, r: seq<Byte>)
    requires |bytes| < offset + 4 && offset <= |bytes|
    ensures r + StartCoded(Units(bytes, offset)) == r
  {
    assert r + [] == r;
  }

  /** One round of the loop: the conversion still to be done shrinks by one unit, or there was none. */
  lemma Round(bytes: seq<Byte>, offset: nat, r: seq<Byte>)
    requires offset + 4 <= |bytes|
    ensures var end := offset + 4 + Read32(bytes[offset..offset + 4], 0);
            r + StartCoded(Units(bytes, offset))
              == if end > |bytes| then r else r + START_CODE + bytes[offset + 4..end] + StartCoded(Units(bytes, end))
  {
    var end := offset + 4 + Read32(bytes[offset..offset + 4], 0);
    assert end == offset + 4 + Read32(bytes, offset);
    if end <= |bytes| {
      var unit, later := bytes[offset + 4..end], Units(bytes, end);
      assert ([unit] + later)[1..] == later;
      Regroup(r, START_CODE, unit, StartCoded(later));
    } else {
      assert r + [] == r;
    }
  }

  lemma Regroup(a: seq<Byte>, b: seq<Byte>, c: seq<Byte>, d: seq<Byte>)
    ensures a + (b + c + d) == a + b + c + d
  {
  }

  /** What VideoToolbox hands over. None in `parameterSets`: no format description, inside: a set that cannot be read.
      None in `buffer`: no data buffer, inside: its bytes cannot be reached. */
  datatype Sample = Sample(isKey: bool, parameterSets: Option<seq<Option<seq<Byte>>>>, buffer: Option<Option<seq<Byte>>>)

  /** NAL units of a frame, parameter sets first on a key frame. */
  function ReadableSets(sets: seq<Option<seq<Byte>>>): seq<seq<Byte>> {
    if sets == [] then []
    else (if sets[0].Some? then [sets[0].value] else []) + ReadableSets(sets[1..])
  }

  function SetUnits(s: Sample): seq<seq<Byte>> {
    if s.isKey && s.parameterSets.Some? then ReadableSets(s.parameterSets.value) else []
  }

  function BufferUnits(s: Sample): seq<seq<Byte>> {
    if s.buffer.Some? && s.buffer.value.Some? then Units(s.buffer.value.value, 0) else []
  }

  /** A sample without data buffer is dropped. */
  function Payload(s: Sample): seq<Byte> {
    if s.buffer.None? then [] else StartCoded(SetUnits(s) + BufferUnits(s))
  }

  lemma {:induction false} StartCodedJoins(a: seq<seq<Byte>>, b: seq<seq<Byte>>)
    ensures StartCoded(a + b) == StartCoded(a) + StartCoded(b)
  {
    if a == [] {
      assert a + b == b;
    } else {
      StartCodedJoins(a[1..], b);
      assert (a + b)[1..] == a[1..] + b;
    }
  }

  /** [length][key flag][payload]. */
  function Frame(isKey: bool, payload: seq<Byte>): Packet {
    Packet(Be32(|payload|) + [if isKey then 1 else 0], payload)
  }

  method AppendParameterSets(sets: seq<Option<seq<Byte>>>, payload: seq<Byte>) returns (r: seq<Byte>)
    ensures r == payload + StartCoded(ReadableSets(sets))
  {
    r := payload;
    for i := 0 to |sets|
      invariant r + StartCoded(ReadableSets(sets[i..])) == payload + StartCoded(ReadableSets(sets))
    {
      SetFirst(sets, i, r);
      if sets[i].None? { continue; }
      r := r + START_CODE;
      r := r + sets[i].value;
    }
    assert r + [] == r;
  }

  lemma SetFirst(sets: seq<Option<seq<Byte>>>, i: nat, r: seq<Byte>)
    requires i < |sets|
    ensures r + StartCoded(ReadableSets(sets[i..]))
         == (if sets[i].Some? then r + START_CODE + sets[i].value else r) + StartCoded(ReadableSets(sets[i + 1..]))
  {
    assert sets[i..][1..] == sets[i + 1..];
    var later := ReadableSets(sets[i + 1..]);
    if sets[i].Some? {
      assert ([sets[i].value] + later)[1..] == later;
      Regroup(r, START_CODE, sets[i].value, StartCoded(later));
    } else {
      assert [] + later == later;
    }
  }

  method BuildPayload(s: Sample, buffer: array<Byte>) returns (payload: seq<Byte>)
    requires s.buffer.Some? && (s.buffer.value.Some? ==> buffer[..] == s.buffer.value.value)
    ensures payload == Payload(s)
  {
    StartCodedJoins(SetUnits(s), BufferUnits(s));
    payload := [];
    if s.isKey && s.parameterSets.Some? {
      payload := AppendParameterSets(s.parameterSets.value, payload);
    }
    assert payload == StartCoded(SetUnits(s));
    if s.buffer.value.Some? {
      payload := AppendAnnexB(buffer, payload);
    }
  }

  /** The bytes written to standard output, nothing for a sample without a unit; `buffer` is the sample's data in memory.
      None: a payload of 4 GiB or more does not fit the length field and stops the helper. */
  method EmitFrame(s: Sample, buffer: array<Byte>) returns (out: Option<seq<Byte>>)
    requires s.buffer.Some? && s.buffer.value.Some? ==> buffer[..] == s.buffer.value.value
    ensures out == if |Payload(s)| >= 0x1_0000_0000 then None
                   else if Payload(s) == [] then Some([]) else Some(Wire([Frame(s.isKey, Payload(s))]))
  {
    if s.buffer.None? { return Some([]); }
    var payload := BuildPayload(s, buffer);
    if payload == [] { return Some([]); }
    if |payload| >= 0x1_0000_0000 { return None; }
    var packet := Be32(|payload|);
    packet := packet + [if s.isKey then 1 else 0];
    packet := packet + payload;
    WireOfOne(Frame(s.isKey, payload));
    out := Some(packet);
  }

  lemma WireOfOne(p: Packet)
    ensures Wire([p]) == p.header + p.payload
  {
    assert p.header + p.payload + Wire([]) == p.header + p.payload;
  }

  /** All frames written for a series of samples. */
  function FramesOf(samples: seq<Sample>): seq<HelperPacket> {
    if samples == [] then []
    else
      FramesOf(samples[..|samples| - 1])
      + if Payload(samples[|samples| - 1]) == [] then [] else [HelperPacket(samples[|samples| - 1].isKey, Payload(samples[|samples| - 1]))]
  }

  function Framed(frames: seq<HelperPacket>): seq<Packet> {
    seq(|frames|, i requires 0 <= i < |frames| => Frame(frames[i].isKey, frames[i].payload))
  }

  lemma FrameRoundTrip(p: HelperPacket)
    requires 0 < |p.payload| < 0x1_0000_0000
    ensures var f := Frame(p.isKey, p.payload);
            && IsFramed(Helper, f) && HelperPacketParser.Decode(f) == p
            && (IsCorrupt(Helper, f.header) <==> |p.payload| > MAX_PACKET_BYTES)
  {
    var h := Frame(p.isKey, p.payload).header;
    assert h[0..4] == Be32(|p.payload|);
    Read32Back(h, 0, |p.payload|);
  }

  lemma {:induction false} FramesHavePayload(samples: seq<Sample>)
    ensures forall p :: p in FramesOf(samples) ==> p.payload != []
  {
    if samples != [] { FramesHavePayload(samples[..|samples| - 1]); }
  }

  /** From samples to the agent: however the helper's output is cut into chunks, the agent takes it as corrupt exactly when
      a frame is over 8 MiB; otherwise it gets each non-empty frame, key flag and Annex-B payload unchanged. */
  lemma HelperOutputComesBack(samples: seq<Sample>, chunks: seq<seq<Byte>>)
    requires forall p :: p in FramesOf(samples) ==> |p.payload| < 0x1_0000_0000
    requires Concat(chunks) == Wire(Framed(FramesOf(samples)))
    ensures var (q, emitted) := PushAll(Helper, chunks);
            && (q.isPoisoned <==> exists p :: p in FramesOf(samples) && |p.payload| > 0x80_0000)
            && HelperPacketParser.HaveHeaders(emitted) && HelperPacketParser.DecodeAll(emitted) <= FramesOf(samples)
            && (!q.isPoisoned ==> HelperPacketParser.DecodeAll(emitted) == FramesOf(samples) && q.buffer == [])
  {
    var frames := FramesOf(samples);
    FramesHavePayload(samples);
    FramesAreFramed(frames);
    ChunksDoNotMatter(Helper, chunks);
    ScanWire(Helper, Framed(frames));
    FramesDecode(frames, PushAll(Helper, chunks).1);
  }

  lemma FramesDecode(frames: seq<HelperPacket>, emitted: seq<Packet>)
    requires forall p :: p in frames ==> 0 < |p.payload| < 0x1_0000_0000
    requires emitted <= Framed(frames)
    ensures HelperPacketParser.HaveHeaders(emitted) && HelperPacketParser.DecodeAll(emitted) == frames[..|emitted|]
  {
    forall i | 0 <= i < |emitted| ensures |emitted[i].header| == 5 && HelperPacketParser.Decode(emitted[i]) == frames[i] {
      assert emitted[i] == Frame(frames[i].isKey, frames[i].payload) && frames[i] in frames;
      FrameRoundTrip(frames[i]);
    }
  }

  lemma FramesAreFramed(frames: seq<HelperPacket>)
    requires forall p :: p in frames ==> 0 < |p.payload| < 0x1_0000_0000
    ensures forall p :: p in Framed(frames) ==> IsFramed(Helper, p)
    ensures (exists p :: p in Framed(frames) && IsCorrupt(Helper, p.header)) <==> exists p :: p in frames && |p.payload| > MAX_PACKET_BYTES
  {
    var raw := Framed(frames);
    forall i | 0 <= i < |frames|
      ensures IsFramed(Helper, raw[i]) && (IsCorrupt(Helper, raw[i].header) <==> |frames[i].payload| > MAX_PACKET_BYTES)
    {
      assert frames[i] in frames;
      FrameRoundTrip(frames[i]);
    }
    forall p | p in frames ensures Frame(p.isKey, p.payload) in raw {
      var i :| 0 <= i < |frames| && frames[i] == p;
      assert raw[i] == Frame(p.isKey, p.payload);
    }
  }
}
