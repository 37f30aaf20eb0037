/** Binary codec of mirroring frames: agent to server, server to viewer (packages/shared/src/frame-codec.ts). */
module FrameCodec {
  import opened Common
  import opened Bytes

  const FRAME_FORMAT_H264: Byte := 2
  const MAX_DEVICE_ID_BYTES := 255
  const MAX_DIMENSION := 65_535
  const BODY_BYTES := 10
  const BYTE_ORDER_MARK: seq<Byte> := [0xEF, 0xBB, 0xBF]

  datatype Picture = Picture(isKey: bool, width: int, height: int, stampMs: int, payload: seq<Byte>)

  /** `deviceId` is the UTF-8 form of the identifier, which for allowed characters is their ASCII codes. */
  datatype AgentFrame = AgentFrame(deviceId: seq<Byte>, picture: Picture)

  predicate IsValidDimension(n: int) {
    0 < n <= MAX_DIMENSION
  }

  /** A JavaScript number as an encoder may be given it. */
  datatype Number = Finite(value: real) | NotFinite

  datatype Input = Input(isKey: bool, width: Number, height: Number, stampMs: Number, payload: seq<Byte>)

  /** An integer from 1 to 65535; fractions, infinities and NaN are refused. */
  predicate IsDimension(n: Number) {
    n.Finite? && n.value == n.value.Floor as real && IsValidDimension(n.value.Floor)
  }

  /** The integer that `>>> 0` starts from: the fraction is cut off, what is not finite counts as 0. */
  function IntegerPart(n: Number): int {
    if n.NotFinite? then 0 else if n.value >= 0.0 then n.value.Floor else -((-n.value).Floor)
  }

  function PictureOf(x: Input): Picture
    requires IsDimension(x.width) && IsDimension(x.height)
  {
    Picture(x.isKey, x.width.value.Floor, x.height.value.Floor, IntegerPart(x.stampMs), x.payload)
  }

  predicate IsAllowed(b: Byte) {
    || 'A' as int <= b <= 'Z' as int || 'a' as int <= b <= 'z' as int || '0' as int <= b <= '9' as int
    || b == '.' as int || b == '_' as int || b == '-' as int
  }

  /** 1 to 128 letters, digits, dots, underscores, hyphens. */
  predicate IsDeviceId(id: seq<Byte>) {
    1 <= |id| <= 128 && forall i :: 0 <= i < |id| ==> IsAllowed(id[i])
  }

  /** TextDecoder drops one byte order mark at the front; anything that is not ASCII fails the identifier check. */
  function DecodeId(bytes: seq<Byte>): Option<seq<Byte>> {
    var text := if BYTE_ORDER_MARK <= bytes then bytes[3..] else bytes;
    if IsDeviceId(text) then Some(text) else None
  }

  function BodyOf(p: Picture): seq<Byte>
    requires IsValidDimension(p.width) && IsValidDimension(p.height)
  {
    [FRAME_FORMAT_H264] + [if p.isKey then 1 else 0] + Be16(p.width) + Be16(p.height) + Be32(ToUint32(p.stampMs)) + p.payload
  }

  predicate IsAgentEncodable(f: AgentFrame) {
    0 < |f.deviceId| <= MAX_DEVICE_ID_BYTES && IsValidDimension(f.picture.width) && IsValidDimension(f.picture.height)
  }

  function AgentBytes(f: AgentFrame): seq<Byte>
    requires IsAgentEncodable(f)
  {
    [|f.deviceId|] + f.deviceId + BodyOf(f.picture)
  }

  /** What a body says, wherever it stands: key flag, dimensions, stamp and the rest as payload. */
  function ReadBody(data: seq<Byte>, at: nat): Option<Picture>
    requires at + BODY_BYTES <= |data|
  {
    var width, height := Read16(data, at + 2), Read16(data, at + 4);
    if data[at] != FRAME_FORMAT_H264 || !IsValidDimension(width) || !IsValidDimension(height) then None
    else Some(Picture(data[at + 1] == 1, width, height, Read32(data, at + 6), data[at + 10..]))
  }

  /** Total: every byte string is decoded or refused without reading outside it. */
  function DecodeAgentFrame(data: seq<Byte>): Option<AgentFrame> {
    if |data| < 12 then None
    else
      var idLength := data[0];
      if idLength == 0 || |data| < 1 + idLength + BODY_BYTES + 1 then None
      else
        var deviceId := DecodeId(data[1..1 + idLength]);
        if deviceId.None? then None
        else
          match ReadBody(data, 1 + idLength)
          case None => None
          case Some(picture) => Some(AgentFrame(deviceId.value, picture))
  }

  function DecodeViewerFrame(data: seq<Byte>): Option<Picture> {
    if |data| < 11 then None else ReadBody(data, 0)
  }

  /** None stands for the exceptions thrown on bad identifiers, dimensions and stamps. */
  method EncodeAgentFrame(deviceId: seq<Byte>, x: Input) returns (r: Option<array<Byte>>)
    ensures r.Some? <==> 0 < |deviceId| <= MAX_DEVICE_ID_BYTES && IsDimension(x.width) && IsDimension(x.height) && x.stampMs.Finite?
    ensures r.Some? ==> fresh(r.value) && r.value[..] == AgentBytes(AgentFrame(deviceId, PictureOf(x)))
  {
    if |deviceId| == 0 || |deviceId| > MAX_DEVICE_ID_BYTES { return None; }
    if !IsDimension(x.width) || !IsDimension(x.height) { return None; }
    if x.stampMs.NotFinite? { return None; }
    var out := new Byte[1 + |deviceId| + 10 + |x.payload|];
    var offset := 0;
    out[offset] := |deviceId|;
    offset := offset + 1;
    PutAll(out, offset, deviceId);
    offset := offset + |deviceId|;
    assert out[..offset] == [|deviceId|] + deviceId;
    WriteBody(out, offset, PictureOf(x));
    return Some(out);
  }

  /** What both encoders write behind their first `at` bytes. */
  method WriteBody(out: array<Byte>, at: nat, p: Picture)
    requires IsValidDimension(p.width) && IsValidDimension(p.height)
    requires at + BODY_BYTES + |p.payload| == out.Length
    modifies out
    ensures out[..] == old(out[..at]) + BodyOf(p)
  {
    ghost var head := out[..at];
    out[at] := FRAME_FORMAT_H264;
    out[at + 1] := if p.isKey then 1 else 0;
    ghost var flags := head + ([FRAME_FORMAT_H264] + [if p.isKey then 1 else 0]);
    assert out[..at + 2] == flags;
    Put16(out, at + 2, p.width);
    Put16(out, at + 4, p.height);
    assert out[..at + 6] == flags + Be16(p.width) + Be16(p.height);
    Put32(out, at + 6, ToUint32(p.stampMs));
    PutAll(out, at + 10, p.payload);
    assert out[..] == flags + Be16(p.width) + Be16(p.height) + Be32(ToUint32(p.stampMs)) + p.payload;
    Joined(head, [FRAME_FORMAT_H264] + [if p.isKey then 1 else 0], Be16(p.width), Be16(p.height), Be32(ToUint32(p.stampMs)), p.payload);
  }

  lemma Joined(head: seq<Byte>, flags: seq<Byte>, w: seq<Byte>, h: seq<Byte>, t: seq<Byte>, payload: seq<Byte>)
    ensures head + flags + w + h + t + payload == head + (flags + w + h + t + payload)
  {
  }

  /** A stamp that is not finite is written as 0 here. */
  method EncodeViewerFrame(x: Input) returns (r: Option<array<Byte>>)
    ensures r.Some? <==> IsDimension(x.width) && IsDimension(x.height)
    ensures r.Some? ==> fresh(r.value) && r.value[..] == BodyOf(PictureOf(x))
  {
    if !IsDimension(x.width) || !IsDimension(x.height) { return None; }
    var out := new Byte[10 + |x.payload|];
    WriteBody(out, 0, PictureOf(x));
    assert [] + BodyOf(PictureOf(x)) == BodyOf(PictureOf(x));
    return Some(out);
  }

  /** Whole numbers pass unchanged: a picture with valid dimensions can be handed to the encoders as it is. */
  lemma PicturesCanBeGiven(p: Picture)
    requires IsValidDimension(p.width) && IsValidDimension(p.height)
    ensures var x := Input(p.isKey, Finite(p.width as real), Finite(p.height as real), Finite(p.stampMs as real), p.payload);
            IsDimension(x.width) && IsDimension(x.height) && PictureOf(x) == p
  {
    var m := -(p.stampMs as real);
    assert m == (-p.stampMs) as real && m.Floor == -p.stampMs;
  }

  /** The stamp as it travels: its low 32 bits. */
  function Truncated(p: Picture): Picture {
    p.(stampMs := ToUint32(p.stampMs))
  }

  lemma BodyReadsBack(head: seq<Byte>, p: Picture)
    requires IsValidDimension(p.width) && IsValidDimension(p.height)
    ensures var data := head + BodyOf(p);
            |data| == |head| + BODY_BYTES + |p.payload| && ReadBody(data, |head|) == Some(Truncated(p))
  {
    var data, n := head + BodyOf(p), |head|;
    FieldsOf(head, [FRAME_FORMAT_H264] + [if p.isKey then 1 else 0], Be16(p.width), Be16(p.height), Be32(ToUint32(p.stampMs)), p.payload);
    Read16Back(data, n + 2, p.width);
    Read16Back(data, n + 4, p.height);
    Read32Back(data, n + 6, ToUint32(p.stampMs));
  }

  lemma FieldsOf(head: seq<Byte>, flags: seq<Byte>, w: seq<Byte>, h: seq<Byte>, t: seq<Byte>, payload: seq<Byte>)
    requires |flags| == |w| == |h| == 2 && |t| == 4
    ensures var data, n := head + (flags + w + h + t + payload), |head|;
            && data[n] == flags[0] && data[n + 1] == flags[1]
            && data[n + 2..n + 4] == w && data[n + 4..n + 6] == h && data[n + 6..n + 10] == t && data[n + 10..] == payload
  {
  }

  /** The server understands what an agent encodes exactly when the identifier, less a byte order mark, is an allowed one
      and the payload is not empty; then it gets the same picture, stamp modulo 2^32. */
  lemma AgentRoundTrip(f: AgentFrame)
    requires IsAgentEncodable(f)
    ensures DecodeAgentFrame(AgentBytes(f))
         == if DecodeId(f.deviceId).Some? && f.picture.payload != [] then Some(AgentFrame(DecodeId(f.deviceId).value, Truncated(f.picture)))
            else None
  {
    var data, head := AgentBytes(f), [|f.deviceId| as Byte] + f.deviceId;
    BodyReadsBack(head, f.picture);
    assert data[1..1 + |f.deviceId|] == f.deviceId;
  }

  lemma ViewerRoundTrip(p: Picture)
    requires IsValidDimension(p.width) && IsValidDimension(p.height)
    ensures DecodeViewerFrame(BodyOf(p)) == if p.payload != [] then Some(Truncated(p)) else None
  {
    BodyReadsBack([], p);
    assert [] + BodyOf(p) == BodyOf(p);
  }

  /** Agent to server to viewer: a frame of a valid device with a payload arrives with key flag, dimensions and payload
      unchanged and the stamp modulo 2^32, under the identifier it was sent for. */
  lemma RelayKeepsMeaning(f: AgentFrame)
    requires IsAgentEncodable(f) && IsDeviceId(f.deviceId) && f.picture.payload != []
    ensures var received := DecodeAgentFrame(AgentBytes(f));
            && received.Some? && received.value.deviceId == f.deviceId
            && IsValidDimension(received.value.picture.width) && IsValidDimension(received.value.picture.height)
            && DecodeViewerFrame(BodyOf(received.value.picture)) == Some(Truncated(f.picture))
  {
    AgentRoundTrip(f);
    assert IsAllowed(f.deviceId[0]) && f.deviceId[0] != BYTE_ORDER_MARK[0];
    ViewerRoundTrip(Truncated(f.picture));
  }

  /** Decoded pictures can be encoded again, and that gives the bytes back but for a key byte other than 0 and 1. */
  lemma BodyWritesBack(data: seq<Byte>, at: nat)
    requires at + BODY_BYTES <= |data| && ReadBody(data, at).Some?
    ensures var p := ReadBody(data, at).value;
            && IsValidDimension(p.width) && IsValidDimension(p.height)
            && BodyOf(p) == [data[at], if data[at + 1] == 1 then 1 else 0] + data[at + 2..]
  {
    var p := ReadBody(data, at).value;
    Write16Back(data, at + 2);
    Write16Back(data, at + 4);
    Write32Back(data, at + 6);
    assert data[at + 2..] == data[at + 2..at + 4] + data[at + 4..at + 6] + data[at + 6..at + 10] + data[at + 10..];
  }

  /** Nothing else decodes: a frame the server accepts for a device is the encoding of what it decodes to, but for a byte
      order mark in front of the identifier and a key byte other than 0 and 1. */
  lemma AcceptedIsEncoded(data: seq<Byte>)
    requires DecodeAgentFrame(data).Some?
    ensures var f := DecodeAgentFrame(data).value;
            && IsDeviceId(f.deviceId) && IsAgentEncodable(f) && f.picture.payload != []
            && (data[0] == |f.deviceId| && data[2 + data[0]] <= 1 ==> AgentBytes(f) == data)
  {
    var f, n := DecodeAgentFrame(data).value, data[0] as nat;
    BodyWritesBack(data, 1 + n);
    if n == |f.deviceId| && data[2 + n] <= 1 {
      assert f.deviceId == data[1..1 + n];
      PartsOf(data, n);
    }
  }

  lemma PartsOf(data: seq<Byte>, n: nat)
    requires 3 + n <= |data|
    ensures data == [data[0]] + data[1..1 + n] + ([data[1 + n], data[2 + n]] + data[3 + n..])
  {
    assert data[1 + n..] == [data[1 + n], data[2 + n]] + data[3 + n..];
  }

  /** From 1 to 128 ASCII letters, digits, dots, underscores and hyphens. */
  ghost predicate IsIdentifier(id: seq<Byte>) {
    && 1 <= |id| <= 128
    && forall b :: b in id ==> 0x41 <= b <= 0x5A || 0x61 <= b <= 0x7A || 0x30 <= b <= 0x39 || b in {0x2E, 0x5F, 0x2D}
  }

  lemma IdentifiersAre(id: seq<Byte>)
    ensures IsDeviceId(id) <==> IsIdentifier(id)
  {
    assert forall i :: 0 <= i < |id| ==> id[i] in id;
  }

  /** Every frame with an allowed identifier, whole dimensions from 1 to 65535 and a payload passes from the agent over the server to the
      viewer: same device, key flag, dimensions and payload, stamp modulo 2^32. A byte string for an identifier that is not
      allowed, less a byte order mark, does not pass. */
  lemma OrdinaryFramesArrive(f: AgentFrame)
    requires 1 <= f.picture.width <= 65_535 && 1 <= f.picture.height <= 65_535 && f.picture.payload != []
    requires 1 <= |f.deviceId| <= 255
    ensures IsAgentEncodable(f)
    ensures IsIdentifier(f.deviceId) ==>
              DecodeAgentFrame(AgentBytes(f)) == Some(AgentFrame(f.deviceId, f.picture.(stampMs := f.picture.stampMs % 0x1_0000_0000)))
              && DecodeViewerFrame(BodyOf(f.picture)) == Some(f.picture.(stampMs := f.picture.stampMs % 0x1_0000_0000))
    ensures !IsIdentifier(f.deviceId) && !([0xEF, 0xBB, 0xBF] <= f.deviceId) ==> DecodeAgentFrame(AgentBytes(f)).None?
  {
    IdentifiersAre(f.deviceId);
    AgentRoundTrip(f);
    ViewerRoundTrip(f.picture);
    if IsIdentifier(f.deviceId) { assert IsAllowed(f.deviceId[0]); }
  }
}
