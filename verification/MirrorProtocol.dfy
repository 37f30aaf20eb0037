/** The device side of the mirroring protocol (android-controller/mirror/.../MirrorProtocol.kt). */
module MirrorProtocol {
  import opened Common
  import opened Bytes

  const MAGIC := 0x4E42_4C41
  const VERSION := 1
  const CODEC_H264: Byte := 1
  const PREAMBLE_BYTES := 16
  const PACKET_HEADER_BYTES := 14
  const FLAG_KEY: Byte := 1

  predicate IsDimension(n: int) {
    1 <= n <= 0xFFFF
  }

  function PreambleBytes(width: nat, height: nat): seq<Byte> {
    Be32(MAGIC) + Be16(VERSION) + [CODEC_H264] + [0] + Be16(width) + Be16(height) + Be32(0)
  }

  function HeaderBytes(isKey: bool, width: nat, height: nat, ptsMs: int, payloadLength: nat): seq<Byte> {
    [if isKey then FLAG_KEY else 0] + [0] + Be16(width) + Be16(height) + Be32(ToUint32(ptsMs)) + Be32(payloadLength)
  }

  /** java.nio.ByteBuffer, big-endian: each put writes behind what was put before. */
  class ByteBuffer {
    const bytes: array<Byte>
    var position: nat

    ghost predicate Valid()
      reads this
    {
      position <= bytes.Length
    }

    ghost function Written(): seq<Byte>
      requires Valid()
      reads this, bytes
    {
      bytes[..position]
    }

    constructor (capacity: nat)
      ensures Valid() && fresh(bytes) && bytes.Length == capacity && Written() == [] && position == 0
    {
      bytes := new Byte[capacity];
      position := 0;
    }

    method Put(b: Byte)
      requires Valid() && position < bytes.Length
      modifies this`position, bytes
      ensures Valid() && Written() == old(Written()) + [b] && position == old(position) + 1
    {
      bytes[position] := b;
      position := position + 1;
    }

    method PutShort(n: nat)
      requires Valid() && position + 2 <= bytes.Length
      modifies this`position, bytes
      ensures Valid() && Written() == old(Written()) + Be16(n) && position == old(position) + 2
    {
      Put16(bytes, position, n);
      position := position + 2;
    }

    method PutInt(n: nat)
      requires Valid() && position + 4 <= bytes.Length
      modifies this`position, bytes
      ensures Valid() && Written() == old(Written()) + Be32(n) && position == old(position) + 4
    {
      Put32(bytes, position, n);
      position := position + 4;
    }
  }

  /** None stands for the exception of a failed `require`. */
  method Preamble(width: int, height: int) returns (r: Option<array<Byte>>)
    ensures r.Some? <==> IsDimension(width) && IsDimension(height)
    ensures r.Some? ==> fresh(r.value) && r.value[..] == PreambleBytes(width, height)
  {
    if !IsDimension(width) || !IsDimension(height) { return None; }
    var buffer := new ByteBuffer(PREAMBLE_BYTES);
    buffer.PutInt(MAGIC);
    assert buffer.Written() == Be32(MAGIC);
    buffer.PutShort(VERSION);
    buffer.Put(CODEC_H264);
    buffer.Put(0);
    buffer.PutShort(width);
    buffer.PutShort(height);
    buffer.PutInt(0);
    assert buffer.Written() == buffer.bytes[..];
    return Some(buffer.bytes);
  }

  method PacketHeader(isKey: bool, width: int, height: int, ptsMs: int, payloadLength: int) returns (r: Option<array<Byte>>)
    ensures r.Some? <==> IsDimension(width) && IsDimension(height) && payloadLength > 0
    ensures r.Some? ==> fresh(r.value) && r.value[..] == HeaderBytes(isKey, width, height, ptsMs, payloadLength)
  {
    if !IsDimension(width) || !IsDimension(height) || payloadLength <= 0 { return None; }
    var buffer := new ByteBuffer(PACKET_HEADER_BYTES);
    buffer.Put(if isKey then FLAG_KEY else 0);
    assert buffer.Written() == [if isKey then FLAG_KEY else 0];
    buffer.Put(0);
    buffer.PutShort(width);
    buffer.PutShort(height);
    buffer.PutInt(ToUint32(ptsMs));
    buffer.PutInt(payloadLength);
    assert buffer.Written() == buffer.bytes[..];
    return Some(buffer.bytes);
  }
}
