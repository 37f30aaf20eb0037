/** Bytes and big-endian integers. */
module Bytes {
  type Byte = b: int | 0 <= b < 256

  type Uint32 = n: int | 0 <= n < 0x1_0000_0000

  function ToUint32(n: int): Uint32 {
    n % 0x1_0000_0000
  }

  /** The low 16 bits. */
  function Be16(n: nat): seq<Byte> {
    [n % 0x1_0000 / 256, n % 0x1_0000 % 256]
  }

  /** The low 32 bits. */
  function Be32(n: nat): seq<Byte> {
    Be16(n / 0x1_0000) + Be16(n)
  }

  function Read16(s: seq<Byte>, i: nat): nat
    requires i + 2 <= |s|
  {
    256 * (s[i] as int) + s[i + 1] as int
  }

  function Read32(s: seq<Byte>, i: nat): nat
    requires i + 4 <= |s|
  {
    0x1_0000 * Read16(s, i) + Read16(s, i + 2)
  }

  lemma Read16Back(s: seq<Byte>, i: nat, n: nat)
    requires i + 2 <= |s| && s[i..i + 2] == Be16(n)
    ensures Read16(s, i) == n % 0x1_0000
  {
    assert s[i] == s[i..i + 2][0] && s[i + 1] == s[i..i + 2][1];
  }

  lemma Read32Back(s: seq<Byte>, i: nat, n: nat)
    requires i + 4 <= |s| && s[i..i + 4] == Be32(n)
    ensures Read32(s, i) == ToUint32(n)
  {
    assert s[i..i + 2] == s[i..i + 4][..2] == Be16(n / 0x1_0000);
    assert s[i + 2..i + 4] == s[i..i + 4][2..] == Be16(n);
    Read16Back(s, i, n / 0x1_0000);
    Read16Back(s, i + 2, n);
    HighAndLow(n);
  }

  lemma HighAndLow(n: nat)
    ensures ToUint32(n) == 0x1_0000 * (n / 0x1_0000 % 0x1_0000) + n % 0x1_0000
  {
    var high, low := n / 0x1_0000, n % 0x1_0000;
    assert n == 0x1_0000_0000 * (high / 0x1_0000) + (0x1_0000 * (high % 0x1_0000) + low);
  }

  lemma Write16Back(s: seq<Byte>, i: nat)
    requires i + 2 <= |s|
    ensures Be16(Read16(s, i)) == s[i..i + 2] && Read16(s, i) < 0x1_0000
  {
  }

  /** Writing back what was read gives the same bytes. */
  lemma Write32Back(s: seq<Byte>, i: nat)
    requires i + 4 <= |s|
    ensures Be32(Read32(s, i)) == s[i..i + 4] && Read32(s, i) < 0x1_0000_0000
  {
    Write16Back(s, i);
    Write16Back(s, i + 2);
    var high, low := Read16(s, i), Read16(s, i + 2);
    assert (0x1_0000 * high + low) / 0x1_0000 == high && (0x1_0000 * high + low) % 0x1_0000 == low;
  }

  method Put16(a: array<Byte>, i: nat, n: nat)
    requires i + 2 <= a.Length
    modifies a
    ensures a[..] == old(a[..i]) + Be16(n) + old(a[i + 2..])
  {
    a[i], a[i + 1] := n % 0x1_0000 / 256, n % 0x1_0000 % 256;
  }

  method Put32(a: array<Byte>, i: nat, n: nat)
    requires i + 4 <= a.Length
    modifies a
    ensures a[..] == old(a[..i]) + Be32(n) + old(a[i + 4..])
  {
    Put16(a, i, n / 0x1_0000);
    Put16(a, i + 2, n);
  }

  method PutAll(a: array<Byte>, i: nat, s: seq<Byte>)
    requires i + |s| <= a.Length
    modifies a
    ensures a[..] == old(a[..i]) + s + old(a[i + |s|..])
  {
    for k := 0 to |s|
      invariant a[..] == old(a[..i]) + s[..k] + old(a[i + k..])
    {
      a[i + k] := s[k];
    }
  }

  function Concat(chunks: seq<seq<Byte>>): seq<Byte> {
    if chunks == [] then [] else chunks[0] + Concat(chunks[1..])
  }
}
