/**
 Bytes and the fixed-width integers made of them, least significant byte first.
 */
module Bytes {
  type Byte = x: int | 0 <= x < 256

  function Wrap16(x: int): (r: nat)
    ensures r < 0x1_0000 && (0 <= x < 0x1_0000 ==> r == x)
  {
    x % 0x1_0000
  }

  function Wrap32(x: int): (r: nat)
    ensures r < 0x1_0000_0000 && (0 <= x < 0x1_0000_0000 ==> r == x)
  {
    x % 0x1_0000_0000
  }

  // A 32-bit count taken as a signed number.
  function Signed32(x: int): int {
    if x >= 0x8000_0000 then x - 0x1_0000_0000 else x
  }

  function Le16(x: nat): (b: seq<Byte>)
    ensures |b| == 2
  {
    [x % 256, x / 256 % 256]
  }

  function Le32(x: nat): (b: seq<Byte>)
    ensures |b| == 4
  {
    var x1 := x / 256;
    var x2 := x1 / 256;
    [x % 256, x1 % 256, x2 % 256, x2 / 256 % 256]
  }

  function U16(b: seq<Byte>, at: nat): (x: nat)
    requires at + 2 <= |b|
    ensures x < 0x1_0000
  {
    b[at] as int + 256 * b[at + 1] as int
  }

  function U32(b: seq<Byte>, at: nat): (x: nat)
    requires at + 4 <= |b|
    ensures x < 0x1_0000_0000
  {
    b[at] as int + 256 * (b[at + 1] as int + 256 * (b[at + 2] as int + 256 * b[at + 3] as int))
  }

  function Signed16(lo: Byte, hi: Byte): (r: int)
    ensures -32768 <= r <= 32767
  {
    var u := lo + 256 * hi;
    if u >= 32768 then u - 65536 else u
  }

  lemma U16OfLe16(b: seq<Byte>, at: nat, x: nat)
    requires at + 2 <= |b| && b[at..at + 2] == Le16(x) && x < 0x1_0000
    ensures U16(b, at) == x
  {
    var w := b[at..at + 2];
    assert b[at] == w[0] && b[at + 1] == w[1];
  }

  lemma U32OfLe32(b: seq<Byte>, at: nat, x: nat)
    requires at + 4 <= |b| && b[at..at + 4] == Le32(x) && x < 0x1_0000_0000
    ensures U32(b, at) == x
  {
    var w := b[at..at + 4];
    assert b[at] == w[0] && b[at + 1] == w[1] && b[at + 2] == w[2] && b[at + 3] == w[3];
  }
}
