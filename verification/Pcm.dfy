/**
 PCM conversion: decoding little-endian integers of one to four bytes, and quantising
 to 16 bits.
 */
module Pcm {
  import opened Bytes

  function Abs(x: real): real { if x < 0.0 then -x else x }

  function AbsInt(x: int): nat { if x < 0 then -x else x }

  // `lround`: halves away from zero.
  function Round(x: real): int {
    if x >= 0.0 then (x + 0.5).Floor else -((-x + 0.5).Floor)
  }

  function Clip(x: real): (y: real)
    ensures -1.0 <= y <= 1.0
  {
    if x < -1.0 then -1.0 else if x > 1.0 then 1.0 else x
  }

  function FloatToS16(x: real): (c: int)
    ensures -32768 <= c <= 32767
  {
    var s := Round(Clip(x) * 32767.0);
    if s < -32768 then -32768 else if s > 32767 then 32767 else s
  }

  // A two's-complement integer of `width` bytes.
  function Signed(u: nat, width: nat): int
    requires 1 <= width <= 4
  {
    if u >= Half(width) then u - 2 * Half(width) else u
  }

  function Half(width: nat): nat
    requires 1 <= width <= 4
  {
    if width == 1 then 0x80 else if width == 2 then 0x8000 else if width == 3 then 0x80_0000 else 0x8000_0000
  }

  // `width` bytes, least significant first.
  function Unsigned(raw: seq<Byte>, at: nat, width: nat): (u: nat)
    requires at + width <= |raw| && width <= 4
    ensures 1 <= width ==> u < 2 * Half(width)
    decreases width
  {
    if width == 0 then 0
    else
      var rest := Unsigned(raw, at + 1, width - 1);
      raw[at] as int + 256 * rest
  }

  // Sample i: 8 bits are unsigned around 128, the others signed.
  function Decoded(raw: seq<Byte>, width: nat, i: nat): real
    requires 1 <= width <= 4 && (i + 1) * width <= |raw|
  {
    SampleInside(raw, width, i);
    if width == 1 then (raw[i] as real - 128.0) / 128.0
    else Signed(Unsigned(raw, i * width, width), width) as real / Half(width) as real
  }

  lemma SampleInside(raw: seq<Byte>, width: nat, i: nat)
    requires (i + 1) * width <= |raw|
    ensures i * width + width <= |raw|
  {
  }

  // Every decoded sample lies in [-1, 1), whatever the width.
  lemma DecodedRange(raw: seq<Byte>, width: nat, i: nat)
    requires 1 <= width <= 4 && (i + 1) * width <= |raw|
    ensures -1.0 <= Decoded(raw, width, i) < 1.0
  {
    SampleInside(raw, width, i);
    var u := Unsigned(raw, i * width, width);
    hide Unsigned;
    if width > 1 { Fraction(Signed(u, width), Half(width)); }
  }

  // Its bytes as an integer, least significant first.
  function Raw(raw: seq<Byte>, at: nat, width: nat): int
    requires 1 <= width <= 4 && at + width <= |raw|
  {
    raw[at] as int + (if width > 1 then 0x100 * raw[at + 1] as int else 0)
    + (if width > 2 then 0x1_0000 * raw[at + 2] as int else 0)
    + (if width > 3 then 0x100_0000 * raw[at + 3] as int else 0)
  }

  // A sample times half the range is the integer of that range which its bytes are modulo
  // the range; eight bits count from 128.
  lemma DecodedInteger(raw: seq<Byte>, width: nat, i: nat) returns (c: int)
    requires 1 <= width <= 4 && (i + 1) * width <= |raw|
    ensures Decoded(raw, width, i) == c as real / Half(width) as real && -(Half(width) as int) <= c < Half(width)
    ensures i * width + width <= |raw|
    ensures c == Raw(raw, i * width, width) - (if width == 1 then 128 else 0)
            || c == Raw(raw, i * width, width) - 2 * Half(width)
  {
    SampleInside(raw, width, i);
    var at := i * width;
    UnsignedIsRaw(raw, at, width);
    c := if width == 1 then raw[i] - 128 else Signed(Unsigned(raw, at, width), width);
    hide Unsigned;
  }

  lemma UnsignedIsRaw(raw: seq<Byte>, at: nat, width: nat)
    requires 1 <= width <= 4 && at + width <= |raw|
    ensures Unsigned(raw, at, width) == Raw(raw, at, width)
    decreases width
  {
    if width > 1 {
      UnsignedIsRaw(raw, at + 1, width - 1);
    } else {
      assert Unsigned(raw, at + 1, 0) == 0;
    }
  }

  lemma Fraction(v: int, half: int)
    requires half > 0 && -half <= v < half
    ensures -1.0 <= v as real / half as real < 1.0
  {
    var q := v as real / half as real;
    assert q * half as real == v as real;
  }

  // How many samples are decoded: as many as there are bytes and room for.
  function Count(room: nat, bytes: nat, width: nat): (n: nat)
    requires width > 0
    ensures n <= room && n * width <= bytes
  {
    if room < bytes / width then Fits(room, bytes / width, width); room else bytes / width
  }

  lemma Fits(a: nat, b: nat, w: nat)
    requires a <= b
    ensures a * w <= b * w
  {
  }

  // Other widths decode nothing.
  method PcmDecode(out: array<real>, raw: seq<Byte>, width: nat)
    requires width > 0
    modifies out
    ensures forall i :: 0 <= i < out.Length ==>
              if width <= 4 && i < Count(out.Length, |raw|, width)
              then (i + 1) * width <= |raw| && out[i] == Decoded(raw, width, i)
              else out[i] == old(out[i])
  {
    var n := Count(out.Length, |raw|, width);
    if width > 4 { return; }
    hide Decoded, IsDecoded;
    for i := 0 to n
      invariant forall q: nat :: q < i ==> IsDecoded(raw, width, q, out[q])
      invariant forall q :: i <= q < out.Length ==> out[q] == old(out[q])
    {
      Fits(i + 1, n, width);
      out[i] := DecodeOne(raw, width, i);
      DecodedIs(raw, width, i);
    }
    forall q: nat | q < n ensures (q + 1) * width <= |raw| && out[q] == Decoded(raw, width, q) {
      IsWhat(raw, width, q, out[q]);
    }
  }

  ghost predicate IsDecoded(raw: seq<Byte>, width: nat, i: nat, x: real) {
    1 <= width <= 4 && (i + 1) * width <= |raw| && x == Decoded(raw, width, i)
  }

  lemma DecodedIs(raw: seq<Byte>, width: nat, i: nat)
    requires 1 <= width <= 4 && (i + 1) * width <= |raw|
    ensures IsDecoded(raw, width, i, Decoded(raw, width, i))
  {
    hide Decoded;
  }

  lemma IsWhat(raw: seq<Byte>, width: nat, i: nat, x: real)
    requires IsDecoded(raw, width, i, x)
    ensures 1 <= width <= 4 && (i + 1) * width <= |raw| && x == Decoded(raw, width, i)
  {
    hide Decoded;
  }

  // The four formats, as the source spells them out.
  method DecodeOne(raw: seq<Byte>, width: nat, i: nat) returns (x: real)
    requires 1 <= width <= 4 && (i + 1) * width <= |raw|
    ensures x == Decoded(raw, width, i)
  {
    SampleInside(raw, width, i);
    var r := i * width;
    UnsignedIs(raw, r, width);
    hide Unsigned;
    match width
    case 1 => x := (raw[i] as real - 128.0) / 128.0;
    case 2 => x := Signed16(raw[r], raw[r + 1]) as real / 32768.0;
    case 3 =>
      var v := raw[r] as int + raw[r + 1] as int * 0x100 + raw[r + 2] as int * 0x1_0000;
      if v >= 0x80_0000 { v := v - 0x100_0000; }
      x := v as real / 8388608.0;
    case 4 =>
      var u := raw[r] as int + raw[r + 1] as int * 0x100 + raw[r + 2] as int * 0x1_0000
          + raw[r + 3] as int * 0x100_0000;
      x := (if u >= 0x8000_0000 then u - 0x1_0000_0000 else u) as real / 2147483648.0;
  }

  lemma UnsignedIs(raw: seq<Byte>, r: nat, width: nat)
    requires 1 <= width <= 4 && r + width <= |raw|
    ensures width == 2 ==> Unsigned(raw, r, width) == raw[r] as int + raw[r + 1] as int * 0x100
    ensures width == 3 ==>
              Unsigned(raw, r, width) == raw[r] as int + raw[r + 1] as int * 0x100 + raw[r + 2] as int * 0x1_0000
    ensures width == 4 ==>
              Unsigned(raw, r, width)
                  == raw[r] as int + raw[r + 1] as int * 0x100 + raw[r + 2] as int * 0x1_0000
                      + raw[r + 3] as int * 0x100_0000
    decreases width
  {
    if width > 1 { UnsignedIs(raw, r + 1, width - 1); }
    if width == 2 { assert Unsigned(raw, r + 2, 0) == 0; }
  }

  // ---- quantising ----

  // The two bytes of a code.
  function S16Bytes(c: int): (b: seq<Byte>)
    ensures |b| == 2
  {
    var u := c % 0x1_0000;
    [u % 256, u / 256]
  }

  lemma S16BytesBack(c: int)
    requires -32768 <= c <= 32767
    ensures Signed16(S16Bytes(c)[0], S16Bytes(c)[1]) == c
  {
  }

  function Encoded(xs: seq<real>): (b: seq<Byte>)
    ensures |b| == 2 * |xs|
  {
    seq(2 * |xs|, j requires 0 <= j < 2 * |xs| => S16Bytes(FloatToS16(xs[j / 2]))[j % 2])
  }

  method PcmEncodeS16(src: array<real>) returns (out: array<Byte>)
    ensures fresh(out) && out[..] == Encoded(src[..])
  {
    var n := src.Length;
    out := new Byte[2 * n](_ => 0);
    for i := 0 to n
      invariant fresh(out) && out.Length == 2 * n
      invariant forall j :: 0 <= j < 2 * i ==> out[j] == Encoded(src[..])[j]
    {
      var v := FloatToS16(src[i]) % 0x1_0000;
      hide FloatToS16;
      out[2 * i] := v % 256;
      out[2 * i + 1] := v / 256;
    }
  }

  // What is read back after a save.
  function Requantised(x: real): real {
    FloatToS16(x) as real / 32768.0
  }

  // Decoding what was encoded gives each sample's code back as a sample.
  lemma DecodedEncoded(xs: seq<real>, i: nat)
    requires i < |xs|
    ensures (i + 1) * 2 <= |Encoded(xs)| && Decoded(Encoded(xs), 2, i) == Requantised(xs[i])
  {
    hide FloatToS16, S16Bytes, Encoded, Unsigned;
    var b, c := Encoded(xs), FloatToS16(xs[i]);
    EncodedAt(xs, i);
    S16BytesBack(c);
    UnsignedIs(b, i * 2, 2);
  }

  lemma EncodedAt(xs: seq<real>, i: nat)
    requires i < |xs|
    ensures Encoded(xs)[2 * i] == S16Bytes(FloatToS16(xs[i]))[0]
            && Encoded(xs)[2 * i + 1] == S16Bytes(FloatToS16(xs[i]))[1]
  {
    hide FloatToS16, S16Bytes;
  }

  lemma RoundNear(x: real)
    ensures Abs(Round(x) as real - x) <= 0.5
  {
  }

  lemma CodeRange(x: real)
    ensures -32767 <= FloatToS16(x) <= 32767 && FloatToS16(x) == Round(Clip(x) * 32767.0)
  {
    var v := Clip(x) * 32767.0;
    assert -32767.0 <= v <= 32767.0;
    RoundNear(v);
  }

  // Between the bounds the code is the nearest to 32767 times the sample; from half a code
  // below full scale on, and beyond it, exactly, it is the largest or the smallest.
  lemma Saturates(x: real)
    ensures FloatToS16(x) == 32767 <==> 32767.0 * x >= 32766.5
    ensures FloatToS16(x) == -32767 <==> 32767.0 * x <= -32766.5
    ensures -32767.0 <= 32767.0 * x <= 32767.0 ==> Abs(FloatToS16(x) as real - 32767.0 * x) <= 0.5
  {
  }

  predicate Close(y: real, x: real) {
    Abs(y - Clip(x)) <= 1.5 / 32768.0
  }

  // A saved sample comes back within 1.5/32768 of the clipped one.
  lemma RoundTripError(x: real)
    ensures Close(Requantised(x), x)
  {
    CodeRange(x);
    var v := Clip(x);
    RoundNear(v * 32767.0);
    var c := FloatToS16(x) as real;
    hide Round, Clip, FloatToS16;
    assert -0.5 <= c - v * 32767.0 <= 0.5;
    assert -1.5 <= c - v * 32768.0 <= 1.5;
    assert c / 32768.0 - v == (c - v * 32768.0) / 32768.0;
  }

  // Encoding a code again: those up to half scale stay, the others lose one.
  lemma Recoded(c: int)
    requires -32768 <= c <= 32767
    ensures FloatToS16(c as real / 32768.0) == if AbsInt(c) <= 16384 then c else if c > 0 then c - 1 else c + 1
  {
    var v := c as real / 32768.0;
    assert -1.0 <= v <= 1.0 && Clip(v) == v;
    assert v * 32767.0 == c as real - c as real / 32768.0;
  }

  // A code after k rounds of loading and saving.
  function Cycled(c: int, k: nat): int
    requires -32768 <= c <= 32767
    ensures -32768 <= Cycled(c, k) <= 32767
  {
    if k == 0 then c else FloatToS16(Cycled(c, k - 1) as real / 32768.0)
  }

  // Loud samples come down by one code a round until they reach half scale.
  lemma {:induction false} CyclesDrift(c: int, k: nat)
    requires -32768 <= c <= 32767
    ensures AbsInt(Cycled(c, k)) == if AbsInt(c) <= 16384 then AbsInt(c) else if AbsInt(c) - k >= 16384
            then AbsInt(c) - k else 16384
    ensures (c >= 0) == (Cycled(c, k) >= 0)
  {
    if k > 0 {
      CyclesDrift(c, k - 1);
      Recoded(Cycled(c, k - 1));
      hide FloatToS16;
    }
  }
}
