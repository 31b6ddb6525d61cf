/**
 RIFF wave files: what dr_wav's incremental writer leaves behind, and its reader's
 chunk loop.
 */
module RiffFile {
  import opened Options
  import opened Bytes
  import opened Division

  const PCM: nat := 1
  const MS_ADPCM: nat := 2
  const ALAW: nat := 6
  const MULAW: nat := 7
  const DVI_ADPCM: nat := 0x11
  const EXTENSIBLE: nat := 0xFFFE

  // ---- writing ----

  // What the caller asks for; every field is 32 bits wide.
  datatype Format = Format(tag: nat, channels: nat, sampleRate: nat, bits: nat)

  // The fields of a "fmt " chunk.
  datatype Fmt = Fmt(tag: nat, channels: nat, sampleRate: nat, avgBytes: nat, blockAlign: nat, bits: nat)

  predicate Accepted(f: Format) {
    f.tag != EXTENSIBLE && f.tag != MS_ADPCM && f.tag != DVI_ADPCM
  }

  // Products wrap at 32 bits and fields are cut to their widths.
  function FmtOf(f: Format): (m: Fmt)
    ensures FieldsFit(m)
  {
    Fmt(Wrap16(f.tag), Wrap16(f.channels), Wrap32(f.sampleRate), Wrap32(f.bits * f.sampleRate * f.channels) / 8,
        Wrap16(Wrap32(f.channels * f.bits) / 8), Wrap16(f.bits))
  }

  predicate FieldsFit(m: Fmt) {
    && m.tag < 0x1_0000 && m.channels < 0x1_0000 && m.sampleRate < 0x1_0000_0000
    && m.avgBytes < 0x1_0000_0000 && m.blockAlign < 0x1_0000 && m.bits < 0x1_0000
  }

  function Riff(): (b: seq<Byte>) ensures |b| == 4 { [0x52, 0x49, 0x46, 0x46] }
  function Wave(): (b: seq<Byte>) ensures |b| == 4 { [0x57, 0x41, 0x56, 0x45] }
  function FmtId(): (b: seq<Byte>) ensures |b| == 4 { [0x66, 0x6D, 0x74, 0x20] }
  function DataId(): (b: seq<Byte>) ensures |b| == 4 { [0x64, 0x61, 0x74, 0x61] }
  function FactId(): (b: seq<Byte>) ensures |b| == 4 { [0x66, 0x61, 0x63, 0x74] }

  function FmtBytes(m: Fmt): (b: seq<Byte>)
    ensures |b| == 16
  {
    Le16(m.tag) + Le16(m.channels) + Le32(m.sampleRate) + Le32(m.avgBytes) + Le16(m.blockAlign) + Le16(m.bits)
  }

  function Padding(n: nat): nat { n % 2 }

  function Pad(n: nat): (b: seq<Byte>)
    ensures |b| == Padding(n)
  {
    seq(Padding(n), _ => 0)
  }

  function Capped(n: nat): (c: nat)
    ensures c < 0x1_0000_0000
  {
    if n > 0xFFFF_FFFF then 0xFFFF_FFFF else n
  }

  // The size fields for a data chunk of n bytes.
  function RiffSize(n: nat): nat { Capped(4 + 24 + 8 + n + Padding(n)) }
  function DataSize(n: nat): nat { Capped(n) }

  function Header(m: Fmt, riffSize: nat, dataSize: nat): (b: seq<Byte>)
    ensures |b| == 44
  {
    Riff() + Le32(riffSize) + Wave() + FmtId() + Le32(16) + FmtBytes(m) + DataId() + Le32(dataSize)
  }

  // The whole file once `p` has been written.
  function File(m: Fmt, p: seq<Byte>): seq<Byte> {
    Header(m, RiffSize(|p|), DataSize(|p|)) + p + Pad(|p|)
  }

  // Writing at a position of a file replaces bytes and then extends it.
  function Overwrite(s: seq<Byte>, at: nat, b: seq<Byte>): (r: seq<Byte>)
    requires at <= |s|
    ensures |r| == if at + |b| > |s| then at + |b| else |s|
  {
    s[..at] + b + (if at + |b| < |s| then s[at + |b|..] else [])
  }

  class Writer {
    var file: seq<Byte>
    var cursor: nat
    var fmt: Fmt
    var dataChunkDataSize: nat
    ghost var payload: seq<Byte>

    // Between writes: the file is complete, and the cursor stands before its padding.
    ghost predicate Valid()
      reads this
    {
      && file == File(fmt, payload) && cursor == 44 + |payload| && dataChunkDataSize == |payload|
    }

    constructor ()
      ensures file == [] && cursor == 0
    {
      file, cursor, dataChunkDataSize, payload := [], 0, 0, [];
      fmt := Fmt(0, 0, 0, 0, 0, 0);
    }

    method Put(b: seq<Byte>)
      requires cursor <= |file|
      modifies this`file, this`cursor
      ensures file == Overwrite(old(file), old(cursor), b) && cursor == old(cursor) + |b| <= |file|
      ensures old(cursor) == |old(file)| ==> file == old(file) + b
    {
      file := Overwrite(file, cursor, b);
      cursor := cursor + |b|;
    }

    // A new file for format `f`; formats that would need more chunks are refused.
    method InitWrite(f: Format) returns (ok: bool)
      requires file == [] && cursor == 0
      modifies this
      ensures ok == Accepted(f)
      ensures !ok ==> file == [] && cursor == 0
      ensures ok ==> Valid() && payload == [] && fmt == FmtOf(f)
    {
      if f.tag == EXTENSIBLE { return false; }
      if f.tag == MS_ADPCM || f.tag == DVI_ADPCM { return false; }
      fmt := FmtOf(f);
      hide FmtOf, FmtBytes, Le32, Overwrite, Riff, Wave, FmtId, DataId, File, Header;
      PutThree(Riff(), Le32(36), Wave());
      PutThree(FmtId(), Le32(16), FmtBytes(fmt));
      PutThree(DataId(), Le32(0), []);
      dataChunkDataSize, payload := 0, [];
      HeaderBuilt(fmt);
      EmptyFile(fmt);
      ok := true;
    }

    // A chunk's id, size and first bytes at the end of the file.
    method PutThree(a: seq<Byte>, b: seq<Byte>, c: seq<Byte>)
      requires cursor == |file|
      modifies this`file, this`cursor
      ensures file == old(file) + a + b + c && cursor == |file|
    {
      hide Overwrite;
      Put(a);
      Put(b);
      Put(c);
    }

    // More data, its padding, the two sizes; then back to before the padding.
    // The device takes the first `taken` bytes.
    method WriteRaw(data: seq<Byte>, taken: nat) returns (written: nat)
      requires Valid() && taken <= |data|
      modifies this
      ensures Valid() && fmt == old(fmt) && payload == old(payload) + data[..taken] && written == taken
    {
      if |data| == 0 {
        assert payload == payload + data[..taken];
        return 0;
      }
      hide *;
      ghost var was, p := payload, payload + data[..taken];
      written := taken;
      var padding := PutPadded(data[..taken]);
      WriteChunkSizes();
      AfterSizes(fmt, RiffSize(|was|), DataSize(|was|), p);
      FileLength(fmt, p);
      cursor := |file| - padding;
      payload := p;
    }

    // The data and the padding behind it; the sizes in the header are still the old ones.
    method PutPadded(part: seq<Byte>) returns (padding: nat)
      requires Valid()
      modifies this`file, this`cursor, this`dataChunkDataSize
      ensures dataChunkDataSize == |payload + part| && padding == Padding(|payload + part|) && |file| >= 44
      ensures file == Header(fmt, RiffSize(|payload|), DataSize(|payload|)) + (payload + part) + Pad(|payload + part|)
    {
      hide Overwrite, Header, RiffSize, DataSize, File, Pad;
      FileLength(fmt, payload);
      AfterData(fmt, payload, part);
      Put(part);
      dataChunkDataSize := dataChunkDataSize + |part|;
      padding := WritePadding();
    }

    // The padding is not part of the data size.
    method WritePadding() returns (padding: nat)
      requires cursor <= |file|
      modifies this`file, this`cursor
      ensures padding == Padding(dataChunkDataSize)
      ensures file == Overwrite(old(file), old(cursor), Pad(dataChunkDataSize))
    {
      padding := Padding(dataChunkDataSize);
      if padding > 0 { Put(Pad(dataChunkDataSize)); } else { assert file == Overwrite(file, cursor, []); }
    }

    method WriteChunkSizes()
      requires |file| >= 44
      modifies this`file, this`cursor
      ensures file == Overwrite(Overwrite(old(file), 4, Le32(RiffSize(dataChunkDataSize))), 40,
              Le32(DataSize(dataChunkDataSize)))
    {
      cursor := 4;
      Put(Le32(RiffSize(dataChunkDataSize)));
      cursor := 40;
      Put(Le32(DataSize(dataChunkDataSize)));
    }
  }

  lemma HeaderBuilt(m: Fmt)
    ensures [] + Riff() + Le32(36) + Wave() + FmtId() + Le32(16) + FmtBytes(m) + DataId() + Le32(0) + []
            == Header(m, 36, 0)
  {
    hide Riff, Wave, FmtId, DataId, FmtBytes, Le32;
    assert [] + Riff() == Riff();
  }

  lemma EmptyFile(m: Fmt)
    ensures File(m, []) == Header(m, 36, 0)
  {
    hide Header;
  }

  lemma FileLength(m: Fmt, p: seq<Byte>)
    ensures |File(m, p)| == 44 + |p| + Padding(|p|)
  {
  }

  // New data goes over the old padding, and the new padding behind it; when nothing is
  // taken the padding goes over itself.
  lemma AfterData(m: Fmt, p: seq<Byte>, data: seq<Byte>)
    ensures 44 + |p| + |data| <= |Overwrite(File(m, p), 44 + |p|, data)|
    ensures Overwrite(Overwrite(File(m, p), 44 + |p|, data), 44 + |p| + |data|, Pad(|p + data|))
         == Header(m, RiffSize(|p|), DataSize(|p|)) + (p + data) + Pad(|p + data|)
  {
    hide Header;
    if data == [] {
      assert p + data == p && Overwrite(File(m, p), 44 + |p|, []) == File(m, p);
    } else {
      assert Overwrite(File(m, p), 44 + |p|, data) == Header(m, RiffSize(|p|), DataSize(|p|)) + (p + data);
    }
  }

  lemma AfterSizes(m: Fmt, r: nat, d: nat, p: seq<Byte>)
    ensures var s := Header(m, r, d) + p + Pad(|p|);
            Overwrite(Overwrite(s, 4, Le32(RiffSize(|p|))), 40, Le32(DataSize(|p|))) == File(m, p)
  {
    var s := Header(m, r, d) + p + Pad(|p|);
    HeaderPatched(m, r, d, RiffSize(|p|), DataSize(|p|));
    hide Header, Le32;
    var tail := p + Pad(|p|);
    assert s == Header(m, r, d) + tail;
    OverwriteFront(Header(m, r, d), tail, 4, Le32(RiffSize(|p|)));
    OverwriteFront(Overwrite(Header(m, r, d), 4, Le32(RiffSize(|p|))), tail, 40, Le32(DataSize(|p|)));
    assert File(m, p) == Header(m, RiffSize(|p|), DataSize(|p|)) + tail;
  }

  lemma OverwriteFront(a: seq<Byte>, b: seq<Byte>, at: nat, x: seq<Byte>)
    requires at + |x| <= |a|
    ensures Overwrite(a + b, at, x) == Overwrite(a, at, x) + b
  {
  }

  lemma HeaderPatched(m: Fmt, r: nat, d: nat, r': nat, d': nat)
    ensures Overwrite(Overwrite(Header(m, r, d), 4, Le32(r')), 40, Le32(d')) == Header(m, r', d')
  {
    hide FmtBytes, Le32;
  }

  // ---- reading ----

  predicate Compressed(tag: nat) { tag == MS_ADPCM || tag == DVI_ADPCM }

  function Id(file: seq<Byte>, pos: nat): seq<Byte>
    requires pos + 4 <= |file|
  {
    file[pos..pos + 4]
  }

  function FmtAt(file: seq<Byte>, pos: nat): (m: Fmt)
    requires pos + 16 <= |file|
    ensures FieldsFit(m)
  {
    Fmt(U16(file, pos), U16(file, pos + 2), U32(file, pos + 4), U32(file, pos + 8), U16(file, pos + 12),
        U16(file, pos + 14))
  }

  // A format with the tag an extensible one stands for.
  datatype Known = Known(fmt: Fmt, sub: nat)

  // The "fmt " chunk with its body at `pos`; extra bytes only matter for extensible ones.
  function ReadFmt(file: seq<Byte>, pos: nat, size: nat): Option<Known>
    requires pos <= |file|
  {
    if size < 16 || pos + 16 > |file| then None
    else
      var m := FmtAt(file, pos);
      if size == 16 then Some(Known(m, 0))
      else if pos + 18 > |file| then None
      else
        var extended := U16(file, pos + 16);
        if extended > 0 && m.tag == EXTENSIBLE then
          if extended != 22 || pos + 40 > |file| || pos + size > |file| then None
          else Some(Known(m, U16(file, pos + 24)))
        else if pos + 18 + extended > |file| || pos + size > |file| then None
        else Some(Known(m, 0))
  }

  datatype Found = Found(known: Known, dataPos: nat, size: nat)

  // Where the chunk at `pos` ends, its padding included.
  function After(file: seq<Byte>, pos: nat): nat
    requires pos + 8 <= |file|
  {
    pos + 8 + U32(file, pos + 4) + Padding(U32(file, pos + 4))
  }

  // From chunk to chunk until the data.
  function Chunks(file: seq<Byte>, pos: nat, known: Option<Known>): Option<Found>
    requires pos <= |file|
    decreases |file| - pos
  {
    if pos + 8 > |file| then None
    else
      var id, size := Id(file, pos), U32(file, pos + 4);
      if id == FmtId() then
        var k := ReadFmt(file, pos + 8, size);
        if k.None? || After(file, pos) > |file| then None else Chunks(file, After(file, pos), k)
      else if id == DataId() then
        if known.None? then None else Some(Found(known.value, pos + 8, size))
      else if id == FactId() && (pos + 12 > |file| || size < 4) then None
      else if After(file, pos) > |file| then None
      else Chunks(file, After(file, pos), known)
  }

  datatype Wav = Wav(fmt: Fmt, tag: nat, dataPos: nat, dataSize: nat, frames: nat)

  predicate Plausible(m: Fmt) {
    0 < m.sampleRate <= 384000 && 0 < m.channels <= 256 && 0 < m.bits <= 64 && m.blockAlign > 0
  }

  function BytesPerFrame(m: Fmt, tag: nat): nat {
    var n := if m.bits % 8 == 0 then m.bits * m.channels / 8 else m.blockAlign;
    if (tag == ALAW || tag == MULAW) && n != m.channels then 0 else n
  }

  // Frames of a compressed data chunk: two to a byte behind the blocks' headers.
  function CompressedFrames(m: Fmt, tag: nat, size: nat): Option<nat>
    requires m.blockAlign > 0 && m.channels > 0
  {
    var blocks, headers := Blocks(m, size), BlockHeaders(m, tag, size);
    if headers >= size || m.channels > 2 then None
    else Some((size - headers) * 2 / m.channels + (if tag == DVI_ADPCM then blocks else 0))
  }

  // Blocks in `size` bytes, a partial one counted.
  function Blocks(m: Fmt, size: nat): nat
    requires m.blockAlign > 0
  {
    size / m.blockAlign + (if size % m.blockAlign > 0 then 1 else 0)
  }

  // The bytes their headers take.
  function BlockHeaders(m: Fmt, tag: nat, size: nat): nat
    requires m.blockAlign > 0
  {
    Blocks(m, size) * ((if tag == MS_ADPCM then 6 else 4) * m.channels)
  }

  // A data size beyond the file is cut to it.  The size 0xFFFFFFFF stands for "unknown";
  // what follows is counted from the file's end, so nothing is left.
  function DataInFile(file: seq<Byte>, dataPos: nat, size: nat): nat
    requires dataPos <= |file|
  {
    var n := if size + dataPos > |file| then |file| - dataPos else size;
    if n == 0xFFFF_FFFF then 0 else n
  }

  function Finish(file: seq<Byte>, f: Found): Option<Wav>
    requires f.dataPos <= |file|
  {
    var m := f.known.fmt;
    if !Plausible(m) then None
    else
      var tag := if m.tag == EXTENSIBLE then f.known.sub else m.tag;
      var n, bpf := DataInFile(file, f.dataPos, f.size), BytesPerFrame(m, tag);
      if bpf == 0 then None
      else if Compressed(tag) then
        var frames := CompressedFrames(m, tag, n);
        if frames.None? then None else Some(Wav(m, tag, f.dataPos, n, frames.value))
      else Some(Plain(m, tag, f.dataPos, n, bpf))
  }

  // An uncompressed data chunk is cut to whole frames.
  function Plain(m: Fmt, tag: nat, dataPos: nat, n: nat, bpf: nat): Wav
    requires bpf > 0
  {
    Wav(m, tag, dataPos, WholeFrames(n, bpf), n / bpf)
  }

  function WholeFrames(n: nat, bpf: nat): (w: nat)
    requires bpf > 0
    ensures w <= n && n - w < bpf && w % bpf == 0
  {
    WholePart(n, bpf);
    n - n % bpf
  }

  function Parse(file: seq<Byte>): Option<Wav> {
    if |file| < 12 || Id(file, 0) != Riff() || Id(file, 8) != Wave() then None
    else
      var f := Chunks(file, 12, None);
      if f.None? then None else DataBehind(file, 12, None); Finish(file, f.value)
  }

  lemma {:induction false} DataBehind(file: seq<Byte>, pos: nat, known: Option<Known>)
    requires pos <= |file|
    ensures Chunks(file, pos, known).Some? ==> Chunks(file, pos, known).value.dataPos <= |file|
    decreases |file| - pos
  {
    if pos + 8 <= |file| && After(file, pos) <= |file| {
      var id := Id(file, pos);
      DataBehind(file, After(file, pos), if id == FmtId() then ReadFmt(file, pos + 8, U32(file, pos + 4)) else known);
    }
  }

  // The reader: a cursor moves from chunk to chunk.
  method OpenRiff(file: seq<Byte>) returns (r: Option<Wav>)
    ensures r == Parse(file)
  {
    hide Finish, ReadFmt, Riff, Wave, FmtId, DataId, FactId;
    if |file| < 4 || file[0..4] != Riff() { return None; }
    if |file| < 8 { return None; }
    if |file| < 12 || file[8..12] != Wave() { return None; }
    var cursor: nat := 12;
    var known: Option<Known> := None;
    while true
      invariant cursor <= |file| && Chunks(file, 12, None) == Chunks(file, cursor, known)
      decreases |file| - cursor
    {
      if cursor + 8 > |file| { return None; }
      var id, size := file[cursor..cursor + 4], U32(file, cursor + 4);
      var body := cursor + 8;
      if id == FmtId() {
        var k := ReadFmt(file, body, size);
        if k.None? { return None; }
        if body + size + Padding(size) > |file| { return None; }
        known := k;
        cursor := body + size + Padding(size);
        continue;
      }
      if id == DataId() {
        if known.None? { return None; }
        r := Finish(file, Found(known.value, body, size));
        return;
      }
      if id == FactId() {
        if body + 4 > |file| { return None; }
        if size < 4 { return None; }
      }
      if body + size + Padding(size) > |file| { return None; }
      cursor := body + size + Padding(size);
    }
  }

  // ---- what was written is what is read ----

  lemma HeaderParts(m: Fmt, r: nat, d: nat, tail: seq<Byte>)
    requires FieldsFit(m) && r < 0x1_0000_0000 && d < 0x1_0000_0000
    ensures var s := Header(m, r, d) + tail;
            && Id(s, 0) == Riff() && U32(s, 4) == r && Id(s, 8) == Wave()
            && Id(s, 12) == FmtId() && U32(s, 16) == 16 && FmtAt(s, 20) == m
            && Id(s, 36) == DataId() && U32(s, 40) == d
  {
    var s := Header(m, r, d) + tail;
    HeaderFields(m, r, d, tail);
    hide Header, FmtBytes, Le16, Le32, FmtAt;
    U32OfLe32(s, 4, r);
    U32OfLe32(s, 16, 16);
    U32OfLe32(s, 40, d);
    FmtBytesRead(m, s, 20);
  }

  lemma HeaderFields(m: Fmt, r: nat, d: nat, tail: seq<Byte>)
    ensures var s := Header(m, r, d) + tail;
            && s[0..4] == Riff() && s[4..8] == Le32(r) && s[8..12] == Wave()
            && s[12..16] == FmtId() && s[16..20] == Le32(16) && s[20..36] == FmtBytes(m)
            && s[36..40] == DataId() && s[40..44] == Le32(d)
  {
    hide Le16, Le32, FmtBytes;
  }

  // The reader finds the format and the data chunk behind the 44-byte header, with the
  // size clamped to 32 bits.
  lemma ChunksOfFile(m: Fmt, p: seq<Byte>)
    requires FieldsFit(m)
    ensures |File(m, p)| == 44 + |p| + Padding(|p|)
    ensures Chunks(File(m, p), 12, None) == Some(Found(Known(m, 0), 44, DataSize(|p|)))
  {
    var s := File(m, p);
    FileLength(m, p);
    HeaderParts(m, RiffSize(|p|), DataSize(|p|), p + Pad(|p|));
    assert s == Header(m, RiffSize(|p|), DataSize(|p|)) + (p + Pad(|p|));
    hide Header, File, FmtAt;
    assert ReadFmt(s, 20, 16) == Some(Known(m, 0));
    assert After(s, 12) == 36;
    assert FmtId()[0] != DataId()[0];
    assert Chunks(s, 36, Some(Known(m, 0))) == Some(Found(Known(m, 0), 44, DataSize(|p|)));
  }

  // After any writes: header, payload, one zero byte exactly when the payload is odd,
  // and each size field exact exactly when it fits 32 bits.
  lemma WellFormed(m: Fmt, p: seq<Byte>)
    requires FieldsFit(m)
    ensures var s := File(m, p);
            && |s| == 44 + |p| + Padding(|p|)
            && Id(s, 0) == Riff() && Id(s, 8) == Wave() && Id(s, 12) == FmtId() && U32(s, 16) == 16 && FmtAt(s, 20) == m
            && Id(s, 36) == DataId() && s[44..44 + |p|] == p
            && (|p| % 2 == 1 ==> s[|s| - 1] == 0)
            && (U32(s, 4) == |s| - 8 <==> |s| - 8 <= 0xFFFF_FFFF)
            && (U32(s, 40) == |p| <==> |p| <= 0xFFFF_FFFF)
  {
    FileLength(m, p);
    HeaderParts(m, RiffSize(|p|), DataSize(|p|), p + Pad(|p|));
    assert File(m, p) == Header(m, RiffSize(|p|), DataSize(|p|)) + (p + Pad(|p|));
    hide Header, FmtAt;
  }

  // Three bytes of payload in a file of two channels of 16 bits at 44100 Hz, byte by byte.
  lemma ThreeBytes()
    ensures File(FmtOf(Format(PCM, 2, 44100, 16)), [7, 8, 9])
            == [82, 73, 70, 70] + [40, 0, 0, 0] + [87, 65, 86, 69]
               + [102, 109, 116, 32] + [16, 0, 0, 0]
               + ([1, 0] + [2, 0] + [68, 172, 0, 0] + [16, 177, 2, 0] + [4, 0] + [16, 0])
               + [100, 97, 116, 97] + [3, 0, 0, 0] + [7, 8, 9] + [0]
  {
  }

  // What the reader makes of a sixteen-byte format chunk's tag, and of a data size: at
  // 0xFFFFFFFF bytes and more the size field no longer tells.
  function TagRead(m: Fmt): nat { if m.tag == EXTENSIBLE then 0 else m.tag }

  function SizeRead(n: nat): nat { if n < 0xFFFF_FFFF then n else 0 }

  // The format fields and sizes the reader plays.
  predicate Readable(m: Fmt, n: nat) {
    && Plausible(m) && BytesPerFrame(m, TagRead(m)) > 0
    && (Compressed(TagRead(m)) ==> m.channels <= 2 && BlockHeaders(m, TagRead(m), SizeRead(n)) < SizeRead(n))
  }

  // The data size expected of n bytes: whole frames, unless compressed.
  function Expected(m: Fmt, n: nat): nat
    requires Readable(m, n)
  {
    if Compressed(TagRead(m)) then n else WholeFrames(n, BytesPerFrame(m, TagRead(m)))
  }

  function Recovered(m: Fmt, n: nat): (w: Wav)
    requires Readable(m, n)
  {
    var tag, size := TagRead(m), SizeRead(n);
    if Compressed(tag) then Wav(m, tag, 44, size, CompressedFrames(m, tag, size).value)
    else Plain(m, tag, 44, size, BytesPerFrame(m, tag))
  }

  // What the reader makes of a data chunk of n bytes.
  function ReadOrRefused(m: Fmt, n: nat, dataPos: nat): Option<Wav> {
    if Readable(m, n) then Some(Recovered(m, n).(dataPos := dataPos)) else None
  }

  lemma Finished(s: seq<Byte>, m: Fmt, n: nat, size: nat, at: nat)
    requires at <= |s| && DataInFile(s, at, size) == SizeRead(n)
    ensures Finish(s, Found(Known(m, 0), at, size)) == ReadOrRefused(m, n, at)
  {
    hide BytesPerFrame, WholeFrames, DataInFile, Blocks, BlockHeaders;
  }

  // Of every format the writer can have put down: the reader refuses exactly those that
  // are not `Readable`, and recovers the others' fields and data.
  lemma WrittenThenRead(m: Fmt, p: seq<Byte>)
    requires FieldsFit(m)
    ensures Parse(File(m, p)) == ReadOrRefused(m, |p|, 44)
    ensures Readable(m, |p|) ==>
              var n := Recovered(m, |p|).dataSize;
              n <= |p| && 44 + n <= |File(m, p)| && File(m, p)[44..44 + n] == p[..n]
  {
    hide File, FmtAt, Chunks, Finish, ReadOrRefused, Readable, Recovered;
    var s := File(m, p);
    WellFormed(m, p);
    ChunksOfFile(m, p);
    assert DataInFile(s, 44, DataSize(|p|)) == SizeRead(|p|);
    Finished(s, m, |p|, DataSize(|p|), 44);
    if Readable(m, |p|) {
      NoMoreThan(m, |p|);
      SubSlice(s, 44, |p|, 0, Recovered(m, |p|).dataSize);
    }
  }

  lemma NoMoreThan(m: Fmt, n: nat)
    requires Readable(m, n)
    ensures Recovered(m, n).dataSize <= SizeRead(n) <= n
  {
    hide BytesPerFrame, CompressedFrames, BlockHeaders;
  }

  // All the data expected comes back exactly when the format is readable and the payload
  // shorter than 0xFFFFFFFF bytes.
  lemma RecoveredIff(m: Fmt, p: seq<Byte>)
    requires FieldsFit(m)
    ensures Readable(m, |p|) && Parse(File(m, p)).Some? && Parse(File(m, p)).value.dataSize == Expected(m, |p|)
            <==> Readable(m, |p|) && |p| < 0xFFFF_FFFF
  {
    hide Parse, File, Readable;
    WrittenThenRead(m, p);
    if Readable(m, |p|) { ExpectedIff(m, |p|); }
  }

  lemma ExpectedIff(m: Fmt, n: nat)
    requires FieldsFit(m) && Readable(m, n)
    ensures Recovered(m, n).dataSize == Expected(m, n) <==> n < 0xFFFF_FFFF
  {
    SmallFrames(m, TagRead(m));
    hide BytesPerFrame, CompressedFrames, Blocks;
  }

  // Without compression the size does not matter.
  lemma ReadableUncompressed(m: Fmt, p: seq<Byte>)
    requires FieldsFit(m) && !Compressed(m.tag)
    ensures Parse(File(m, p)).Some? <==> Plausible(m) && BytesPerFrame(m, TagRead(m)) > 0
  {
    WrittenThenRead(m, p);
    hide Parse, File, Plausible, BytesPerFrame, Recovered;
  }

  // The writer accepts a rate the reader refuses.
  lemma TooFast(p: seq<Byte>)
    ensures var f := Format(PCM, 2, 400000, 16); Accepted(f) && Parse(File(FmtOf(f), p)).None?
  {
    WrittenThenRead(FmtOf(Format(PCM, 2, 400000, 16)), p);
    hide Parse, File, Recovered;
  }

  // It also accepts a tag whose low sixteen bits are those of a format it refuses, and
  // writes the file as that format; the reader then refuses it.
  lemma WrappedTag(p: seq<Byte>)
    ensures var f := Format(0x1_0002, 1, 8000, 8);
            Accepted(f) && FmtOf(f).tag == MS_ADPCM && Parse(File(FmtOf(f), p)).None?
  {
    var m := FmtOf(Format(0x1_0002, 1, 8000, 8));
    assert m.blockAlign == 1 && Blocks(m, SizeRead(|p|)) == SizeRead(|p|);
    WrittenThenRead(m, p);
    hide Parse, File, Recovered;
  }

  lemma SmallFrames(m: Fmt, tag: nat)
    requires Plausible(m) && FieldsFit(m)
    ensures BytesPerFrame(m, tag) < 0x1_0000
  {
    Product(m.bits, m.channels);
  }

  lemma Product(bits: nat, channels: nat)
    requires bits <= 64 && channels <= 256
    ensures bits * channels <= 64 * 256
  {
    assert bits * channels <= 64 * channels;
  }

  // ---- chunks the reader does not know ----

  datatype Junk = Junk(id: seq<Byte>, body: seq<Byte>)

  predicate Skippable(c: Junk) {
    && |c.id| == 4 && c.id != FmtId() && c.id != DataId() && (c.id == FactId() ==> |c.body| >= 4)
    && |c.body| < 0x1_0000_0000
  }

  // A chunk laid down in a file at a position.
  predicate Laid(s: seq<Byte>, at: nat, id: seq<Byte>, body: seq<Byte>) {
    && at + 8 + |body| + Padding(|body|) <= |s|
    && Id(s, at) == id && U32(s, at + 4) == |body| && s[at + 8..at + 8 + |body|] == body
  }

  function Behind(at: nat, body: seq<Byte>): nat {
    at + 8 + |body| + Padding(|body|)
  }

  // One after the other, from `at` to `end`.
  predicate AllLaid(s: seq<Byte>, at: nat, cs: seq<Junk>, end: nat)
    decreases |cs|
  {
    if cs == [] then at == end
    else Laid(s, at, cs[0].id, cs[0].body) && AllLaid(s, Behind(at, cs[0].body), cs[1..], end)
  }

  lemma {:induction false} JunkSkipped(s: seq<Byte>, at: nat, cs: seq<Junk>, end: nat, known: Option<Known>)
    requires AllLaid(s, at, cs, end) && at <= |s| && forall c | c in cs :: Skippable(c)
    ensures end <= |s| && Chunks(s, at, known) == Chunks(s, end, known)
    decreases |cs|
  {
    hide Chunks, Laid, Skippable;
    if cs != [] {
      assert Skippable(cs[0]);
      LaidSkipped(s, at, cs[0], known);
      JunkSkipped(s, Behind(at, cs[0].body), cs[1..], end, known);
    }
  }

  lemma LaidSkipped(s: seq<Byte>, at: nat, c: Junk, known: Option<Known>)
    requires at <= |s| && Laid(s, at, c.id, c.body) && Skippable(c)
    ensures Behind(at, c.body) <= |s| && Chunks(s, at, known) == Chunks(s, Behind(at, c.body), known)
  {
    assert After(s, at) == Behind(at, c.body);
  }

  lemma SubSlice(s: seq<Byte>, at: nat, n: nat, i: nat, j: nat)
    requires at + n <= |s| && i <= j <= n
    ensures s[at..at + n][i..j] == s[at + i..at + j]
  {
    var b, w := s[at..at + n][i..j], s[at + i..at + j];
    assert |b| == |w| && forall q :: 0 <= q < |b| ==> b[q] == s[at + i + q] && w[q] == s[at + i + q];
  }

  lemma FmtParts(m: Fmt)
    ensures var b := FmtBytes(m);
            && b[0..2] == Le16(m.tag) && b[2..4] == Le16(m.channels) && b[4..8] == Le32(m.sampleRate)
            && b[8..12] == Le32(m.avgBytes) && b[12..14] == Le16(m.blockAlign) && b[14..16] == Le16(m.bits)
  {
    hide Le16, Le32;
  }

  lemma FmtBytesRead(m: Fmt, s: seq<Byte>, at: nat)
    requires FieldsFit(m) && at + 16 <= |s| && s[at..at + 16] == FmtBytes(m)
    ensures FmtAt(s, at) == m
  {
    hide Le16, Le32, FmtBytes;
    FmtParts(m);
    SubSlice(s, at, 16, 0, 2);
    SubSlice(s, at, 16, 2, 4);
    SubSlice(s, at, 16, 4, 8);
    SubSlice(s, at, 16, 8, 12);
    SubSlice(s, at, 16, 12, 14);
    SubSlice(s, at, 16, 14, 16);
    U16OfLe16(s, at, m.tag);
    U16OfLe16(s, at + 2, m.channels);
    U32OfLe32(s, at + 4, m.sampleRate);
    U32OfLe32(s, at + 8, m.avgBytes);
    U16OfLe16(s, at + 12, m.blockAlign);
    U16OfLe16(s, at + 14, m.bits);
  }

  // Whatever chunks it does not know come first or in between, the reader gives the
  // same format and frames as for the writer's own file.
  lemma UnknownChunksSkipped(s: seq<Byte>, m: Fmt, p: seq<Byte>, before: seq<Junk>, fmtAt: nat, between: seq<Junk>,
                             dataAt: nat)
    requires FieldsFit(m) && |p| < 0xFFFF_FFFF && |s| >= 12 && Id(s, 0) == Riff() && Id(s, 8) == Wave()
    requires (forall c | c in before :: Skippable(c)) && forall c | c in between :: Skippable(c)
    requires AllLaid(s, 12, before, fmtAt) && Laid(s, fmtAt, FmtId(), FmtBytes(m))
    requires AllLaid(s, fmtAt + 24, between, dataAt) && Laid(s, dataAt, DataId(), p)
    ensures Parse(s) == ReadOrRefused(m, |p|, dataAt + 8) && Parse(File(m, p)) == ReadOrRefused(m, |p|, 44)
  {
    hide Chunks, FmtAt, FmtBytes, Finish, Recovered, File, ReadOrRefused;
    WrittenThenRead(m, p);
    JunkSkipped(s, 12, before, fmtAt, None);
    FmtBytesRead(m, s, fmtAt + 8);
    FmtTaken(s, fmtAt, m);
    JunkSkipped(s, fmtAt + 24, between, dataAt, Some(Known(m, 0)));
    DataTaken(s, dataAt, m, |p|);
    assert DataInFile(s, dataAt + 8, |p|) == SizeRead(|p|);
    Finished(s, m, |p|, |p|, dataAt + 8);
  }

  lemma FmtTaken(s: seq<Byte>, at: nat, m: Fmt)
    requires at + 24 <= |s| && Id(s, at) == FmtId() && U32(s, at + 4) == 16 && FmtAt(s, at + 8) == m
    ensures Chunks(s, at, None) == Chunks(s, at + 24, Some(Known(m, 0)))
  {
    hide FmtAt;
  }

  lemma DataTaken(s: seq<Byte>, at: nat, m: Fmt, n: nat)
    requires at + 8 <= |s| && Id(s, at) == DataId() && U32(s, at + 4) == n
    ensures Chunks(s, at, Some(Known(m, 0))) == Some(Found(Known(m, 0), at + 8, n))
  {
    assert FmtId()[0] != DataId()[0];
  }
}
