/**
 tinyosc over byte buffers: writing into cleared memory, reading with a moving marker,
 and bundles that grow message by message.
 */
module OscBuffers {
  import opened Options
  import opened Bytes
  import opened TinyOsc
  import opened OscRead
  import opened OscOutcome

  // `len` bytes from `at` on hold `out` and zeros behind it.
  predicate Holds(s: seq<Byte>, at: nat, len: nat, out: seq<Byte>) {
    at + len <= |s| && forall j :: 0 <= j < len ==> s[at + j] == if j < |out| then out[j] else 0
  }

  // Equal outside the `len` bytes from `at` on.
  predicate SameElsewhere(s: seq<Byte>, s': seq<Byte>, at: nat, len: nat) {
    |s| == |s'| && forall j :: 0 <= j < |s| && !(at <= j < at + len) ==> s'[j] == s[j]
  }

  method Copy(buffer: array<Byte>, pos: nat, b: seq<Byte>)
    requires pos + |b| <= buffer.Length
    modifies buffer
    ensures forall j :: 0 <= j < buffer.Length ==>
              buffer[j] == if pos <= j < pos + |b| then b[j - pos] else old(buffer[j])
  {
    for i := 0 to |b|
      invariant forall j :: 0 <= j < buffer.Length ==>
                  buffer[j] == if pos <= j < pos + i then b[j - pos] else old(buffer[j])
    {
      buffer[pos + i] := b[i];
    }
  }

  // Bytes put behind what is there; zeros behind them are there already.
  lemma HoldsMore(s: seq<Byte>, s': seq<Byte>, at: nat, len: nat, out: seq<Byte>, b: seq<Byte>, piece: seq<Byte>)
    requires Holds(s, at, len, out) && |s'| == |s| && |out| + |b| <= len && |b| <= |piece| && piece[..|b|] == b
    requires forall j :: |b| <= j < |piece| ==> piece[j] == 0
    requires forall j :: 0 <= j < |s| ==>
               s'[j] == if at + |out| <= j < at + |out| + |b| then b[j - at - |out|] else s[j]
    ensures Holds(s', at, len, out + piece) && SameElsewhere(s, s', at, len)
  {
    forall j | 0 <= j < |b| ensures piece[j] == b[j] { assert piece[..|b|][j] == b[j]; }
    forall j | 0 <= j < len ensures s'[at + j] == if j < |out + piece| then (out + piece)[j] else 0 {
      assert s[at + j] == if j < |out| then out[j] else 0;
      if j >= |out| && j < |out| + |b| { assert s'[at + j] == b[j - |out|] == piece[j - |out|]; }
      else if |out| + |b| <= j < |out + piece| { assert piece[j - |out|] == 0; }
    }
  }

  // The bytes of an argument that are copied, the rest of its piece being zeros.
  function Stored(a: Arg, i: nat, len: nat): seq<Byte> {
    match a
    case Str(s) => if i + |s| < len && |s| > len - i - |s| then s[..len - i - |s|] else s
    case Blob(b) => Be32(|b|) + b
    case _ => EncodeArg(a)
  }

  lemma StoredPiece(a: Arg, i: nat, len: nat)
    requires WriteArg(a, i, len).Put?
    ensures var p, b := WriteArg(a, i, len).bytes, Stored(a, i, len);
            && |b| <= |p| && p[..|b|] == b && (forall j :: |b| <= j < |p| ==> p[j] == 0)
            && (b != [] ==> i + |b| <= len)
  {
    hide Be32, Be64;
  }

  // One argument at offset i; the offset behind it, or a refusal.
  method WriteOne(buffer: array<Byte>, at: nat, len: nat, ghost out: seq<Byte>, i: nat, a: Arg) returns (r: int)
    requires Holds(buffer[..], at, len, out) && i == |out|
    modifies buffer
    ensures match WriteArg(a, i, len)
            case Refused(c) => r == c && r < 0 && buffer[..] == old(buffer[..])
            case Put(bytes) => r == i + |bytes| && Holds(buffer[..], at, len, out + bytes)
    ensures SameElsewhere(old(buffer[..]), buffer[..], at, len)
  {
    if a.Unknown? { return BAD_TAG; }
    if a.Str? && i + |a.s| >= len { return NO_ROOM; }
    if a.Blob? && i + 4 + |a.b| > len { return NO_ROOM; }
    if !a.Str? && !a.Blob? && EncodeArg(a) != [] && i + |EncodeArg(a)| > len { return NO_ROOM; }
    var b := Stored(a, i, len);
    StoredPiece(a, i, len);
    ghost var before := buffer[..];
    if b != [] { Copy(buffer, at + i, b); }
    r := i + if a.Str? then Up4(|a.s|) else |EncodeArg(a)|;
    hide Be32, Be64, Stored, Holds, SameElsewhere;
    StoredHolds(before, buffer[..], at, len, out, b, WriteArg(a, i, len).bytes);
  }

  lemma StoredHolds(s: seq<Byte>, s': seq<Byte>, at: nat, len: nat, out: seq<Byte>, b: seq<Byte>, piece: seq<Byte>)
    requires Holds(s, at, len, out) && |s'| == |s| && (b != [] ==> |out| + |b| <= len)
    requires |b| <= |piece| && piece[..|b|] == b && forall j :: |b| <= j < |piece| ==> piece[j] == 0
    requires b == [] ==> s' == s
    requires b != [] ==> forall j :: 0 <= j < |s| ==>
               s'[j] == if at + |out| <= j < at + |out| + |b| then b[j - at - |out|] else s[j]
    ensures Holds(s', at, len, out + piece) && SameElsewhere(s, s', at, len)
  {
    if b != [] {
      HoldsMore(s, s', at, len, out, b, piece);
    } else {
      forall j | 0 <= j < len ensures s'[at + j] == if j < |out + piece| then (out + piece)[j] else 0 {
        assert s[at + j] == if j < |out| then out[j] else 0;
        if |out| <= j < |out + piece| { assert piece[j - |out|] == 0; }
      }
    }
  }

  // The address is accepted, but the comma behind it falls outside the room.
  predicate Stray(address: seq<Byte>, len: nat) {
    |address| < len <= Up4(|address|)
  }

  // Outside the room nothing changes but the place of such a comma.
  predicate Outside(s: seq<Byte>, s': seq<Byte>, at: nat, len: nat, address: seq<Byte>) {
    && |s| == |s'|
    && forall j :: 0 <= j < |s| && !(at <= j < at + len) ==>
         s'[j] == if Stray(address, len) && j == at + Up4(|address|) then COMMA else s[j]
  }

  // The bytes outside the room stay exactly when the comma is not astray, or falls on a
  // comma.
  lemma OutsideStaysIff(s: seq<Byte>, s': seq<Byte>, at: nat, len: nat, address: seq<Byte>)
    requires Outside(s, s', at, len, address) && (Stray(address, len) ==> at + Up4(|address|) < |s|)
    ensures SameElsewhere(s, s', at, len) <==> !Stray(address, len) || s[at + Up4(|address|)] == COMMA
  {
    if Stray(address, len) { assert s'[at + Up4(|address|)] == COMMA; }
    hide Up4;
  }

  // An address of three bytes in a room of four puts its comma at offset four.
  lemma StrayComma(args: seq<Arg>)
    ensures Stray([47, 97, 98], 4) && Up4(3) == 4 && VWrite([47, 97, 98], args, 4).0 == NO_FORMAT
  {
  }

  // `tosc_vwrite`: cleared, then address, comma and format, then argument by argument.
  // A comma that falls outside the room is written all the same, in the memory there.
  method VWriteInto(buffer: array<Byte>, at: nat, len: nat, address: seq<Byte>, args: seq<Arg>) returns (r: int)
    requires at + len <= buffer.Length && (|address| < len ==> at + Up4(|address|) < buffer.Length)
    modifies buffer
    ensures r == VWrite(address, args, len).0
    ensures Holds(buffer[..], at, len, VWrite(address, args, len).1)
    ensures Outside(old(buffer[..]), buffer[..], at, len, address)
  {
    hide Holds, SameElsewhere, Outside, Padded, CutFormat, WriteArgs, Up4;
    ghost var start := buffer[..];
    Clear(buffer, at, len);
    var i := |address|;
    if i >= len {
      NotOutside(start, buffer[..], at, len, address);
      return NO_ADDRESS;
    }
    ghost var clear := buffer[..];
    WriteAddress(buffer, at, len, address);
    OutsideAfter(start, clear, buffer[..], at, len, address);
    i := Up4(i) + 1;
    var format := Tags(args);
    if i + |format| >= len { return NO_FORMAT; }
    ghost var mid := buffer[..];
    WriteFormat(buffer, at, len, Padded(address), i, format);
    OutsideThen(start, mid, buffer[..], at, len, address);
    AlignedSum(|address|, |format| + 1);
    ghost var out := Padded(address) + CutFormat(format, len - i - |format|);
    i := Up4(i + |format|);
    mid := buffer[..];
    r := WriteRest(buffer, at, len, out, i, args);
    OutsideThen(start, mid, buffer[..], at, len, address);
  }

  lemma NotOutside(s: seq<Byte>, s': seq<Byte>, at: nat, len: nat, address: seq<Byte>)
    requires SameElsewhere(s, s', at, len) && !Stray(address, len)
    ensures Outside(s, s', at, len, address)
  {
    hide Up4;
  }

  lemma OutsideAfter(a: seq<Byte>, b: seq<Byte>, c: seq<Byte>, at: nat, len: nat, address: seq<Byte>)
    requires SameElsewhere(a, b, at, len) && Outside(b, c, at, len, address)
    ensures Outside(a, c, at, len, address)
  {
    hide Up4;
  }

  lemma OutsideThen(a: seq<Byte>, b: seq<Byte>, c: seq<Byte>, at: nat, len: nat, address: seq<Byte>)
    requires Outside(a, b, at, len, address) && SameElsewhere(b, c, at, len)
    ensures Outside(a, c, at, len, address)
  {
    hide Up4;
  }

  method Clear(buffer: array<Byte>, at: nat, len: nat)
    requires at + len <= buffer.Length
    modifies buffer
    ensures Holds(buffer[..], at, len, []) && SameElsewhere(old(buffer[..]), buffer[..], at, len)
  {
    Copy(buffer, at, Zeros(len));
  }

  // The address and the comma that starts the format.
  method WriteAddress(buffer: array<Byte>, at: nat, len: nat, address: seq<Byte>)
    requires Holds(buffer[..], at, len, []) && |address| < len && at + Up4(|address|) < buffer.Length
    modifies buffer
    ensures Holds(buffer[..], at, len, Padded(address) + [COMMA])
            && Outside(old(buffer[..]), buffer[..], at, len, address)
  {
    ghost var clear := buffer[..];
    Copy(buffer, at, address);
    HoldsMore(clear, buffer[..], at, len, [], address, Padded(address));
    assert [] + Padded(address) == Padded(address);
    ghost var mid := buffer[..];
    hide Padded, Up4;
    Copy(buffer, at + Up4(|address|), [COMMA]);
    if Stray(address, len) {
      HoldsAstray(mid, buffer[..], at, len, Padded(address), [COMMA]);
    } else {
      HoldsMore(mid, buffer[..], at, len, Padded(address), [COMMA], [COMMA]);
      SameTwice(clear, mid, buffer[..], at, len);
      NotOutside(clear, buffer[..], at, len, address);
    }
  }

  // Bytes behind a full room.
  lemma HoldsAstray(s: seq<Byte>, s': seq<Byte>, at: nat, len: nat, out: seq<Byte>, more: seq<Byte>)
    requires Holds(s, at, len, out) && |out| >= len && |s'| == |s| && forall j :: at <= j < at + len ==> s'[j] == s[j]
    ensures Holds(s', at, len, out + more)
  {
    forall j | 0 <= j < len ensures s'[at + j] == (out + more)[j] { assert s[at + j] == out[j]; }
  }

  // The tags: as many as leave room for a copy of them all.
  method WriteFormat(buffer: array<Byte>, at: nat, len: nat, ghost head: seq<Byte>, i: nat, format: seq<Byte>)
    requires Holds(buffer[..], at, len, head + [COMMA]) && i == |head| + 1 && i + |format| < len
    modifies buffer
    ensures Holds(buffer[..], at, len, head + CutFormat(format, len - i - |format|))
    ensures SameElsewhere(old(buffer[..]), buffer[..], at, len)
  {
    var room := len - i - |format|;
    ghost var before := buffer[..];
    Copy(buffer, at + i, if |format| <= room then format else format[..room]);
    FormatHeld(before, buffer[..], at, len, head, format, room);
    hide *;
  }

  lemma FormatHeld(s: seq<Byte>, s': seq<Byte>, at: nat, len: nat, head: seq<Byte>, format: seq<Byte>, room: nat)
    requires Holds(s, at, len, head + [COMMA]) && |s'| == |s| && |head| + 1 + |format| + room == len
    requires var b := if |format| <= room then format else format[..room];
             forall j :: 0 <= j < |s| ==>
               s'[j] == if at + |head| + 1 <= j < at + |head| + 1 + |b| then b[j - at - |head| - 1] else s[j]
    ensures Holds(s', at, len, head + CutFormat(format, room)) && SameElsewhere(s, s', at, len)
  {
    var b := if |format| <= room then format else format[..room];
    var piece := CutFormat(format, room)[1..];
    assert piece == b + Zeros(Up4(|format| + 1) - 1 - |b|);
    HoldsMore(s, s', at, len, head + [COMMA], b, piece);
    assert head + CutFormat(format, room) == head + [COMMA] + piece;
  }

  method WriteRest(buffer: array<Byte>, at: nat, len: nat, ghost out: seq<Byte>, i0: nat, args: seq<Arg>)
    returns (r: int)
    requires Holds(buffer[..], at, len, out) && i0 == |out|
    modifies buffer
    ensures var (c, body) := WriteArgs(args, |out|, len);
            r == (if c < 0 then c else |out + body|) && Holds(buffer[..], at, len, out + body)
    ensures SameElsewhere(old(buffer[..]), buffer[..], at, len)
  {
    var i := i0;
    ghost var body: seq<Byte> := [];
    assert out + [] == out;
    SameReflexive(buffer[..], at, len);
    UnderwayStart(args, len, out);
    hide WriteArg, Holds, SameElsewhere, WriteArgs, Underway;
    for j := 0 to |args|
      invariant i == |out + body| && Holds(buffer[..], at, len, out + body) && Underway(args, len, out, j, body)
      invariant SameElsewhere(old(buffer[..]), buffer[..], at, len)
    {
      ghost var before := buffer[..];
      UnderwayNext(args, len, out, j, body);
      r := WriteOne(buffer, at, len, out + body, i, args[j]);
      SameTwice(old(buffer[..]), before, buffer[..], at, len);
      if r < 0 { return; }
      body := body + WriteArg(args[j], i, len).bytes;
      i := r;
    }
    UnderwayDone(args, len, out, body);
    r := i;
  }

  // With `body` written for the first j arguments, the rest completes the whole.
  ghost predicate Underway(args: seq<Arg>, len: nat, out: seq<Byte>, j: nat, body: seq<Byte>) {
    && j <= |args|
    && var (c, rest) := WriteArgs(args[j..], |out + body|, len);
    WriteArgs(args, |out|, len) == (c, body + rest)
  }

  lemma UnderwayStart(args: seq<Arg>, len: nat, out: seq<Byte>)
    ensures Underway(args, len, out, 0, [])
  {
    hide WriteArgs;
    assert args[0..] == args && out + [] == out;
    assert [] + WriteArgs(args, |out|, len).1 == WriteArgs(args, |out|, len).1;
  }

  lemma UnderwayNext(args: seq<Arg>, len: nat, out: seq<Byte>, j: nat, body: seq<Byte>)
    requires Underway(args, len, out, j, body) && j < |args|
    ensures match WriteArg(args[j], |out + body|, len)
            case Refused(c) => c < 0 && WriteArgs(args, |out|, len) == (c, body)
            case Put(bytes) =>
              Underway(args, len, out, j + 1, body + bytes) && out + (body + bytes) == out + body + bytes
  {
    hide WriteArg, WriteArgs;
    ArgsNext(args, j, |out + body|, len);
    match WriteArg(args[j], |out + body|, len)
    case Refused(c) => assert body + [] == body;
    case Put(bytes) =>
      assert out + (body + bytes) == out + body + bytes;
      var rest := WriteArgs(args[j + 1..], |out + body + bytes|, len).1;
      assert body + (bytes + rest) == body + bytes + rest;
  }

  lemma UnderwayDone(args: seq<Arg>, len: nat, out: seq<Byte>, body: seq<Byte>)
    requires Underway(args, len, out, |args|, body)
    ensures WriteArgs(args, |out|, len) == (0, body)
  {
    ArgsDone(args, |out + body|, len);
    hide WriteArgs;
    assert body + [] == body;
  }

  lemma ArgsNext(args: seq<Arg>, j: nat, i: nat, len: nat)
    requires j < |args|
    ensures WriteArgs(args[j..], i, len)
         == match WriteArg(args[j], i, len)
            case Refused(c) => (c, [])
            case Put(bytes) => (WriteArgs(args[j + 1..], i + |bytes|, len).0,
                bytes + WriteArgs(args[j + 1..], i + |bytes|, len).1)
    ensures WriteArg(args[j], i, len).Refused? ==> WriteArg(args[j], i, len).code < 0
  {
    assert args[j..][0] == args[j] && args[j..][1..] == args[j + 1..];
  }

  lemma ArgsDone(args: seq<Arg>, i: nat, len: nat)
    ensures WriteArgs(args[|args|..], i, len) == (0, [])
  {
  }

  lemma SameReflexive(s: seq<Byte>, at: nat, len: nat)
    ensures SameElsewhere(s, s, at, len)
  {
  }

  lemma SameTwice(a: seq<Byte>, b: seq<Byte>, c: seq<Byte>, at: nat, len: nat)
    requires SameElsewhere(a, b, at, len) && SameElsewhere(b, c, at, len)
    ensures SameElsewhere(a, c, at, len)
  {
  }

  // ---- reading ----

  // A message being read; the bytes stay where they are.
  class Packet {
    const s: seq<Byte>
    var at: nat
    var format: nat
    var marker: nat
    var len: nat

    function View(): Message
      reads this
    {
      Message(at, format, marker, len)
    }

    constructor (s: seq<Byte>)
      ensures this.s == s && View() == Message(0, 0, 0, 0)
    {
      this.s := s;
      at, format, marker, len := 0, 0, 0, 0;
    }

    // Scanning ends where the bytes do.
    method ParseMessage(at: nat, len: int) returns (code: int)
      requires at <= |s|
      modifies this
      ensures code == Parse(s, at, len).0
      ensures code == 0 ==> View() == Parse(s, at, len).1
      ensures code == NO_COMMA ==> View() == old(View())
    {
      var i := at;
      while i < |s| && s[i] != 0
        invariant at <= i <= |s| && forall q :: at <= q < i ==> s[q] != 0
      {
        i := i + 1;
      }
      FoundOrEnd(s, 0, at, i, |s|);
      ghost var zero := i;
      while i < |s| && s[i] != COMMA
        invariant zero <= i <= |s| && forall q :: zero <= q < i ==> s[q] != COMMA
      {
        i := i + 1;
      }
      FoundOrEnd(s, COMMA, zero, i, |s|);
      if i - at >= len { return NO_COMMA; }
      format := i + 1;
      ghost var comma := i;
      var end := Within(s, at, len);
      while i < end && s[i] != 0
        invariant comma <= i <= end && forall q :: comma <= q < i ==> s[q] != 0
      {
        i := i + 1;
      }
      FoundOrEnd(s, 0, comma, i, end);
      if i == end { return NO_END; }
      marker := at + Up4(i - at);
      this.at, this.len := at, len;
      code := 0;
    }

    method GetNextInt32() returns (x: nat)
      requires marker + 4 <= |s|
      modifies this`marker
      ensures Get(s, old(View()), 105) == Some((Int32(x), marker))
              && Get(s, old(View()), 102) == Some((Float32(x), marker))
    {
      x := Word(s, marker);
      marker := marker + 4;
    }

    method GetNextInt64() returns (x: nat)
      requires marker + 8 <= |s|
      modifies this`marker
      ensures Get(s, old(View()), 104) == Some((Int64(x), marker))
              && Get(s, old(View()), 100) == Some((Float64(x), marker))
      ensures Get(s, old(View()), 116) == Some((Timetag(x), marker))
    {
      x := Word64(s, marker);
      marker := marker + 8;
    }

    // No text when it would run past the message; the marker then stays.
    method GetNextString() returns (t: Option<seq<Byte>>)
      requires marker <= |s|
      modifies this`marker
      ensures Get(s, old(View()), 115) == if t.Some? then Some((Str(t.value), marker)) else None
      ensures t.None? ==> marker == old(marker)
    {
      var i := 0;
      while marker + i < |s| && s[marker + i] != 0
        invariant marker + i <= |s| && forall q :: marker <= q < marker + i ==> s[q] != 0
      {
        i := i + 1;
      }
      FoundOrEnd(s, 0, marker, marker + i, |s|);
      if marker + i >= at + len || marker + i == |s| { return None; }
      t := Some(s[marker..marker + i]);
      marker := marker + Up4(i);
    }

    method GetNextBlob() returns (b: Option<seq<Byte>>)
      requires marker + 4 <= |s|
      modifies this`marker
      ensures Get(s, old(View()), 98) == if b.Some? then Some((Blob(b.value), marker)) else None
      ensures b.None? ==> marker == old(marker)
    {
      var i := Word(s, marker);
      if marker + 4 + i <= at + len && marker + 4 + i <= |s| {
        b := Some(s[marker + 4..marker + 4 + i]);
        marker := marker + Words(i + 4);
      } else {
        b := None;
      }
    }

    method GetNextMidi() returns (m: seq<Byte>)
      requires marker + 4 <= |s|
      modifies this`marker
      ensures Get(s, old(View()), 109) == Some((Midi(m), marker))
    {
      m := s[marker..marker + 4];
      marker := marker + 4;
    }
  }

  lemma FoundOrEnd(s: seq<Byte>, c: Byte, i: nat, j: nat, end: nat)
    requires i <= j <= end <= |s| && (j < end ==> s[j] == c) && forall q :: i <= q < j ==> s[q] != c
    ensures Find(s, c, i, end) == j
  {
  }

  // ---- bundles ----

  // A message at `pos`, and its length, or the code of its refusal, in front of it.  What
  // lies in front of that stays.
  method PlaceMessage(buffer: array<Byte>, pos: nat, room: nat, e: Sent, ghost sent: seq<Sent>) returns (r: int)
    requires pos + 4 + room <= buffer.Length && room < 0x8000_0000 && pos >= 16 && Aligned(pos)
    requires |e.address| < room ==> pos + 4 + Up4(|e.address|) < buffer.Length
    requires Text(e.address) && AllPassable(e.args)
    requires At(buffer[..], 0, Be64(BUNDLE_ID)) && Elements(buffer[..], 16, pos, sent)
    modifies buffer
    ensures r == VWrite(e.address, e.args, room).0 && -4 <= r <= Words(room)
    ensures At(buffer[..], 0, Be64(BUNDLE_ID)) && Elements(buffer[..], 16, pos, sent)
    ensures Whole(e, room) ==>
              && r >= 0 && r == |Encode(e.address, e.args)| && Aligned(pos + 4 + r) && pos + 4 + r <= pos + 4 + room
              && Elements(buffer[..], 16, pos + 4 + r, sent + [e])
  {
    hide Elements, VWrite, Roomy, Encode, Be32, Holds, SameElsewhere, Outside, AllPassable, At, Text, Be64, Wrap32,
        Aligned, Words, Up4, Whole;
    ghost var before := buffer[..];
    CodeRange(e.address, e.args, room);
    r := VWriteInto(buffer, pos + 4, room, e.address, e.args);
    ghost var written := buffer[..];
    Copy(buffer, pos, Be32(Wrap32(r)));
    FrontStays(before, written, buffer[..], pos, room, e);
    AtKept(before, buffer[..], 0, Be64(BUNDLE_ID), pos);
    ElementsKept(before, buffer[..], 16, pos, sent);
    if Whole(e, room) {
      MessagePlaced(before, written, buffer[..], pos, room, e, sent, r);
    }
  }

  // Of known types, with room for the message and double room for its texts.
  predicate Whole(e: Sent, room: nat) {
    AllKnown(e.args) && |Encode(e.address, e.args)| <= room && Roomy(e.address, e.args, room)
  }

  class Bundle {
    const buffer: array<Byte>
    const bufLen: nat
    var marker: nat
    var bundleLen: nat
    ghost var sent: seq<Sent>

    // Header and whole messages up to the marker.
    ghost predicate Valid()
      reads this, buffer
    {
      && bufLen <= buffer.Length
      && 16 <= bundleLen == marker <= bufLen && Aligned(bundleLen)
      && At(buffer[..], 0, Be64(BUNDLE_ID)) && Elements(buffer[..], 16, bundleLen, sent)
    }

    constructor (timetag: nat, buffer: array<Byte>, len: nat)
      requires 16 <= len <= buffer.Length
      modifies buffer
      ensures Valid() && this.buffer == buffer && bufLen == len && bundleLen == 16 && sent == []
      ensures At(buffer[..], 8, Be64(timetag))
    {
      this.buffer, bufLen, marker, bundleLen, sent := buffer, len, 16, 16, [];
      new;
      Copy(buffer, 0, Be64(BUNDLE_ID));
      Copy(buffer, 8, Be64(timetag));
      hide Be64;
      assert buffer[..][0..8] == Be64(BUNDLE_ID) && buffer[..][8..16] == Be64(timetag);
    }

    // A message behind the others.  Nothing happens in a full bundle.  A refused message
    // moves the marker by 4 plus its code: not at all for an unknown type, else off the
    // words.  With less than a word left the length handed on is negative, and there is
    // no outcome to state.
    method WriteNextMessage(address: seq<Byte>, args: seq<Arg>) returns (r: int)
      requires Valid() && Text(address) && AllPassable(args) && bufLen < 0x8000_0000
      requires bundleLen < bufLen ==> RoomPassed(bufLen, bundleLen) >= 0
      requires |address| < RoomLeft() ==> bundleLen + 4 + Up4(|address|) < buffer.Length
      modifies this, buffer
      ensures old(bundleLen) >= bufLen ==> r == 0 && Valid() && sent == old(sent) && bundleLen == old(bundleLen)
      ensures old(bundleLen) < bufLen ==> r == VWrite(address, args, old(RoomLeft())).0
      ensures old(bundleLen) < bufLen ==> bundleLen == marker == old(bundleLen) + 4 + r
      ensures old(bundleLen) < bufLen && Whole(Sent(address, args), old(RoomLeft())) ==>
                r == |Encode(address, args)| && Valid() && sent == old(sent) + [Sent(address, args)]
      ensures old(bundleLen) < bufLen ==> (r < 0 <==> !Accepted(address, args, old(RoomLeft())))
      ensures old(bundleLen) < bufLen && !Accepted(address, args, old(RoomLeft())) ==>
                && (Valid() <==> StoppedByType(address, args, old(RoomLeft())))
                && (Valid() ==> sent == old(sent) && bundleLen == old(bundleLen))
                && (!Valid() ==> !Aligned(bundleLen))
    {
      hide Elements, VWrite, Roomy, Encode, Be32, AllPassable, At, Text, Be64, Wrap32, Up4, Words, Whole, RoomPassed;
      hide Accepted, StoppedByType;
      OutcomeIff(address, args, RoomLeft());
      if bundleLen >= bufLen { return 0; }
      NegativeRoomIff(bufLen, bundleLen);
      WordsSmall(RoomLeft());
      r := PlaceMessage(buffer, marker, RoomLeft(), Sent(address, args), sent);
      if Whole(Sent(address, args), RoomLeft()) { sent := sent + [Sent(address, args)]; }
      marker := marker + Wrap32(4 + r);
      bundleLen := bundleLen + Wrap32(4 + r);
    }

    // What is left for a message once its length is set aside.
    function RoomLeft(): (n: nat)
      reads this
    {
      if bundleLen + 4 <= bufLen then bufLen - bundleLen - 4 else 0
    }
  }

  // The room handed on: an unsigned difference taken as a signed length.
  function RoomPassed(bufLen: nat, bundleLen: nat): int {
    Signed32(Wrap32(bufLen - bundleLen - 4))
  }

  // It is negative exactly when less than a word is left behind whole words: in a buffer
  // of whole words never, in any other exactly when all its whole words are used.
  lemma NegativeRoomIff(bufLen: nat, bundleLen: nat)
    requires Aligned(bundleLen) && bundleLen < bufLen < 0x8000_0000
    ensures RoomPassed(bufLen, bundleLen) < 0 <==> bufLen < bundleLen + 4
    ensures RoomPassed(bufLen, bundleLen) < 0 <==> !Aligned(bufLen) && bundleLen == bufLen - bufLen % 4
    ensures RoomPassed(bufLen, bundleLen) >= 0 ==> RoomPassed(bufLen, bundleLen) == bufLen - bundleLen - 4
  {
  }

  // A new bundle in eighteen bytes: room for minus two.
  lemma EighteenBytes()
    ensures RoomPassed(18, 16) == -2
  {
  }

  // In a new bundle of 28 bytes there is no room for a number behind a short address: the
  // refusal takes the marker from 16 to 17.
  lemma OffTheWords()
    ensures var address, args: seq<Arg>, room := [47, 97], [Int32(7)], 8;
            && RoomPassed(28, 16) == room && Text(address) && AllPassable(args)
            && VWrite(address, args, room).0 == NO_ROOM
            && !Accepted(address, args, room) && !StoppedByType(address, args, room)
            && 16 + 4 + NO_ROOM == 17 && !Aligned(17)
  {
    var args: seq<Arg> := [Int32(7)];
    assert |Padded([47, 97])| == 4 && |CutFormat(Tags(args), 2)| == 4;
    assert WriteArg(args[0], 8, 8) == Refused(NO_ROOM);
    OutcomeIff([47, 97], args, 8);
    hide EndWithin, Known, AllKnown, HeadFits;
  }

  lemma WordsSmall(room: nat)
    requires room < 0x8000_0000
    ensures Words(room) <= 0x8000_0000
  {
  }

  // In front of a message nothing changes.
  lemma FrontStays(before: seq<Byte>, written: seq<Byte>, after: seq<Byte>, end: nat, room: nat, e: Sent)
    requires end + 4 + room <= |before| && Outside(before, written, end + 4, room, e.address)
    requires |after| == |written| && forall j :: 0 <= j < |after| && !(end <= j < end + 4) ==> after[j] == written[j]
    ensures |after| == |before| && after[..end] == before[..end]
  {
    hide Up4;
  }

  lemma {:induction false} ElementsKept(s: seq<Byte>, s': seq<Byte>, pos: nat, end: nat, es: seq<Sent>)
    requires Elements(s, pos, end, es) && |s'| == |s| && end <= |s| && s'[..end] == s[..end]
    ensures Elements(s', pos, end, es)
    decreases |es|
  {
    hide Encode, At, Be32, Sendable, Elements;
    if es == [] {
      NoElements(s, pos, end);
      NoneLeft(s', pos);
    } else {
      var m := Encode(es[0].address, es[0].args);
      FirstElement(s, pos, end, es);
      AtKept(s, s', pos, Be32(|m|), end);
      AtKept(s, s', pos + 4, m, end);
      ElementsKept(s, s', pos + 4 + |m|, end, es[1..]);
      ElementBefore(s', pos, end, es);
    }
  }

  lemma NoneLeft(s: seq<Byte>, pos: nat)
    ensures Elements(s, pos, pos, [])
  {
  }

  // A message laid down behind the others, with its length in front.
  lemma MessagePlaced(before: seq<Byte>, written: seq<Byte>, after: seq<Byte>, end: nat, room: nat,
                      e: Sent, sent: seq<Sent>, r: int)
    requires Text(e.address) && AllPassable(e.args) && Whole(e, room) && room < 0x8000_0000
    requires r == VWrite(e.address, e.args, room).0 && Aligned(end)
    requires Elements(before, 16, end, sent) && end + 4 + room <= |before| == |after|
    requires Holds(written, end + 4, room, VWrite(e.address, e.args, room).1) && after[..end] == before[..end]
    requires |after| == |written|
    requires forall j :: 0 <= j < |after| ==>
               after[j] == if end <= j < end + 4 then Be32(Wrap32(r))[j - end] else written[j]
    ensures r >= 0 && r == |Encode(e.address, e.args)| <= room && Aligned(end + 4 + r)
    ensures Elements(after, 16, end + 4 + r, sent + [e])
  {
    hide Elements, Be32, Roomy, VWrite, Encode, AllPassable, AllKnown, Text, Aligned, Wrap32;
    RoomSuffices(e.address, e.args, room);
    WrittenWholeIff(e.address, e.args, room);
    SumAligned(end, 4);
    MessageAligned(e);
    SumAligned(end + 4, r);
    assert At(after, end, Be32(r));
    assert At(after, end + 4, Encode(e.address, e.args)) by {
      forall j | 0 <= j < r ensures after[end + 4 + j] == Encode(e.address, e.args)[j] {
        assert written[end + 4 + j] == Encode(e.address, e.args)[j];
      }
    }
    assert Sendable(e);
    ElementAdded(before, after, 16, end, sent, e);
  }

  lemma MessageAligned(e: Sent)
    requires AllPassable(e.args)
    ensures Aligned(|Encode(e.address, e.args)|)
  {
    EncodeLength(e.address, e.args);
    ArgsAligned(e.args);
    hide Encode, EncodeArgs, Aligned, Up4;
    SumAligned(Up4(|e.address|), Up4(|e.args| + 1));
    SumAligned(Up4(|e.address|) + Up4(|e.args| + 1), |EncodeArgs(e.args)|);
  }

  // Iterating over a received bundle.
  class BundleReader {
    const s: seq<Byte>
    const bundleLen: nat
    var marker: nat

    constructor (s: seq<Byte>)
      ensures this.s == s && bundleLen == |s| && marker == 16
    {
      this.s, bundleLen, marker := s, |s|, 16;
    }

    // The next message's place and length, and its parse, until the marker reaches the
    // end.  The length is unsigned in the marker's step and signed in the parse.
    method GetNextMessage(o: Packet) returns (more: bool, at: nat, n: nat)
      requires o.s == s && (marker < bundleLen ==> marker + 4 <= |s|)
      modifies this`marker, o
      ensures more == (old(marker) < bundleLen)
      ensures more ==>
                && at == old(marker) + 4 <= |s| && n == Word(s, old(marker))
                && marker == old(marker) + Wrap32(4 + n)
      ensures n < 0xFFFF_FFFC ==>
                Steps(s, old(marker), bundleLen) == if more then [(at, n)] + Steps(s, marker, bundleLen) else []
      ensures more && Parse(s, at, Signed32(n)).0 == 0 ==> o.View() == Parse(s, at, Signed32(n)).1
    {
      hide Parse, Word, Signed32, o.View;
      if marker >= bundleLen { return false, 0, 0; }
      n := Word(s, marker);
      at := marker + 4;
      var _ := o.ParseMessage(at, Signed32(n));
      marker := marker + Wrap32(4 + n);
      more := true;
    }
  }
}
