/**
 Open Sound Control packets as tinyosc writes and reads them: messages, their
 arguments, and bundles of messages.
 */
module TinyOsc {
  import opened Bytes

  // On a word boundary.
  predicate Aligned(n: int) { n % 4 == 0 }

  // `(i + 4) & ~0x3`: the next multiple of four behind a terminating zero.
  function Up4(n: nat): (u: nat)
    ensures Aligned(u) && n < u <= n + 4
  {
    (n + 4) / 4 * 4
  }

  // `(n + 3) & ~0x3`: n in whole words.
  function Words(n: nat): (w: nat)
    ensures Aligned(w) && n <= w < n + 4
  {
    (n + 3) / 4 * 4
  }

  function Zeros(n: nat): (z: seq<Byte>)
    ensures |z| == n
  {
    seq(n, _ => 0)
  }

  // A text with its terminating zero, in whole words.
  function Padded(s: seq<Byte>): (p: seq<Byte>)
    ensures |p| == Up4(|s|)
  {
    s + Zeros(Up4(|s|) - |s|)
  }

  // Most significant byte first.
  function Be32(x: nat): (b: seq<Byte>)
    ensures |b| == 4
  {
    var x1 := x / 256;
    var x2 := x1 / 256;
    [x2 / 256 % 256, x2 % 256, x1 % 256, x % 256]
  }

  function Be64(x: nat): (b: seq<Byte>)
    ensures |b| == 8
  {
    Be32(x / 0x1_0000_0000) + Be32(x % 0x1_0000_0000)
  }

  function Word(s: seq<Byte>, at: nat): (x: nat)
    requires at + 4 <= |s|
    ensures x < 0x1_0000_0000
  {
    256 * (256 * (256 * s[at] as int + s[at + 1] as int) + s[at + 2] as int) + s[at + 3] as int
  }

  function Word64(s: seq<Byte>, at: nat): (x: nat)
    requires at + 8 <= |s|
  {
    Word(s, at) * 0x1_0000_0000 + Word(s, at + 4)
  }

  // ---- messages ----

  const COMMA: Byte := 44

  // Numbers by their bit patterns.
  datatype Arg =
    | Int32(x: nat) | Float32(x: nat) | Int64(x: nat) | Float64(x: nat) | Timetag(x: nat)
    | Str(s: seq<Byte>) | Blob(b: seq<Byte>) | Midi(m: seq<Byte>)
    | Plain(tag: Byte) | Unknown(tag: Byte)

  // T, F, N and I.
  predicate Valueless(t: Byte) { t == 84 || t == 70 || t == 78 || t == 73 }

  // i, f, h, d, t, s, b and m.
  predicate Valued(t: Byte) {
    t == 105 || t == 102 || t == 104 || t == 100 || t == 116 || t == 115 || t == 98 || t == 109
  }

  predicate Text(s: seq<Byte>) {
    forall i :: 0 <= i < |s| ==> s[i] != 0
  }

  // What can be passed for a format character.
  predicate Passable(a: Arg) {
    match a
    case Int32(x) => x < 0x1_0000_0000
    case Float32(x) => x < 0x1_0000_0000
    case Int64(x) => x < 0x1_0000_0000_0000_0000
    case Float64(x) => x < 0x1_0000_0000_0000_0000
    case Timetag(x) => x < 0x1_0000_0000_0000_0000
    case Str(s) => Text(s)
    case Blob(b) => |b| < 0x8000_0000
    case Midi(m) => |m| == 4
    case Plain(t) => Valueless(t)
    case Unknown(t) => t != 0 && !Valueless(t) && !Valued(t)
  }

  function TagOf(a: Arg): Byte {
    match a
    case Int32(_) => 105
    case Float32(_) => 102
    case Int64(_) => 104
    case Float64(_) => 100
    case Timetag(_) => 116
    case Str(_) => 115
    case Blob(_) => 98
    case Midi(_) => 109
    case Plain(t) => t
    case Unknown(t) => t
  }

  function Tags(args: seq<Arg>): (t: seq<Byte>)
    ensures |t| == |args|
  {
    seq(|args|, i requires 0 <= i < |args| => TagOf(args[i]))
  }

  predicate AllPassable(args: seq<Arg>) {
    forall i :: 0 <= i < |args| ==> Passable(args[i])
  }

  // The format by section "OSC Type Tag String" of the OSC 1.0 specification.
  function EncodeArg(a: Arg): seq<Byte> {
    match a
    case Int32(x) => Be32(x)
    case Float32(x) => Be32(x)
    case Int64(x) => Be64(x)
    case Float64(x) => Be64(x)
    case Timetag(x) => Be64(x)
    case Str(s) => Padded(s)
    case Blob(b) => Be32(|b|) + b + Zeros(Words(|b|) - |b|)
    case Midi(m) => m
    case Plain(_) => []
    case Unknown(_) => []
  }

  function EncodeArgs(args: seq<Arg>): seq<Byte> {
    if args == [] then [] else EncodeArg(args[0]) + EncodeArgs(args[1..])
  }

  function Encode(address: seq<Byte>, args: seq<Arg>): seq<Byte> {
    Padded(address) + Padded([COMMA] + Tags(args)) + EncodeArgs(args)
  }

  // A message with an integer, a text and a blob, byte by byte.
  lemma EncodedBytes()
    ensures Encode([47, 97], [Int32(258), Str([98]), Blob([9])])
            == [47, 97, 0, 0] + [44, 105, 115, 98, 0, 0, 0, 0]
               + ([0, 0, 1, 2] + ([98, 0, 0, 0] + [0, 0, 0, 1, 9, 0, 0, 0]))
  {
    PaddedTexts();
    ThreeTags();
    ThreeArgs();
    hide *;
    EncodeIs([47, 97], [Int32(258), Str([98]), Blob([9])]);
  }

  lemma ThreeTags()
    ensures [COMMA] + Tags([Int32(258), Str([98]), Blob([9])]) == [44, 105, 115, 98]
  {
  }

  lemma ThreeArgs()
    ensures EncodeArgs([Int32(258), Str([98]), Blob([9])])
            == [0, 0, 1, 2] + ([98, 0, 0, 0] + [0, 0, 0, 1, 9, 0, 0, 0])
  {
    var (a, b, c) := (Int32(258), Str([98]), Blob([9]));
    PaddedTexts();
    OneBlob();
    assert EncodeArg(a) == [0, 0, 1, 2];
    hide Padded, Be32, EncodeArg;
    assert EncodeArg(b) == [98, 0, 0, 0] by { TextIs([98]); }
    assert [a, b, c][1..] == [b, c] && [b, c][1..] == [c] && [c][1..] == [];
    assert EncodeArgs([c]) == EncodeArg(c) + [] == EncodeArg(c);
    assert EncodeArgs([b, c]) == EncodeArg(b) + EncodeArgs([c]);
  }

  lemma TextIs(s: seq<Byte>)
    ensures EncodeArg(Str(s)) == Padded(s)
  {
  }

  lemma OneBlob()
    ensures EncodeArg(Blob([9])) == [0, 0, 0, 1, 9, 0, 0, 0]
  {
  }

  lemma PaddedTexts()
    ensures Padded([47, 97]) == [47, 97, 0, 0] && Padded([98]) == [98, 0, 0, 0]
    ensures Padded([44, 105, 115, 98]) == [44, 105, 115, 98, 0, 0, 0, 0]
  {
  }

  lemma ArgAligned(a: Arg)
    requires Passable(a)
    ensures Aligned(|EncodeArg(a)|)
  {
    hide Up4, Words, Be32, Be64, Padded, Zeros, Aligned;
    match a
    case Blob(b) =>
      assert |EncodeArg(a)| == 4 + Words(|b|);
      WordMore(Words(|b|));
    case Str(_) =>
    case _ => WholeWords(|EncodeArg(a)|);
  }

  lemma WordMore(n: nat)
    requires Aligned(n)
    ensures Aligned(4 + n)
  {
  }

  lemma WholeWords(n: nat)
    ensures n == 0 || n == 4 || n == 8 ==> Aligned(n)
  {
  }

  lemma SumAligned(a: nat, b: nat)
    requires Aligned(a) && Aligned(b)
    ensures Aligned(a + b)
  {
  }

  lemma {:induction false} ArgsAligned(args: seq<Arg>)
    requires AllPassable(args)
    ensures Aligned(|EncodeArgs(args)|)
  {
    hide EncodeArg, Passable;
    if args != [] {
      assert Passable(args[0]) && AllPassable(args[1..]);
      hide AllPassable;
      ArgAligned(args[0]);
      ArgsAligned(args[1..]);
      SumAligned(|EncodeArg(args[0])|, |EncodeArgs(args[1..])|);
    }
  }

  // ---- writing ----

  // `strncpy` of a text into cleared room: as much as fits, and zeros.
  function CutText(s: seq<Byte>, room: nat): (p: seq<Byte>)
    ensures |p| == Up4(|s|)
  {
    if |s| <= room then Padded(s) else s[..room] + Zeros(Up4(|s|) - room)
  }

  const NO_ADDRESS: int := -1
  const NO_FORMAT: int := -2
  const NO_ROOM: int := -3
  const BAD_TAG: int := -4

  datatype Piece = Refused(code: int) | Put(bytes: seq<Byte>)

  // One argument at offset `i` of `len` bytes.  A text is given as much room as is left
  // behind a copy of it.
  function WriteArg(a: Arg, i: nat, len: nat): Piece {
    match a
    case Str(s) => if i + |s| >= len then Refused(NO_ROOM) else Put(CutText(s, len - i - |s|))
    case Blob(b) => if i + 4 + |b| > len then Refused(NO_ROOM) else Put(EncodeArg(a))
    case Unknown(_) => Refused(BAD_TAG)
    case _ => if i + |EncodeArg(a)| > len && EncodeArg(a) != [] then Refused(NO_ROOM) else Put(EncodeArg(a))
  }

  // Zero, or the code of the first refusal; and the bytes up to there.
  function WriteArgs(args: seq<Arg>, i: nat, len: nat): (int, seq<Byte>)
    decreases |args|
  {
    if args == [] then (0, [])
    else
      match WriteArg(args[0], i, len)
      case Refused(c) => (c, [])
      case Put(bytes) => var (c, rest) := WriteArgs(args[1..], i + |bytes|, len); (c, bytes + rest)
  }

  // The result and the bytes in front of the zeros that fill the buffer.
  function VWrite(address: seq<Byte>, args: seq<Arg>, len: nat): (int, seq<Byte>) {
    var comma, n := Up4(|address|), |args|;
    if |address| >= len then (NO_ADDRESS, [])
    else if comma + 1 + n >= len then (NO_FORMAT, Padded(address) + [COMMA])
    else
      var head := Padded(address) + CutFormat(Tags(args), len - comma - 1 - n);
      var (c, body) := WriteArgs(args, |head|, len);
      (if c < 0 then c else |head + body|, head + body)
  }

  // The comma is always there; the tags behind it may be cut.
  function CutFormat(tags: seq<Byte>, room: nat): (p: seq<Byte>)
    ensures |p| == Up4(|tags| + 1)
  {
    [COMMA] + (if |tags| <= room then tags else tags[..room] + Zeros(|tags| - room))
        + Zeros(Up4(|tags| + 1) - |tags| - 1)
  }

  // Every text has room for two copies of itself up to the end of the buffer.
  predicate ArgsRoomy(args: seq<Arg>, i: nat, len: nat)
    decreases |args|
  {
    args == []
    || ((args[0].Str? ==> i + 2 * |args[0].s| <= len) && ArgsRoomy(args[1..], i + |EncodeArg(args[0])|, len))
  }

  predicate Roomy(address: seq<Byte>, args: seq<Arg>, len: nat) {
    var comma := Up4(|address|);
    comma + 1 + 2 * |args| <= len && ArgsRoomy(args, comma + Up4(|args| + 1), len)
  }

  lemma CutTextWhole(s: seq<Byte>, room: nat)
    requires Text(s)
    ensures CutText(s, room) == Padded(s) <==> |s| <= room
  {
    if |s| > room { assert CutText(s, room)[room] == 0 && Padded(s)[room] == s[room]; }
  }

  lemma CutFormatWhole(args: seq<Arg>, room: nat)
    requires AllPassable(args)
    ensures CutFormat(Tags(args), room) == Padded([COMMA] + Tags(args)) <==> |args| <= room
  {
    var t := Tags(args);
    if |t| > room {
      assert Passable(args[room]) && t[room] == TagOf(args[room]) != 0;
      assert CutFormat(t, room)[room + 1] == 0 && Padded([COMMA] + t)[room + 1] == t[room];
    } else {
      assert CutFormat(t, room) == Padded([COMMA] + t);
    }
  }

  lemma {:induction false} ArgsWhole(args: seq<Arg>, i: nat, len: nat)
    requires AllPassable(args) && WriteArgs(args, i, len).0 >= 0
    ensures |WriteArgs(args, i, len).1| == |EncodeArgs(args)|
    ensures WriteArgs(args, i, len).1 == EncodeArgs(args) <==> ArgsRoomy(args, i, len)
    decreases |args|
  {
    hide *;
    if args == [] {
      NoArgsWhole(i, len);
    } else {
      ArgsNext(args, i, len);
      var a := args[0];
      ArgWhole(a, i, len);
      var bytes := WriteArg(a, i, len).bytes;
      ArgsWhole(args[1..], i + |bytes|, len);
      SameParts(bytes, WriteArgs(args[1..], i + |bytes|, len).1, EncodeArg(a), EncodeArgs(args[1..]));
    }
  }

  lemma NoArgsWhole(i: nat, len: nat)
    ensures WriteArgs([], i, len).1 == EncodeArgs([]) == [] && ArgsRoomy([], i, len)
  {
  }

  // The first argument written, and the rest.
  lemma ArgsNext(args: seq<Arg>, i: nat, len: nat)
    requires AllPassable(args) && args != [] && WriteArgs(args, i, len).0 >= 0
    ensures var (a, rest) := (args[0], args[1..]);
            && Passable(a) && AllPassable(rest) && WriteArg(a, i, len).Put?
            && EncodeArgs(args) == EncodeArg(a) + EncodeArgs(rest)
            && (ArgsRoomy(args, i, len)
                <==> (a.Str? ==> i + 2 * |a.s| <= len) && ArgsRoomy(rest, i + |EncodeArg(a)|, len))
            && var bytes := WriteArg(a, i, len).bytes;
               && WriteArgs(rest, i + |bytes|, len).0 >= 0
               && WriteArgs(args, i, len).1 == bytes + WriteArgs(rest, i + |bytes|, len).1
  {
    hide *;
    FirstPassable(args);
    RefusalsNegative(args[0], i, len);
    WritesNext(args, i, len);
    EncodesNext(args, i, len);
  }

  lemma FirstPassable(args: seq<Arg>)
    requires AllPassable(args) && args != []
    ensures Passable(args[0]) && AllPassable(args[1..])
  {
    hide Passable;
  }

  lemma EncodesNext(args: seq<Arg>, i: nat, len: nat)
    requires args != []
    ensures EncodeArgs(args) == EncodeArg(args[0]) + EncodeArgs(args[1..])
    ensures ArgsRoomy(args, i, len)
            <==> (args[0].Str? ==> i + 2 * |args[0].s| <= len)
                 && ArgsRoomy(args[1..], i + |EncodeArg(args[0])|, len)
  {
    hide EncodeArg;
  }

  lemma WritesNext(args: seq<Arg>, i: nat, len: nat)
    requires args != []
    ensures var p := WriteArg(args[0], i, len);
            WriteArgs(args, i, len)
            == if p.Refused? then (p.code, [])
               else
                 var q := WriteArgs(args[1..], i + |p.bytes|, len);
                 (q.0, p.bytes + q.1)
  {
    hide WriteArg;
  }

  lemma RefusalsNegative(a: Arg, i: nat, len: nat)
    ensures WriteArg(a, i, len).Refused? ==> WriteArg(a, i, len).code < 0
  {
    hide EncodeArg, CutText;
  }

  lemma ArgWhole(a: Arg, i: nat, len: nat)
    requires Passable(a) && WriteArg(a, i, len).Put?
    ensures var p := WriteArg(a, i, len).bytes;
            |p| == |EncodeArg(a)| && (p == EncodeArg(a) <==> (a.Str? ==> i + 2 * |a.s| <= len))
    ensures WriteArg(a, i, len).Put? ==> !a.Unknown?
  {
    hide Be32, Be64, Padded;
    if a.Str? { CutTextWhole(a.s, len - i - |a.s|); }
  }

  lemma SameParts<T>(a: seq<T>, b: seq<T>, c: seq<T>, d: seq<T>)
    requires |a| == |c|
    ensures a + b == c + d <==> a == c && b == d
  {
    assert (a + b)[..|a|] == a && (a + b)[|a|..] == b && (c + d)[..|c|] == c && (c + d)[|c|..] == d;
  }

  // A write that reports success gives the message's length, and leaves the message in
  // the buffer exactly when its texts had double room.
  lemma WrittenWholeIff(address: seq<Byte>, args: seq<Arg>, len: nat)
    requires Text(address) && AllPassable(args) && VWrite(address, args, len).0 >= 0
    ensures VWrite(address, args, len).0 == |Encode(address, args)|
    ensures VWrite(address, args, len).1 == Encode(address, args) <==> Roomy(address, args, len)
  {
    hide *;
    VWriteParts(address, args, len);
    var comma := Up4(|address|);
    var room := len - comma - 1 - |args|;
    var fmt := CutFormat(Tags(args), room);
    ArgsWhole(args, comma + |fmt|, len);
    CutFormatWhole(args, room);
    EncodeIs(address, args);
    ThreeParts(Padded(address), fmt, WriteArgs(args, comma + |fmt|, len).1, Padded([COMMA] + Tags(args)),
        EncodeArgs(args));
    RoomyIs(address, args, len);
  }

  lemma VWriteParts(address: seq<Byte>, args: seq<Arg>, len: nat)
    requires VWrite(address, args, len).0 >= 0
    ensures var comma := Up4(|address|);
            && comma + 1 + |args| < len
            && (var fmt := CutFormat(Tags(args), len - comma - 1 - |args|);
                var (c, body) := WriteArgs(args, comma + |fmt|, len);
                && c >= 0 && |fmt| == Up4(|args| + 1)
                && VWrite(address, args, len) == (|Padded(address) + fmt + body|, Padded(address) + fmt + body))
  {
    hide CutFormat, WriteArgs, Padded, Tags;
  }

  lemma EncodeIs(address: seq<Byte>, args: seq<Arg>)
    ensures |Padded([COMMA] + Tags(args))| == Up4(|args| + 1)
    ensures Encode(address, args) == Padded(address) + Padded([COMMA] + Tags(args)) + EncodeArgs(args)
  {
  }

  lemma RoomyIs(address: seq<Byte>, args: seq<Arg>, len: nat)
    ensures var comma := Up4(|address|);
            Roomy(address, args, len) <==>
              |args| <= len - comma - 1 - |args| && ArgsRoomy(args, comma + Up4(|args| + 1), len)
  {
  }

  lemma ThreeParts<T>(p: seq<T>, a: seq<T>, b: seq<T>, c: seq<T>, d: seq<T>)
    requires |a| == |c|
    ensures p + a + b == p + c + d <==> a == c && b == d
  {
    SameParts(p + a, b, p + c, d);
    SameParts(p, a, p, c);
  }

  // Room for the message alone is not enough: "/a" with the text "abcde" into 16 bytes
  // reports 16 but loses the text's last two bytes.
  lemma SixteenBytesCut()
    ensures var m, args := [47, 97], [Str([97, 98, 99, 100, 101])];
            && |Encode(m, args)| == 16 && VWrite(m, args, 16).0 == 16
            && VWrite(m, args, 16).1 != Encode(m, args)
            && VWrite(m, args, 16).1[8..] == [97, 98, 99, 0, 0, 0, 0, 0]
  {
    var m, a := [47, 97], Str([97, 98, 99, 100, 101]);
    CutArgs(a);
    var head := Padded(m) + CutFormat(Tags([a]), 10);
    assert |head| == 8;
    hide EncodeArgs, EncodeArg, WriteArgs, Padded, CutFormat;
    assert VWrite(m, [a], 16).1 == head + ([97, 98, 99] + Zeros(5));
    WrittenWholeIff(m, [a], 16);
  }

  lemma CutArgs(a: Arg)
    requires a == Str([97, 98, 99, 100, 101])
    ensures WriteArgs([a], 8, 16) == (0, [97, 98, 99] + Zeros(5)) && |EncodeArgs([a])| == 8
  {
    assert EncodeArgs([a]) == EncodeArg(a) + EncodeArgs([]);
    assert WriteArg(a, 8, 16) == Put([97, 98, 99] + Zeros(5));
    assert WriteArgs([], 16, 16) == (0, []);
    assert [97, 98, 99] + Zeros(5) + [] == [97, 98, 99] + Zeros(5);
  }

  // ---- how much room a write needs ----

  // No argument of a type the writer does not know.
  predicate AllKnown(args: seq<Arg>) {
    forall i :: 0 <= i < |args| ==> !args[i].Unknown?
  }

  lemma FirstArg(args: seq<Arg>)
    requires args != []
    ensures Tags(args) != [] && Tags(args)[0] == TagOf(args[0]) && Tags(args)[1..] == Tags(args[1..])
    ensures EncodeArgs(args) == EncodeArg(args[0]) + EncodeArgs(args[1..])
    ensures AllPassable(args) ==> Passable(args[0]) && AllPassable(args[1..])
    ensures AllKnown(args) ==> !args[0].Unknown? && AllKnown(args[1..])
    ensures args == [args[0]] + args[1..]
  {
    hide EncodeArg, Passable, TagOf;
    assert Tags(args)[0] == TagOf(args[0]) && Tags(args)[1..] == Tags(args[1..]);
  }

  lemma AlignedSum(a: nat, n: nat)
    ensures Up4(Up4(a) + n) == Up4(a) + Up4(n)
  {
    var k, w := (n + 4) / 4, (a + 4) / 4;
    assert n + 4 == 4 * k + (n + 4) % 4;
    FourBehind(w, n, k);
  }

  lemma FourBehind(w: nat, n: nat, k: nat)
    requires 4 * k <= n + 4 < 4 * k + 4
    ensures (4 * w + n + 4) / 4 == w + k
  {
  }

  lemma EncodeLength(address: seq<Byte>, args: seq<Arg>)
    ensures |Encode(address, args)| == Up4(|address|) + Up4(|args| + 1) + |EncodeArgs(args)|
  {
  }

  lemma SomeRoom(a: Arg, i: nat, len: nat)
    requires Passable(a) && !a.Unknown? && i + |EncodeArg(a)| <= len
    ensures WriteArg(a, i, len).Put? && |WriteArg(a, i, len).bytes| == |EncodeArg(a)|
  {
    hide Be32, Be64, CutText;
    if a.Blob? { assert |EncodeArg(a)| == 4 + Words(|a.b|); }
  }

  lemma {:induction false} ArgsRoom(args: seq<Arg>, i: nat, len: nat)
    requires AllPassable(args) && AllKnown(args) && i + |EncodeArgs(args)| <= len
    ensures WriteArgs(args, i, len).0 == 0
    decreases |args|
  {
    hide WriteArg, EncodeArg, EncodeArgs, Passable, AllPassable, AllKnown;
    if args != [] {
      FirstArg(args);
      SomeRoom(args[0], i, len);
      ArgsRoom(args[1..], i + |EncodeArg(args[0])|, len);
    }
  }

  // Room for the encoded message is enough for a write of known types to succeed.
  lemma RoomSuffices(address: seq<Byte>, args: seq<Arg>, len: nat)
    requires Text(address) && AllPassable(args) && AllKnown(args) && |Encode(address, args)| <= len
    ensures VWrite(address, args, len).0 == |Encode(address, args)|
  {
    hide EncodeArgs, WriteArgs, Padded, Tags, AllPassable, AllKnown, Encode, CutFormat;
    EncodeLength(address, args);
    ArgsRoom(args, Up4(|address|) + Up4(|args| + 1), len);
    WrittenWholeIff(address, args, len);
  }

  // An accepted argument ends within the room rounded up to whole words.
  lemma ArgFits(a: Arg, i: nat, len: nat)
    requires Passable(a) && Aligned(i) && i <= Words(len)
    ensures WriteArg(a, i, len).Put? ==>
              Aligned(|WriteArg(a, i, len).bytes|) && i + |WriteArg(a, i, len).bytes| <= Words(len)
    ensures WriteArg(a, i, len).Refused? ==> -4 <= WriteArg(a, i, len).code < 0
  {
    hide Be32, Be64, Padded, CutText, EncodeArg, Passable, Words, Aligned;
    if WriteArg(a, i, len).Put? {
      ArgWhole(a, i, len);
      ArgAligned(a);
    }
    if a.Str? && i + |a.s| < len { TextFits(i, |a.s|, len); }
    if a.Blob? && i + 4 + |a.b| <= len { BlobFits(a.b, i, len); }
  }

  lemma TextFits(i: nat, n: nat, len: nat)
    requires Aligned(i) && i + n < len
    ensures i + Up4(n) <= Words(len)
  {
  }

  lemma BlobFits(b: seq<Byte>, i: nat, len: nat)
    requires Aligned(i) && i + 4 + |b| <= len
    ensures i + |EncodeArg(Blob(b))| <= Words(len)
  {
    hide Be32;
    assert |EncodeArg(Blob(b))| == 4 + Words(|b|);
  }

  lemma {:induction false} ArgsFit(args: seq<Arg>, i: nat, len: nat)
    requires AllPassable(args) && Aligned(i) && i <= Words(len) && WriteArgs(args, i, len).0 >= 0
    ensures i + |WriteArgs(args, i, len).1| <= Words(len) && WriteArgs(args, i, len).0 == 0
    decreases |args|
  {
    hide WriteArg, EncodeArg, Passable, AllPassable, Aligned, Words;
    if args != [] {
      FirstArg(args);
      var p := WriteArg(args[0], i, len);
      ArgFits(args[0], i, len);
      SumAligned(i, |p.bytes|);
      ArgsFit(args[1..], i + |p.bytes|, len);
    }
  }

  lemma {:induction false} ArgsCode(args: seq<Arg>, i: nat, len: nat)
    ensures -4 <= WriteArgs(args, i, len).0 <= 0
    decreases |args|
  {
    if args != [] && WriteArg(args[0], i, len).Put? {
      hide WriteArg;
      ArgsCode(args[1..], i + |WriteArg(args[0], i, len).bytes|, len);
    }
  }

  lemma CodeRange(address: seq<Byte>, args: seq<Arg>, len: nat)
    requires AllPassable(args)
    ensures -4 <= VWrite(address, args, len).0 <= Words(len)
  {
    hide WriteArgs, AllPassable, Padded, CutFormat, Aligned, Up4, Words;
    SumAligned(Up4(|address|), Up4(|args| + 1));
    var i := Up4(|address|) + Up4(|args| + 1);
    ArgsCode(args, i, len);
    if VWrite(address, args, len).0 >= 0 {
      VWriteParts(address, args, len);
      TextFits(Up4(|address|), |args| + 1, len);
      ArgsFit(args, i, len);
    }
  }
}
