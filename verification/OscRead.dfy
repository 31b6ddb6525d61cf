/**
 tinyosc's parser: a message read back from the bytes it was written to.
 */
module OscRead {
  import opened Options
  import opened Bytes
  import opened TinyOsc

  // `b` lies in `s` from `pos` on.
  predicate At(s: seq<Byte>, pos: nat, b: seq<Byte>) {
    pos + |b| <= |s| && s[pos..pos + |b|] == b
  }

  // The first byte from i on that is `c`, looking no further than `end`.
  function Find(s: seq<Byte>, c: Byte, i: nat, end: nat): (j: nat)
    requires i <= end <= |s|
    ensures i <= j <= end && (j < end ==> s[j] == c) && forall q :: i <= q < j ==> s[q] != c
    decreases end - i
  {
    if i == end || s[i] == c then i else Find(s, c, i + 1, end)
  }

  lemma Found(s: seq<Byte>, c: Byte, i: nat, j: nat, end: nat)
    requires i <= j < end <= |s| && s[j] == c && forall q :: i <= q < j ==> s[q] != c
    ensures Find(s, c, i, end) == j
  {
  }

  // A zero-terminated text.
  function TextAt(s: seq<Byte>, i: nat): seq<Byte>
    requires i <= |s|
  {
    s[i..Find(s, 0, i, |s|)]
  }

  datatype Message = Message(at: nat, format: nat, marker: nat, len: nat)

  const NO_COMMA: int := -1
  const NO_END: int := -2

  // `len` bytes from `at`, as far as there are any.
  function Within(s: seq<Byte>, at: nat, len: nat): (end: nat)
    requires at <= |s|
    ensures at <= end <= |s|
  {
    if at + len < |s| then at + len else |s|
  }

  // The comma behind the address's zero starts the format; the arguments start at the
  // next word behind the format's zero.
  function Parse(s: seq<Byte>, at: nat, len: int): (int, Message)
    requires at <= |s|
  {
    var comma := Find(s, COMMA, Find(s, 0, at, |s|), |s|);
    if comma - at >= len then (NO_COMMA, Message(at, at, at, 0))
    else
      var end := Find(s, 0, comma, Within(s, at, len));
      if end == Within(s, at, len) then (NO_END, Message(at, comma + 1, at, 0))
      else (0, Message(at, comma + 1, at + Up4(end - at), len))
  }

  // The argument of type `tag` at the marker, and the marker behind it.
  function Get(s: seq<Byte>, m: Message, tag: Byte): Option<(Arg, nat)>
  {
    var p := m.marker;
    if tag == 105 then if p + 4 <= |s| then Some((Int32(Word(s, p)), p + 4)) else None
    else if tag == 102 then if p + 4 <= |s| then Some((Float32(Word(s, p)), p + 4)) else None
    else if tag == 104 then if p + 8 <= |s| then Some((Int64(Word64(s, p)), p + 8)) else None
    else if tag == 100 then if p + 8 <= |s| then Some((Float64(Word64(s, p)), p + 8)) else None
    else if tag == 116 then if p + 8 <= |s| then Some((Timetag(Word64(s, p)), p + 8)) else None
    else if tag == 109 then if p + 4 <= |s| then Some((Midi(s[p..p + 4]), p + 4)) else None
    else if tag == 115 then GetText(s, m)
    else if tag == 98 then GetBlob(s, m)
    else if Valueless(tag) then Some((Plain(tag), p))
    else None
  }

  // Nothing when the text runs past the message.
  function GetText(s: seq<Byte>, m: Message): Option<(Arg, nat)>
  {
    if m.marker > |s| then None
    else
      var end := Find(s, 0, m.marker, |s|);
      if end >= m.at + m.len || end == |s| then None else Some((Str(s[m.marker..end]), m.marker + Up4(end - m.marker)))
  }

  function GetBlob(s: seq<Byte>, m: Message): Option<(Arg, nat)>
  {
    var p := m.marker;
    if p + 4 > |s| then None
    else
      var n := Word(s, p);
      if p + 4 + n <= m.at + m.len && p + 4 + n <= |s| then Some((Blob(s[p + 4..p + 4 + n]), p + Words(n + 4)))
          else None
  }

  // The arguments for a format, in order.
  function GetAll(s: seq<Byte>, m: Message, tags: seq<Byte>): Option<(seq<Arg>, nat)>
    decreases |tags|
  {
    if tags == [] then Some(([], m.marker))
    else
      var a := Get(s, m, tags[0]);
      if a.None? then None
      else
        var rest := GetAll(s, m.(marker := a.value.1), tags[1..]);
        if rest.None? then None else Some(([a.value.0] + rest.value.0, rest.value.1))
  }

  // ---- what was written is what is read ----

  lemma AtParts(s: seq<Byte>, pos: nat, a: seq<Byte>, b: seq<Byte>)
    requires At(s, pos, a + b)
    ensures At(s, pos, a) && At(s, pos + |a|, b)
  {
    var w := s[pos..pos + |a + b|];
    assert w[..|a|] == a && w[|a|..] == b;
    assert s[pos..pos + |a|] == w[..|a|] && s[pos + |a|..pos + |a| + |b|] == w[|a|..];
  }

  lemma AtByte(s: seq<Byte>, pos: nat, b: seq<Byte>, j: nat)
    requires At(s, pos, b) && j < |b|
    ensures s[pos + j] == b[j]
  {
    assert s[pos..pos + |b|][j] == b[j];
  }

  lemma WordBack(s: seq<Byte>, p: nat, x: nat)
    requires At(s, p, Be32(x)) && x < 0x1_0000_0000
    ensures Word(s, p) == x
  {
    AtByte(s, p, Be32(x), 0);
    AtByte(s, p, Be32(x), 1);
    AtByte(s, p, Be32(x), 2);
    AtByte(s, p, Be32(x), 3);
  }

  lemma Word64Back(s: seq<Byte>, p: nat, x: nat)
    requires At(s, p, Be64(x)) && x < 0x1_0000_0000_0000_0000
    ensures Word64(s, p) == x
  {
    var hi, lo := x / 0x1_0000_0000, x % 0x1_0000_0000;
    AtParts(s, p, Be32(hi), Be32(lo));
    WordBack(s, p, hi);
    WordBack(s, p + 4, lo);
    hide Be32, Word;
  }

  lemma TextBack(s: seq<Byte>, p: nat, t: seq<Byte>, end: nat)
    requires At(s, p, Padded(t)) && Text(t) && p + |t| < end <= |s|
    ensures Find(s, 0, p, end) == p + |t| && s[p..p + |t|] == t
  {
    AtParts(s, p, t, Zeros(Up4(|t|) - |t|));
    AtByte(s, p + |t|, Zeros(Up4(|t|) - |t|), 0);
    forall q | p <= q < p + |t| ensures s[q] != 0 { AtByte(s, p, t, q - p); }
    Found(s, 0, p, p + |t|, end);
  }

  // One argument read back, and the marker moved behind it.
  lemma ArgBack(s: seq<Byte>, m: Message, a: Arg)
    requires Passable(a) && !a.Unknown? && At(s, m.marker, EncodeArg(a))
    requires m.marker + |EncodeArg(a)| <= m.at + m.len <= |s|
    ensures Get(s, m, TagOf(a)) == Some((a, m.marker + |EncodeArg(a)|))
  {
    hide Be32, Be64, Padded, Word, Word64, Find, At;
    match a
    case Int32(x) => WordBack(s, m.marker, x);
    case Float32(x) => WordBack(s, m.marker, x);
    case Int64(x) => Word64Back(s, m.marker, x);
    case Float64(x) => Word64Back(s, m.marker, x);
    case Timetag(x) => Word64Back(s, m.marker, x);
    case Str(t) => TextBack(s, m.marker, t, |s|);
    case Blob(b) => BlobBack(s, m, b);
    case Midi(b) => MidBack(s, m.marker, b);
    case Plain(_) =>
  }

  lemma MidBack(s: seq<Byte>, p: nat, b: seq<Byte>)
    requires At(s, p, b)
    ensures p + |b| <= |s| && s[p..p + |b|] == b
  {
  }

  lemma BlobBack(s: seq<Byte>, m: Message, b: seq<Byte>)
    requires |b| < 0x8000_0000 && At(s, m.marker, EncodeArg(Blob(b)))
    requires m.marker + |EncodeArg(Blob(b))| <= m.at + m.len <= |s|
    ensures GetBlob(s, m) == Some((Blob(b), m.marker + |EncodeArg(Blob(b))|))
  {
    hide *;
    BlobSeen(s, m.marker, b);
    BlobTaken(s, m, b);
  }

  lemma BlobSeen(s: seq<Byte>, p: nat, b: seq<Byte>)
    requires |b| < 0x8000_0000 && At(s, p, EncodeArg(Blob(b)))
    ensures p + 4 + |b| <= |s| && Word(s, p) == |b| && s[p + 4..p + 4 + |b|] == b
    ensures 4 + |b| <= |EncodeArg(Blob(b))| == Words(|b| + 4)
  {
    hide *;
    var z := Zeros(Words(|b|) - |b|);
    BlobParts(b, z);
    AtParts(s, p, Be32(|b|), b + z);
    AtParts(s, p + 4, b, z);
    WordBack(s, p, |b|);
    MidBack(s, p + 4, b);
  }

  lemma BlobTaken(s: seq<Byte>, m: Message, b: seq<Byte>)
    requires m.marker + 4 + |b| <= |s| && m.marker + 4 + |b| <= m.at + m.len
    requires Word(s, m.marker) == |b| && s[m.marker + 4..m.marker + 4 + |b|] == b
    ensures GetBlob(s, m) == Some((Blob(b), m.marker + Words(|b| + 4)))
  {
    hide Word, Words;
  }

  lemma BlobParts(b: seq<Byte>, z: seq<Byte>)
    requires |b| < 0x8000_0000 && |z| == Words(|b|) - |b| && z == Zeros(|z|)
    ensures EncodeArg(Blob(b)) == Be32(|b|) + (b + z) && |EncodeArg(Blob(b))| == Words(|b| + 4) == 4 + |b| + |z|
  {
    hide Be32;
    assert Words(|b| + 4) == Words(|b|) + 4;
  }

  lemma NoArgs(s: seq<Byte>, m: Message)
    ensures GetAll(s, m, Tags([])) == Some(([], m.marker)) && EncodeArgs([]) == []
  {
  }

  lemma GetFirst(s: seq<Byte>, m: Message, tags: seq<Byte>, a: Arg, p: nat, rest: seq<Arg>, end: nat)
    requires tags != [] && Get(s, m, tags[0]) == Some((a, p))
    requires GetAll(s, m.(marker := p), tags[1..]) == Some((rest, end))
    ensures GetAll(s, m, tags) == Some(([a] + rest, end))
  {
    hide Get;
  }

  lemma {:induction false} ArgsBack(s: seq<Byte>, m: Message, args: seq<Arg>)
    requires AllPassable(args) && AllKnown(args)
    requires At(s, m.marker, EncodeArgs(args)) && m.marker + |EncodeArgs(args)| <= m.at + m.len <= |s|
    ensures GetAll(s, m, Tags(args)) == Some((args, m.marker + |EncodeArgs(args)|))
    decreases |args|
  {
    hide EncodeArg, EncodeArgs, Get, GetAll, Passable, TagOf, Tags, At, AllPassable, AllKnown;
    if args == [] {
      NoArgs(s, m);
    } else {
      FirstArg(args);
      var a, rest := args[0], args[1..];
      var end := m.marker + |EncodeArg(a)|;
      AtParts(s, m.marker, EncodeArg(a), EncodeArgs(rest));
      ArgBack(s, m, a);
      ArgsBack(s, m.(marker := end), rest);
      GetFirst(s, m, Tags(args), a, end, rest, end + |EncodeArgs(rest)|);
    }
  }

  lemma {:induction false} TagsAreText(args: seq<Arg>)
    requires AllPassable(args)
    ensures Text(Tags(args)) && Text([COMMA] + Tags(args))
  {
    forall i | 0 <= i < |args| ensures Tags(args)[i] != 0 { assert Passable(args[i]); }
  }

  lemma HeadBack(s: seq<Byte>, at: nat, address: seq<Byte>, args: seq<Arg>)
    requires Text(address) && AllPassable(args) && At(s, at, Encode(address, args))
    ensures var comma := at + Up4(|address|);
            && Find(s, COMMA, Find(s, 0, at, |s|), |s|) == comma && TextAt(s, at) == address
            && comma + 1 <= |s| && TextAt(s, comma + 1) == Tags(args)
            && comma + 1 + |args| < at + |Encode(address, args)|
            && Find(s, 0, comma, at + |Encode(address, args)|) == comma + 1 + |args|
            && At(s, at + Up4(|address|) + Up4(|args| + 1), EncodeArgs(args))
  {
    hide Up4, EncodeArgs, Tags, Find, AllPassable, TextAt;
    var comma, fmt := at + Up4(|address|), [COMMA] + Tags(args);
    TagsAreText(args);
    EncodeParts(s, at, address, args);
    hide Padded, Encode, At;
    assert |Encode(address, args)|
        == Up4(|address|) + Up4(|fmt|) + |EncodeArgs(args)| by { EncodeLength(address, args); }
    TextBack(s, at, address, |s|);
    assert TextAt(s, at) == address by { TextIs(s, at, address); }
    CommaBack(s, at, address, fmt);
    TextBack(s, comma, fmt, |s|);
    TextBack(s, comma, fmt, at + |Encode(address, args)|);
    FormatThere(s, comma, Tags(args));
    AfterComma(s, comma, Tags(args));
  }

  lemma TextIs(s: seq<Byte>, at: nat, t: seq<Byte>)
    requires at + |t| <= |s| && Find(s, 0, at, |s|) == at + |t| && s[at..at + |t|] == t
    ensures TextAt(s, at) == t
  {
  }

  lemma EncodeParts(s: seq<Byte>, at: nat, address: seq<Byte>, args: seq<Arg>)
    requires At(s, at, Encode(address, args))
    ensures var comma := at + Up4(|address|);
            && At(s, at, Padded(address)) && At(s, comma, Padded([COMMA] + Tags(args)))
            && At(s, comma + Up4(|args| + 1), EncodeArgs(args))
            && at + |Encode(address, args)| <= |s|
  {
    var fmt := [COMMA] + Tags(args);
    assert |fmt| == |args| + 1;
    hide Up4, EncodeArgs, Tags, Padded;
    assert Encode(address, args) == Padded(address) + Padded(fmt) + EncodeArgs(args);
    hide Encode, At;
    AtParts(s, at, Padded(address) + Padded(fmt), EncodeArgs(args));
    AtParts(s, at, Padded(address), Padded(fmt));
  }

  lemma FormatThere(s: seq<Byte>, comma: nat, tags: seq<Byte>)
    requires At(s, comma, Padded([COMMA] + tags))
    ensures At(s, comma, [COMMA] + tags)
  {
    AtParts(s, comma, [COMMA] + tags, Zeros(Up4(|[COMMA] + tags|) - |[COMMA] + tags|));
  }

  lemma CommaBack(s: seq<Byte>, at: nat, address: seq<Byte>, fmt: seq<Byte>)
    requires At(s, at, Padded(address)) && At(s, at + Up4(|address|), Padded(fmt)) && fmt != [] && fmt[0] == COMMA
    ensures at + |address| <= |s| && Find(s, COMMA, at + |address|, |s|) == at + Up4(|address|)
  {
    var comma, z := at + Up4(|address|), Zeros(Up4(|address|) - |address|);
    AtParts(s, at, address, z);
    forall q | at + |address| <= q < comma ensures s[q] != COMMA {
      AtByte(s, at + |address|, z, q - at - |address|);
    }
    AtByte(s, comma, Padded(fmt), 0);
    Found(s, COMMA, at + |address|, comma, |s|);
  }

  lemma AfterComma(s: seq<Byte>, comma: nat, tags: seq<Byte>)
    requires At(s, comma, [COMMA] + tags) && Find(s, 0, comma, |s|) == comma + 1 + |tags| < |s|
    ensures TextAt(s, comma + 1) == tags
  {
    Found(s, 0, comma + 1, comma + 1 + |tags|, |s|);
    AtParts(s, comma, [COMMA], tags);
  }

  // The n bytes from `at` on parse to this address, format and arguments, markers on
  // whole words, and nothing is left over.
  predicate ReadsBack(s: seq<Byte>, at: nat, n: nat, address: seq<Byte>, args: seq<Arg>) {
    && at + n <= |s|
    && var (code, m) := Parse(s, at, n);
    && code == 0 && m.at == at && m.len == n && Aligned(m.marker - at)
    && TextAt(s, at) == address && m.format <= |s| && TextAt(s, m.format) == Tags(args)
    && GetAll(s, m, Tags(args)) == Some((args, at + n))
  }

  // A message in place parses to its address, its format and its arguments in order,
  // with the markers on whole words and the last one at its end.
  lemma MessageBack(s: seq<Byte>, at: nat, address: seq<Byte>, args: seq<Arg>)
    requires Text(address) && AllPassable(args) && AllKnown(args)
    requires At(s, at, Encode(address, args))
    ensures Aligned(|Encode(address, args)|) && ReadsBack(s, at, |Encode(address, args)|, address, args)
  {
    var n := |Encode(address, args)|;
    hide Up4, Find, EncodeArgs, Encode, Padded, Tags, At, AllPassable, TextAt, GetAll, AllKnown;
    HeadBack(s, at, address, args);
    EncodeParts(s, at, address, args);
    EncodeLength(address, args);
    AlignedSum(|address|, |args| + 1);
    ArgsAligned(args);
    SumAligned(Up4(|address|), Up4(|args| + 1));
    SumAligned(Up4(|address|) + Up4(|args| + 1), |EncodeArgs(args)|);
    var m := Parse(s, at, n).1;
    assert m == Message(at, at + Up4(|address|) + 1, at + Up4(|address|) + Up4(|args| + 1), n);
    ArgsBack(s, m, args);
  }

  // Given room for the message and double room for its texts, a message of known types
  // is written, and reads back as it was.
  lemma WrittenThenRead(s: seq<Byte>, at: nat, address: seq<Byte>, args: seq<Arg>, len: nat)
    requires Text(address) && AllPassable(args) && AllKnown(args)
    requires |Encode(address, args)| <= len && Roomy(address, args, len) && At(s, at, VWrite(address, args, len).1)
    ensures VWrite(address, args, len).0 == |Encode(address, args)|
    ensures ReadsBack(s, at, VWrite(address, args, len).0, address, args)
  {
    hide *;
    RoomSuffices(address, args, len);
    WrittenWholeIff(address, args, len);
    MessageBack(s, at, address, args);
  }

  // ---- bundles ----

  const BUNDLE_ID: nat := 0x2362_756E_646C_6500

  datatype Sent = Sent(address: seq<Byte>, args: seq<Arg>)

  predicate Sendable(e: Sent) {
    Text(e.address) && AllPassable(e.args) && AllKnown(e.args) && |Encode(e.address, e.args)| < 0x1_0000_0000
  }

  // Length-prefixed messages, one behind the other, from `pos` to `end`.
  predicate Elements(s: seq<Byte>, pos: nat, end: nat, es: seq<Sent>)
    decreases |es|
  {
    if es == [] then pos == end
    else
      var m := Encode(es[0].address, es[0].args);
      && Sendable(es[0]) && At(s, pos, Be32(|m|)) && At(s, pos + 4, m)
      && Elements(s, pos + 4 + |m|, end, es[1..])
  }

  // Where each element's message starts, and its length, as the reader steps from
  // length to length.
  function Steps(s: seq<Byte>, pos: nat, end: nat): seq<(nat, nat)>
    decreases |s| - pos
  {
    if pos >= end || pos + 4 > |s| then []
    else [(pos + 4, Word(s, pos))] + Steps(s, pos + 4 + Word(s, pos), end)
  }

  lemma {:induction false} ElementsEnd(s: seq<Byte>, pos: nat, end: nat, es: seq<Sent>)
    requires Elements(s, pos, end, es)
    ensures pos <= end && (es != [] ==> pos < end)
    decreases |es|
  {
    hide Encode, At, Be32, Sendable;
    if es != [] { ElementsEnd(s, pos + 4 + |Encode(es[0].address, es[0].args)|, end, es[1..]); }
  }

  // A bundle iterates back to its messages: as many, in order, each read back whole.
  lemma {:induction false} BundleBack(s: seq<Byte>, pos: nat, end: nat, es: seq<Sent>)
    requires Elements(s, pos, end, es)
    ensures |Steps(s, pos, end)| == |es|
    ensures forall i :: 0 <= i < |es| ==>
              ReadsBack(s, Steps(s, pos, end)[i].0, Steps(s, pos, end)[i].1, es[i].address, es[i].args)
    decreases |es|
  {
    hide Encode, At, Be32, Sendable, ReadsBack, Word, Elements, Steps;
    if es == [] {
      NoElements(s, pos, end);
    } else {
      var n := |Encode(es[0].address, es[0].args)|;
      FirstElement(s, pos, end, es);
      MessageBack(s, pos + 4, es[0].address, es[0].args);
      WordBack(s, pos, n);
      BundleBack(s, pos + 4 + n, end, es[1..]);
      FirstStep(s, pos, end, n);
      var steps, rest := Steps(s, pos, end), Steps(s, pos + 4 + n, end);
      forall i | 0 <= i < |es| ensures ReadsBack(s, steps[i].0, steps[i].1, es[i].address, es[i].args) {
        if i > 0 { assert es[i] == es[1..][i - 1] && steps[i] == rest[i - 1]; }
      }
    }
  }

  lemma NoElements(s: seq<Byte>, pos: nat, end: nat)
    requires Elements(s, pos, end, [])
    ensures pos == end && Steps(s, pos, end) == []
  {
  }

  lemma FirstElement(s: seq<Byte>, pos: nat, end: nat, es: seq<Sent>)
    requires Elements(s, pos, end, es) && es != []
    ensures var m := Encode(es[0].address, es[0].args);
            && Sendable(es[0]) && At(s, pos, Be32(|m|)) && At(s, pos + 4, m)
            && Elements(s, pos + 4 + |m|, end, es[1..]) && pos + 4 <= |s| && pos + 4 + |m| <= end && |m| < 0x1_0000_0000
            && Text(es[0].address) && AllPassable(es[0].args) && AllKnown(es[0].args)
  {
    hide Encode, Be32;
    ElementsEnd(s, pos + 4 + |Encode(es[0].address, es[0].args)|, end, es[1..]);
  }

  lemma FirstStep(s: seq<Byte>, pos: nat, end: nat, n: nat)
    requires pos < end && pos + 4 <= |s| && Word(s, pos) == n
    ensures Steps(s, pos, end) == [(pos + 4, n)] + Steps(s, pos + 4 + n, end)
  {
  }

  // Another element behind the last; what lies in front stays.
  lemma {:induction false} ElementAdded(s: seq<Byte>, s': seq<Byte>, pos: nat, end: nat, es: seq<Sent>, e: Sent)
    requires Elements(s, pos, end, es) && |s'| == |s| && end <= |s| && s'[..end] == s[..end] && Sendable(e)
    requires At(s', end, Be32(|Encode(e.address, e.args)|)) && At(s', end + 4, Encode(e.address, e.args))
    ensures Elements(s', pos, end + 4 + |Encode(e.address, e.args)|, es + [e])
    decreases |es|
  {
    hide Encode, At, Be32, Sendable, Elements;
    if es == [] {
      NoElements(s, pos, end);
      OneElement(s', end, e);
      assert [] + [e] == [e];
    } else {
      var m := Encode(es[0].address, es[0].args);
      FirstElement(s, pos, end, es);
      AtKept(s, s', pos, Be32(|m|), end);
      AtKept(s, s', pos + 4, m, end);
      ElementAdded(s, s', pos + 4 + |m|, end, es[1..], e);
      assert (es + [e])[1..] == es[1..] + [e] && (es + [e])[0] == es[0];
      ElementBefore(s', pos, end + 4 + |Encode(e.address, e.args)|, es + [e]);
    }
  }

  lemma OneElement(s: seq<Byte>, pos: nat, e: Sent)
    requires Sendable(e) && At(s, pos, Be32(|Encode(e.address, e.args)|)) && At(s, pos + 4, Encode(e.address, e.args))
    ensures Elements(s, pos, pos + 4 + |Encode(e.address, e.args)|, [e])
  {
    var end := pos + 4 + |Encode(e.address, e.args)|;
    assert [e][1..] == [] && Elements(s, end, end, []);
  }

  lemma ElementBefore(s: seq<Byte>, pos: nat, end: nat, es: seq<Sent>)
    requires es != [] && Sendable(es[0])
    requires var m := Encode(es[0].address, es[0].args);
             At(s, pos, Be32(|m|)) && At(s, pos + 4, m) && Elements(s, pos + 4 + |m|, end, es[1..])
    ensures Elements(s, pos, end, es)
  {
  }

  lemma AtKept(s: seq<Byte>, s': seq<Byte>, pos: nat, b: seq<Byte>, end: nat)
    requires At(s, pos, b) && pos + |b| <= end <= |s| == |s'| && s'[..end] == s[..end]
    ensures At(s', pos, b)
  {
    assert s[..end][pos..pos + |b|] == s[pos..pos + |b|] && s'[..end][pos..pos + |b|] == s'[pos..pos + |b|];
  }
}
