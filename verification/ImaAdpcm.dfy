/**
 The resumable IMA ADPCM decoder (`drwav_read_pcm_frames_s16__ima`) as a function of
 its state, one frame at a time: reads may be split anywhere, and seeking is reading.
 */
module ImaAdpcm {
  import opened Bytes
  import opened Division

  // The step table.
  function StepSize(i: int): int
    requires 0 <= i <= 88
  {
    match i
    case 0 => 7 case 1 => 8 case 2 => 9 case 3 => 10 case 4 => 11 case 5 => 12 case 6 => 13 case 7 => 14
    case 8 => 16 case 9 => 17 case 10 => 19 case 11 => 21 case 12 => 23 case 13 => 25 case 14 => 28 case 15 => 31
    case 16 => 34 case 17 => 37 case 18 => 41 case 19 => 45 case 20 => 50 case 21 => 55 case 22 => 60 case 23 => 66
    case 24 => 73 case 25 => 80 case 26 => 88 case 27 => 97 case 28 => 107 case 29 => 118 case 30 => 130 case 31 => 143
    case 32 => 157 case 33 => 173 case 34 => 190 case 35 => 209
    case 36 => 230 case 37 => 253 case 38 => 279 case 39 => 307
    case 40 => 337 case 41 => 371 case 42 => 408 case 43 => 449
    case 44 => 494 case 45 => 544 case 46 => 598 case 47 => 658
    case 48 => 724 case 49 => 796 case 50 => 876 case 51 => 963
    case 52 => 1060 case 53 => 1166 case 54 => 1282 case 55 => 1411
    case 56 => 1552 case 57 => 1707 case 58 => 1878 case 59 => 2066
    case 60 => 2272 case 61 => 2499 case 62 => 2749 case 63 => 3024
    case 64 => 3327 case 65 => 3660 case 66 => 4026 case 67 => 4428
    case 68 => 4871 case 69 => 5358 case 70 => 5894 case 71 => 6484
    case 72 => 7132 case 73 => 7845 case 74 => 8630 case 75 => 9493
    case 76 => 10442 case 77 => 11487 case 78 => 12635 case 79 => 13899
    case 80 => 15289 case 81 => 16818 case 82 => 18500 case 83 => 20350
    case 84 => 22385 case 85 => 24623 case 86 => 27086 case 87 => 29794
    case _ => 32767
  }

  // How far each nibble moves the step index.
  function Move(nibble: int): int
    requires 0 <= nibble < 16
  {
    if nibble % 8 < 4 then -1 else 2 * (nibble % 8 - 3)
  }

  const CACHE: nat := 16

  function Clamp(x: int, lo: int, hi: int): (r: int)
    requires lo <= hi
    ensures lo <= r <= hi
  {
    if x < lo then lo else if x > hi then hi else x
  }

  // ---- one nibble, one word ----

  predicate Index(i: int) { 0 <= i <= 88 }

  predicate Sample16(p: int) { -32768 <= p <= 32767 }

  function Diff(step: int, nibble: int): int
    requires 0 <= nibble < 16
  {
    var d := step / 8
             + (if nibble % 2 == 1 then step / 4 else 0)
             + (if nibble / 2 % 2 == 1 then step / 2 else 0)
             + (if nibble / 4 % 2 == 1 then step else 0);
    if nibble / 8 == 1 then -d else d
  }

  function NextSample(p: int, i: int, nibble: int): (r: int)
    requires Index(i) && 0 <= nibble < 16
    ensures Sample16(r)
  {
    Clamp(p + Diff(StepSize(i), nibble), -32768, 32767)
  }

  function NextIndex(i: int, nibble: int): (r: int)
    requires Index(i) && 0 <= nibble < 16
    ensures Index(r)
  {
    Clamp(i + Move(nibble), 0, 88)
  }

  // Low nibble first.
  function Nibbles(bytes: seq<Byte>): (ns: seq<int>)
    ensures |ns| == 2 * |bytes| && forall j :: 0 <= j < |ns| ==> 0 <= ns[j] < 16
  {
    seq(2 * |bytes|, j requires 0 <= j < 2 * |bytes| => if j % 2 == 0 then bytes[j / 2] % 16 else bytes[j / 2] / 16)
  }

  // ---- the decoder ----

  // The stream behind the decoder: its bytes, where the data chunk starts, and the
  // format fields the decoder uses.
  datatype Stream = Stream(file: seq<Byte>, dataPos: nat, channels: nat, blockAlign: nat, total: nat)

  predicate Playable(st: Stream) {
    (st.channels == 1 || st.channels == 2) && st.blockAlign < 0x1_0000 && st.dataPos <= |st.file|
  }

  datatype Dec = Dec(pos: nat, bytes: nat, pred: seq<int>, step: seq<int>, cache: seq<int>, cached: nat, cursor: nat)

  // Step indices, predictors and cache positions always in range.
  predicate Sound(st: Stream, s: Dec) {
    && Playable(st) && s.pos <= |st.file| && s.cached <= 8
    && |s.pred| == |s.step| == 2 && |s.cache| == CACHE
    && (forall c :: 0 <= c < 2 ==> Sample16(s.pred[c]) && Index(s.step[c]))
    && (forall j :: 0 <= j < CACHE ==> Sample16(s.cache[j]))
  }

  function Start(st: Stream): (s: Dec)
    requires Playable(st)
    ensures Sound(st, s)
  {
    Dec(st.dataPos, 0, [0, 0], [0, 0], seq(CACHE, _ => 0), 0, 0)
  }

  // Where frame `n`-from-the-last's channel c sits in the cache.
  function Slot(channels: nat, left: nat, c: nat): (i: int)
    requires (channels == 1 || channels == 2) && 1 <= left <= 8 && c < channels
    ensures 0 <= i < CACHE
  {
    CACHE - left * channels + c
  }

  // A seek that would leave the stream does nothing.
  function SeekBy(st: Stream, pos: nat, offset: int): (p: nat)
    ensures pos <= |st.file| ==> p <= |st.file|
  {
    if 0 <= pos + offset <= |st.file| then pos + offset else pos
  }

  datatype Refilled = Ready(s: Dec) | Short(s: Dec)

  // The channels' first samples and step indices; the first frame is cached.
  function FirstFrame(st: Stream, s: Dec, h: seq<Byte>): (r: Dec)
    requires Sound(st, s) && |h| == 4 * st.channels && h[2] < 89 && (st.channels == 2 ==> h[6] < 89)
    ensures Sound(st, r) && r == s.(pred := r.pred, step := r.step, cache := r.cache, cached := 1)
  {
    if st.channels == 1 then
      var p := Signed16(h[0], h[1]);
      s.(pred := s.pred[0 := p], step := s.step[0 := h[2]], cache := s.cache[15 := p], cached := 1)
    else
      var p, q := Signed16(h[0], h[1]), Signed16(h[4], h[5]);
      s.(pred := [p, q], step := [h[2], h[6]], cache := s.cache[14 := p][15 := q], cached := 1)
  }

  // A new block's header: predictor and step index of each channel.
  function LoadBlock(st: Stream, s: Dec): (r: Refilled)
    requires Sound(st, s)
    ensures Sound(st, r.s) && r.s.cursor == s.cursor && (r.Ready? ==> r.s.cached == 1)
            && (r.Short? ==> r.s.cached == s.cached)
  {
    var n := 4 * st.channels;
    if s.pos + n > |st.file| then Short(s.(pos := |st.file|))
    else
      var h := st.file[s.pos..s.pos + n];
      var pos, bytes := s.pos + n, Wrap32(st.blockAlign - n);
      if h[2] >= 89 || (st.channels == 2 && h[6] >= 89) then
        Short(s.(pos := SeekBy(st, pos, Signed32(bytes)), bytes := 0))
      else Ready(FirstFrame(st, s.(pos := pos, bytes := bytes), h))
  }

  // One nibble of channel c, into cache position j of its group.
  function OneNibble(st: Stream, s: Dec, c: nat, nibble: int, j: nat): (r: Dec)
    requires Sound(st, s) && c < st.channels && 0 <= nibble < 16 && j < 8
    ensures Sound(st, r) && r.cursor == s.cursor && r.cached == s.cached && r.bytes == s.bytes && r.pos == s.pos
  {
    var p := NextSample(s.pred[c], s.step[c], nibble);
    s.(pred := s.pred[c := p], step := s.step[c := NextIndex(s.step[c], nibble)],
       cache := s.cache[Slot(st.channels, 8, 0) + j * st.channels + c := p])
  }

  // The nibbles of one channel's word, decoded in turn into the cache.
  function DecodeNibbles(st: Stream, s: Dec, c: nat, ns: seq<int>, j: nat): (r: Dec)
    requires Sound(st, s) && c < st.channels && |ns| == 8 && j <= 8 && forall i :: 0 <= i < 8 ==> 0 <= ns[i] < 16
    ensures Sound(st, r) && r.cursor == s.cursor && r.cached == s.cached && r.bytes == s.bytes && r.pos == s.pos
    decreases 8 - j
  {
    if j == 8 then s
    else DecodeNibbles(st, OneNibble(st, s, c, ns[j], j), c, ns, j + 1)
  }

  // Four bytes for each channel from c on.
  function DecodeWords(st: Stream, s: Dec, c: nat): (r: Refilled)
    requires Sound(st, s) && c <= st.channels
    ensures Sound(st, r.s) && r.s.cursor == s.cursor && r.s.cached == if r.Ready? then s.cached else 0
    decreases st.channels - c
  {
    if c == st.channels then Ready(s)
    else if s.pos + 4 > |st.file| then Short(s.(pos := |st.file|, cached := 0))
    else
      var s1 := s.(pos := s.pos + 4, bytes := Wrap32(s.bytes - 4));
      DecodeWords(st, DecodeNibbles(st, s1, c, Nibbles(st.file[s.pos..s.pos + 4]), 0), c + 1)
  }

  // More frames into an empty cache: a block header's one, or eight decoded.
  function Refill(st: Stream, s: Dec): (r: Refilled)
    requires Sound(st, s) && s.cached == 0
    ensures Sound(st, r.s) && r.s.cursor == s.cursor && (r.Ready? ==> r.s.cached > 0) && (r.Short? ==> r.s.cached == 0)
  {
    if s.bytes == 0 then LoadBlock(st, s) else DecodeWords(st, s.(cached := 8), 0)
  }

  type Frame = seq<int>

  function Front(st: Stream, s: Dec): (f: Frame)
    requires Sound(st, s) && s.cached > 0
    ensures |f| == st.channels && forall c :: 0 <= c < st.channels ==> Sample16(f[c])
  {
    seq(st.channels, c requires 0 <= c < st.channels => s.cache[Slot(st.channels, s.cached, c)])
  }

  function Pop(s: Dec): Dec
    requires s.cached > 0
  {
    s.(cached := s.cached - 1, cursor := s.cursor + 1)
  }

  // The cache, refilled if it was empty.
  function Filled(st: Stream, s: Dec): (r: Refilled)
    requires Sound(st, s)
    ensures Sound(st, r.s) && r.s.cursor == s.cursor && (r.Ready? ==> r.s.cached > 0 && Sound(st, Pop(r.s)))
  {
    if s.cached > 0 then Ready(s) else Refill(st, s)
  }

  // Up to n frames.
  function Read(st: Stream, s: Dec, n: nat): (r: (seq<Frame>, Dec))
    requires Sound(st, s)
    ensures Sound(st, r.1) && |r.0| <= n && r.1.cursor == s.cursor + |r.0|
    decreases n
  {
    if n == 0 || s.cursor >= st.total then ([], s)
    else
      match Filled(st, s)
      case Short(s1) => ([], s1)
      case Ready(s1) =>
        var (fs, s2) := Read(st, Pop(s1), n - 1);
        ([Front(st, s1)] + fs, s2)
  }

  lemma {:induction false} FramesInRange(st: Stream, s: Dec, n: nat, i: nat, c: nat)
    requires Sound(st, s) && i < |Read(st, s, n).0| && c < st.channels
    ensures |Read(st, s, n).0[i]| == st.channels && Sample16(Read(st, s, n).0[i][c])
    decreases n
  {
    hide Sound, Refill;
    if i > 0 { FramesInRange(st, Pop(Filled(st, s).s), n - 1, i - 1, c); }
  }

  lemma {:induction false} CursorInRange(st: Stream, s: Dec, n: nat)
    requires Sound(st, s) && s.cursor <= st.total
    ensures Read(st, s, n).1.cursor <= st.total
    decreases n
  {
    hide Sound, Refill;
    if n > 0 && s.cursor < st.total && Filled(st, s).Ready? { CursorInRange(st, Pop(Filled(st, s).s), n - 1); }
  }

  // ---- reads may be split ----

  function Onto(out: seq<Frame>, r: (seq<Frame>, Dec)): (seq<Frame>, Dec) {
    (out + r.0, r.1)
  }

  // After a full read, reading on is reading more; a read that came up short is
  // where a longer one stops too.
  lemma {:induction false} SplitRead(st: Stream, s: Dec, n1: nat, n2: nat)
    requires Sound(st, s)
    ensures |Read(st, s, n1).0| == n1 ==>
              Read(st, s, n1 + n2) == Onto(Read(st, s, n1).0, Read(st, Read(st, s, n1).1, n2))
    ensures |Read(st, s, n1).0| < n1 ==> Read(st, s, n1 + n2) == Read(st, s, n1)
    decreases n1
  {
    hide Filled, Sound, Front;
    if n1 == 0 {
      var (out2, s2) := Read(st, s, n2);
      assert [] + out2 == out2;
    } else if s.cursor < st.total && Filled(st, s).Ready? {
      var s1 := Filled(st, s).s;
      SplitRead(st, Pop(s1), n1 - 1, n2);
      var (out1, m) := Read(st, Pop(s1), n1 - 1);
      var (out2, _) := Read(st, m, n2);
      assert [Front(st, s1)] + (out1 + out2) == [Front(st, s1)] + out1 + out2;
    }
  }

  // Two reads give what one of both lengths gives exactly when the first was full or
  // the second gave nothing.
  lemma SplitReadCounts(st: Stream, s: Dec, n1: nat, n2: nat)
    requires Sound(st, s)
    ensures var (out1, s1) := Read(st, s, n1);
            var (out2, s2) := Read(st, s1, n2);
            Read(st, s, n1 + n2).0 == out1 + out2 <==> |out1| == n1 || out2 == []
  {
    hide Read, Sound;
    SplitRead(st, s, n1, n2);
    var (out1, s1) := Read(st, s, n1);
    var (out2, s2) := Read(st, s1, n2);
    assert |out1 + out2| == |out1| + |out2|;
    if out2 == [] { assert out1 + out2 == out1; }
  }

  // A bad header ends a read, and the next read goes on behind that block: two
  // reads of one frame give a frame that one read of two does not.
  lemma BadHeaderSkipped()
    ensures var st := Stream([0, 0, 89, 0, 5, 0, 0, 0], 0, 1, 4, 2);
            && Playable(st)
            && Read(st, Start(st), 1).0 == []
            && Read(st, Read(st, Start(st), 1).1, 1).0 == [[5]]
            && Read(st, Start(st), 2).0 == []
  {
    var st := Stream([0, 0, 89, 0, 5, 0, 0, 0], 0, 1, 4, 2);
    var s := Start(st);
    var s1 := Filled(st, s).s;
    assert Filled(st, s) == Short(s.(pos := 4));
    assert st.file[4..8] == [5, 0, 0, 0];
    var s2 := Filled(st, s1).s;
    assert Filled(st, s1).Ready? && s2.cache[15] == 5 && s2.cached == 1;
    assert Front(st, s2) == [5];
    assert Read(st, Pop(s2), 0) == ([], Pop(s2));
  }

  // ---- blocks ----

  // Block sizes in whole words for every channel.
  predicate Whole(st: Stream) {
    Playable(st) && st.blockAlign >= 4 * st.channels && st.blockAlign % (4 * st.channels) == 0
  }

  // Groups of words behind a block's header.
  function Groups(st: Stream): (g: nat)
    requires Whole(st)
    ensures st.blockAlign == 4 * st.channels + 4 * st.channels * g
  {
    if st.channels == 1 then st.blockAlign / 4 - 1 else st.blockAlign / 8 - 1
  }

  lemma {:induction false} TakeCached(st: Stream, s: Dec, m: nat)
    requires Sound(st, s) && m <= s.cached && s.cursor + m <= st.total
    ensures |Read(st, s, m).0| == m && Read(st, s, m).1 == s.(cached := s.cached - m, cursor := s.cursor + m)
    decreases m
  {
    hide Front;
    if m > 0 { TakeCached(st, Pop(s), m - 1); }
  }

  lemma WordsDecoded(st: Stream, s: Dec)
    requires Sound(st, s) && s.bytes >= 4 * st.channels && s.bytes < 0x1_0000 && s.pos + 4 * st.channels <= |st.file|
    ensures var r := DecodeWords(st, s, 0);
            r.Ready? && r.s.pos == s.pos + 4 * st.channels && r.s.bytes == s.bytes - 4 * st.channels
  {
    hide DecodeNibbles, Nibbles;
    var s1 := DecodeNibbles(st, s.(pos := s.pos + 4, bytes := Wrap32(s.bytes - 4)), 0,
        Nibbles(st.file[s.pos..s.pos + 4]), 0);
    assert DecodeWords(st, s, 0) == DecodeWords(st, s1, 1);
    if st.channels == 2 {
      var s2 := DecodeNibbles(st, s1.(pos := s1.pos + 4, bytes := Wrap32(s1.bytes - 4)), 1,
          Nibbles(st.file[s1.pos..s1.pos + 4]), 0);
      assert DecodeWords(st, s1, 1) == DecodeWords(st, s2, 2);
    }
  }

  // `g` groups of words give eight frames each and nothing is left over.
  lemma {:induction false} GroupsExact(st: Stream, s: Dec, g: nat)
    requires Sound(st, s) && s.cached == 0 && s.bytes == 4 * st.channels * g && s.bytes < 0x1_0000
    requires s.pos + s.bytes <= |st.file| && s.cursor + 8 * g <= st.total
    ensures var (out, s') := Read(st, s, 8 * g);
            |out| == 8 * g && s'.bytes == 0 && s'.cached == 0 && s'.pos == s.pos + s.bytes
    decreases g
  {
    hide Read, Sound;
    if g > 0 {
      var rest := 4 * st.channels * (g - 1);
      assert s.bytes == 4 * st.channels + rest;
      OneGroup(st, s, rest);
      var s1 := Read(st, s, 8).1;
      SplitRead(st, s, 8, 8 * (g - 1));
      GroupsExact(st, s1, g - 1);
      assert 8 + 8 * (g - 1) == 8 * g;
    } else {
      ReadNothing(st, s);
    }
  }

  lemma OneGroup(st: Stream, s: Dec, rest: nat)
    requires Sound(st, s) && s.cached == 0 && s.bytes == 4 * st.channels + rest && s.bytes < 0x1_0000
    requires s.pos + 4 * st.channels <= |st.file| && s.cursor + 8 <= st.total
    ensures var (out, s') := Read(st, s, 8);
            && |out| == 8 && s'.bytes == rest && s'.cached == 0 && s'.pos == s.pos + 4 * st.channels
  {
    hide Read, DecodeWords;
    WordsDecoded(st, s.(cached := 8));
    var s1 := Filled(st, s).s;
    assert s1.cached == 8;
    FilledReads(st, s, 8);
    TakeCached(st, s1, 8);
  }

  // Filling the cache first changes nothing.
  lemma FilledReads(st: Stream, s: Dec, n: nat)
    requires Sound(st, s) && n > 0 && s.cursor < st.total && Filled(st, s).Ready?
    ensures Read(st, s, n) == Read(st, Filled(st, s).s, n)
  {
    hide Sound, Refill, Front;
  }

  // A whole block: one frame from its header, eight from each group, and the decoder
  // stands at the next block with no count wrapped.
  lemma BlockExact(st: Stream, s: Dec)
    requires Sound(st, s) && Whole(st) && s.cached == 0 && s.bytes == 0
    requires s.pos + st.blockAlign <= |st.file| && LoadBlock(st, s).Ready?
    requires s.cursor + 1 + 8 * Groups(st) <= st.total
    ensures var n := 1 + 8 * Groups(st);
            var (out, s') := Read(st, s, n);
            |out| == n && s'.bytes == 0 && s'.cached == 0 && s'.pos == s.pos + st.blockAlign
  {
    hide Read, LoadBlock, Groups;
    var s1 := Filled(st, s).s;
    LoadedHeader(st, s);
    assert Filled(st, s) == LoadBlock(st, s);
    FilledReads(st, s, 1);
    TakeCached(st, s1, 1);
    SplitRead(st, s, 1, 8 * Groups(st));
    GroupsExact(st, Pop(s1), Groups(st));
  }

  lemma LoadedHeader(st: Stream, s: Dec)
    requires Sound(st, s) && Whole(st) && LoadBlock(st, s).Ready?
    ensures var s1 := LoadBlock(st, s).s; s1.pos == s.pos + 4 * st.channels && s1.bytes == 4 * st.channels * Groups(st)
  {
    hide Sound;
  }

  // ---- seeking ----

  function Min(a: nat, b: nat): nat { if a < b then a else b }

  // Frames per pass of the loops that read in pieces.
  function Piece(st: Stream): (c: nat)
    requires Playable(st)
    ensures c > 0
  {
    2048 / st.channels
  }

  // Read and throw away k frames, in pieces; a short piece fails.
  function Forward(st: Stream, s: Dec, k: nat): (r: (bool, Dec))
    requires Sound(st, s)
    ensures Sound(st, r.1)
    decreases k
  {
    if k == 0 then (true, s)
    else
      var c := Min(k, Piece(st));
      var (out, s1) := Read(st, s, c);
      if |out| != c then (false, s1) else Forward(st, s1, k - c)
  }

  function Seek(st: Stream, s: Dec, target: nat): (r: (bool, Dec))
    requires Sound(st, s)
    ensures Sound(st, r.1)
  {
    if st.total == 0 then (true, s)
    else
      var t := Min(target, st.total);
      var s1 := if t < s.cursor then Start(st) else s;
      if t > s1.cursor then Forward(st, s1, t - s1.cursor) else (true, s1)
  }

  lemma {:induction false} ForwardIsRead(st: Stream, s: Dec, k: nat)
    requires Sound(st, s)
    ensures Forward(st, s, k) == (|Read(st, s, k).0| == k, Read(st, s, k).1)
    decreases k
  {
    assert Playable(st);
    hide Sound, Read, Piece;
    if k > 0 {
      var c := Min(k, Piece(st));
      SplitRead(st, s, c, k - c);
      if |Read(st, s, c).0| == c { ForwardIsRead(st, Read(st, s, c).1, k - c); }
    } else {
      ReadNothing(st, s);
    }
  }

  lemma ReadNothing(st: Stream, s: Dec)
    requires Sound(st, s)
    ensures Read(st, s, 0) == ([], s)
  {
  }

  // The decoder stands where reading straight from the start would have brought it.
  predicate OnTrack(st: Stream, s: Dec) {
    && Playable(st) && Sound(st, s) && s.cursor <= st.total
    && |Read(st, Start(st), s.cursor).0| == s.cursor && s == Read(st, Start(st), s.cursor).1
  }

  lemma StartOnTrack(st: Stream)
    requires Playable(st)
    ensures OnTrack(st, Start(st))
  {
  }

  // The first n frames of a straight decode.
  function Straight(st: Stream, n: nat): seq<Frame>
    requires Playable(st)
  {
    Read(st, Start(st), n).0
  }

  // The frames from t on of a straight decode of t + n.
  predicate Onward(st: Stream, t: nat, n: nat, out: seq<Frame>)
    requires Playable(st)
  {
    |Straight(st, t + n)| >= t && out == Straight(st, t + n)[t..]
  }

  // A read that is full, or stopped only by the end, gives the straight decode's
  // frames from the cursor on and stays on track.
  lemma ReadOnTrack(st: Stream, s: Dec, n: nat)
    requires OnTrack(st, s)
    ensures Onward(st, s.cursor, n, Read(st, s, n).0)
    ensures |Read(st, s, n).0| == n || Read(st, s, n).1.cursor == st.total ==> OnTrack(st, Read(st, s, n).1)
  {
    hide Read, Sound;
    SplitRead(st, Start(st), s.cursor, n);
    CursorInRange(st, s, n);
    var out := Read(st, s, n).0;
    var before := Read(st, Start(st), s.cursor).0;
    assert (before + out)[s.cursor..] == out;
    if |out| < n && Read(st, s, n).1.cursor == st.total {
      ReadMore(st, s, |out|, n);
      SplitRead(st, Start(st), s.cursor, |out|);
    }
  }

  // A read that came up short at the end is a full read of what there was.
  lemma {:induction false} ReadMore(st: Stream, s: Dec, m: nat, n: nat)
    requires Sound(st, s) && m <= n && m == |Read(st, s, n).0| && Read(st, s, n).1.cursor >= st.total
    ensures Read(st, s, m) == Read(st, s, n)
    decreases m
  {
    hide Sound, Filled, Front;
    if m > 0 { ReadMore(st, Pop(Filled(st, s).s), m - 1, n - 1); }
  }

  // Seeking works exactly when the straight decode reaches the target, and brings
  // the decoder where that decode would be.
  lemma SeekOnTrack(st: Stream, s: Dec, target: nat)
    requires OnTrack(st, s)
    ensures var t := Min(target, st.total); Seek(st, s, target).0 <==> |Straight(st, t)| == t
    ensures Seek(st, s, target).0 ==>
              OnTrack(st, Seek(st, s, target).1) && Seek(st, s, target).1.cursor == Min(target, st.total)
  {
    hide Read, Sound, Forward;
    var t := Min(target, st.total);
    StartOnTrack(st);
    if t < s.cursor {
      ForwardIsRead(st, Start(st), t);
      SplitRead(st, Start(st), t, s.cursor - t);
    } else {
      ForwardIsRead(st, s, t - s.cursor);
      SplitRead(st, Start(st), s.cursor, t - s.cursor);
    }
  }

  // Seek, then read: frames t to t + n of a straight decode.
  lemma SeekThenRead(st: Stream, s: Dec, target: nat, n: nat)
    requires OnTrack(st, s) && Seek(st, s, target).0
    ensures Onward(st, Min(target, st.total), n, Read(st, Seek(st, s, target).1, n).0)
  {
    SeekOnTrack(st, s, target);
    var s' := Seek(st, s, target).1;
    hide *;
    ReadOnTrack(st, s', n);
  }

  // ---- reading as floats, in pieces ----

  // Pieces are read until enough frames or an empty piece.
  function ReadPieces(st: Stream, s: Dec, n: nat): (r: (seq<Frame>, Dec))
    requires Sound(st, s)
    ensures Sound(st, r.1)
    decreases n
  {
    if n == 0 then ([], s)
    else
      var (out, s1) := Read(st, s, Min(n, Piece(st)));
      if out == [] then ([], s1)
      else
        var (rest, s2) := ReadPieces(st, s1, n - |out|);
        (out + rest, s2)
  }

  predicate Multiple(m: nat, p: nat)
    requires p > 0
  {
    m % p == 0
  }

  // Where reading in pieces goes no further than a straight read that gave m of n
  // frames and ended in `end`.
  predicate Stops(st: Stream, m: nat, n: nat, end: Dec)
    requires Sound(st, end) && m <= n
  {
    m == n || Multiple(m, Piece(st)) || Read(st, end, Min(n - m, Piece(st))).0 == []
  }

  // A full straight read is what the pieces make up, and both end in the same state.
  lemma {:induction false} PiecesWhenFull(st: Stream, s: Dec, n: nat)
    requires Sound(st, s) && |Read(st, s, n).0| == n
    ensures ReadPieces(st, s, n) == Read(st, s, n)
    decreases n
  {
    hide Read, Piece, ReadPieces, Sound;
    if n == 0 {
      ReadNothing(st, s);
      NoPieces(st, s);
    } else {
      assert Playable(st) by { SoundPlayable(st, s); }
      var c := Min(n, Piece(st));
      SplitRead(st, s, c, n - c);
      FirstPiece(st, s, n);
      PiecesWhenFull(st, Read(st, s, c).1, n - c);
    }
  }

  lemma SoundPlayable(st: Stream, s: Dec)
    requires Sound(st, s)
    ensures Playable(st)
  {
  }

  // The pieces make up a straight read exactly when it was full, stopped at the start
  // of a piece, or nothing can be read behind where it stopped.
  lemma {:induction false} PiecesAreRead(st: Stream, s: Dec, n: nat)
    requires Sound(st, s)
    ensures ReadPieces(st, s, n).0 == Read(st, s, n).0 <==> Stops(st, |Read(st, s, n).0|, n, Read(st, s, n).1)
    decreases n
  {
    hide Read, Sound, Piece, Playable, ReadPieces, Stops;
    if n == 0 {
      ReadNothing(st, s);
      NoPieces(st, s);
      StopsFull(st, 0, s);
    } else {
      SoundPlayable(st, s);
      var c := Min(n, Piece(st));
      SplitRead(st, s, c, n - c);
      FirstPiece(st, s, n);
      var r := Read(st, s, c);
      if |r.0| == c {
        var r2 := Read(st, r.1, n - c);
        PiecesAreRead(st, r.1, n - c);
        FullPiece(st, n, r.0, ReadPieces(st, r.1, n - c).0, r2);
      } else {
        ShortPiece(st, n, c, r.0, r.1);
      }
    }
  }

  lemma StopsFull(st: Stream, n: nat, end: Dec)
    requires Sound(st, end)
    ensures Stops(st, n, n, end)
  {
    hide Read, Sound, Multiple, Piece;
  }

  lemma StopsLater(st: Stream, m: nat, n: nat, end: Dec)
    requires Sound(st, end) && n > 0 && m <= n - Min(n, Piece(st))
    ensures var c := Min(n, Piece(st)); Stops(st, m, n - c, end) <==> Stops(st, c + m, n, end)
  {
    assert Playable(st);
    hide Read, Sound, Multiple, Piece;
    NextMultiple(Piece(st), m);
  }

  // A full piece, and what comes after it read either way.
  lemma FullPiece(st: Stream, n: nat, out: seq<Frame>, pieces: seq<Frame>, r: (seq<Frame>, Dec))
    requires Sound(st, r.1) && n > 0 && |out| == Min(n, Piece(st)) && |r.0| <= n - |out|
    requires pieces == r.0 <==> Stops(st, |r.0|, n - |out|, r.1)
    ensures out + pieces == out + r.0 <==> Stops(st, |out + r.0|, n, r.1)
  {
    hide Stops, Piece, Sound;
    AppendSame(out, pieces, r.0);
    StopsLater(st, |r.0|, n, r.1);
  }

  // A piece that came up short.
  lemma ShortPiece(st: Stream, n: nat, c: nat, out: seq<Frame>, s1: Dec)
    requires Sound(st, s1) && n > 0 && c == Min(n, Piece(st)) && |out| < c
    ensures (if out == [] then [] else out + ReadPieces(st, s1, n - |out|).0) == out <==> Stops(st, |out|, n, s1)
  {
    assert Playable(st);
    hide Read, Sound, Piece, Playable, ReadPieces, Multiple;
    if out == [] {
      NoneMultiple(Piece(st));
    } else {
      var rest := ReadPieces(st, s1, n - |out|).0;
      AppendSame(out, rest, []);
      assert out + [] == out;
      FirstPiece(st, s1, n - |out|);
      NotMultiple(|out|, Piece(st));
    }
  }

  lemma FirstPiece(st: Stream, s: Dec, n: nat)
    requires Sound(st, s) && n > 0
    ensures var out, s1 := Read(st, s, Min(n, Piece(st))).0, Read(st, s, Min(n, Piece(st))).1;
            && (out == [] ==> ReadPieces(st, s, n) == ([], s1))
            && (out != [] ==> ReadPieces(st, s, n) == Onto(out, ReadPieces(st, s1, n - |out|)))
  {
    hide Read;
  }

  lemma NoPieces(st: Stream, s: Dec)
    requires Sound(st, s)
    ensures ReadPieces(st, s, 0) == ([], s)
  {
  }

  lemma AppendSame<T>(a: seq<T>, b: seq<T>, c: seq<T>)
    ensures a + b == a + c <==> b == c
  {
    assert (a + b)[|a|..] == b && (a + c)[|a|..] == c;
  }

  lemma NoneMultiple(p: nat)
    requires p > 0
    ensures Multiple(0, p)
  {
  }

  lemma NotMultiple(m: nat, p: nat)
    requires 0 < m < p
    ensures !Multiple(m, p)
  {
  }

  lemma NextMultiple(p: nat, m: nat)
    requires p > 0
    ensures Multiple(p + m, p) == Multiple(m, p)
  {
    var q, r := m / p, m % p;
    assert p + m == p * (q + 1) + r;
    Remainder(p, q + 1, r);
  }
}
