/**
 The decoder object: its predictor, step indices, cache and cursors are fields, and
 reading loops over them as the source does.
 */
module ImaDecoder {
  import opened Bytes
  import opened ImaAdpcm

  // Frames end to end.
  function Flat(fs: seq<Frame>): seq<int> {
    if fs == [] then [] else fs[0] + Flat(fs[1..])
  }

  // Equal, or both at the end, where nothing more is read.
  predicate Same(st: Stream, s: Dec, s': Dec) {
    s == s' || (s.cursor == s'.cursor && s.cursor >= st.total)
  }

  // What differs at the end is never seen: reads give the same, and seeking back starts
  // over.
  lemma SameReads(st: Stream, s: Dec, s': Dec, n: nat)
    requires Sound(st, s) && Sound(st, s') && Same(st, s, s')
    ensures Read(st, s, n).0 == Read(st, s', n).0 && Same(st, Read(st, s, n).1, Read(st, s', n).1)
  {
    hide Sound, Filled;
  }

  lemma SameSeeks(st: Stream, s: Dec, s': Dec, t: nat)
    requires Sound(st, s) && Sound(st, s') && Same(st, s, s') && s.cursor <= st.total
    ensures Seek(st, s, t).0 == Seek(st, s', t).0 && Same(st, Seek(st, s, t).1, Seek(st, s', t).1)
  {
    hide Sound, Forward;
  }

  class Decoder {
    const st: Stream
    const predictor: array<int>
    const stepIndex: array<int>
    const cachedFrames: array<int>
    var pos: nat
    var bytesRemainingInBlock: nat
    var cachedFrameCount: nat
    var readCursor: nat

    ghost predicate Shaped()
      reads this
    {
      && predictor.Length == stepIndex.Length == 2 && cachedFrames.Length == CACHE
      && predictor != stepIndex && predictor != cachedFrames && stepIndex != cachedFrames
    }

    ghost predicate Valid()
      reads this, predictor, stepIndex, cachedFrames
    {
      Shaped() && Sound(st, View())
    }

    function View(): Dec
      reads this, predictor, stepIndex, cachedFrames
    {
      Dec(pos, bytesRemainingInBlock, predictor[..], stepIndex[..], cachedFrames[..], cachedFrameCount, readCursor)
    }

    constructor (st: Stream)
      requires Playable(st)
      ensures Valid() && this.st == st && View() == Start(st)
      ensures fresh(predictor) && fresh(stepIndex) && fresh(cachedFrames)
    {
      this.st := st;
      predictor := new int[2](_ => 0);
      stepIndex := new int[2](_ => 0);
      cachedFrames := new int[CACHE](_ => 0);
      pos, bytesRemainingInBlock, cachedFrameCount, readCursor := st.dataPos, 0, 0, 0;
      new;
      assert predictor[..] == [0, 0] && stepIndex[..] == [0, 0];
      assert cachedFrames[..] == seq(CACHE, _ => 0);
    }

    // The header of the next block.
    method LoadHeader() returns (ok: bool)
      requires Valid()
      modifies this`pos, this`bytesRemainingInBlock, this`cachedFrameCount, predictor, stepIndex, cachedFrames
      ensures Valid() && LoadBlock(st, old(View())) == (if ok then Ready(View()) else Short(View()))
    {
      hide Signed16, Signed32, Wrap32, SeekBy;
      ghost var s := View();
      var n := 4 * st.channels;
      if pos + n > |st.file| {
        pos := |st.file|;
        return false;
      }
      var header := st.file[pos..pos + n];
      pos := pos + n;
      bytesRemainingInBlock := Wrap32(st.blockAlign - n);
      if header[2] >= 89 || (st.channels == 2 && header[6] >= 89) {
        pos := SeekBy(st, pos, Signed32(bytesRemainingInBlock));
        bytesRemainingInBlock := 0;
        return false;
      }
      ok := true;
      StoreHeader(header);
    }

    // The channels' first samples and step indices; the first frame is cached.
    method StoreHeader(header: seq<Byte>)
      requires Valid() && |header| == 4 * st.channels
      requires header[2] < 89 && (st.channels == 2 ==> header[6] < 89)
      modifies this`cachedFrameCount, predictor, stepIndex, cachedFrames
      ensures Valid() && View() == FirstFrame(st, old(View()), header)
    {
      hide Signed16;
      ghost var s := View();
      predictor[0] := Signed16(header[0], header[1]);
      stepIndex[0] := header[2];
      if st.channels == 1 {
        cachedFrames[15] := predictor[0];
        cachedFrameCount := 1;
        assert predictor[..] == s.pred[0 := Signed16(header[0], header[1])] && stepIndex[..] == s.step[0 := header[2]];
        assert cachedFrames[..] == s.cache[15 := predictor[0]];
      } else {
        predictor[1] := Signed16(header[4], header[5]);
        stepIndex[1] := header[6];
        cachedFrames[14] := predictor[0];
        cachedFrames[15] := predictor[1];
        cachedFrameCount := 1;
        assert predictor[..] == [Signed16(header[0], header[1]), Signed16(header[4], header[5])];
        assert stepIndex[..] == [header[2] as int, header[6] as int];
        assert cachedFrames[..] == s.cache[14 := predictor[0]][15 := predictor[1]];
      }
    }

    // One nibble of channel c into cache position j of the group.
    method DecodeNibble(c: nat, nibble: int, j: nat)
      requires Valid() && c < st.channels && 0 <= nibble < 16 && j < 8
      modifies predictor, stepIndex, cachedFrames
      ensures Valid() && View() == OneNibble(st, old(View()), c, nibble, j)
    {
      ghost var s := View();
      assert Sample16(s.pred[c]) && Index(s.step[c]);
      var step := StepSize(stepIndex[c]);
      var diff := step / 8;
      if nibble % 2 == 1 { diff := diff + step / 4; }
      if nibble / 2 % 2 == 1 { diff := diff + step / 2; }
      if nibble / 4 % 2 == 1 { diff := diff + step; }
      if nibble / 8 == 1 { diff := -diff; }
      assert diff == Diff(step, nibble);
      var p := Clamp(predictor[c] + diff, -32768, 32767);
      assert p == NextSample(s.pred[c], s.step[c], nibble);
      hide Diff, StepSize, Move;
      predictor[c] := p;
      var i := NextIndex(stepIndex[c], nibble);
      stepIndex[c] := i;
      cachedFrames[Slot(st.channels, 8, 0) + j * st.channels + c] := p;
      assert predictor[..] == s.pred[c := p] && stepIndex[..] == s.step[c := i];
      assert cachedFrames[..] == s.cache[Slot(st.channels, 8, 0) + j * st.channels + c := p];
    }

    // The nibbles of one byte.
    method DecodeByte(c: nat, ns: seq<int>, j: nat)
      requires Valid() && c < st.channels && |ns| == 8 && j < 7 && forall i :: 0 <= i < 8 ==> 0 <= ns[i] < 16
      modifies predictor, stepIndex, cachedFrames
      ensures Valid() && DecodeNibbles(st, old(View()), c, ns, j) == DecodeNibbles(st, View(), c, ns, j + 2)
    {
      hide Sound, OneNibble, DecodeNibbles;
      NibbleNext(st, View(), c, ns, j);
      DecodeNibble(c, ns[j], j);
      NibbleNext(st, View(), c, ns, j + 1);
      DecodeNibble(c, ns[j + 1], j + 1);
    }

    // Four bytes of channel c.
    method DecodeWord(c: nat, word: seq<Byte>)
      requires Valid() && c < st.channels && |word| == 4
      modifies predictor, stepIndex, cachedFrames
      ensures Valid() && View() == DecodeNibbles(st, old(View()), c, Nibbles(word), 0)
    {
      var ns := Nibbles(word);
      ghost var s := View();
      hide Sound, Nibbles, DecodeNibbles;
      for iByte := 0 to 4
        invariant Valid() && DecodeNibbles(st, s, c, ns, 0) == DecodeNibbles(st, View(), c, ns, 2 * iByte)
      {
        DecodeByte(c, ns, 2 * iByte);
      }
      NibblesDone(st, View(), c, ns);
    }

    // A word for every channel, eight frames into the cache.
    method DecodeGroup() returns (ok: bool)
      requires Valid()
      modifies this`pos, this`bytesRemainingInBlock, this`cachedFrameCount, predictor, stepIndex, cachedFrames
      ensures Valid()
      ensures DecodeWords(st, old(View()).(cached := 8), 0) == (if ok then Ready(View()) else Short(View()))
    {
      cachedFrameCount := 8;
      ghost var s := View();
      assert s == old(View()).(cached := 8);
      assert Sound(st, s);
      ok := true;
      hide DecodeWords, Sound;
      for iChannel := 0 to st.channels
        invariant Valid() && cachedFrameCount == 8 && ok && DecodeWords(st, s, 0) == DecodeWords(st, View(), iChannel)
      {
        ok := NextWord(iChannel);
        if !ok { return; }
      }
      WordsDone(st, View());
    }

    method NextWord(iChannel: nat) returns (ok: bool)
      requires Valid() && cachedFrameCount == 8 && iChannel < st.channels
      modifies this`pos, this`bytesRemainingInBlock, this`cachedFrameCount, predictor, stepIndex, cachedFrames
      ensures Valid() && (ok ==> cachedFrameCount == 8)
      ensures DecodeWords(st, old(View()), iChannel)
              == (if ok then DecodeWords(st, View(), iChannel + 1) else Short(View()))
    {
      hide DecodeNibbles, Nibbles, DecodeWords, Wrap32;
      var word: seq<Byte>;
      ok, word := Take4();
      if ok {
        WordNext(st, old(View()), iChannel);
        hide Sound;
        DecodeWord(iChannel, word);
      } else {
        WordShort(st, old(View()), iChannel);
        cachedFrameCount := 0;
      }
    }

    // The next four bytes of the stream, counted off the block.
    method Take4() returns (ok: bool, word: seq<Byte>)
      requires Valid()
      modifies this`pos, this`bytesRemainingInBlock
      ensures Valid() && ok == (old(pos) + 4 <= |st.file|)
      ensures ok ==> word == st.file[old(pos)..old(pos) + 4]
      ensures View() == if ok then old(View()).(pos := old(pos) + 4, bytes := Wrap32(old(bytesRemainingInBlock) - 4))
                        else old(View()).(pos := |st.file|)
    {
      if pos + 4 > |st.file| {
        pos := |st.file|;
        return false, [];
      }
      ok, word := true, st.file[pos..pos + 4];
      pos := pos + 4;
      bytesRemainingInBlock := Wrap32(bytesRemainingInBlock - 4);
    }

    // The front frame of the cache, to `out` from `at` on.
    method PutFrame(out: array<int>, at: nat)
      requires Valid() && cachedFrameCount > 0 && at + st.channels <= out.Length
      requires out != cachedFrames && out != predictor && out != stepIndex
      modifies out
      ensures out[..] == old(out[..at]) + Front(st, View()) + old(out[at + st.channels..])
    {
      ghost var f := Front(st, View());
      for iSample := 0 to st.channels
        invariant forall i :: 0 <= i < iSample ==> out[at + i] == f[i]
        invariant forall i :: 0 <= i < out.Length && !(at <= i < at + iSample) ==> out[i] == old(out[i])
      {
        out[at + iSample] := cachedFrames[Slot(st.channels, cachedFrameCount, iSample)];
      }
    }

    // Up to n frames to `out` from `at` on: a new block or group whenever the cache
    // runs empty, until enough frames, bad data or the end.
    method ReadS16(n: nat, out: array<int>, at: nat) returns (count: nat)
      requires Valid() && at + n * st.channels <= out.Length
      requires out != cachedFrames && out != predictor && out != stepIndex
      modifies this`pos, this`bytesRemainingInBlock, this`cachedFrameCount, this`readCursor
      modifies predictor, stepIndex, cachedFrames, out
      ensures Valid() && Same(st, View(), Read(st, old(View()), n).1)
      ensures count == |Read(st, old(View()), n).0|
      ensures var flat := Flat(Read(st, old(View()), n).0);
              at + |flat| <= out.Length && out[..] == old(out[..at]) + flat + old(out[at + |flat|..])
    {
      ghost var j := Job(View(), n, out[..], at);
      GoStart(st, j);
      hide Going, Sound, Read, Flat;
      ghost var fs;
      count, fs := Fetch(n, out, at, j);
    }

    method Fetch(n: nat, out: array<int>, at: nat, ghost j: Job) returns (count: nat, ghost fs: seq<Frame>)
      requires Valid() && out != cachedFrames && out != predictor && out != stepIndex
      requires Going(st, j, [], n, View(), out[..]) && at == Next(j, [])
      modifies this`pos, this`bytesRemainingInBlock, this`cachedFrameCount, this`readCursor
      modifies predictor, stepIndex, cachedFrames, out
      ensures Valid() && count == |fs| && Finished(st, j, fs, View(), out[..])
    {
      hide Going, Sound, Flat, Next, Finished;
      count, fs := 0, [];
      var left, p := n, at;
      if left == 0 {
        GoEnd(st, j, fs, left, View(), out[..]);
        return;
      }
      while readCursor < st.total
        invariant Valid() && left > 0 && count == |fs| && Going(st, j, fs, left, View(), out[..]) && p == Next(j, fs)
        decreases left, if cachedFrameCount == 0 then 1 else 0
      {
        if cachedFrameCount == 0 && bytesRemainingInBlock == 0 {
          var ok := LoadMore(j, fs, left, out[..]);
          if !ok { return; }
        }
        left, count, p, fs := Drain(left, count, p, out, j, fs);
        if left == 0 { break; }
        if cachedFrameCount == 0 {
          if bytesRemainingInBlock == 0 {
            continue;
          } else {
            var ok := LoadMore(j, fs, left, out[..]);
            if !ok { return; }
          }
        }
      }
      GoEnd(st, j, fs, left, View(), out[..]);
    }

    // A block's header, or the next group of the block.
    method LoadMore(ghost j: Job, ghost fs: seq<Frame>, ghost left: nat, ghost out: seq<int>) returns (ok: bool)
      requires Valid() && left > 0 && cachedFrameCount == 0 && Going(st, j, fs, left, View(), out)
      modifies this`pos, this`bytesRemainingInBlock, this`cachedFrameCount, predictor, stepIndex, cachedFrames
      ensures Valid()
      ensures ok ==> cachedFrameCount > 0 && Going(st, j, fs, left, View(), out)
      ensures !ok ==> Finished(st, j, fs, View(), out)
    {
      ghost var s := View();
      if bytesRemainingInBlock == 0 {
        ok := LoadHeader();
      } else {
        ok := DecodeGroup();
      }
      if ok { GoFill(st, j, fs, left, s, View(), out); } else { GoShort(st, j, fs, left, s, View(), out); }
      hide *;
    }

    // Everything cached that is still wanted.
    method Drain(left0: nat, count0: nat, p0: nat, out: array<int>, ghost j: Job, ghost fs0: seq<Frame>)
      returns (left: nat, count: nat, p: nat, ghost fs: seq<Frame>)
      requires Valid() && out != cachedFrames && out != predictor && out != stepIndex
      requires count0 == |fs0| && p0 == Next(j, fs0) && Going(st, j, fs0, left0, View(), out[..])
      modifies this`cachedFrameCount, this`readCursor, out
      ensures Valid() && count == |fs| && p == Next(j, fs) && Going(st, j, fs, left, View(), out[..])
      ensures left == 0 || cachedFrameCount == 0 || readCursor >= st.total
      ensures left <= left0
              && (left == left0 ==> cachedFrameCount == old(cachedFrameCount) && readCursor == old(readCursor))
    {
      left, count, p, fs := left0, count0, p0, fs0;
      hide Going;
      while left > 0 && cachedFrameCount > 0 && readCursor < st.total
        invariant Valid() && count == |fs| && p == Next(j, fs) && Going(st, j, fs, left, View(), out[..])
        invariant left <= left0
                  && (left == left0 ==> cachedFrameCount == old(cachedFrameCount) && readCursor == old(readCursor))
      {
        ghost var s, before := View(), out[..];
        PopSound(st, s);
        GoRoom(st, j, fs, left, s, before);
        hide Sound, Flat;
        PutFrame(out, p);
        p := p + st.channels;
        left, count, readCursor, cachedFrameCount := left - 1, count + 1, readCursor + 1, cachedFrameCount - 1;
        assert View() == Pop(s);
        GoPop(st, j, fs, left + 1, s, before, out[..]);
        fs := fs + [Front(st, s)];
      }
    }

    // Back to the first frame, with everything cached forgotten.
    method SeekToFirst()
      requires Valid()
      modifies this`pos, this`bytesRemainingInBlock, this`cachedFrameCount, this`readCursor
      modifies predictor, stepIndex, cachedFrames
      ensures Valid() && View() == Start(st)
    {
      pos, bytesRemainingInBlock, cachedFrameCount, readCursor := st.dataPos, 0, 0, 0;
      predictor[0], predictor[1], stepIndex[0], stepIndex[1] := 0, 0, 0, 0;
      forall i | 0 <= i < CACHE { cachedFrames[i] := 0; }
      assert predictor[..] == [0, 0] && stepIndex[..] == [0, 0] && cachedFrames[..] == seq(CACHE, _ => 0);
    }

    // Backwards by way of the start; forwards by reading into nowhere, in pieces.
    method SeekToFrame(target: nat) returns (ok: bool)
      requires Valid()
      modifies this`pos, this`bytesRemainingInBlock, this`cachedFrameCount, this`readCursor
      modifies predictor, stepIndex, cachedFrames
      ensures Valid() && ok == Seek(st, old(View()), target).0 && Same(st, View(), Seek(st, old(View()), target).1)
    {
      hide Forward, Sound, Start;
      if st.total == 0 { return true; }
      var t := Min(target, st.total);
      if t < readCursor { SeekToFirst(); }
      ok := true;
      if t > readCursor { ok := SkipFrames(t - readCursor); }
    }

    method SkipFrames(k: nat) returns (ok: bool)
      requires Valid()
      modifies this`pos, this`bytesRemainingInBlock, this`cachedFrameCount, this`readCursor
      modifies predictor, stepIndex, cachedFrames
      ensures Valid() && ok == Forward(st, old(View()), k).0 && Same(st, View(), Forward(st, old(View()), k).1)
    {
      hide Read, Sound, Forward, Piece, Same, Flat, View, Skipping;
      var devnull := new int[2048];
      var offset := k;
      ghost var s := View();
      SoundPlayable(st, s);
      SkipFrom(st, s, k);
      while offset > 0
        invariant Valid() && Skipping(st, s, k, View(), offset)
      {
        var piece := Min(offset, Piece(st));
        ForwardNext(st, View(), offset);
        PieceFits(st, piece);
        ghost var now := View();
        var framesRead := ReadS16(piece, devnull, 0);
        SkipPiece(st, s, k, now, offset, View());
        if framesRead != piece { return false; }
        offset := offset - framesRead;
      }
      SkipDone(st, s, k, View());
      ok := true;
    }
  }

  lemma PieceFits(st: Stream, piece: nat)
    requires Playable(st) && piece <= Piece(st)
    ensures piece * st.channels <= 2048
  {
  }

  lemma ForwardNone(st: Stream, s: Dec)
    requires Sound(st, s)
    ensures Forward(st, s, 0) == (true, s)
  {
  }

  lemma ForwardNext(st: Stream, s: Dec, k: nat)
    requires Sound(st, s) && k > 0
    ensures Playable(st) && 0 < Min(k, Piece(st)) <= k && Min(k, Piece(st)) <= Piece(st)
    ensures var c := Min(k, Piece(st)); var r := Read(st, s, c);
            Forward(st, s, k) == if |r.0| != c then (false, r.1) else Forward(st, r.1, k - c)
  {
    hide Read;
  }

  // With `left` frames to go from `now`, the skip of k frames from `s` ends alike.
  ghost predicate Skipping(st: Stream, s: Dec, k: nat, now: Dec, left: nat) {
    && Sound(st, s) && Sound(st, now)
    && Forward(st, s, k).0 == Forward(st, now, left).0
    && Same(st, Forward(st, now, left).1, Forward(st, s, k).1)
  }

  lemma SkipFrom(st: Stream, s: Dec, k: nat)
    requires Sound(st, s)
    ensures Skipping(st, s, k, s, k)
  {
    hide Sound, Forward;
  }

  // A piece read: the skip goes on behind it, or it came up short and the skip fails.
  lemma SkipPiece(st: Stream, s: Dec, k: nat, now: Dec, left: nat, after: Dec)
    requires Skipping(st, s, k, now, left) && left > 0 && Sound(st, now) && Sound(st, after) && Playable(st)
    requires Same(st, after, Read(st, now, Min(left, Piece(st))).1)
    ensures Sound(st, s)
    ensures var c := Min(left, Piece(st));
            if |Read(st, now, c).0| == c then c <= left && Skipping(st, s, k, after, left - c)
            else !Forward(st, s, k).0 && Same(st, after, Forward(st, s, k).1)
  {
    hide Read, Sound, Forward, Piece;
    ForwardNext(st, now, left);
    var c := Min(left, Piece(st));
    var r := Read(st, now, c);
    if |r.0| == c { SameForward(st, after, r.1, left - c); }
  }

  lemma SkipDone(st: Stream, s: Dec, k: nat, now: Dec)
    requires Skipping(st, s, k, now, 0)
    ensures Sound(st, s) && Forward(st, s, k).0 && Same(st, now, Forward(st, s, k).1)
  {
    hide Sound, Forward;
    ForwardNone(st, now);
  }

  lemma SameForward(st: Stream, s: Dec, s': Dec, k: nat)
    requires Sound(st, s) && Sound(st, s') && Same(st, s, s')
    ensures Forward(st, s, k).0 == Forward(st, s', k).0 && Same(st, Forward(st, s, k).1, Forward(st, s', k).1)
  {
    hide Read, Sound, Forward;
    ForwardIsRead(st, s, k);
    ForwardIsRead(st, s', k);
    SameReads(st, s, s', k);
  }

  lemma PopSound(st: Stream, s: Dec)
    requires Sound(st, s) && s.cached > 0
    ensures Sound(st, Pop(s))
  {
  }

  // ---- the loop of a read ----

  // A read as it was asked for.
  datatype Job = Job(s: Dec, n: nat, out: seq<int>, at: nat)

  // Where the next frame goes after `fs`.
  function Next(j: Job, fs: seq<Frame>): nat {
    j.at + |Flat(fs)|
  }

  // With `fs` written and `left` frames to go, reading on from `s` completes the read.
  ghost predicate Going(st: Stream, j: Job, fs: seq<Frame>, left: nat, s: Dec, out: seq<int>) {
    && Sound(st, j.s) && Sound(st, s) && |fs| + left == j.n
    && |Flat(fs)| == |fs| * st.channels && j.at + j.n * st.channels <= |j.out| && Next(j, fs) <= |j.out|
    && Read(st, j.s, j.n).0 == fs + Read(st, s, left).0
    && Same(st, Read(st, s, left).1, Read(st, j.s, j.n).1)
    && out == j.out[..j.at] + Flat(fs) + j.out[Next(j, fs)..]
  }

  lemma GoStart(st: Stream, j: Job)
    requires Sound(st, j.s) && j.at + j.n * st.channels <= |j.out|
    ensures Going(st, j, [], j.n, j.s, j.out)
  {
    assert [] + Read(st, j.s, j.n).0 == Read(st, j.s, j.n).0;
    assert j.out == j.out[..j.at] + j.out[j.at..];
    hide Read, Sound;
  }

  lemma GoRoom(st: Stream, j: Job, fs: seq<Frame>, left: nat, s: Dec, out: seq<int>)
    requires Going(st, j, fs, left, s, out) && left > 0
    ensures Next(j, fs) + st.channels <= |out| == |j.out|
  {
    hide Read, Sound, Same, Flat;
    OneMoreFits(|fs|, left, st.channels);
  }

  lemma OneMoreFits(a: nat, b: nat, c: nat)
    requires b > 0
    ensures a * c + c <= (a + b) * c
  {
    assert (a + b) * c == a * c + b * c;
    assert b * c == (b - 1) * c + c;
  }

  lemma {:induction false} FlatAppend(fs: seq<Frame>, f: Frame)
    ensures Flat(fs + [f]) == Flat(fs) + f
    decreases |fs|
  {
    if fs == [] {
      assert fs + [f] == [f] && Flat([f]) == f + Flat([]);
    } else {
      FlatAppend(fs[1..], f);
      assert (fs + [f])[1..] == fs[1..] + [f];
    }
  }

  lemma GoPop(st: Stream, j: Job, fs: seq<Frame>, left: nat, s: Dec, out: seq<int>, out': seq<int>)
    requires Going(st, j, fs, left, s, out) && left > 0 && s.cached > 0 && s.cursor < st.total && Sound(st, Pop(s))
    requires Next(j, fs) + st.channels <= |out| && Sound(st, s)
    requires out' == out[..Next(j, fs)] + Front(st, s) + out[Next(j, fs) + st.channels..]
    ensures Going(st, j, fs + [Front(st, s)], left - 1, Pop(s), out')
    ensures Next(j, fs + [Front(st, s)]) == Next(j, fs) + st.channels
  {
    hide Read, Sound, Front, Filled, Same, Flat;
    var f, rest := Front(st, s), Read(st, Pop(s), left - 1);
    ReadCached(st, s, left);
    FlatAppend(fs, f);
    assert fs + ([f] + rest.0) == fs + [f] + rest.0;
    WrittenNext(j, Flat(fs), f, out, out');
    assert (|fs| + 1) * st.channels == |fs| * st.channels + st.channels;
  }

  lemma ReadCached(st: Stream, s: Dec, left: nat)
    requires Sound(st, s) && left > 0 && s.cached > 0 && s.cursor < st.total && Sound(st, Pop(s))
    ensures var rest := Read(st, Pop(s), left - 1); Read(st, s, left) == ([Front(st, s)] + rest.0, rest.1)
  {
    hide Front, Sound;
  }

  lemma WrittenNext(j: Job, flat: seq<int>, f: Frame, out: seq<int>, out': seq<int>)
    requires j.at + |flat| + |f| <= |j.out|
    requires out == j.out[..j.at] + flat + j.out[j.at + |flat|..]
    requires out' == out[..j.at + |flat|] + f + out[j.at + |flat| + |f|..]
    ensures out' == j.out[..j.at] + (flat + f) + j.out[j.at + |flat + f|..]
  {
    assert out[..j.at + |flat|] == j.out[..j.at] + flat;
    assert out[j.at + |flat| + |f|..] == j.out[j.at + |flat| + |f|..];
  }

  // Filling the cache, even at the end, changes nothing.
  lemma GoFill(st: Stream, j: Job, fs: seq<Frame>, left: nat, s: Dec, s1: Dec, out: seq<int>)
    requires Going(st, j, fs, left, s, out) && left > 0 && Sound(st, s) && Filled(st, s) == Ready(s1)
    ensures Going(st, j, fs, left, s1, out)
  {
    if s.cursor < st.total { FilledReads(st, s, left); }
    else { ReadAtEnd(st, s, left); ReadAtEnd(st, s1, left); }
    hide Read, Sound, Filled;
  }

  lemma ReadAtEnd(st: Stream, s: Dec, left: nat)
    requires Sound(st, s) && (s.cursor >= st.total || left == 0)
    ensures Read(st, s, left) == ([], s)
  {
  }

  lemma GoShort(st: Stream, j: Job, fs: seq<Frame>, left: nat, s: Dec, s1: Dec, out: seq<int>)
    requires Going(st, j, fs, left, s, out) && left > 0 && Sound(st, s) && Filled(st, s) == Short(s1)
    ensures Finished(st, j, fs, s1, out)
  {
    hide Filled, Sound;
    assert s1.cursor == s.cursor;
    assert Read(st, s, left).0 == [];
    assert fs + [] == fs;
  }

  lemma GoEnd(st: Stream, j: Job, fs: seq<Frame>, left: nat, s: Dec, out: seq<int>)
    requires Going(st, j, fs, left, s, out) && (left == 0 || s.cursor >= st.total)
    ensures Finished(st, j, fs, s, out)
  {
    ReadAtEnd(st, s, left);
    hide Read, Sound;
    assert fs + [] == fs;
  }

  ghost predicate Finished(st: Stream, j: Job, fs: seq<Frame>, s: Dec, out: seq<int>) {
    && Sound(st, j.s) && Next(j, fs) <= |j.out|
    && Read(st, j.s, j.n).0 == fs && Same(st, s, Read(st, j.s, j.n).1)
    && out == j.out[..j.at] + Flat(fs) + j.out[Next(j, fs)..]
  }

  lemma NibbleNext(st: Stream, s: Dec, c: nat, ns: seq<int>, j: nat)
    requires Sound(st, s) && c < st.channels && |ns| == 8 && j < 8 && forall i :: 0 <= i < 8 ==> 0 <= ns[i] < 16
    ensures DecodeNibbles(st, s, c, ns, j) == DecodeNibbles(st, OneNibble(st, s, c, ns[j], j), c, ns, j + 1)
  {
    hide OneNibble;
  }

  lemma NibblesDone(st: Stream, s: Dec, c: nat, ns: seq<int>)
    requires Sound(st, s) && c < st.channels && |ns| == 8 && forall i :: 0 <= i < 8 ==> 0 <= ns[i] < 16
    ensures DecodeNibbles(st, s, c, ns, 8) == s
  {
  }

  lemma WordsDone(st: Stream, s: Dec)
    requires Sound(st, s)
    ensures DecodeWords(st, s, st.channels) == Ready(s)
  {
  }

  lemma WordShort(st: Stream, s: Dec, c: nat)
    requires Sound(st, s) && c < st.channels && s.pos + 4 > |st.file|
    ensures DecodeWords(st, s, c) == Short(s.(pos := |st.file|, cached := 0))
  {
  }

  lemma WordNext(st: Stream, s: Dec, c: nat)
    requires Sound(st, s) && c < st.channels && s.pos + 4 <= |st.file|
    ensures var s1 := s.(pos := s.pos + 4, bytes := Wrap32(s.bytes - 4));
            && Sound(st, s1)
            && DecodeWords(st, s, c)
               == DecodeWords(st, DecodeNibbles(st, s1, c, Nibbles(st.file[s.pos..s.pos + 4]), 0), c + 1)
  {
    hide DecodeNibbles, Nibbles;
  }
}
