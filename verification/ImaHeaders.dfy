/**
 How far the IMA ADPCM decoder gets, told from the block headers and the length of the
 file alone, and what that means for split reads and reads in pieces.
 */
module ImaHeaders {
  import opened Bytes
  import opened Division
  import opened Options
  import opened ImaAdpcm
  import RiffFile

  // A whole block header at `pos` whose step indices are in the table.
  predicate GoodHeader(st: Stream, pos: nat)
    requires Playable(st)
  {
    && pos + 4 * st.channels <= |st.file|
    && st.file[pos + 2] < 89
    && (st.channels == 2 ==> st.file[pos + 6] < 89)
  }

  // The block's byte count behind a header, and behind a group of words.
  function BehindHeader(st: Stream): nat {
    Wrap32(st.blockAlign - 4 * st.channels)
  }

  function BehindGroup(st: Stream, bytes: nat): nat {
    if st.channels == 1 then Wrap32(bytes - 4) else Wrap32(Wrap32(bytes - 4) - 4)
  }

  // Whether the cache can be refilled with the block at `bytes` bytes from its end.
  predicate NextGood(st: Stream, pos: nat, bytes: nat)
    requires Playable(st)
  {
    if bytes == 0 then GoodHeader(st, pos) else pos + 4 * st.channels <= |st.file|
  }

  // Frames up to the first bad or missing header, or the first missing word: one for
  // each header passed and eight for each group.
  function Avail(st: Stream, pos: nat, bytes: nat): nat
    requires Playable(st)
    decreases if pos <= |st.file| then |st.file| - pos else 0
  {
    if !NextGood(st, pos, bytes) then 0
    else if bytes == 0 then 1 + Avail(st, pos + 4 * st.channels, BehindHeader(st))
    else 8 + Avail(st, pos + 4 * st.channels, BehindGroup(st, bytes))
  }

  // Where the decoder goes from a header it refuses.
  function Behind(st: Stream, pos: nat): nat
    requires pos + 4 * st.channels <= |st.file|
  {
    SeekBy(st, pos + 4 * st.channels, Signed32(BehindHeader(st)))
  }

  // The walk ends at a bad header, and a good one stands where the decoder then goes.
  predicate Skips(st: Stream, pos: nat, bytes: nat)
    requires Playable(st)
    decreases if pos <= |st.file| then |st.file| - pos else 0
  {
    if !NextGood(st, pos, bytes) then
      bytes == 0 && pos + 4 * st.channels <= |st.file| && GoodHeader(st, Behind(st, pos))
    else if bytes == 0 then Skips(st, pos + 4 * st.channels, BehindHeader(st))
    else Skips(st, pos + 4 * st.channels, BehindGroup(st, bytes))
  }

  // Frames a decoder has ahead of it: cached, and up to the next stop.
  function Ahead(st: Stream, s: Dec): nat
    requires Playable(st)
  {
    s.cached + Avail(st, s.pos, s.bytes)
  }

  // Frames left before the announced end.
  function Room(st: Stream, s: Dec): nat {
    if s.cursor < st.total then st.total - s.cursor else 0
  }

  // ---- refilling follows the headers ----

  lemma HeaderRead(st: Stream, s: Dec)
    requires Sound(st, s)
    ensures LoadBlock(st, s).Ready? <==> GoodHeader(st, s.pos)
    ensures var s1 := LoadBlock(st, s).s;
            if GoodHeader(st, s.pos) then s1.pos == s.pos + 4 * st.channels && s1.bytes == BehindHeader(st)
            else if s.pos + 4 * st.channels > |st.file| then s1.pos == |st.file| && s1.bytes == s.bytes
            else s1.pos == Behind(st, s.pos) && s1.bytes == 0
  {
    var n := 4 * st.channels;
    if s.pos + n <= |st.file| {
      var h := st.file[s.pos..s.pos + n];
      assert h[2] == st.file[s.pos + 2] && (st.channels == 2 ==> h[6] == st.file[s.pos + 6]);
    }
  }

  lemma GroupRead(st: Stream, s: Dec)
    requires Sound(st, s)
    ensures var r := DecodeWords(st, s, 0);
            if s.pos + 4 * st.channels <= |st.file|
            then r.Ready? && r.s.pos == s.pos + 4 * st.channels && r.s.bytes == BehindGroup(st, s.bytes)
            else r.Short? && r.s.pos == |st.file|
  {
    hide DecodeNibbles, Nibbles, Wrap32;
    if s.pos + 4 <= |st.file| {
      var s1 := s.(pos := s.pos + 4, bytes := Wrap32(s.bytes - 4));
      var t := DecodeNibbles(st, s1, 0, Nibbles(st.file[s.pos..s.pos + 4]), 0);
      assert DecodeWords(st, s, 0) == DecodeWords(st, t, 1);
      if st.channels == 2 && t.pos + 4 <= |st.file| {
        var t1 := t.(pos := t.pos + 4, bytes := Wrap32(t.bytes - 4));
        var u := DecodeNibbles(st, t1, 1, Nibbles(st.file[t.pos..t.pos + 4]), 0);
        assert DecodeWords(st, t, 1) == DecodeWords(st, u, 2);
      }
    }
  }

  // Nothing is ahead at the end of the file.
  lemma NothingAtEnd(st: Stream, bytes: nat)
    requires Playable(st)
    ensures Avail(st, |st.file|, bytes) == 0
  {
  }

  // An empty cache is refilled exactly when the next header or group is good; that
  // leaves as much ahead, and a refusal leaves something exactly when the walk skips.
  predicate Walked(st: Stream, s: Dec, r: Refilled)
    requires Playable(st)
  {
    if NextGood(st, s.pos, s.bytes)
    then r.Ready? && Ahead(st, r.s) == Ahead(st, s) && Skips(st, r.s.pos, r.s.bytes) == Skips(st, s.pos, s.bytes)
    else r.Short? && Ahead(st, s) == 0 && r.s.cached == 0 && (Ahead(st, r.s) > 0 <==> Skips(st, s.pos, s.bytes))
  }

  lemma RefillWalk(st: Stream, s: Dec)
    requires Sound(st, s) && s.cached == 0
    ensures Walked(st, s, Refill(st, s))
  {
    if s.bytes == 0 { HeaderWalk(st, s); } else { GroupWalk(st, s); }
    hide *;
  }

  lemma HeaderWalk(st: Stream, s: Dec)
    requires Sound(st, s) && s.cached == 0 && s.bytes == 0
    ensures Walked(st, s, Refill(st, s))
  {
    hide LoadBlock, Sound, Avail, Skips, Behind, BehindHeader, BehindGroup, GoodHeader;
    assert Playable(st) by { SoundPlayable(st, s); }
    WalkStep(st, s.pos, 0);
    HeaderRead(st, s);
    WalkStep(st, Refill(st, s).s.pos, 0);
    NothingAtEnd(st, 0);
  }

  lemma GroupWalk(st: Stream, s: Dec)
    requires Sound(st, s) && s.cached == 0 && s.bytes != 0
    ensures Walked(st, s, Refill(st, s))
  {
    hide DecodeWords, Sound, Avail, Skips, Behind, BehindHeader, BehindGroup, GoodHeader;
    CachedSound(st, s, 8);
    SoundPlayable(st, s);
    WalkStep(st, s.pos, s.bytes);
    GroupRead(st, s.(cached := 8));
    NothingAtEnd(st, DecodeWords(st, s.(cached := 8), 0).s.bytes);
  }

  lemma CachedSound(st: Stream, s: Dec, cached: nat)
    requires Sound(st, s) && cached <= 8
    ensures Sound(st, s.(cached := cached))
  {
  }

  // One step of the walk.
  lemma WalkStep(st: Stream, pos: nat, bytes: nat)
    requires Playable(st)
    ensures var next := if bytes == 0 then BehindHeader(st) else BehindGroup(st, bytes);
            if NextGood(st, pos, bytes) then
              && Avail(st, pos, bytes) == (if bytes == 0 then 1 else 8) + Avail(st, pos + 4 * st.channels, next)
              && Skips(st, pos, bytes) == Skips(st, pos + 4 * st.channels, next)
            else
              && Avail(st, pos, bytes) == 0
              && (Skips(st, pos, bytes) <==>
                    bytes == 0 && pos + 4 * st.channels <= |st.file| && GoodHeader(st, Behind(st, pos)))
  {
    hide GoodHeader, Behind, BehindHeader, BehindGroup;
  }

  lemma FilledWalk(st: Stream, s: Dec)
    requires Sound(st, s)
    ensures Filled(st, s).Ready? <==> Ahead(st, s) > 0
    ensures var s1 := Filled(st, s).s;
            && (Filled(st, s).Ready? ==>
                  && Ahead(st, Pop(s1)) == Ahead(st, s) - 1
                  && Skips(st, s1.pos, s1.bytes) == Skips(st, s.pos, s.bytes))
            && (Filled(st, s).Short? ==> s1.cached == 0 && (Ahead(st, s1) > 0 <==> Skips(st, s.pos, s.bytes)))
  {
    if s.cached == 0 {
      RefillWalk(st, s);
      WalkStep(st, s.pos, s.bytes);
    }
    hide Refill, Sound, Skips, Avail;
  }

  // ---- how much a read gives ----

  function Least(a: nat, b: nat, c: nat): nat {
    Min(a, Min(b, c))
  }

  // A read gives what was asked for, what the stream announces or what the headers
  // allow, whichever is least.  Stopped by a header, it leaves something ahead exactly
  // when the walk skips.
  lemma {:induction false} ReadCount(st: Stream, s: Dec, n: nat)
    requires Sound(st, s)
    ensures |Read(st, s, n).0| == Least(n, Room(st, s), Ahead(st, s))
    ensures Ahead(st, s) < n && Ahead(st, s) < Room(st, s) ==>
              (Ahead(st, Read(st, s, n).1) > 0 <==> Skips(st, s.pos, s.bytes))
    decreases n
  {
    hide Filled, Sound, Front, Ahead, Skips;
    if n > 0 && s.cursor < st.total {
      FilledWalk(st, s);
      if Filled(st, s).Ready? {
        ReadCount(st, Pop(Filled(st, s).s), n - 1);
      }
    }
  }

  // ---- split reads ----

  // Two reads give what one of both lengths gives exactly when the first met no bad
  // header, the second asks for nothing, the stream announces no more, or nothing
  // readable stands behind the header that stopped the first.
  lemma SplitReadIff(st: Stream, s: Dec, n1: nat, n2: nat)
    requires Sound(st, s)
    ensures var (out1, s1) := Read(st, s, n1);
            Read(st, s, n1 + n2).0 == out1 + Read(st, s1, n2).0
            <==> n1 <= Ahead(st, s) || n2 == 0 || Room(st, s) <= Ahead(st, s) || !Skips(st, s.pos, s.bytes)
  {
    hide Read, Sound, Ahead, Skips;
    ReadCount(st, s, n1);
    var s1 := Read(st, s, n1).1;
    ReadCount(st, s1, n2);
    SplitReadCounts(st, s, n1, n2);
  }

  // ---- reading in pieces ----

  // The pieces make up a straight read exactly when no bad header comes before its end,
  // the read stops at the start of a piece, the stream announces no more, or nothing
  // readable stands behind the header that stopped it.
  lemma PiecesIff(st: Stream, s: Dec, n: nat)
    requires Sound(st, s)
    ensures ReadPieces(st, s, n).0 == Read(st, s, n).0
            <==> n <= Ahead(st, s) || Multiple(Ahead(st, s), Piece(st)) || Room(st, s) <= Ahead(st, s)
                 || !Skips(st, s.pos, s.bytes)
  {
    assert Playable(st);
    hide Read, Sound, Ahead, Skips, ReadPieces, Multiple, Piece, Playable;
    ReadCount(st, s, n);
    PiecesAreRead(st, s, n);
    var out, end := Read(st, s, n).0, Read(st, s, n).1;
    ReadCount(st, end, Min(n - |out|, Piece(st)));
  }

  // ---- a file whose headers are all good ----

  // `blocks` whole blocks from `pos` on, each with a good header.
  predicate GoodBlocks(st: Stream, pos: nat, blocks: nat)
    requires Whole(st)
    decreases blocks
  {
    || blocks == 0
    || (GoodHeader(st, pos) && pos + st.blockAlign <= |st.file| && GoodBlocks(st, pos + st.blockAlign, blocks - 1))
  }

  function BlockFrames(st: Stream): nat
    requires Whole(st)
  {
    1 + 8 * Groups(st)
  }

  // A run of groups, one group at a time.
  lemma OneGroupFewer(w: nat, g: nat)
    requires g > 0
    ensures w * g == w + w * (g - 1)
  {
  }

  lemma GroupTaken(st: Stream, rest: nat)
    requires Playable(st) && rest < 0x1_0000
    ensures BehindGroup(st, 4 * st.channels + rest) == rest
  {
  }

  lemma {:induction false} GroupsAvail(st: Stream, pos: nat, g: nat)
    requires Whole(st) && pos + 4 * st.channels * g <= |st.file| && 4 * st.channels * g < 0x1_0000
    ensures Avail(st, pos, 4 * st.channels * g) == 8 * g + Avail(st, pos + 4 * st.channels * g, 0)
    decreases g
  {
    hide Avail, BehindGroup, GoodHeader;
    if g > 0 {
      var w := 4 * st.channels;
      OneGroupFewer(w, g);
      GroupTaken(st, w * (g - 1));
      WalkStep(st, pos, w * g);
      GroupsAvail(st, pos + w, g - 1);
    }
  }

  lemma {:induction false} BlocksAvail(st: Stream, pos: nat, blocks: nat)
    requires Whole(st) && GoodBlocks(st, pos, blocks)
    ensures Avail(st, pos, 0) >= blocks * BlockFrames(st)
    decreases blocks
  {
    hide Avail, BlockFrames, Whole;
    if blocks > 0 {
      BlockAvail(st, pos, blocks);
      BlocksAvail(st, pos + st.blockAlign, blocks - 1);
      assert blocks * BlockFrames(st) == BlockFrames(st) + (blocks - 1) * BlockFrames(st);
    }
  }

  lemma BlockAvail(st: Stream, pos: nat, blocks: nat)
    requires Whole(st) && GoodBlocks(st, pos, blocks) && blocks > 0
    ensures Avail(st, pos, 0) == BlockFrames(st) + Avail(st, pos + st.blockAlign, 0)
  {
    var g := Groups(st);
    assert st.blockAlign - 4 * st.channels == 4 * st.channels * g == BehindHeader(st);
    GroupsAvail(st, pos + 4 * st.channels, g);
    hide Groups;
    WalkStep(st, pos, 0);
    hide Avail, Skips;
  }

  // The length the file reader announces for such a file is the one it decodes to;
  // blocks that are all header are refused.
  lemma AnnouncedFrames(st: Stream, m: RiffFile.Fmt, blocks: nat)
    requires Whole(st) && blocks > 0 && m.blockAlign == st.blockAlign && m.channels == st.channels
    ensures RiffFile.CompressedFrames(m, RiffFile.DVI_ADPCM, blocks * st.blockAlign)
         == if Groups(st) > 0 then Some(blocks * BlockFrames(st)) else None
  {
    hide BlockFrames;
    var g, h, align := Groups(st), 4 * st.channels, st.blockAlign;
    Remainder(align, blocks, 0);
    Commutes(align, blocks);
    Spread(blocks, h, h * g);
    if g > 0 {
      TwoToAByte(st.channels, blocks, g);
      FramesInAll(st, blocks);
    }
  }

  lemma Commutes(a: nat, b: nat)
    ensures a * b == b * a
  {
  }

  lemma Spread(k: nat, a: nat, b: nat)
    ensures k * (a + b) == k * a + k * b
  {
  }

  lemma TwoToAByte(channels: nat, blocks: nat, g: nat)
    requires (channels == 1 || channels == 2) && blocks > 0 && g > 0
    ensures blocks * (4 * channels * g) > 0 && blocks * (4 * channels * g) * 2 / channels == 8 * (blocks * g)
  {
    var k := blocks * g;
    assert blocks * (4 * channels * g) == 4 * channels * k;
    assert k > 0;
  }

  lemma FramesInAll(st: Stream, blocks: nat)
    requires Whole(st)
    ensures blocks * BlockFrames(st) == blocks + 8 * (blocks * Groups(st))
  {
  }
}
