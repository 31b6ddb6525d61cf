/**
 Seeking the IMA ADPCM decoder, from every state that reads, reads in pieces and seeks can
 bring it to.

 A decoder that has gone on behind a bad header counts the frames it reads there as if
 none were missing.  Seeking back starts over and is right again; seeking on from there
 is not.
 */
module ImaSeeking {
  import opened Bytes
  import opened ImaAdpcm
  import opened ImaHeaders

  // Frames of a straight decode before the first header or word it stops at.
  function First(st: Stream): nat
    requires Playable(st)
  {
    Avail(st, st.dataPos, 0)
  }

  // How far the decoder can get by reading on: what it has read and what is ahead.
  function Reach(st: Stream, s: Dec): nat
    requires Playable(st)
  {
    s.cursor + Ahead(st, s)
  }

  // ---- the states a decoder can be in ----

  // Where a straight decode would be, or no longer before the place where that stops.
  predicate Reached(st: Stream, s: Dec) {
    && Playable(st) && Sound(st, s) && s.cursor <= st.total
    && (OnTrack(st, s) || First(st) <= s.cursor)
    && (First(st) >= st.total ==> OnTrack(st, s))
  }

  lemma StartReached(st: Stream)
    requires Playable(st)
    ensures Reached(st, Start(st)) && Reach(st, Start(st)) == First(st)
  {
    StartOnTrack(st);
    hide OnTrack, Avail;
  }

  lemma {:induction false} FullReadKeepsReach(st: Stream, s: Dec, n: nat)
    requires Sound(st, s) && |Read(st, s, n).0| == n
    ensures Reach(st, Read(st, s, n).1) == Reach(st, s)
    decreases n
  {
    SoundPlayable(st, s);
    hide Filled, Sound, Front, Ahead;
    if n > 0 {
      FilledWalk(st, s);
      FullReadKeepsReach(st, Pop(Filled(st, s).s), n - 1);
    }
  }

  lemma TrackReach(st: Stream, s: Dec)
    requires OnTrack(st, s)
    ensures Playable(st) && Reach(st, s) == First(st) && s.cursor <= First(st)
  {
    StartReached(st);
    FullReadKeepsReach(st, Start(st), s.cursor);
    hide Read, Sound, Avail;
  }

  lemma ReadsReached(st: Stream, s: Dec, n: nat)
    requires Reached(st, s)
    ensures Reached(st, Read(st, s, n).1)
  {
    hide Read, Sound, OnTrack, Ahead, First;
    CursorInRange(st, s, n);
    ReadCount(st, s, n);
    if OnTrack(st, s) {
      ReadOnTrack(st, s, n);
      TrackReach(st, s);
    }
  }

  lemma {:induction false} PiecesReached(st: Stream, s: Dec, n: nat)
    requires Reached(st, s)
    ensures Reached(st, ReadPieces(st, s, n).1)
    decreases n
  {
    hide Reached, Read, Sound, Piece;
    ReachedSound(st, s);
    if n > 0 {
      ReadsReached(st, s, Min(n, Piece(st)));
      var (out, s1) := Read(st, s, Min(n, Piece(st)));
      if out != [] { PiecesReached(st, s1, n - |out|); }
    }
  }

  lemma ReachedSound(st: Stream, s: Dec)
    requires Reached(st, s)
    ensures Playable(st) && Sound(st, s) && s.cursor <= st.total
  {
    hide Sound, OnTrack;
  }

  lemma SeeksReached(st: Stream, s: Dec, target: nat)
    requires Reached(st, s)
    ensures Reached(st, Seek(st, s, target).1)
  {
    hide Reached, Forward, Sound, Read, Start, Avail, Ahead;
    ReachedSound(st, s);
    StartReached(st);
    ReachedSound(st, Start(st));
    var t := Min(target, st.total);
    var s1 := if t < s.cursor then Start(st) else s;
    if t > s1.cursor {
      ForwardIsRead(st, s1, t - s1.cursor);
      ReadsReached(st, s1, t - s1.cursor);
    }
  }

  datatype Use = Reads(n: nat) | Pieces(n: nat) | Seeks(target: nat)

  function Used(st: Stream, s: Dec, use: Use): (r: Dec)
    requires Sound(st, s)
    ensures Sound(st, r)
  {
    match use
    case Reads(n) => Read(st, s, n).1
    case Pieces(n) => ReadPieces(st, s, n).1
    case Seeks(target) => Seek(st, s, target).1
  }

  function UsedAll(st: Stream, s: Dec, uses: seq<Use>): (r: Dec)
    requires Sound(st, s)
    ensures Sound(st, r)
    decreases |uses|
  {
    if uses == [] then s else UsedAll(st, Used(st, s, uses[0]), uses[1..])
  }

  // Whatever is done with a decoder, it is in such a state.
  lemma {:induction false} UsesReached(st: Stream, s: Dec, uses: seq<Use>)
    requires Reached(st, s)
    ensures Sound(st, s) && Reached(st, UsedAll(st, s, uses))
    decreases |uses|
  {
    ReachedSound(st, s);
    hide Reached, Sound, Read, ReadPieces, Seek;
    if uses != [] {
      match uses[0] {
        case Reads(n) => ReadsReached(st, s, n);
        case Pieces(n) => PiecesReached(st, s, n);
        case Seeks(target) => SeeksReached(st, s, target);
      }
      UsesReached(st, Used(st, s, uses[0]), uses[1..]);
    }
  }

  // ---- when a seek works ----

  // Back: the headers from the start allow it.  On: the decoder can get there.
  predicate CanSeek(st: Stream, s: Dec, target: nat)
    requires Playable(st)
  {
    var t := Min(target, st.total);
    if t < s.cursor then t <= First(st) else t == s.cursor || t <= Reach(st, s)
  }

  lemma StartCursor(st: Stream)
    requires Playable(st)
    ensures Sound(st, Start(st)) && Start(st).cursor == 0
    ensures Start(st).cached == 0 && Start(st).bytes == 0 && Start(st).pos == st.dataPos
  {
  }

  lemma SeekCount(st: Stream, s: Dec, target: nat)
    requires Sound(st, s) && s.cursor <= st.total
    ensures Playable(st) && (Seek(st, s, target).0 <==> CanSeek(st, s, target))
  {
    hide Read, Sound, Forward, Avail, Ahead, Reached, Start;
    SoundPlayable(st, s);
    StartReached(st);
    StartCursor(st);
    var t := Min(target, st.total);
    var s1 := if t < s.cursor then Start(st) else s;
    if t > s1.cursor {
      ForwardIsRead(st, s1, t - s1.cursor);
      ReadCount(st, s1, t - s1.cursor);
    }
  }

  // ---- when it is right ----

  // It works exactly when a straight decode gets to the target, and what is then read
  // are that decode's frames.
  ghost predicate SeeksRight(st: Stream, s: Dec, target: nat)
    requires Playable(st) && Sound(st, s)
  {
    var t := Min(target, st.total);
    && (Seek(st, s, target).0 <==> t <= First(st))
    && (Seek(st, s, target).0 ==> forall n :: Onward(st, t, n, Read(st, Seek(st, s, target).1, n).0))
  }

  // It rewinds; or the decoder has not gone on behind a bad header to where something can
  // be read; or the target is out of its reach.  At the announced end: if there is no bad
  // header before it.
  predicate Rightly(st: Stream, s: Dec, target: nat)
    requires Playable(st)
  {
    var t := Min(target, st.total);
    || t < s.cursor
    || (if s.cursor < st.total then Reach(st, s) == First(st) || Reach(st, s) < t else st.total <= First(st))
  }

  lemma TrackSeeksRight(st: Stream, s: Dec, target: nat)
    requires OnTrack(st, s)
    ensures Playable(st) && Sound(st, s) && SeeksRight(st, s, target)
  {
    var t := Min(target, st.total);
    SeekOnTrack(st, s, target);
    StartReached(st);
    ReadCount(st, Start(st), t);
    forall n | Seek(st, s, target).0 ensures Onward(st, t, n, Read(st, Seek(st, s, target).1, n).0) {
      SeekThenRead(st, s, target, n);
    }
    hide Read, Seek, Sound, Avail, Onward;
  }

  lemma RewindIsStart(st: Stream, s: Dec, target: nat)
    requires Playable(st) && Sound(st, s) && s.cursor <= st.total && Min(target, st.total) < s.cursor
    ensures Seek(st, s, target) == Seek(st, Start(st), target)
  {
    hide Forward, Sound;
  }

  // Nothing of a straight decode is left behind the place where it stops.
  lemma NothingOnward(st: Stream, n: nat, out: seq<Frame>)
    requires Playable(st) && First(st) < st.total
    ensures Onward(st, First(st), n, out) <==> out == []
  {
    hide Read, Avail, Sound, Start, Reached, First, Ahead;
    StartReached(st);
    StartCursor(st);
    ReadCount(st, Start(st), First(st) + n);
  }

  // From any state a decoder can be in, seeking is right exactly then.
  lemma SeekIff(st: Stream, s: Dec, target: nat)
    requires Reached(st, s)
    ensures Playable(st) && Sound(st, s) && (SeeksRight(st, s, target) <==> Rightly(st, s, target))
  {
    ReachedSound(st, s);
    if OnTrack(st, s) {
      TrackReach(st, s);
      TrackSeeksRight(st, s, target);
    } else if Min(target, st.total) < s.cursor {
      StartOnTrack(st);
      RewindIsStart(st, s, target);
      TrackSeeksRight(st, Start(st), target);
    } else {
      AstrayIff(st, s, target);
    }
    hide OnTrack, Sound, Seek, Onward, Ahead, Avail;
  }

  lemma AstrayIff(st: Stream, s: Dec, target: nat)
    requires Playable(st) && Sound(st, s) && First(st) <= s.cursor <= Min(target, st.total) && First(st) < st.total
    ensures SeeksRight(st, s, target) <==> Rightly(st, s, target)
  {
    hide Sound, Read, First, Ahead, Onward;
    var t := Min(target, st.total);
    SeekCount(st, s, target);
    if t == s.cursor {
      assert Seek(st, s, target) == (true, s);
      if t == First(st) { AtStop(st, s, target); }
    }
  }

  // At the place itself a seek there stays where it is.
  lemma AtStop(st: Stream, s: Dec, target: nat)
    requires Playable(st) && Sound(st, s) && First(st) == s.cursor == Min(target, st.total) < st.total
    ensures SeeksRight(st, s, target) <==> Ahead(st, s) == 0
  {
    hide Sound, Read, First, Ahead, Onward;
    assert Seek(st, s, target) == (true, s);
    forall n ensures Onward(st, First(st), n, Read(st, s, n).0) <==> n == 0 || Ahead(st, s) == 0 {
      ReadCount(st, s, n);
      NothingOnward(st, n, Read(st, s, n).0);
    }
    if Ahead(st, s) > 0 { assert !Onward(st, First(st), 1, Read(st, s, 1).0); }
  }

  // Three mono blocks of nothing but a header, the first one bad.
  function Holed(): Stream {
    Stream([0, 0, 89, 0, 5, 0, 0, 0, 7, 0, 0, 0], 0, 1, 4, 3)
  }

  // After two reads of one frame the decoder takes the second good frame for the second
  // frame of the stream.
  lemma WrongFrame()
    ensures var st := Holed();
            && Playable(st) && First(st) == 0 && Straight(st, 2) == []
            && var s := UsedAll(st, Start(st), [Reads(1), Reads(1)]);
               && Reached(st, s) && s.cursor == 1 && !Rightly(st, s, 1)
               && Seek(st, s, 1) == (true, s) && Read(st, s, 1).0 == [[7]]
  {
    hide Filled, Sound, Read, UsedAll, Avail, Holed, Start, Reached;
    var st := Holed();
    HoledBytes();
    var s0 := Start(st);
    HoledStart();
    StartCursor(st);
    UsesReached(st, s0, [Reads(1), Reads(1)]);
    UsedTwice(st, s0, Reads(1), Reads(1));
    var s1 := Read(st, s0, 1).1;
    BlockOfOne(st, s1, 5);
    BlockOfOne(st, Read(st, s1, 1).1, 7);
  }

  lemma HoledStart()
    ensures var st := Holed(); var s0 := Start(st);
            && Playable(st) && Reached(st, s0) && First(st) == 0 && Straight(st, 2) == []
            && Read(st, s0, 1).1 == s0.(pos := 4)
  {
    hide *;
    var st := Holed();
    HoledBytes();
    StartReached(st);
    StartCursor(st);
    BadBlock(st, Start(st), 1);
    BadBlock(st, Start(st), 2);
    StraightReads(st, 2);
  }

  lemma StraightReads(st: Stream, n: nat)
    requires Playable(st)
    ensures Straight(st, n) == Read(st, Start(st), n).0 && Reach(st, Start(st)) == Ahead(st, Start(st))
  {
    hide Read, Ahead;
  }

  lemma HoledBytes()
    ensures var st := Holed();
            && Playable(st) && |st.file| == 12 && st.dataPos == 0 && st.channels == 1 && st.blockAlign == 4
            && st.total == 3 && st.file[2] == 89
            && st.file[4..8] == [5, 0, 0, 0] && st.file[8..12] == [7, 0, 0, 0]
  {
  }

  // A mono block of nothing but a bad header ends a read and is skipped.
  lemma BadBlock(st: Stream, s: Dec, n: nat)
    requires Sound(st, s) && st.channels == 1 && st.blockAlign == 4 && s.cached == 0 && s.bytes == 0 && n > 0
    requires s.cursor < st.total && s.pos + 4 <= |st.file| && st.file[s.pos + 2] >= 89
    ensures Playable(st) && Read(st, s, n) == ([], s.(pos := s.pos + 4)) && Ahead(st, s) == 0
  {
    assert st.file[s.pos..s.pos + 4][2] == st.file[s.pos + 2];
    assert Filled(st, s) == Short(s.(pos := s.pos + 4));
  }

  lemma UsedTwice(st: Stream, s: Dec, a: Use, b: Use)
    requires Sound(st, s)
    ensures UsedAll(st, s, [a, b]) == Used(st, Used(st, s, a), b)
  {
    hide Used, Sound;
    assert [a, b][1..] == [b] && [b][1..] == [];
    assert UsedAll(st, Used(st, Used(st, s, a), b), []) == Used(st, Used(st, s, a), b);
    assert UsedAll(st, Used(st, s, a), [b]) == Used(st, Used(st, s, a), b);
  }

  // A mono block of nothing but its header, read as one frame.
  lemma BlockOfOne(st: Stream, s: Dec, x: Byte)
    requires Sound(st, s) && st.channels == 1 && st.blockAlign == 4 && s.cached == 0 && s.bytes == 0
    requires s.cursor < st.total && s.pos + 4 <= |st.file| && st.file[s.pos..s.pos + 4] == [x, 0, 0, 0]
    ensures var (out, s') := Read(st, s, 1);
            && out == [[x as int]] && Ahead(st, s) > 0
            && s'.pos == s.pos + 4 && s'.cached == 0 && s'.bytes == 0 && s'.cursor == s.cursor + 1
  {
    var s1 := Filled(st, s).s;
    assert Filled(st, s).Ready? && s1.cache[15] == x as int && s1.cached == 1;
    assert Front(st, s1) == [x as int];
    var s2 := Pop(s1);
    assert Read(st, s2, 0) == ([], s2);
    ReadCount(st, s, 1);
  }

  // ---- a file whose headers are all good ----

  // Such a file decodes in full, in any pieces, and seeks anywhere, from any state.
  lemma GoodFileDecodes(st: Stream, blocks: nat, s: Dec, n: nat)
    requires Whole(st) && GoodBlocks(st, st.dataPos, blocks) && st.total <= blocks * BlockFrames(st)
    requires Reached(st, s)
    ensures |Straight(st, n)| == Min(n, st.total)
    ensures Seek(st, s, n).0 && SeeksRight(st, s, n)
    ensures |Read(st, s, n).0| == Min(n, Room(st, s)) && ReadPieces(st, s, n).0 == Read(st, s, n).0
  {
    hide Read, Sound, Avail, Skips, Seek, ReadPieces, GoodBlocks, BlockFrames, Multiple, Piece, OnTrack, SeeksRight;
    BlocksAvail(st, st.dataPos, blocks);
    StartReached(st);
    ReadCount(st, Start(st), n);
    TrackReach(st, s);
    TrackSeeksRight(st, s, n);
    SeekCount(st, s, n);
    ReadCount(st, s, n);
    PiecesIff(st, s, n);
  }
}
