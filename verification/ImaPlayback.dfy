/**
 The decoder object used as a player: seek to a frame, then read, any number of times.
 */
module ImaPlayback {
  import opened ImaAdpcm
  import opened ImaHeaders
  import opened ImaDecoder
  import opened ImaSeeking

  // In a state that reads and seeks bring a decoder to, up to what no read can tell apart.
  ghost predicate Near(st: Stream, s: Dec) {
    Sound(st, s) && exists t :: Reached(st, t) && Same(st, s, t)
  }

  lemma ReachedNear(st: Stream, s: Dec)
    requires Reached(st, s)
    ensures Near(st, s)
  {
    ReachedSound(st, s);
    assert Same(st, s, s);
    hide Reached, Same;
  }

  // A new decoder is.
  lemma StartNear(st: Stream)
    requires Playable(st)
    ensures Near(st, Start(st))
  {
    StartReached(st);
    ReachedNear(st, Start(st));
  }

  lemma SameChain(st: Stream, a: Dec, b: Dec, c: Dec)
    requires Same(st, a, b) && (Same(st, b, c) || Same(st, c, b))
    ensures Same(st, a, c) && a.cursor == c.cursor
  {
  }

  lemma Flipped(st: Stream, a: Dec, b: Dec)
    ensures Same(st, a, b) == Same(st, b, a)
  {
  }

  // States alike seek alike and are right alike.
  lemma SameJudged(st: Stream, s: Dec, t: Dec, target: nat)
    requires Playable(st) && Same(st, s, t)
    ensures CanSeek(st, s, target) == CanSeek(st, t, target) && Rightly(st, s, target) == Rightly(st, t, target)
  {
    hide Ahead, First;
  }

  // The frames read after the seek are those of a straight decode from the target on.
  ghost predicate PlaysRight(st: Stream, s: Dec, target: nat, s1: Dec)
    requires Playable(st) && Sound(st, s) && Sound(st, s1)
  {
    var t := Min(target, st.total);
    && (Seek(st, s, target).0 <==> t <= First(st))
    && (Seek(st, s, target).0 ==> forall n :: Onward(st, t, n, Read(st, s1, n).0))
  }

  // `s1` is where the object's seek leaves it.
  lemma SeekNear(st: Stream, s: Dec, target: nat, s1: Dec)
    requires Near(st, s) && Sound(st, s1) && Same(st, s1, Seek(st, s, target).1)
    ensures Near(st, s1) && Playable(st) && (Seek(st, s, target).0 <==> CanSeek(st, s, target))
    ensures PlaysRight(st, s, target, s1) <==> Rightly(st, s, target)
  {
    var t :| Reached(st, t) && Same(st, s, t);
    SoundPlayable(st, s);
    hide Sound, Seek, Read, Onward, First, Same, Reached, CanSeek, Rightly;
    ReachedSound(st, t);
    Flipped(st, s, t);
    SameSeeks(st, t, s, target);
    SeekCount(st, t, target);
    SeekIff(st, t, target);
    SeeksReached(st, t, target);
    SameJudged(st, s, t, target);
    var t1 := Seek(st, t, target).1;
    Flipped(st, t1, Seek(st, s, target).1);
    SameChain(st, s1, Seek(st, s, target).1, t1);
    forall n ensures Read(st, s1, n).0 == Read(st, t1, n).0 { SameReads(st, s1, t1, n); }
  }

  lemma ReadNear(st: Stream, s: Dec, n: nat, s1: Dec)
    requires Near(st, s) && Sound(st, s1) && Same(st, s1, Read(st, s, n).1)
    ensures Near(st, s1)
  {
    var t :| Reached(st, t) && Same(st, s, t);
    hide Sound, Read, Same, Reached;
    ReachedSound(st, t);
    SameReads(st, s, t, n);
    ReadsReached(st, t, n);
    SameChain(st, s1, Read(st, s, n).1, Read(st, t, n).1);
  }

  // Seeks to `target` and, if that works, reads n frames to `out` from `at` on.  The
  // frames are those of a straight decode from the target on, and the seek works exactly
  // when such a decode gets there, whenever seeking is right from where the decoder is.
  method PlayFrom(d: Decoder, target: nat, n: nat, out: array<int>, at: nat) returns (ok: bool, count: nat)
    requires d.Valid() && Near(d.st, d.View()) && at + n * d.st.channels <= out.Length
    requires out != d.cachedFrames && out != d.predictor && out != d.stepIndex
    modifies d, d.predictor, d.stepIndex, d.cachedFrames, out
    ensures d.Valid() && Near(d.st, d.View()) && Playable(d.st)
    ensures ok == CanSeek(d.st, old(d.View()), target)
    ensures !ok ==> count == 0 && out[..] == old(out[..])
    ensures ok ==>
              var fs := Read(d.st, Seek(d.st, old(d.View()), target).1, n).0;
              && count == |fs| && at + |Flat(fs)| <= out.Length
              && out[..] == old(out[..at]) + Flat(fs) + old(out[at + |Flat(fs)|..])
              && (Rightly(d.st, old(d.View()), target) ==> Onward(d.st, Min(target, d.st.total), n, fs))
    ensures Rightly(d.st, old(d.View()), target) ==> (ok <==> Min(target, d.st.total) <= First(d.st))
  {
    hide Near, Flat, Same, Read, Seek, First, CanSeek, Rightly, Sound, Onward, Decoder.View;
    ghost var s := d.View();
    count := 0;
    ok := d.SeekToFrame(target);
    ghost var s1 := d.View();
    SeekNear(d.st, s, target, s1);
    if ok {
      SameReads(d.st, s1, Seek(d.st, s, target).1, n);
      count := d.ReadS16(n, out, at);
      ReadNear(d.st, s1, n, d.View());
    }
  }
}
