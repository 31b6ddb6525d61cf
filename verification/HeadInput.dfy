/**
 What a head writes: at every sample its frames in a row from the write index, the old
 samples kept at one level and the new ones added at the other.
 */
module HeadInput {
  import opened Heads
  import opened Voices
  import opened SvfMath
  import Division

  // ---- the row of write indices ----

  // Within a buffer's length on either side the index wraps once at most.
  lemma WrapOnce(x: int, n: nat)
    requires n > 0 && -(n as int) <= x < 2 * n
    ensures Wrap(x, n) == if x < 0 then x + n else if x >= n then x - n else x
  {
    if x < 0 {
      Whole(x, -1, x + n, n);
    } else if x >= n {
      Whole(x, 1, x - n, n);
    }
  }

  lemma Whole(x: int, q: int, r: nat, n: nat)
    requires r < n && x == n * q + r
    ensures x % n == r
  {
    var d := x / n - q;
    assert n * (x / n) + x % n == x;
    assert n * (x / n) - n * q == n * d;
    Division.NoMultipleBetween(n, d, r - x % n);
  }

  predicate Step(dir: int) { dir == 1 || dir == -1 }

  // Where frame j goes.
  function Place(idx: nat, dir: int, j: nat, n: nat): (p: nat)
    requires n > 0
    ensures p < n
  {
    Wrap(idx + dir * j, n)
  }

  lemma PlacesOn(idx: nat, dir: int, j: nat, n: nat)
    requires idx < n && Step(dir) && j < n
    ensures Place(Wrap(idx + dir, n), dir, j, n) == Place(idx, dir, j + 1, n)
    ensures Place(idx, dir, 0, n) == idx && (0 < j ==> Place(idx, dir, j, n) != idx)
  {
    WrapOnce(idx, n);
    WrapOnce(idx + dir, n);
    WrapOnce(idx + dir * j, n);
    WrapOnce(idx + dir * (j + 1), n);
    WrapOnce(Wrap(idx + dir, n) + dir * j, n);
    hide Wrap;
  }

  // ---- the write loop ----

  // No more frames than the buffer has.  The samples they do not go to stay.
  lemma {:induction false} WritesNowhereElse(buf: seq<real>, idx: nat, dir: int, ys: seq<real>, pre: real, rec: real,
                                             q: nat)
    requires idx < |buf| && Step(dir) && |ys| <= |buf| && q < |buf|
    requires forall j: nat :: j < |ys| ==> Place(idx, dir, j, |buf|) != q
    ensures Write(buf, idx, dir, ys, pre, rec).0[q] == buf[q]
    decreases |ys|
  {
    if ys != [] {
      var n := |buf|;
      var idx1 := Wrap(idx + dir, n);
      PlacesOn(idx, dir, 0, n);
      var buf1 := buf[idx := Blend(buf[idx], ys[0], pre, rec)];
      forall j: nat | j < |ys| - 1 ensures Place(idx1, dir, j, n) != q {
        PlacesOn(idx, dir, j, n);
      }
      hide Wrap, Place;
      WritesNowhereElse(buf1, idx1, dir, ys[1..], pre, rec, q);
    }
  }

  // Frame j is added at one level to the sample at its place, kept at the other.
  lemma {:induction false} WritesInRow(buf: seq<real>, idx: nat, dir: int, ys: seq<real>, pre: real, rec: real, j: nat)
    requires idx < |buf| && Step(dir) && j < |ys| <= |buf|
    ensures var q := Place(idx, dir, j, |buf|);
            Write(buf, idx, dir, ys, pre, rec).0[q] == Blend(buf[q], ys[j], pre, rec)
    decreases |ys|
  {
    var n, idx1 := |buf|, Wrap(idx + dir, |buf|);
    var buf1 := buf[idx := Blend(buf[idx], ys[0], pre, rec)];
    PlacesOn(idx, dir, 0, n);
    if j == 0 {
      forall i: nat | i < |ys| - 1 ensures Place(idx1, dir, i, n) != idx {
        PlacesOn(idx, dir, i, n);
        PlacesOn(idx, dir, i + 1, n);
      }
      WritesNowhereElse(buf1, idx1, dir, ys[1..], pre, rec, idx);
      hide Wrap, Place, Blend;
    } else {
      PlacesOn(idx, dir, j - 1, n);
      PlacesOn(idx, dir, j, n);
      hide Wrap, Place, Blend;
      WritesInRow(buf1, idx1, dir, ys[1..], pre, rec, j - 1);
    }
  }

  // ---- a poke ----

  // The curves' ends: a head still out keeps all and adds nothing, one fully in goes by the
  // two levels alone.
  predicate Curved<RS>(k: Kernel<RS>) {
    k.preCurve(0.0) == 1.0 && k.preCurve(1.0) == 0.0 && k.recCurve(0.0) == 0.0 && k.recCurve(1.0) == 1.0
  }

  function FramesOf<RS>(k: Kernel<RS>, h: Sub<RS>, x: real): seq<real> {
    k.resample(h.resamp, RealAbs(h.rate), x).1
  }

  // A head fully in overdubs: its frames, clipped, at the record level onto what was there
  // at the preserve level, in a row from the write index in the head's direction, and
  // nothing else.
  lemma OverdubAt<RS>(k: Kernel<RS>, h: Sub<RS>, buf: seq<real>, x: real, pre: real, rec: real, j: nat)
    requires h.wrIdx < |buf| && Step(h.incDir) && Curved(k) && !h.state.Stopped? && h.fade == 1.0
    requires j < |FramesOf(k, h, x)| <= |buf|
    ensures var q := Place(h.wrIdx, h.incDir, j, |buf|);
            Poke(k, h, buf, x, pre, rec).1[q] == buf[q] * pre + k.clip(FramesOf(k, h, x)[j]) * rec
  {
    var ys := Clipped(k, FramesOf(k, h, x));
    WritesInRow(buf, h.wrIdx, h.incDir, ys, pre, rec, j);
    assert PreFade(k, 1.0, pre) == pre && RecFade(k, 1.0, rec) == rec;
    hide Place, Write;
  }

  lemma OverdubsNowhereElse<RS>(k: Kernel<RS>, h: Sub<RS>, buf: seq<real>, x: real, pre: real, rec: real, q: nat)
    requires h.wrIdx < |buf| && Step(h.incDir) && q < |buf| && |FramesOf(k, h, x)| <= |buf|
    requires forall j: nat :: j < |FramesOf(k, h, x)| ==> Place(h.wrIdx, h.incDir, j, |buf|) != q
    ensures Poke(k, h, buf, x, pre, rec).1[q] == buf[q]
  {
    WritesNowhereElse(buf, h.wrIdx, h.incDir, Clipped(k, FramesOf(k, h, x)), PreFade(k, h.fade, pre),
                      RecFade(k, h.fade, rec), q);
    hide Place, Write, PreFade, RecFade;
  }

  // A head still out leaves the buffer as it is, whatever the levels and the input.
  lemma FadedOutKeeps<RS>(k: Kernel<RS>, h: Sub<RS>, buf: seq<real>, x: real, pre: real, rec: real)
    requires h.wrIdx < |buf| && Curved(k) && (h.state.Stopped? || h.fade == 0.0)
    ensures Poke(k, h, buf, x, pre, rec).1 == buf
  {
    var ys := Clipped(k, FramesOf(k, h, x));
    KeptWhole(buf, h.wrIdx, h.incDir, ys);
    assert PreFade(k, 0.0, pre) == 1.0 && RecFade(k, 0.0, rec) == 0.0;
    hide Write;
  }

  lemma {:induction false} KeptWhole(buf: seq<real>, idx: nat, dir: int, ys: seq<real>)
    requires idx < |buf|
    ensures Write(buf, idx, dir, ys, 1.0, 0.0).0 == buf
    decreases |ys|
  {
    if ys != [] {
      assert buf[idx := Blend(buf[idx], ys[0], 1.0, 0.0)] == buf;
      KeptWhole(buf, Wrap(idx + dir, |buf|), dir, ys[1..]);
    }
  }

  // Of a pair with no one-shot pass, whose head i plays while the other has stopped, a
  // writing sample overdubs so at the pair's own levels.
  lemma SampleOverdubs<RS>(k: Kernel<RS>, w: Rwh<RS>, buf: seq<real>, x: real, i: nat, j: nat)
    requires Fits(w, buf) && !OnceActive(w) && (i == 0 || i == 1) && Curved(k)
    requires Head(w, i).state.Playing? && Head(w, i).fade == 1.0 && Head(w, Other(i)).state.Stopped?
    requires var h := Head(w, i); Step(h.incDir) && j < |FramesOf(k, h, x)| <= |buf|
    ensures var h := Head(w, i);
            var q := Place(h.wrIdx, h.incDir, j, |buf|);
            Heads.Sample(k, w, buf, x, true).1[q] == buf[q] * w.pre + k.clip(FramesOf(k, h, x)[j]) * w.rec
  {
    var h := Head(w, i);
    OverdubAt(k, h, buf, x, w.pre, w.rec, j);
    OnlyThatHead(k, w, buf, x, i);
    assert Heads.Sample(k, w, buf, x, true).1 == PokeHeads(k, w, buf, x).1;
    hide *;
  }

  // The stopped head writes nothing.
  lemma OnlyThatHead<RS>(k: Kernel<RS>, w: Rwh<RS>, buf: seq<real>, x: real, i: nat)
    requires Fits(w, buf) && !OnceActive(w) && (i == 0 || i == 1) && Head(w, Other(i)).state.Stopped?
    ensures PokeHeads(k, w, buf, x).1 == Poke(k, Head(w, i), buf, x, w.pre, w.rec).1
  {
    var (h, o) := (Head(w, i), Head(w, Other(i)));
    StoppedWritesNothing(k, o, buf, x, w.pre, w.rec);
    StoppedWritesNothing(k, o, Poke(k, h, buf, x, w.pre, w.rec).1, x, w.pre, w.rec);
    hide Poke;
  }

  lemma StoppedWritesNothing<RS>(k: Kernel<RS>, h: Sub<RS>, buf: seq<real>, x: real, pre: real, rec: real)
    requires h.wrIdx < |buf| && h.state.Stopped?
    ensures Poke(k, h, buf, x, pre, rec).1 == buf
  {
  }

  // ---- what reaches a head, and where ----

  // With nothing of the input filter and all of the dry sample, a head is given the input.
  lemma DryInput<RS>(v: Voice<RS>, x: real)
    requires v.pre.mix == Mix(0.0, 0.0, 0.0, 0.0) && v.preDry == 1.0
    ensures InputStage(v, x).1 == x
  {
    hide RampUpdate, FadeInc, Tick;
  }

  // With all of the low output and nothing dry, as a reset leaves it, it is given that.
  lemma LowInput<RS>(v: Voice<RS>, x: real)
    requires v.pre.mix == LowPass && v.preDry == 0.0
    ensures InputStage(v, x).1 == Tick(v.pre.coeffs, v.pre.memory, x).v2
  {
    hide RampUpdate, FadeInc, Tick;
  }

  // A head cut to a whole position inside the buffer writes eight samples behind it, in
  // the direction it goes.
  lemma EntersBehind<RS>(h: Sub<RS>, p: nat)
    requires p < h.frames && Step(h.incDir) && h.recOffset == -8 && h.frames >= 8
    ensures SetPhase(h, p as real).phase == p as real
    ensures SetPhase(h, p as real).wrIdx
            == if h.incDir == 1 then (if p >= 8 then p - 8 else p - 8 + h.frames)
               else (if p + 8 < h.frames then p + 8 else p + 8 - h.frames)
  {
    WrapOnce(p - 8 * h.incDir, h.frames);
    assert (p as real).Floor == p;
    hide Wrap;
  }
}
