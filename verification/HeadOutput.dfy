/**
 What is heard of a voice: the one head that plays, or both during a crossfade, each by
 the gain of its own fade.
 */
module HeadOutput {
  import opened SvfMath
  import opened Heads
  import opened Voices
  import opened HeadSafety
  import opened Crossfade

  // ---- the interpolation ----

  // The cubic through y1 and y2 with the slopes of the chords around them.
  function Spline(x: real, y0: real, y1: real, y2: real, y3: real): real {
    var c := 1.0 - x;
    c * c * (1.0 + 2.0 * x) * y1 + x * x * (3.0 - 2.0 * x) * y2
    + x * c * c * ((y2 - y0) / 2.0) - x * x * c * ((y3 - y1) / 2.0)
  }

  lemma HermiteIsSpline(x: real, y0: real, y1: real, y2: real, y3: real)
    ensures Hermite(x, y0, y1, y2, y3) == Spline(x, y0, y1, y2, y3)
  {
    var x2 := x * x;
    var x3 := x2 * x;
    var m0, m1 := (y2 - y0) / 2.0, (y3 - y1) / 2.0;
    assert Hermite(x, y0, y1, y2, y3)
        == (0.5 * (y3 - y0) + 1.5 * (y1 - y2)) * x3 + (y0 - 2.5 * y1 + 2.0 * y2 - 0.5 * y3) * x2
           + 0.5 * (y2 - y0) * x + y1;
    var c := 1.0 - x;
    assert c * c == 1.0 - 2.0 * x + x2;
    assert c * c * (1.0 + 2.0 * x) == 1.0 - 3.0 * x2 + 2.0 * x3;
    assert x * x * (3.0 - 2.0 * x) == 3.0 * x2 - 2.0 * x3;
    assert x * c * c == x - 2.0 * x2 + x3;
    assert x * x * c == x2 - x3;
  }

  // The buffer at a phase, between its samples as the spline has it.
  function At(buf: seq<real>, phase: real): real
    requires |buf| > 0
  {
    var i, n := Trunc(phase), |buf|;
    Spline(phase - i as real, buf[Wrap(i - 1, n)], buf[Wrap(i, n)], buf[Wrap(i + 1, n)], buf[Wrap(i + 2, n)])
  }

  lemma PeekIsAt<RS>(h: Sub<RS>, buf: seq<real>)
    requires |buf| > 0
    ensures Peek(h, buf) == At(buf, h.phase)
    ensures h.phase == Trunc(h.phase) as real ==> At(buf, h.phase) == buf[Wrap(Trunc(h.phase), |buf|)]
  {
    var i, n := Trunc(h.phase), |buf|;
    HermiteIsSpline(h.phase - i as real,
                    buf[Wrap(i - 1, n)], buf[Wrap(i, n)], buf[Wrap(i + 1, n)], buf[Wrap(i + 2, n)]);
    if h.phase == i as real { PeekAtSample(h, buf); }
    hide Hermite, Spline, Wrap, Trunc;
  }

  // ---- one sample ----

  // The fade's mixing gain goes from silence to all of the sample, as the sine does.
  predicate FadeGains<RS>(k: Kernel<RS>) {
    k.gain(0.0) == 0.0 && k.gain(1.0) == 1.0
  }

  // Head i plays, and the other has stopped.
  predicate Alone<RS>(w: Rwh<RS>, i: int) {
    (i == 0 || i == 1) && Head(w, i).state.Playing? && Head(w, Other(i)).state.Stopped?
  }

  // What a playing voice's sample gives to its output filter.
  function Heard<RS>(k: Kernel<RS>, v: Voice<RS>, buf: seq<real>, x: real, y: real): real
    requires Fits(v.sch, buf)
  {
    VoiceSample(k, v, buf, x, y).2
  }

  lemma InputStageStill<RS>(v: Voice<RS>, x: real)
    ensures var w, w1 := v.sch, InputStage(v, x).0.sch;
            && w1.h0.phase == w.h0.phase && w1.h1.phase == w.h1.phase
            && w1.h0.fade == w.h0.fade && w1.h1.fade == w.h1.fade
  {
    hide StageNext, RampUpdate, FadeInc;
  }

  // Two phases heard, each by the gain of its fade.
  function Both<RS>(k: Kernel<RS>, buf: seq<real>, p: real, f: real, q: real, g: real): real
    requires |buf| > 0
  {
    At(buf, p) * k.gain(f) + At(buf, q) * k.gain(g)
  }

  lemma BothEitherWay<RS>(k: Kernel<RS>, buf: seq<real>, p: real, f: real, q: real, g: real)
    requires |buf| > 0
    ensures Both(k, buf, p, f, q, g) == Both(k, buf, q, g, p, f)
  {
    hide At;
  }

  lemma OnlyOne<RS>(k: Kernel<RS>, buf: seq<real>, p: real, q: real)
    requires |buf| > 0 && FadeGains(k)
    ensures Both(k, buf, p, 1.0, q, 0.0) == At(buf, p)
  {
    hide At;
  }

  lemma MixIsBoth<RS>(k: Kernel<RS>, w: Rwh<RS>, buf: seq<real>)
    requires |buf| > 0
    ensures MixOut(k, w, buf) == Both(k, buf, w.h0.phase, w.h0.fade, w.h1.phase, w.h1.fade)
  {
    hide Peek, At;
    PeekIsAt(w.h0, buf);
    PeekIsAt(w.h1, buf);
    assert MixOut(k, w, buf)
        == Peek(w.h0, buf) * k.gain(w.h0.fade) + Peek(w.h1, buf) * k.gain(w.h1.fade);
  }

  lemma BothHeard<RS>(k: Kernel<RS>, v: Voice<RS>, buf: seq<real>, x: real, y: real)
    requires Fits(v.sch, buf) && v.playFlag
    ensures Heard(k, v, buf, x, y) == Both(k, buf, v.sch.h0.phase, v.sch.h0.fade, v.sch.h1.phase, v.sch.h1.fade)
  {
    InputStageKeeps(v, buf, x);
    InputStageStill(v, x);
    MixIsBoth(k, InputStage(v, x).0.sch, buf);
    hide InputStage, Heads.Sample, MixOut, Both, StageNext, Fits;
  }

  lemma AloneHeard<RS>(k: Kernel<RS>, v: Voice<RS>, buf: seq<real>, x: real, y: real, i: int)
    requires Fits(v.sch, buf) && v.playFlag && VoiceInv(v) && FadeGains(k) && Alone(v.sch, i)
    ensures Heard(k, v, buf, x, y) == At(buf, Head(v.sch, i).phase)
  {
    assert |buf| > 0;
    hide Heard, At, Fits, Both, FadeGains;
    var w := v.sch;
    BothHeard(k, v, buf, x, y);
    BothEitherWay(k, buf, w.h0.phase, w.h0.fade, w.h1.phase, w.h1.fade);
    OnlyOne(k, buf, Head(w, i).phase, Head(w, Other(i)).phase);
  }

  // Over every run of a voice: while one head plays and the other has stopped, the buffer
  // at the playing head's phase is heard, at a whole phase the sample there.
  lemma OneIsHeard<RS>(k: Kernel<RS>, s: World<RS>, steps: seq<Step<RS>>, x: real, y: real, i: int)
    requires Ready(s) && VoiceInv(s.v) && FadeGains(k)
    requires var v := RunSteps(k, s, steps).v; v.playFlag && Alone(v.sch, i)
    ensures var (v, buf) := (RunSteps(k, s, steps).v, RunSteps(k, s, steps).buf);
            var p := Head(v.sch, i).phase;
            && Heard(k, v, buf, x, y) == At(buf, p)
            && (p == Trunc(p) as real ==> Heard(k, v, buf, x, y) == buf[Wrap(Trunc(p), |buf|)])
  {
    RunKeeps(k, s, steps);
    var r := RunSteps(k, s, steps);
    AloneHeard(k, r.v, r.buf, x, y, i);
    PeekIsAt(Head(r.v.sch, i), r.buf);
    hide Heard, At, VoiceInv, RunSteps, Alone, Peek;
  }

  // Phase p is heard by the gain of the fade f and phase q by the gain of the rest.
  predicate CrossfadeAt<RS>(k: Kernel<RS>, buf: seq<real>, p: real, f: real, q: real, out: real)
    requires |buf| > 0
  {
    && out == At(buf, p) * k.gain(f) + At(buf, q) * k.gain(1.0 - f)
    && (p == Trunc(p) as real && q == Trunc(q) as real ==>
          out == buf[Wrap(Trunc(p), |buf|)] * k.gain(f) + buf[Wrap(Trunc(q), |buf|)] * k.gain(1.0 - f))
  }

  lemma BothCrossfade<RS>(k: Kernel<RS>, buf: seq<real>, p: real, f: real, q: real)
    requires |buf| > 0
    ensures CrossfadeAt(k, buf, p, f, q, Both(k, buf, p, f, q, 1.0 - f))
  {
    hide Trunc, Wrap;
  }

  predicate Crossfaded<RS>(k: Kernel<RS>, w: Rwh<RS>, buf: seq<real>, out: real)
    requires |buf| > 0
  {
    CrossfadeAt(k, buf, Head(w, w.active).phase, Head(w, w.active).fade, Head(w, Other(w.active)).phase, out)
  }

  lemma PairHeard<RS>(k: Kernel<RS>, v: Voice<RS>, buf: seq<real>, x: real, y: real)
    requires Fits(v.sch, buf) && PairInv(v) && v.sch.h0.fade + v.sch.h1.fade == 1.0
    ensures |buf| > 0 && Crossfaded(k, v.sch, buf, Heard(k, v, buf, x, y))
  {
    assert |buf| > 0;
    hide Heard, Both, Fits, Paired, CrossfadeAt;
    var w := v.sch;
    BothHeard(k, v, buf, x, y);
    BothEitherWay(k, buf, w.h0.phase, w.h0.fade, w.h1.phase, w.h1.fade);
    BothCrossfade(k, buf, Head(w, w.active).phase, Head(w, w.active).fade, Head(w, Other(w.active)).phase);
  }

  // Over every run that keeps looping and playing: the active head is heard by the gain of
  // its fade, the leaving one by the gain of the rest.
  lemma CrossfadeIsHeard<RS>(k: Kernel<RS>, s: World<RS>, steps: seq<Step<RS>>, x: real, y: real)
    requires Ready(s) && PairInv(s.v)
    requires forall step | step in steps :: KeepsLooping(step)
    ensures var (v, buf) := (RunSteps(k, s, steps).v, RunSteps(k, s, steps).buf);
            Crossfaded(k, v.sch, buf, Heard(k, v, buf, x, y))
  {
    FadesSumToOne(k, s, steps);
    var r := RunSteps(k, s, steps);
    PairHeard(k, r.v, r.buf, x, y);
    hide Heard, RunSteps, PairInv, Crossfaded;
  }

  // ---- a block ----

  // The output filter as a reset leaves it: nothing of the filter, all of the dry sample.
  predicate Unfiltered<RS>(v: Voice<RS>) {
    v.post.mix == Mix(0.0, 0.0, 0.0, 0.0) && v.postDry == 1.0
  }

  lemma UnfilteredOut<RS>(k: Kernel<RS>, v: Voice<RS>, buf: seq<real>, x: real, y: real)
    requires Fits(v.sch, buf) && Unfiltered(v)
    ensures var (v', _, y', out) := VoiceSample(k, v, buf, x, y);
            out == y' && Unfiltered(v') && v'.playFlag == v.playFlag
  {
    hide Heads.Sample, MixOut, RampUpdate, FadeInc, Tick;
  }

  // The voice and its buffer when it comes to a sample of the block.
  function Come<RS>(k: Kernel<RS>, v: Voice<RS>, buf: seq<real>, xs: seq<real>, y: real, t: nat): (s: World<RS>)
    requires Fits(v.sch, buf) && t <= |xs|
    ensures Ready(s)
    decreases t
  {
    if t == 0 then World(v, buf)
    else
      VoiceSampleFits(k, v, buf, xs[0], y);
      var (v1, buf1, y1, _) := VoiceSample(k, v, buf, xs[0], y);
      Come(k, v1, buf1, xs[1..], y1, t - 1)
  }

  lemma FirstHeard<RS>(k: Kernel<RS>, v: Voice<RS>, buf: seq<real>, xs: seq<real>, y: real)
    requires Fits(v.sch, buf) && xs != []
    ensures var (v1, buf1, y1, out) := VoiceSample(k, v, buf, xs[0], y);
            && Fits(v1.sch, buf1)
            && VoiceBlock(k, v, buf, xs, y).2 == [out] + VoiceBlock(k, v1, buf1, xs[1..], y1).2
            && Come(k, v, buf, xs, y, 0) == World(v, buf) && Heard(k, v, buf, xs[0], y) == y1
            && forall t: nat :: 0 < t <= |xs| ==> Come(k, v, buf, xs, y, t) == Come(k, v1, buf1, xs[1..], y1, t - 1)
  {
    VoiceSampleFits(k, v, buf, xs[0], y);
    hide VoiceSample, Fits, EndBlock;
  }

  // A playing voice with its output filter out of the way: at every sample of a block that
  // it comes to with one head playing and the other stopped, that head's place in the
  // buffer is put out.
  lemma {:induction false} BlockHeard<RS>(k: Kernel<RS>, v: Voice<RS>, buf: seq<real>, xs: seq<real>, y: real, t: nat,
                                          i: int)
    requires Fits(v.sch, buf) && t < |xs| && Unfiltered(v) && v.playFlag && VoiceInv(v) && FadeGains(k)
    requires Alone(Come(k, v, buf, xs, y, t).v.sch, i)
    ensures var s := Come(k, v, buf, xs, y, t);
            && t < |VoiceBlock(k, v, buf, xs, y).2|
            && VoiceBlock(k, v, buf, xs, y).2[t] == At(s.buf, Head(s.v.sch, i).phase)
    decreases t
  {
    hide *;
    FirstHeard(k, v, buf, xs, y);
    UnfilteredOut(k, v, buf, xs[0], y);
    var (v1, buf1, y1, out) := VoiceSample(k, v, buf, xs[0], y);
    if t == 0 {
      AloneHeard(k, v, buf, xs[0], y, i);
    } else {
      SampleKeeps(k, v, buf, xs[0], y);
      BlockHeard(k, v1, buf1, xs[1..], y1, t - 1, i);
    }
  }
}
