/**
 Where a voice's blocks are cut makes no difference: two blocks in a row end in the
 same state, buffer and output as one block of both, even when a one-shot pass
 finishes inside.
 */
module BlockSplit {
  import opened Heads
  import opened Voices
  import opened HeadSafety

  // Playing, or not recording: the modes in which every output sample is written.
  predicate Sounds<RS>(v: Voice<RS>) {
    v.playFlag || !v.recFlag
  }

  lemma SampleKeepsFlags<RS>(k: Kernel<RS>, v: Voice<RS>, buf: seq<real>, x: real, y: real)
    requires Fits(v.sch, buf)
    ensures var v' := VoiceSample(k, v, buf, x, y).0; v'.playFlag == v.playFlag && v'.recFlag == v.recFlag
  {
    InputStageKeeps(v, buf, x);
    hide InputStage, HeadStage, StageNext;
  }

  // The reused local is never read.
  lemma SampleIgnoresLocal<RS>(k: Kernel<RS>, v: Voice<RS>, buf: seq<real>, x: real, y1: real, y2: real)
    requires Fits(v.sch, buf) && Sounds(v)
    ensures VoiceSample(k, v, buf, x, y1) == VoiceSample(k, v, buf, x, y2)
  {
    InputStageKeeps(v, buf, x);
    hide InputStage, Heads.Sample, OutputStage, MixOut;
  }

  lemma {:induction false} SamplesIgnoreLocal<RS>(k: Kernel<RS>, v: Voice<RS>, buf: seq<real>, xs: seq<real>,
                                                  y1: real, y2: real)
    requires Fits(v.sch, buf) && Sounds(v)
    ensures VoiceSamples(k, v, buf, xs, y1) == VoiceSamples(k, v, buf, xs, y2)
  {
    if xs != [] {
      SampleIgnoresLocal(k, v, buf, xs[0], y1, y2);
      VoiceSampleFits(k, v, buf, xs[0], y1);
      hide VoiceSample;
    }
  }

  // ---- a finished pass and a pass switched off ----

  // Same voice up to the switching-off that a block end does.
  ghost predicate SameButEnded<RS>(v: Voice<RS>, e: Voice<RS>) {
    EndBlock(v) == EndBlock(e)
  }

  lemma PokesNothing<RS>(k: Kernel<RS>, w: Rwh<RS>, buf: seq<real>, x: real)
    requires Fits(w, buf) && Done(w)
    ensures PokeHeads(k, w, buf, x) == (w, buf)
  {
  }

  // Switching the pass off commutes with everything a sample does to the head.
  lemma AdvanceEnded<RS>(w: Rwh<RS>)
    requires Sized(w) && Done(w) && (w.active == 0 || w.active == 1)
    ensures Advance(SetOnce(w, false)) == SetOnce(Advance(w), false)
    ensures Done(Advance(w))
  {
    var e := SetOnce(w, false);
    PhasesEnded(w);
    FadesEnded(MovePhases(w));
    DequeueEnded(MoveFades(MovePhases(w)));
    hide MovePhases, MoveFades, Dequeue, SetOnce, Done;
  }

  lemma PhasesEnded<RS>(w: Rwh<RS>)
    requires Done(w)
    ensures MovePhases(SetOnce(w, false)) == SetOnce(MovePhases(w), false)
    ensures Done(MovePhases(w)) && MovePhases(w).active == w.active
  {
    hide UpdatePhase, TakeAction;
    var (h0, a0) := UpdatePhase(w.h0, w.start, w.end, w.loopFlag);
    ActionKeepsMarks(w.(h0 := h0), a0);
    ActionShape(w.(h0 := h0), a0);
    var w1 := TakeAction(w.(h0 := h0), a0);
    var (h1, a1) := UpdatePhase(w1.h1, w1.start, w1.end, w1.loopFlag);
    ActionKeepsMarks(w1.(h1 := h1), a1);
    ActionShape(w1.(h1 := h1), a1);
  }

  lemma ActionKeepsMarks<RS>(w: Rwh<RS>, a: HeadAction)
    ensures TakeAction(SetOnce(w, false), a) == SetOnce(TakeAction(w, a), false)
  {
  }

  lemma FadesEnded<RS>(w: Rwh<RS>)
    requires Done(w)
    ensures MoveFades(SetOnce(w, false)) == SetOnce(MoveFades(w), false)
    ensures Done(MoveFades(w)) && MoveFades(w).active == w.active
  {
    hide UpdateFade;
  }

  lemma DequeueEnded<RS>(w: Rwh<RS>)
    requires Done(w) && Sized(w) && (w.active == 0 || w.active == 1)
    ensures Dequeue(SetOnce(w, false)) == SetOnce(Dequeue(w), false)
    ensures Done(Dequeue(w))
  {
    hide SetState, SetPhase;
  }

  lemma InputEnded<RS>(v: Voice<RS>, x: real)
    requires Done(v.sch) && v.recFlag
    ensures var (v1, hx) := InputStage(v, x);
            InputStage(EndBlock(v), x) == (EndBlock(v1), hx) && Done(v1.sch) && v1.recFlag && v1.playFlag == v.playFlag
            && v1.sch.active == v.sch.active
  {
    hide FadeInc, StageNext, RampUpdate;
  }

  lemma HeadEnded<RS>(k: Kernel<RS>, v: Voice<RS>, buf: seq<real>, x: real, y: real)
    requires Fits(v.sch, buf) && Done(v.sch) && v.recFlag && v.playFlag && (v.sch.active == 0 || v.sch.active == 1)
    ensures var (w, b, o) := HeadStage(k, v, buf, x, y);
            HeadStage(k, EndBlock(v), buf, x, y) == (SetOnce(w, false), b, o) && Done(w)
  {
    var w, e := v.sch, EndBlock(v);
    assert e == v.(recFlag := false, sch := SetOnce(w, false));
    SampleDone(k, w, buf, x);
    MixIgnoresOnce(k, w, buf);
    hide Heads.Sample, MixOut, SetOnce, EndBlock, Fits, Done;
  }

  lemma SampleDone<RS>(k: Kernel<RS>, w: Rwh<RS>, buf: seq<real>, x: real)
    requires Fits(w, buf) && Done(w) && (w.active == 0 || w.active == 1)
    ensures Fits(SetOnce(w, false), buf)
    ensures var (w', b) := Heads.Sample(k, w, buf, x, true);
            Heads.Sample(k, SetOnce(w, false), buf, x, false) == (SetOnce(w', false), b) && Done(w')
  {
    assert Fits(SetOnce(w, false), buf);
    PokesNothing(k, w, buf, x);
    AdvanceEnded(w);
    hide PokeHeads, Advance, SetOnce, Done, Fits;
  }

  lemma MixIgnoresOnce<RS>(k: Kernel<RS>, w: Rwh<RS>, buf: seq<real>)
    requires |buf| > 0
    ensures MixOut(k, SetOnce(w, false), buf) == MixOut(k, w, buf)
  {
    hide Peek;
  }

  // One sample of a voice whose pass is done, and of the same voice switched off.
  lemma SampleEnded<RS>(k: Kernel<RS>, v: Voice<RS>, buf: seq<real>, x: real, y: real)
    requires Fits(v.sch, buf) && VoiceInv(v) && Sounds(v)
    ensures var (v1, b1, y1, o1) := VoiceSample(k, v, buf, x, y);
            var (e1, eb, ey, eo) := VoiceSample(k, EndBlock(v), buf, x, y);
            SameButEnded(v1, e1) && eb == b1 && ey == y1 && eo == o1
  {
    if v.recFlag && v.sch.onceDone {
      assert Done(v.sch) && v.playFlag && (v.sch.active == 0 || v.sch.active == 1);
      InputEnded(v, x);
      InputStageKeeps(v, buf, x);
      var (v1, hx) := InputStage(v, x);
      HeadEnded(k, v1, buf, hx, y);
      var (w, b, o) := HeadStage(k, v1, buf, hx, y);
      hide InputStage, HeadStage, StageNext, VoiceInv;
    }
  }

  // ---- whole blocks ----

  lemma EndBlockKeeps<RS>(v: Voice<RS>, buf: seq<real>)
    requires Fits(v.sch, buf) && VoiceInv(v) && Sounds(v)
    ensures Fits(EndBlock(v).sch, buf) && VoiceInv(EndBlock(v)) && Sounds(EndBlock(v))
    ensures EndBlock(EndBlock(v)) == EndBlock(v)
  {
    hide SubInv;
  }

  // What a sample keeps of the assumptions below.
  lemma SampleFine<RS>(k: Kernel<RS>, v: Voice<RS>, buf: seq<real>, x: real, y: real)
    requires Fits(v.sch, buf) && VoiceInv(v) && Sounds(v)
    ensures var (v', buf', _, _) := VoiceSample(k, v, buf, x, y);
            Fits(v'.sch, buf') && VoiceInv(v') && Sounds(v')
  {
    VoiceSampleFits(k, v, buf, x, y);
    SampleKeeps(k, v, buf, x, y);
    SampleKeepsFlags(k, v, buf, x, y);
    hide VoiceSample, VoiceInv, Fits;
  }

  lemma {:induction false} SamplesFine<RS>(k: Kernel<RS>, v: Voice<RS>, buf: seq<real>, xs: seq<real>, y: real)
    requires Fits(v.sch, buf) && VoiceInv(v) && Sounds(v)
    ensures var (v', buf', outs) := VoiceSamples(k, v, buf, xs, y);
            Fits(v'.sch, buf') && VoiceInv(v') && Sounds(v') && |outs| == |xs| && |buf'| == |buf|
    decreases |xs|
  {
    if xs != [] {
      SampleFine(k, v, buf, xs[0], y);
      VoiceSampleFits(k, v, buf, xs[0], y);
      var (v1, buf1, y1, out) := VoiceSample(k, v, buf, xs[0], y);
      SamplesFine(k, v1, buf1, xs[1..], y1);
      hide VoiceSample, VoiceInv, Fits, Sounds;
    }
  }

  // Voices alike up to a switched-off pass stay alike and sound alike.
  lemma {:induction false} SamplesEnded<RS>(k: Kernel<RS>, v: Voice<RS>, e: Voice<RS>, buf: seq<real>, xs: seq<real>,
                                            y: real)
    requires Fits(v.sch, buf) && VoiceInv(v) && Sounds(v)
    requires Fits(e.sch, buf) && VoiceInv(e) && Sounds(e) && SameButEnded(v, e)
    ensures var (v1, b1, o1) := VoiceSamples(k, v, buf, xs, y);
            var (e1, eb, eo) := VoiceSamples(k, e, buf, xs, y);
            SameButEnded(v1, e1) && eb == b1 && eo == o1
    decreases |xs|
  {
    if xs != [] {
      EndBlockKeeps(v, buf);
      SampleEnded(k, v, buf, xs[0], y);
      SampleEnded(k, e, buf, xs[0], y);
      SampleFine(k, v, buf, xs[0], y);
      SampleFine(k, e, buf, xs[0], y);
      var (v1, b1, y1, o1) := VoiceSample(k, v, buf, xs[0], y);
      var (e1, eb, ey, eo) := VoiceSample(k, e, buf, xs[0], y);
      SamplesEnded(k, v1, e1, b1, xs[1..], y1);
      hide VoiceSample, VoiceInv, Fits, Sounds, EndBlock;
    }
  }

  lemma {:induction false} SamplesSplit<RS>(k: Kernel<RS>, v: Voice<RS>, buf: seq<real>, xs: seq<real>, ys: seq<real>,
                                            y: real)
    requires Fits(v.sch, buf) && VoiceInv(v) && Sounds(v)
    ensures var (v1, b1, o1) := VoiceSamples(k, v, buf, xs, y);
            && Fits(v1.sch, b1)
            && VoiceSamples(k, v, buf, xs + ys, y)
               == (var (v2, b2, o2) := VoiceSamples(k, v1, b1, ys, y); (v2, b2, o1 + o2))
    decreases |xs|
  {
    if xs == [] {
      assert xs + ys == ys;
      assert [] + VoiceSamples(k, v, buf, ys, y).2 == VoiceSamples(k, v, buf, ys, y).2;
    } else {
      assert (xs + ys)[0] == xs[0] && (xs + ys)[1..] == xs[1..] + ys;
      SampleFine(k, v, buf, xs[0], y);
      var (v1, b1, y1, o1) := VoiceSample(k, v, buf, xs[0], y);
      SamplesSplit(k, v1, b1, xs[1..], ys, y1);
      SamplesFine(k, v1, b1, xs[1..], y1);
      var (v2, b2, o2) := VoiceSamples(k, v1, b1, xs[1..], y1);
      hide VoiceSample, VoiceInv, Fits, Sounds;
      SamplesIgnoreLocal(k, v2, b2, ys, y1, y);
      assert [o1] + (o2 + VoiceSamples(k, v2, b2, ys, y).2) == [o1] + o2 + VoiceSamples(k, v2, b2, ys, y).2;
    }
  }

  // A block of `xs + ys` is a block of `xs` and then a block of `ys`, whatever the
  // reused local holds at the start of each.
  lemma BlocksCompose<RS>(k: Kernel<RS>, v: Voice<RS>, buf: seq<real>, xs: seq<real>, ys: seq<real>, y: real,
                          y1: real, y2: real)
    requires Fits(v.sch, buf) && VoiceInv(v) && Sounds(v)
    ensures var (v1, b1, o1) := VoiceBlock(k, v, buf, xs, y1);
            && Fits(v1.sch, b1) && VoiceInv(v1) && Sounds(v1)
            && VoiceBlock(k, v, buf, xs + ys, y)
               == (var (v2, b2, o2) := VoiceBlock(k, v1, b1, ys, y2); (v2, b2, o1 + o2))
  {
    SamplesIgnoreLocal(k, v, buf, xs, y1, y);
    SamplesSplit(k, v, buf, xs, ys, y);
    SamplesFine(k, v, buf, xs, y);
    var (m, b1, o1) := VoiceSamples(k, v, buf, xs, y);
    EndBlockKeeps(m, b1);
    SamplesEnded(k, m, EndBlock(m), b1, ys, y);
    SamplesIgnoreLocal(k, EndBlock(m), b1, ys, y, y2);
    hide VoiceSamples, VoiceInv, Fits, Sounds, EndBlock;
  }
}
