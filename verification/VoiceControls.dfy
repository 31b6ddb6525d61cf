/**
 What the controls of a voice do to what is heard and written later: levels, loop points,
 pausing, stopping, and a cut asked for in mid-fade.
 */
module VoiceControls {
  import opened Heads
  import opened Voices
  import opened HeadSafety
  import opened LoopBound
  import opened HeadOutput
  import opened PlayOnce

  // ---- levels ----

  lemma {:induction false} RampEarlier(r: Ramp, n: nat)
    requires n > 0
    ensures RampAfter(r, n) == RampAfter(RampUpdate(r), n - 1)
  {
    hide RampUpdate;
    if n > 1 { RampEarlier(r, n - 1); }
  }

  // The head has what the three smoothers gave last.
  predicate Levelled<RS>(v: Voice<RS>) {
    v.sch.rate == v.rateRamp.y0 && v.sch.pre == v.preRamp.y0 && v.sch.rec == v.recRamp.y0
  }

  lemma SampleLevels<RS>(k: Kernel<RS>, v: Voice<RS>, buf: seq<real>, x: real, y: real)
    requires Fits(v.sch, buf)
    ensures var v' := VoiceSample(k, v, buf, x, y).0;
            && v'.rateRamp == RampUpdate(v.rateRamp) && v'.preRamp == RampUpdate(v.preRamp)
            && v'.recRamp == RampUpdate(v.recRamp) && Levelled(v')
  {
    InputStageKeeps(v, buf, x);
    var (v1, hx) := InputStage(v, x);
    InputLevels(v, x);
    HeadLevels(k, v1.sch, buf, hx, v1.recFlag);
    hide InputStage, Heads.Sample, MixOut, StageNext, RampUpdate, Fits;
  }

  lemma InputLevels<RS>(v: Voice<RS>, x: real)
    ensures var v1 := InputStage(v, x).0;
            && v1.rateRamp == RampUpdate(v.rateRamp) && v1.preRamp == RampUpdate(v.preRamp)
            && v1.recRamp == RampUpdate(v.recRamp) && Levelled(v1)
  {
    hide StageNext, RampUpdate, FadeInc;
  }

  lemma HeadLevels<RS>(k: Kernel<RS>, w: Rwh<RS>, buf: seq<real>, x: real, write: bool)
    requires Fits(w, buf)
    ensures var w' := Heads.Sample(k, w, buf, x, write).0; w'.rate == w.rate && w'.pre == w.pre && w'.rec == w.rec
  {
    var w1 := if write then PokeHeads(k, w, buf, x).0 else w;
    if write { PokesMoveNothing(k, w, buf, x); PokesLevels(k, w, buf, x); }
    hide PokeHeads;
    AdvanceLevels(w1);
    hide Advance;
  }

  lemma PokesLevels<RS>(k: Kernel<RS>, w: Rwh<RS>, buf: seq<real>, x: real)
    requires Fits(w, buf)
    ensures var w' := PokeHeads(k, w, buf, x).0; w'.pre == w.pre && w'.rec == w.rec
  {
    hide Poke;
  }

  lemma AdvanceLevels<RS>(w: Rwh<RS>)
    requires Sized(w)
    ensures Advance(w).rate == w.rate && Advance(w).pre == w.pre && Advance(w).rec == w.rec
  {
    PhasesShape(w);
    var m := MoveFades(MovePhases(w));
    CutLevels(m, m.queued);
    hide MovePhases, UpdateFade, CutToPhase;
  }

  lemma CutLevels<RS>(w: Rwh<RS>, pos: real)
    requires Sized(w)
    ensures var w' := CutToPhase(w, pos); w'.rate == w.rate && w'.pre == w.pre && w'.rec == w.rec
  {
    MarksLevels(w, Other(w.active));
    hide SetState, SetPhase, OnceAtCut, Head;
  }

  lemma MarksLevels<RS>(w: Rwh<RS>, newActive: nat)
    ensures var w' := OnceAtCut(w, newActive); w'.rate == w.rate && w'.pre == w.pre && w'.rec == w.rec
  {
  }

  lemma {:induction false} SamplesLevels<RS>(k: Kernel<RS>, v: Voice<RS>, buf: seq<real>, xs: seq<real>, y: real)
    requires Fits(v.sch, buf) && xs != []
    ensures var v' := VoiceSamples(k, v, buf, xs, y).0;
            && v'.rateRamp == RampAfter(v.rateRamp, |xs|) && v'.preRamp == RampAfter(v.preRamp, |xs|)
            && v'.recRamp == RampAfter(v.recRamp, |xs|) && Levelled(v')
    decreases |xs|
  {
    SampleLevels(k, v, buf, xs[0], y);
    VoiceSampleFits(k, v, buf, xs[0], y);
    var (v1, buf1, y1, _) := VoiceSample(k, v, buf, xs[0], y);
    RampEarlier(v.rateRamp, |xs|);
    RampEarlier(v.preRamp, |xs|);
    RampEarlier(v.recRamp, |xs|);
    if |xs| > 1 {
      SamplesLevels(k, v1, buf1, xs[1..], y1);
    }
    hide VoiceSample, Fits, RampUpdate;
  }

  // How far a level still is from its target after n samples.
  predicate Nears(level: real, was: Ramp, target: real, n: nat) {
    level - target == (was.y0 - target) * Power(was.b, n)
  }

  lemma NearsFrom(r: Ramp, target: real, n: nat)
    ensures Nears(RampAfter(r.(x0 := target), n).y0, r, target, n)
  {
    RampNears(r.(x0 := target), n);
  }

  // What a level is to go to once `op` has been done.
  function RateTarget<RS>(v: Voice<RS>, op: Op<RS>): real {
    if op.OpRate? then op.target else v.rateRamp.x0
  }

  function PreTarget<RS>(v: Voice<RS>, op: Op<RS>): real {
    if op.OpPreLevel? then op.target else v.preRamp.x0
  }

  function RecTarget<RS>(v: Voice<RS>, op: Op<RS>): real {
    if op.OpRecLevel? then op.target else v.recRamp.x0
  }

  lemma Retargeted<RS>(k: Kernel<RS>, v: Voice<RS>, buf: seq<real>, op: Op<RS>)
    requires Fits(v.sch, buf) && (op.OpRate? || op.OpPreLevel? || op.OpRecLevel?)
    ensures var v1 := Control(k, v, op);
            && Fits(v1.sch, buf) && v1.rateRamp == v.rateRamp.(x0 := RateTarget(v, op))
            && v1.preRamp == v.preRamp.(x0 := PreTarget(v, op)) && v1.recRamp == v.recRamp.(x0 := RecTarget(v, op))
  {
  }

  // The rate or a level is set: over the samples that follow it goes to what was asked for
  // and the other two go on to what was asked for before.
  lemma LevelsNear<RS>(k: Kernel<RS>, v: Voice<RS>, buf: seq<real>, op: Op<RS>, xs: seq<real>, y: real)
    requires Fits(v.sch, buf) && xs != [] && (op.OpRate? || op.OpPreLevel? || op.OpRecLevel?)
    ensures Fits(Control(k, v, op).sch, buf)
    ensures var w := VoiceSamples(k, Control(k, v, op), buf, xs, y).0.sch;
            && Nears(w.rate, v.rateRamp, RateTarget(v, op), |xs|)
            && Nears(w.pre, v.preRamp, PreTarget(v, op), |xs|)
            && Nears(w.rec, v.recRamp, RecTarget(v, op), |xs|)
  {
    assert Sized(v.sch);
    hide Control, VoiceSamples, RampAfter, Fits, Nears, RateTarget, PreTarget, RecTarget;
    Retargeted(k, v, buf, op);
    SamplesLevels(k, Control(k, v, op), buf, xs, y);
    NearsFrom(v.rateRamp, RateTarget(v, op), |xs|);
    NearsFrom(v.preRamp, PreTarget(v, op), |xs|);
    NearsFrom(v.recRamp, RecTarget(v, op), |xs|);
  }

  // ---- loop points ----

  // A voice reset and given a loop from a to b seconds, a fade time, a rate and play.
  function SetUp<RS>(k: Kernel<RS>, s: World<RS>, pre: Stage, post: Stage, a: real, b: real, fade: real, rate: real)
    : (r: World<RS>)
    requires Ready(s)
    ensures Ready(r)
  {
    var s1 := Apply(k, Apply(k, s, Do(OpReset(pre, post))), Do(OpLoopStart(a)));
    var s2 := Apply(k, Apply(k, s1, Do(OpLoopEnd(b))), Do(OpFadeTime(fade)));
    Apply(k, Apply(k, Apply(k, s2, Do(OpLoop(true))), Do(OpRate(rate))), Do(OpPlay(true)))
  }

  lemma SetUpIs<RS>(k: Kernel<RS>, s: World<RS>, pre: Stage, post: Stage, a: real, b: real, fade: real, rate: real)
    requires Ready(s)
    ensures var r := SetUp(k, s, pre, post, a, b, fade, rate).v;
            var w, sr := r.sch, s.v.sch.sr;
            && VoiceInv(r) && r.playFlag && w.loopFlag && !w.queuedFlag && w.fadeTime == fade && w.sr == sr
            && w.start == InFrames(a, sr) && w.end == InFrames(b, sr)
            && w.active == 0 && w.h0.state.Playing? && w.h1.state.Stopped?
            && r.rateRamp == Ramp(s.v.rateRamp.b, rate, 1.0)
  {
    hide InFrames, Ready;
  }

  // After a cut into the loop it loops there: every run that stays in the loop keeps the
  // active head within its bound.
  lemma LoopFromReset<RS>(k: Kernel<RS>, s: World<RS>, pre: Stage, post: Stage,
                          a: real, b: real, fade: real, rate: real, to: real)
    requires Ready(s) && 0.0 <= s.v.rateRamp.b <= 1.0 && rate > 0.0
    requires var sr := s.v.sch.sr; InFrames(a, sr) <= InFrames(to, sr) <= InFrames(b, sr)
    ensures var sr := s.v.sch.sr;
            var r := Apply(k, SetUp(k, s, pre, post, a, b, fade, rate), Do(OpCut(to))).v;
            && Looping(r, Loop(InFrames(a, sr), InFrames(b, sr), fade, sr, Max(1.0, rate)), InFrames(to, sr))
            && Head(r.sch, r.sch.active).phase == InFrames(to, sr)
  {
    SetUpIs(k, s, pre, post, a, b, fade, rate);
    var r, sr := SetUp(k, s, pre, post, a, b, fade, rate), s.v.sch.sr;
    var l := Loop(InFrames(a, sr), InFrames(b, sr), fade, sr, Max(1.0, rate));
    hide SetUp, InFrames, VoiceInv, LoopInv, CutTo, Apply;
    CutStartsVoice(k, r, l, to);
  }

  // After a change of sample rate seconds count at the new one.
  lemma SecondsAtRate<RS>(k: Kernel<RS>, s: World<RS>, hz: real, pre: Stage, post: Stage,
                          rateB: real, preB: real, recB: real, sec: real)
    requires Ready(s) && !Fading(Head(s.v.sch, s.v.sch.active).state) && (s.v.sch.active == 0 || s.v.sch.active == 1)
    ensures var s1 := Apply(k, s, Do(OpSampleRate(hz, pre, post, rateB, preB, recB)));
            && Apply(k, s1, Do(OpLoopStart(sec))).v.sch.start == sec * hz
            && Apply(k, s1, Do(OpLoopEnd(sec))).v.sch.end == sec * hz
            && var w := Apply(k, s1, Do(OpCut(sec))).v.sch;
               w.active == Other(s.v.sch.active) && Head(w, w.active).phase == sec * hz
  {
    hide Ready;
  }

  // ---- pausing and stopping ----

  // Play switched off and on again: both heads stop, and the active one alone plays on from
  // where it was.
  lemma PauseResumes<RS>(k: Kernel<RS>, v: Voice<RS>)
    requires Sized(v.sch) && v.playFlag && !v.recFlag && (v.sch.active == 0 || v.sch.active == 1)
    ensures var off := Control(k, v, OpPlay(false));
            && Sized(off.sch) && !off.playFlag && off.sch.h0.state.Stopped? && off.sch.h1.state.Stopped?
            && var on := Control(k, off, OpPlay(true));
               && on.playFlag && Alone(on.sch, v.sch.active)
               && on.sch.h0.phase == v.sch.h0.phase && on.sch.h1.phase == v.sch.h1.phase
  {
  }

  // Stopped, with no cut waiting.
  predicate AtRest<RS>(v: Voice<RS>) {
    v.sch.h0.state.Stopped? && v.sch.h1.state.Stopped? && !v.sch.queuedFlag
  }

  lemma SampleRests<RS>(k: Kernel<RS>, v: Voice<RS>, buf: seq<real>, x: real, y: real)
    requires Fits(v.sch, buf) && v.playFlag && AtRest(v)
    ensures AtRest(VoiceSample(k, v, buf, x, y).0) && VoiceSample(k, v, buf, x, y).0.playFlag
  {
    SampleTicks(k, v, buf, x, y);
    FitsSized(v.sch, buf);
    TickRests(v.sch, RampUpdate(v.rateRamp).y0);
    hide VoiceSample, Ticked, RampUpdate, Fits;
  }

  lemma FitsSized<RS>(w: Rwh<RS>, buf: seq<real>)
    requires Fits(w, buf)
    ensures Sized(w)
  {
  }

  lemma TickRests<RS>(w: Rwh<RS>, rate: real)
    requires Sized(w) && w.h0.state.Stopped? && w.h1.state.Stopped? && !w.queuedFlag
    ensures var w' := Ticked(w, rate); w'.h0.state.Stopped? && w'.h1.state.Stopped? && !w'.queuedFlag
  {
    hide FadeInc;
  }

  lemma StopRests<RS>(k: Kernel<RS>, v: Voice<RS>)
    requires Sized(v.sch) && !v.sch.queuedFlag
    ensures var r := Control(k, v, OpStop);
            && AtRest(r) && r.playFlag == v.playFlag && r.recFlag == v.recFlag
            && r.post == v.post && r.postDry == v.postDry
  {
  }

  // After a stop with no cut waiting a playing voice is silent, through blocks of any
  // length, until it is cut or played again.
  lemma {:induction false} RestIsSilent<RS>(k: Kernel<RS>, v: Voice<RS>, buf: seq<real>, xs: seq<real>, y: real)
    requires Fits(v.sch, buf) && v.playFlag && AtRest(v) && VoiceInv(v) && FadeGains(k) && Unfiltered(v)
    ensures var (v', _, outs) := VoiceSamples(k, v, buf, xs, y);
            AtRest(v') && |outs| == |xs| && forall t :: 0 <= t < |xs| ==> outs[t] == 0.0
    decreases |xs|
  {
    hide *;
    if xs != [] {
      SamplesFirst(k, v, buf, xs, y);
      RestNext(k, v, buf, xs[0], y);
      var (v1, buf1, y1, _) := VoiceSample(k, v, buf, xs[0], y);
      RestIsSilent(k, v1, buf1, xs[1..], y1);
    } else {
      NoSamples(k, v, buf, y);
    }
  }

  lemma NoSamples<RS>(k: Kernel<RS>, v: Voice<RS>, buf: seq<real>, y: real)
    requires Fits(v.sch, buf)
    ensures VoiceSamples(k, v, buf, [], y) == (v, buf, [])
  {
  }

  lemma SamplesFirst<RS>(k: Kernel<RS>, v: Voice<RS>, buf: seq<real>, xs: seq<real>, y: real)
    requires Fits(v.sch, buf) && xs != []
    ensures var (v1, buf1, y1, out) := VoiceSample(k, v, buf, xs[0], y);
            && Fits(v1.sch, buf1)
            && VoiceSamples(k, v, buf, xs, y).0 == VoiceSamples(k, v1, buf1, xs[1..], y1).0
            && VoiceSamples(k, v, buf, xs, y).2 == [out] + VoiceSamples(k, v1, buf1, xs[1..], y1).2
  {
    VoiceSampleFits(k, v, buf, xs[0], y);
    hide VoiceSample, Fits;
  }

  lemma RestNext<RS>(k: Kernel<RS>, v: Voice<RS>, buf: seq<real>, x: real, y: real)
    requires Fits(v.sch, buf) && v.playFlag && AtRest(v) && VoiceInv(v) && FadeGains(k) && Unfiltered(v)
    ensures var (v1, buf1, _, out) := VoiceSample(k, v, buf, x, y);
            Fits(v1.sch, buf1) && v1.playFlag && AtRest(v1) && VoiceInv(v1) && Unfiltered(v1) && out == 0.0
  {
    hide VoiceSample, Fits, AtRest, VoiceInv, FadeGains, Unfiltered;
    SampleRests(k, v, buf, x, y);
    SampleKeeps(k, v, buf, x, y);
    UnfilteredOut(k, v, buf, x, y);
    VoiceSampleFits(k, v, buf, x, y);
    RestHeard(k, v, buf, x, y);
  }

  lemma RestHeard<RS>(k: Kernel<RS>, v: Voice<RS>, buf: seq<real>, x: real, y: real)
    requires Fits(v.sch, buf) && v.playFlag && AtRest(v) && VoiceInv(v) && FadeGains(k)
    ensures VoiceSample(k, v, buf, x, y).2 == 0.0
  {
    StoppedIsSilent(k, v, buf, x, y);
    hide VoiceSample, Fits, VoiceInv;
  }

  // ---- a cut in mid-fade ----

  // No head runs out of the loop at this sample.
  predicate Inside<RS>(w: Rwh<RS>, rate: real) {
    && (w.h0.active ==> !OutOfLoop(w.h0.phase + rate, w.start, w.end))
    && (w.h1.active ==> !OutOfLoop(w.h1.phase + rate, w.start, w.end))
  }

  // A cut asked for while the active head fades waits, and is taken in the very sample in
  // which the fade is over.
  lemma CutIsKept<RS>(w: Rwh<RS>, pos: real)
    requires Sized(w) && Fading(Head(w, w.active).state)
    ensures CutTo(w, pos) == w.(queued := pos, queuedFlag := true)
  {
  }

  lemma WaitingCut<RS>(w: Rwh<RS>, rate: real)
    requires Sized(w) && w.queuedFlag && (w.active == 0 || w.active == 1) && Head(w, w.active).state.FadeIn?
    requires Inside(w, rate)
    ensures var w', a := Ticked(w, rate), Head(w, w.active);
            if a.fade + FadeInc(rate, w.fadeTime, w.sr) <= 1.0 then
              w'.queuedFlag && w'.queued == w.queued && w'.active == w.active && Head(w', w.active).state.FadeIn?
            else
              && !w'.queuedFlag && w'.active == Other(w.active) && Head(w', w'.active).phase == w.queued
              && Head(w', w'.active).state.FadeIn? && Head(w', w.active).state.FadeOut?
  {
    var w1 := SetHeadRate(w, rate);
    RatesSet(w, rate);
    hide SetHeadRate;
    NothingQueued(w1);
    WaitingFades(w1);
    WaitingTaken(MoveFades(MovePhases(w1)));
    hide MovePhases, MoveFades, Dequeue;
  }

  lemma RatesSet<RS>(w: Rwh<RS>, rate: real)
    ensures var w1 := SetHeadRate(w, rate);
            && w1 == w.(rate := rate, fadeInc := w1.fadeInc, h0 := w1.h0, h1 := w1.h1)
            && w1.fadeInc == FadeInc(rate, w.fadeTime, w.sr)
            && w1.h0 == w.h0.(rate := rate, incDir := w1.h0.incDir)
            && w1.h1 == w.h1.(rate := rate, incDir := w1.h1.incDir)
  {
    hide FadeInc;
  }

  lemma NothingQueued<RS>(w: Rwh<RS>)
    requires (w.h0.active ==> !OutOfLoop(w.h0.phase + w.h0.rate, w.start, w.end))
    requires (w.h1.active ==> !OutOfLoop(w.h1.phase + w.h1.rate, w.start, w.end))
    ensures var m := MovePhases(w);
            && m == w.(h0 := m.h0, h1 := m.h1) && m.h0.state == w.h0.state && m.h1.state == w.h1.state
            && m.h0.fade == w.h0.fade && m.h1.fade == w.h1.fade
            && m.h0.frames == w.h0.frames && m.h1.frames == w.h1.frames
  {
  }

  // The fade of an arriving head goes on, or is over.
  lemma WaitingFades<RS>(w: Rwh<RS>)
    requires (w.active == 0 || w.active == 1) && Head(w, w.active).state.FadeIn?
    ensures var (m, a) := (MoveFades(MovePhases(w)), Head(MovePhases(w), w.active));
            && m == MovePhases(w).(h0 := m.h0, h1 := m.h1)
            && (MovePhases(w).active == w.active && a.state.FadeIn? ==>
                  Head(m, w.active).state == if a.fade + m.fadeInc <= 1.0 then FadeIn else Playing)
  {
    hide MovePhases;
  }

  lemma WaitingTaken<RS>(w: Rwh<RS>)
    requires Sized(w) && w.queuedFlag && (w.active == 0 || w.active == 1)
    requires Head(w, w.active).state.FadeIn? || Head(w, w.active).state.Playing?
    ensures var w' := Dequeue(w);
            if Head(w, w.active).state.FadeIn? then w' == w
            else
              && !w'.queuedFlag && w'.active == Other(w.active) && Head(w', w'.active).phase == w.queued
              && Head(w', w'.active).state.FadeIn? && Head(w', w.active).state.FadeOut?
  {
  }
}
