/**
 The crossfade itself: while loop and play stay on, the two heads' fades sum to
 one.
 */
module Crossfade {
  import opened Heads
  import opened Voices
  import opened HeadSafety

  // ---- conservation ----

  // Fully arrived, or one head arriving exactly as fast as the other leaves.
  predicate Paired<RS>(w: Rwh<RS>) {
    var a, o := Head(w, w.active), Head(w, Other(w.active));
    || (a.state.Playing? && o.state.Stopped?)
    || (a.state.FadeIn? && o.state.FadeOut? && a.fade + o.fade == 1.0)
  }

  predicate PairInv<RS>(v: Voice<RS>) {
    VoiceInv(v) && Paired(v.sch) && v.sch.loopFlag && v.playFlag
  }

  // Operations under which loop and play stay on and nothing is stopped.
  predicate KeepsLooping<RS>(step: Step<RS>) {
    match step
    case Do(OpPlay(on)) => on
    case Do(OpLoop(on)) => on
    case Do(OpStop) => false
    case Do(OpReset(_, _)) => false
    case _ => true
  }

  lemma PhasesPaired<RS>(w: Rwh<RS>)
    requires Paired(w) && w.loopFlag
    ensures Paired(MovePhases(w))
  {
    LoopingPhase(w.h0, w.start, w.end);
    LoopingPhase(w.h1, w.start, w.end);
    PhasesShape(w);
    hide UpdatePhase, MovePhases;
  }

  lemma LoopingPhase<RS>(h: Sub<RS>, start: real, end: real)
    ensures var h' := UpdatePhase(h, start, end, true).0; h'.state == h.state && h'.fade == h.fade
  {
  }

  // Both heads step by the same increment, so they arrive together.
  lemma FadesPaired<RS>(w: Rwh<RS>)
    requires Paired(w) && HeadInv(w)
    ensures Paired(MoveFades(w))
    ensures var a, o := Head(w, w.active), Head(w, Other(w.active));
            var a', o' := Head(MoveFades(w), w.active), Head(MoveFades(w), Other(w.active));
            a.state.FadeIn? ==> (a'.state.Playing? <==> o'.state.Stopped?)
  {
  }

  lemma CutPaired<RS>(w: Rwh<RS>, pos: real)
    requires Paired(w) && HeadInv(w) && Sized(w)
    ensures Paired(CutToPhase(w, pos))
  {
  }

  lemma AdvancePaired<RS>(w: Rwh<RS>)
    requires Paired(w) && HeadInv(w) && Sized(w) && w.loopFlag
    ensures Paired(Advance(w)) && Advance(w).loopFlag
  {
    PhasesKeep(w);
    PhasesPaired(w);
    var w1 := MovePhases(w);
    assert w1.loopFlag;
    FadesKeep(w1);
    FadesPaired(w1);
    var w2 := MoveFades(w1);
    CutPaired(w2, w2.queued);
    CutLoop(w2, w2.queued);
    hide MovePhases, MoveFades, CutToPhase, HeadInv;
  }

  lemma CutLoop<RS>(w: Rwh<RS>, pos: real)
    requires Sized(w)
    ensures CutToPhase(w, pos).loopFlag == w.loopFlag
  {
  }

  lemma PokePaired<RS>(k: Kernel<RS>, w: Rwh<RS>, buf: seq<real>, x: real)
    requires Fits(w, buf)
    ensures var w' := PokeHeads(k, w, buf, x).0;
            && w'.h0.state == w.h0.state && w'.h1.state == w.h1.state && w'.active == w.active
            && w'.h0.fade == w.h0.fade && w'.h1.fade == w.h1.fade && w'.loopFlag == w.loopFlag
  {
    hide PokeHead;
    PokeHeadPaired(k, w, buf, w.onceHead, x);
    PokeHeadPaired(k, w, buf, 0, x);
    var (w1, buf1) := PokeHead(k, w, buf, 0, x);
    PokeHeadPaired(k, w1, buf1, 1, x);
  }

  lemma PokeHeadPaired<RS>(k: Kernel<RS>, w: Rwh<RS>, buf: seq<real>, i: int, x: real)
    requires Fits(w, buf)
    ensures var w' := PokeHead(k, w, buf, i, x).0;
            && w'.h0.state == w.h0.state && w'.h1.state == w.h1.state && w'.active == w.active
            && w'.h0.fade == w.h0.fade && w'.h1.fade == w.h1.fade && w'.loopFlag == w.loopFlag
  {
    hide Write, Clipped;
  }

  lemma SamplePaired<RS>(k: Kernel<RS>, v: Voice<RS>, buf: seq<real>, x: real, y: real)
    requires PairInv(v) && Fits(v.sch, buf)
    ensures PairInv(VoiceSample(k, v, buf, x, y).0)
  {
    InputStageKeeps(v, buf, x);
    InputStageHead(v, x);
    SampleKeeps(k, v, buf, x, y);
    InputStagePaired(v, x);
    var (v1, hx) := InputStage(v, x);
    hide InputStage, MixOut, HeadInv, StageNext;
    HeadSamplePaired(k, v1.sch, buf, hx, v.recFlag);
    hide Heads.Sample, Paired;
  }

  lemma InputStagePaired<RS>(v: Voice<RS>, x: real)
    requires Paired(v.sch)
    ensures Paired(InputStage(v, x).0.sch) && InputStage(v, x).0.sch.loopFlag == v.sch.loopFlag
  {
    hide StageNext, RampUpdate, FadeInc;
  }

  lemma HeadSamplePaired<RS>(k: Kernel<RS>, w: Rwh<RS>, buf: seq<real>, x: real, write: bool)
    requires Paired(w) && HeadInv(w) && Fits(w, buf) && w.loopFlag
    ensures var w' := Heads.Sample(k, w, buf, x, write).0; Paired(w') && w'.loopFlag
  {
    var (w1, buf1) := if write then PokeHeads(k, w, buf, x) else (w, buf);
    if write { PokesKeep(k, w, buf, x); PokePaired(k, w, buf, x); }
    hide PokeHeads, HeadInv;
    AdvancePaired(w1);
  }

  lemma ControlPaired<RS>(k: Kernel<RS>, v: Voice<RS>, op: Op<RS>)
    requires PairInv(v) && Sized(v.sch) && KeepsLooping(Do(op))
    ensures PairInv(Control(k, v, op))
  {
    ControlKeeps(k, v, op);
    hide HeadInv, SubInv, CutToPhase, ResetTo;
    match op
    case OpCut(sec) => CutPaired(v.sch, InFrames(sec, v.sch.sr)); CutLoop(v.sch, InFrames(sec, v.sch.sr));
    case _ =>
  }

  lemma StepPaired<RS>(k: Kernel<RS>, s: World<RS>, step: Step<RS>)
    requires Ready(s) && PairInv(s.v) && KeepsLooping(step)
    ensures PairInv(Apply(k, s, step).v)
  {
    match step
    case Do(op) => ControlPaired(k, s.v, op); hide Control;
    case OneSample(x, y) => SamplePaired(k, s.v, s.buf, x, y); hide VoiceSample;
    case Finish => hide SubInv;
  }

  // From a head fully faded in, through any samples at any rates, cuts and other
  // operations that keep loop and play on: the fades sum to one, and the arriving
  // head is playing exactly when the leaving one has stopped.
  lemma {:induction false} FadesSumToOne<RS>(k: Kernel<RS>, s: World<RS>, steps: seq<Step<RS>>)
    requires Ready(s) && PairInv(s.v)
    requires forall step | step in steps :: KeepsLooping(step)
    ensures var w := RunSteps(k, s, steps).v.sch;
            && PairInv(RunSteps(k, s, steps).v)
            && w.h0.fade + w.h1.fade == 1.0
            && (Head(w, w.active).state.Playing? <==> Head(w, Other(w.active)).state.Stopped?)
    decreases |steps|
  {
    if steps != [] {
      StepPaired(k, s, steps[0]);
      FadesSumToOne(k, Apply(k, s, steps[0]), steps[1..]);
    }
  }
}
