/**
 What every sequence of control operations, samples and block ends keeps: the
 inactive head is never fading in or playing, fades match states, and a one-shot
 recording is written by one head during one activation.
 */
module HeadSafety {
  import opened Heads
  import opened Voices

  // ---- runs of one voice, one sample or operation at a time ----

  datatype Step<RS> = Do(op: Op<RS>) | OneSample(x: real, y: real) | Finish

  datatype World<RS> = World(v: Voice<RS>, buf: seq<real>)

  predicate Ready<RS>(s: World<RS>) {
    Fits(s.v.sch, s.buf)
  }

  function Apply<RS>(k: Kernel<RS>, s: World<RS>, step: Step<RS>): (r: World<RS>)
    requires Ready(s)
    ensures Ready(r)
  {
    match step
    case Do(op) => ControlFits(k, s.v, s.buf, op); World(Control(k, s.v, op), s.buf)
    case OneSample(x, y) =>
      VoiceSampleFits(k, s.v, s.buf, x, y);
      var (v, buf, _, _) := VoiceSample(k, s.v, s.buf, x, y); World(v, buf)
    case Finish => World(EndBlock(s.v), s.buf)
  }

  function RunSteps<RS>(k: Kernel<RS>, s: World<RS>, steps: seq<Step<RS>>): (r: World<RS>)
    requires Ready(s)
    ensures Ready(r)
    decreases |steps|
  {
    if steps == [] then s else RunSteps(k, Apply(k, s, steps[0]), steps[1..])
  }

  // ---- the invariant ----

  predicate SubInv<RS>(h: Sub<RS>) {
    && (h.state.Stopped? ==> h.fade == 0.0)
    && (h.state.Playing? ==> h.fade == 1.0)
    && 0.0 <= h.fade <= 1.0
  }

  predicate Idle<RS>(w: Rwh<RS>) { !w.onceFlag && !w.onceDone && w.onceHead == -1 }
  predicate Armed<RS>(w: Rwh<RS>) { w.onceFlag && !w.onceDone && w.onceHead == -1 }
  predicate Recording<RS>(w: Rwh<RS>) { !w.onceFlag && !w.onceDone && (w.onceHead == 0 || w.onceHead == 1) }
  predicate Done<RS>(w: Rwh<RS>) { !w.onceFlag && w.onceDone && w.onceHead == -1 }

  predicate HeadInv<RS>(w: Rwh<RS>) {
    && (w.active == 0 || w.active == 1)
    && 0.0 <= w.fadeInc <= 1.0
    && SubInv(w.h0) && SubInv(w.h1)
    && (Head(w, Other(w.active)).state.FadeOut? || Head(w, Other(w.active)).state.Stopped?)
    && (Idle(w) || Armed(w) || Recording(w) || Done(w))
  }

  predicate VoiceInv<RS>(v: Voice<RS>) {
    HeadInv(v.sch) && (OnceActive(v.sch) ==> v.recFlag)
  }

  // ---- the head's operations keep it ----

  lemma PhaseKeeps<RS>(h: Sub<RS>, start: real, end: real, loop: bool)
    requires SubInv(h)
    ensures var h' := UpdatePhase(h, start, end, loop).0;
            && SubInv(h') && h'.fade == h.fade
            && (h'.state == h.state || h'.state.FadeOut?)
            && (loop ==> h'.state == h.state)
  {
  }

  lemma PhasesKeep<RS>(w: Rwh<RS>)
    requires HeadInv(w)
    ensures HeadInv(MovePhases(w))
  {
    hide HeadInv, SubInv, UpdatePhase, MovePhases;
    PhasesShape(w);
    assert SubInv(w.h0) && SubInv(w.h1) by { BothHeads(w); }
    PhaseKeeps(w.h0, w.start, w.end, w.loopFlag);
    PhaseKeeps(w.h1, w.start, w.end, w.loopFlag);
    SameOrLeaving(w, MovePhases(w));
  }

  lemma BothHeads<RS>(w: Rwh<RS>)
    requires HeadInv(w)
    ensures SubInv(w.h0) && SubInv(w.h1)
  {
  }

  // Heads may start leaving at any time.
  lemma SameOrLeaving<RS>(w: Rwh<RS>, w': Rwh<RS>)
    requires HeadInv(w)
    requires w'.active == w.active && w'.fadeInc == w.fadeInc
    requires w'.onceFlag == w.onceFlag && w'.onceDone == w.onceDone && w'.onceHead == w.onceHead
    requires SubInv(w'.h0) && SubInv(w'.h1)
    requires w'.h0.state == w.h0.state || w'.h0.state.FadeOut?
    requires w'.h1.state == w.h1.state || w'.h1.state.FadeOut?
    ensures HeadInv(w')
  {
    hide SubInv;
  }

  lemma FadesKeep<RS>(w: Rwh<RS>)
    requires HeadInv(w)
    ensures HeadInv(MoveFades(w))
  {
  }

  lemma CutKeeps<RS>(w: Rwh<RS>, pos: real)
    requires HeadInv(w) && Sized(w)
    ensures HeadInv(CutToPhase(w, pos))
  {
  }

  // `dequeueCrossfade` cuts only when the active head is not fading.
  lemma DequeueKeeps<RS>(w: Rwh<RS>)
    requires HeadInv(w) && Sized(w)
    ensures HeadInv(Dequeue(w))
    ensures !Fading(Head(w, w.active).state) ==> !Dequeue(w).queuedFlag
  {
    hide SubInv;
    CutKeeps(w, w.queued);
  }

  lemma AdvanceKeeps<RS>(w: Rwh<RS>)
    requires HeadInv(w) && Sized(w)
    ensures HeadInv(Advance(w))
  {
    PhasesKeep(w);
    FadesKeep(MovePhases(w));
    DequeueKeeps(MoveFades(MovePhases(w)));
    hide HeadInv, MovePhases, MoveFades, Dequeue;
  }

  lemma PokeHeadKeeps<RS>(k: Kernel<RS>, w: Rwh<RS>, buf: seq<real>, i: int, x: real)
    requires HeadInv(w) && Fits(w, buf)
    ensures HeadInv(PokeHead(k, w, buf, i, x).0)
  {
    hide Write, Clipped, HeadInv;
    BothHeads(w);
    SameOrLeaving(w, PokeHead(k, w, buf, i, x).0);
  }

  lemma PokesKeep<RS>(k: Kernel<RS>, w: Rwh<RS>, buf: seq<real>, x: real)
    requires HeadInv(w) && Fits(w, buf)
    ensures HeadInv(PokeHeads(k, w, buf, x).0)
  {
    hide HeadInv, PokeHead;
    if OnceActive(w) {
      if w.onceHead > -1 { PokeHeadKeeps(k, w, buf, w.onceHead, x); }
    } else {
      PokeHeadKeeps(k, w, buf, 0, x);
      var (w1, buf1) := PokeHead(k, w, buf, 0, x);
      PokeHeadKeeps(k, w1, buf1, 1, x);
    }
  }

  lemma PlayKeeps<RS>(v: Voice<RS>, on: bool)
    requires VoiceInv(v)
    ensures VoiceInv(SetPlayFlag(v, on))
  {
  }

  lemma RecKeeps<RS>(v: Voice<RS>, on: bool)
    requires HeadInv(v.sch) && (!on ==> OnceActive(v.sch) ==> v.recFlag)
    ensures VoiceInv(SetRecFlag(v, on))
  {
  }

  lemma RecOnceKeeps<RS>(v: Voice<RS>, on: bool)
    requires VoiceInv(v)
    ensures VoiceInv(SetRecOnceFlag(v, on))
  {
    hide SubInv;
    var v1 := v.(sch := SetOnce(v.sch, on));
    assert HeadInv(v1.sch);
    if on { RecKeeps(v1, true); }
    hide SetRecFlag;
  }

  lemma ResetKeeps<RS>(k: Kernel<RS>, v: Voice<RS>, pre: Stage, post: Stage)
    requires VoiceInv(v)
    ensures VoiceInv(ResetTo(k, v, pre, post))
  {
  }

  lemma CutToPosKeeps<RS>(w: Rwh<RS>, sec: real)
    requires Sized(w) && HeadInv(w)
    ensures HeadInv(CutToPos(w, sec)) && OnceActive(CutToPos(w, sec)) == OnceActive(w)
  {
    CutKeeps(w, InFrames(sec, w.sr));
    CutLeavesOnce(w, InFrames(sec, w.sr));
    hide CutToPhase, SubInv;
  }

  lemma ControlKeeps<RS>(k: Kernel<RS>, v: Voice<RS>, op: Op<RS>)
    requires VoiceInv(v) && Sized(v.sch)
    ensures VoiceInv(Control(k, v, op))
  {
    hide SetPlayFlag, SetRecFlag, SetRecOnceFlag, ResetTo, CutToPos;
    match op
    case OpPlay(on) => PlayKeeps(v, on);
    case OpRec(on) => RecKeeps(v, on);
    case OpRecOnce(on) => RecOnceKeeps(v, on);
    case OpReset(pre, post) => ResetKeeps(k, v, pre, post);
    case OpCut(sec) => CutToPosKeeps(v.sch, sec);
    case _ =>
  }

  // A cut never makes a pass active that was not.
  lemma CutLeavesOnce<RS>(w: Rwh<RS>, pos: real)
    requires Sized(w) && HeadInv(w)
    ensures OnceActive(CutToPhase(w, pos)) == OnceActive(w)
  {
  }

  lemma InputStageHead<RS>(v: Voice<RS>, x: real)
    requires VoiceInv(v)
    ensures var v1 := InputStage(v, x).0;
            && VoiceInv(v1) && v1.playFlag == v.playFlag && v1.recFlag == v.recFlag
            && v1.sch.h0.state == v.sch.h0.state && v1.sch.h1.state == v.sch.h1.state
            && v1.sch.active == v.sch.active && v1.sch.onceFlag == v.sch.onceFlag
            && v1.sch.onceDone == v.sch.onceDone && v1.sch.onceHead == v.sch.onceHead
  {
    hide RampUpdate, StageNext;
  }

  lemma SampleKeeps<RS>(k: Kernel<RS>, v: Voice<RS>, buf: seq<real>, x: real, y: real)
    requires VoiceInv(v) && Fits(v.sch, buf)
    ensures VoiceInv(VoiceSample(k, v, buf, x, y).0)
  {
    InputStageKeeps(v, buf, x);
    InputStageHead(v, x);
    var (v1, hx) := InputStage(v, x);
    hide InputStage, MixOut, HeadInv, Fits;
    if v.playFlag || v.recFlag {
      HeadSampleKeeps(k, v1.sch, buf, hx, v.recFlag);
      assert v1.recFlag == v.recFlag;
    }
    hide Heads.Sample, StageNext;
  }

  lemma HeadSampleKeeps<RS>(k: Kernel<RS>, w: Rwh<RS>, buf: seq<real>, x: real, write: bool)
    requires HeadInv(w) && Fits(w, buf)
    ensures HeadInv(Heads.Sample(k, w, buf, x, write).0)
    ensures OnceActive(Heads.Sample(k, w, buf, x, write).0) == OnceActive(w)
  {
    var (w1, buf1) := if write then PokeHeads(k, w, buf, x) else (w, buf);
    if write { PokesKeep(k, w, buf, x); PokesLeaveMarks(k, w, buf, x); }
    hide PokeHeads;
    AdvanceKeeps(w1);
    AdvanceLeavesOnce(w1);
  }

  lemma PokeHeadLeavesMarks<RS>(k: Kernel<RS>, w: Rwh<RS>, buf: seq<real>, i: int, x: real)
    requires Fits(w, buf)
    ensures SameMarks(w, PokeHead(k, w, buf, i, x).0)
  {
    hide Write, Clipped;
  }

  lemma PokesLeaveMarks<RS>(k: Kernel<RS>, w: Rwh<RS>, buf: seq<real>, x: real)
    requires Fits(w, buf)
    ensures SameMarks(w, PokeHeads(k, w, buf, x).0)
  {
    hide PokeHead;
    if OnceActive(w) {
      if w.onceHead > -1 { PokeHeadLeavesMarks(k, w, buf, w.onceHead, x); }
    } else {
      PokeHeadLeavesMarks(k, w, buf, 0, x);
      var (w1, buf1) := PokeHead(k, w, buf, 0, x);
      PokeHeadLeavesMarks(k, w1, buf1, 1, x);
    }
  }

  // The states of the heads and the one-shot marks agree.
  predicate SameMarks<RS>(w: Rwh<RS>, w': Rwh<RS>) {
    && w'.h0.state == w.h0.state && w'.h1.state == w.h1.state && w'.active == w.active
    && w'.onceFlag == w.onceFlag && w'.onceDone == w.onceDone && w'.onceHead == w.onceHead
  }

  lemma AdvanceLeavesOnce<RS>(w: Rwh<RS>)
    requires Sized(w) && HeadInv(w)
    ensures OnceActive(Advance(w)) == OnceActive(w)
  {
    hide MovePhases, CutToPhase, HeadInv, UpdatePhase, UpdateFade;
    PhasesKeep(w);
    PhasesShape(w);
    FadesKeep(MovePhases(w));
    var w2 := MoveFades(MovePhases(w));
    CutLeavesOnce(w2, w2.queued);
  }

  // ---- every reachable state ----

  lemma StepKeeps<RS>(k: Kernel<RS>, s: World<RS>, step: Step<RS>)
    requires Ready(s) && VoiceInv(s.v)
    ensures VoiceInv(Apply(k, s, step).v)
  {
    match step
    case Do(op) => ControlKeeps(k, s.v, op); hide Control;
    case OneSample(x, y) => SampleKeeps(k, s.v, s.buf, x, y); hide VoiceSample;
    case Finish =>
  }

  lemma {:induction false} RunKeeps<RS>(k: Kernel<RS>, s: World<RS>, steps: seq<Step<RS>>)
    requires Ready(s) && VoiceInv(s.v)
    ensures VoiceInv(RunSteps(k, s, steps).v)
    decreases |steps|
  {
    if steps != [] {
      StepKeeps(k, s, steps[0]);
      RunKeeps(k, Apply(k, s, steps[0]), steps[1..]);
    }
  }

  // A voice after `reset`, however it was before.
  lemma FreshVoice<RS>(k: Kernel<RS>, v: Voice<RS>, pre: Stage, post: Stage)
    ensures VoiceInv(ResetTo(k, v, pre, post))
  {
  }

  // From a reset voice, after any operations, samples and block ends: the head
  // that is not active is leaving or stopped, so both are never playing at once;
  // stopped means silent, playing means full, and fades stay within [0, 1].
  lemma InactiveHeadNeverEnters<RS>(k: Kernel<RS>, v: Voice<RS>, pre: Stage, post: Stage, buf: seq<real>,
                                    steps: seq<Step<RS>>)
    requires Fits(ResetTo(k, v, pre, post).sch, buf)
    ensures var w := RunSteps(k, World(ResetTo(k, v, pre, post), buf), steps).v.sch;
            && (Head(w, Other(w.active)).state.FadeOut? || Head(w, Other(w.active)).state.Stopped?)
            && !(w.h0.state.Playing? && w.h1.state.Playing?)
            && (forall i | 0 <= i < 2 ::
                  && (Head(w, i).state.Stopped? ==> Head(w, i).fade == 0.0)
                  && (Head(w, i).state.Playing? ==> Head(w, i).fade == 1.0)
                  && 0.0 <= Head(w, i).fade <= 1.0)
  {
    FreshVoice(k, v, pre, post);
    RunKeeps(k, World(ResetTo(k, v, pre, post), buf), steps);
    hide ResetTo;
  }

  // ---- a block is such a run ----

  function SampleSteps<RS>(k: Kernel<RS>, v: Voice<RS>, buf: seq<real>, xs: seq<real>, y: real): seq<Step<RS>>
    requires Fits(v.sch, buf)
    decreases |xs|
  {
    if xs == [] then [Finish]
    else
      VoiceSampleFits(k, v, buf, xs[0], y);
      var (v1, buf1, y1, _) := VoiceSample(k, v, buf, xs[0], y);
      [OneSample(xs[0], y)] + SampleSteps(k, v1, buf1, xs[1..], y1)
  }

  // Processing a block is running its samples one by one and then its end, so what
  // every run keeps, every block keeps.
  lemma {:induction false} BlockIsRun<RS>(k: Kernel<RS>, v: Voice<RS>, buf: seq<real>, xs: seq<real>, y: real)
    requires Fits(v.sch, buf)
    ensures var s := RunSteps(k, World(v, buf), SampleSteps(k, v, buf, xs, y));
            s.v == VoiceBlock(k, v, buf, xs, y).0 && s.buf == VoiceBlock(k, v, buf, xs, y).1
    decreases |xs|
  {
    if xs == [] {
      RunOne(k, World(v, buf), Finish, []);
    } else {
      VoiceSampleFits(k, v, buf, xs[0], y);
      var (v1, buf1, y1, _) := VoiceSample(k, v, buf, xs[0], y);
      BlockIsRun(k, v1, buf1, xs[1..], y1);
      RunOne(k, World(v, buf), OneSample(xs[0], y), SampleSteps(k, v1, buf1, xs[1..], y1));
      hide VoiceSample, Fits, RunSteps, EndBlock;
    }
  }

  lemma RunOne<RS>(k: Kernel<RS>, s: World<RS>, step: Step<RS>, rest: seq<Step<RS>>)
    requires Ready(s)
    ensures RunSteps(k, s, [step] + rest) == RunSteps(k, Apply(k, s, step), rest)
  {
    assert ([step] + rest)[1..] == rest;
    hide Apply, Ready;
  }
}
