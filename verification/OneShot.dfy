/**
 One-shot recording: from arming to completion the buffer is written by one head,
 during one activation of that head.
 */
module OneShot {
  import opened Heads
  import opened Voices
  import opened HeadSafety
  import opened FlagMirror

  // How far a one-shot pass has come.  While it records, the recording head goes
  // from fading in through playing and fading out to stopped.
  function Progress<RS>(w: Rwh<RS>): nat {
    if Armed(w) then 0
    else if Recording(w) then
      match Head(w, w.onceHead).state
      case FadeIn => 1
      case Playing => 2
      case FadeOut => 3
      case Stopped => 4
    else if Done(w) then 5
    else 6
  }

  // The heads that blend input into the buffer at the next sample.
  function Writers<RS>(v: Voice<RS>): set<int> {
    if !v.recFlag then {}
    else if OnceActive(v.sch) then
      (if v.sch.onceHead > -1 && !Head(v.sch, v.sch.onceHead).state.Stopped? then {v.sch.onceHead} else {})
    else set i | 0 <= i < 2 && !Head(v.sch, i).state.Stopped?
  }

  // Without a writer, a sample leaves the buffer alone; with a single one, the
  // buffer is what that head's poke makes of it.
  lemma WritersWrite<RS>(k: Kernel<RS>, v: Voice<RS>, buf: seq<real>, x: real, y: real)
    requires VoiceInv(v) && Fits(v.sch, buf) && OnceActive(v.sch)
    ensures Writers(v) == {} ==> VoiceSample(k, v, buf, x, y).1 == buf
    ensures Writers(v) != {} ==>
              var (v1, hx) := InputStage(v, x);
              && Fits(v1.sch, buf) && Writers(v) == {v.sch.onceHead}
              && VoiceSample(k, v, buf, x, y).1
                 == Poke(k, Head(v1.sch, v.sch.onceHead), buf, hx, v1.sch.pre, v1.sch.rec).1
  {
    InputStageKeeps(v, buf, x);
    InputStageHead(v, x);
    var (v1, hx) := InputStage(v, x);
    hide InputStage, StageNext, MixOut, Advance;
    assert HeadStage(k, v1, buf, hx, y).1 == PokeHeads(k, v1.sch, buf, hx).1;
    assert OnceActive(v1.sch);
    if v.sch.onceHead > -1 {
      assert PokeHeads(k, v1.sch, buf, hx) == PokeHead(k, v1.sch, buf, v1.sch.onceHead, hx);
      hide PokeHeads;
    }
  }

  lemma WritersByProgress<RS>(v: Voice<RS>)
    requires VoiceInv(v)
    ensures Progress(v.sch) in {0, 4, 5} ==> Writers(v) == {}
    ensures Progress(v.sch) in {1, 2, 3} ==> Writers(v) == {v.sch.onceHead}
  {
  }

  // Operations that neither re-arm nor cancel the pass.
  predicate LeavesPassAlone<RS>(step: Step<RS>) {
    match step
    case Do(OpRecOnce(_)) => false
    case Do(OpRec(on)) => on
    case Do(OpReset(_, _)) => false
    case _ => true
  }

  // Progress never goes back, and the recording head does not change.
  ghost predicate Onward<RS>(w: Rwh<RS>, w': Rwh<RS>) {
    && Progress(w) <= Progress(w')
    && (Recording(w) && Recording(w') ==> w'.onceHead == w.onceHead)
  }

  lemma OnwardTrans<RS>(a: Rwh<RS>, b: Rwh<RS>, c: Rwh<RS>)
    requires Onward(a, b) && Onward(b, c)
    requires HeadInv(a) && HeadInv(b) && HeadInv(c)
    ensures Onward(a, c)
  {
    hide SubInv;
  }

  lemma PhasesOnward<RS>(w: Rwh<RS>)
    requires HeadInv(w)
    ensures Onward(w, MovePhases(w))
  {
    PhaseKeeps(w.h0, w.start, w.end, w.loopFlag);
    PhaseKeeps(w.h1, w.start, w.end, w.loopFlag);
    PhaseForward(w.h0, w.start, w.end, w.loopFlag);
    PhaseForward(w.h1, w.start, w.end, w.loopFlag);
    PhasesShape(w);
    hide UpdatePhase, SubInv, MovePhases;
  }

  lemma PhaseForward<RS>(h: Sub<RS>, start: real, end: real, loop: bool)
    ensures var h' := UpdatePhase(h, start, end, loop).0;
            h'.state == h.state || (h'.state.FadeOut? && !h.state.Stopped?)
  {
  }

  lemma FadesOnward<RS>(w: Rwh<RS>)
    requires HeadInv(w)
    ensures Onward(w, MoveFades(w))
  {
  }

  lemma CutOnward<RS>(w: Rwh<RS>, pos: real)
    requires HeadInv(w) && Sized(w)
    ensures Onward(w, CutToPhase(w, pos))
  {
  }

  lemma AdvanceOnward<RS>(w: Rwh<RS>)
    requires HeadInv(w) && Sized(w)
    ensures Onward(w, Advance(w))
  {
    PhasesKeep(w);
    PhasesOnward(w);
    var w1 := MovePhases(w);
    FadesKeep(w1);
    FadesOnward(w1);
    var w2 := MoveFades(w1);
    CutKeeps(w2, w2.queued);
    CutOnward(w2, w2.queued);
    DequeueKeeps(w2);
    assert Onward(w2, Dequeue(w2)) by { hide MovePhases, MoveFades, CutToPhase, HeadInv, SubInv; }
    OnwardTrans(w, w1, w2);
    hide MovePhases, MoveFades, Dequeue, HeadInv, Onward;
    OnwardTrans(w, w2, Dequeue(w2));
  }

  lemma SampleOnward<RS>(k: Kernel<RS>, v: Voice<RS>, buf: seq<real>, x: real, y: real)
    requires VoiceInv(v) && Fits(v.sch, buf)
    ensures Onward(v.sch, VoiceSample(k, v, buf, x, y).0.sch)
  {
    InputStageKeeps(v, buf, x);
    InputStageHead(v, x);
    var (v1, hx) := InputStage(v, x);
    assert SameMarks(v.sch, v1.sch);
    hide InputStage, MixOut, HeadInv, StageNext, Onward;
    if v.playFlag || v.recFlag {
      HeadSampleOnward(k, v1.sch, buf, hx, v.recFlag);
      MarksOnward(v.sch, v1.sch, Heads.Sample(k, v1.sch, buf, hx, v.recFlag).0);
    } else {
      MarksOnward(v.sch, v1.sch, v1.sch);
    }
    hide Heads.Sample;
  }

  lemma MarksOnward<RS>(a: Rwh<RS>, b: Rwh<RS>, c: Rwh<RS>)
    requires SameMarks(a, b) && (c == b || Onward(b, c))
    ensures Onward(a, c)
  {
  }

  lemma HeadSampleOnward<RS>(k: Kernel<RS>, w: Rwh<RS>, buf: seq<real>, x: real, write: bool)
    requires HeadInv(w) && Fits(w, buf)
    ensures Onward(w, Heads.Sample(k, w, buf, x, write).0)
  {
    var (w1, buf1) := if write then PokeHeads(k, w, buf, x) else (w, buf);
    if write { PokesKeep(k, w, buf, x); PokesLeaveMarks(k, w, buf, x); }
    hide PokeHeads;
    AdvanceOnward(w1);
    hide Advance, Onward, HeadInv;
    MarksOnward(w, w1, Advance(w1));
  }

  lemma ControlOnward<RS>(k: Kernel<RS>, v: Voice<RS>, op: Op<RS>)
    requires VoiceInv(v) && Sized(v.sch) && LeavesPassAlone(Do(op))
    ensures Onward(v.sch, Control(k, v, op).sch)
  {
    hide SetPlayFlag, SetRecFlag, CutToPos, SubInv;
    match op
    case OpPlay(on) => PlayOnward(v, on);
    case OpRec(on) => RecOnward(v);
    case OpCut(sec) => CutToPosOnward(v.sch, sec);
    case _ =>
  }

  lemma CutToPosOnward<RS>(w: Rwh<RS>, sec: real)
    requires HeadInv(w) && Sized(w)
    ensures Onward(w, CutToPos(w, sec))
  {
    CutOnward(w, InFrames(sec, w.sr));
    hide CutToPhase, SubInv;
  }

  // While a pass is active recording is on, so neither flag setter starts a head.
  lemma PlayOnward<RS>(v: Voice<RS>, on: bool)
    requires VoiceInv(v)
    ensures Onward(v.sch, SetPlayFlag(v, on).sch)
  {
    hide SubInv;
  }

  lemma RecOnward<RS>(v: Voice<RS>)
    requires VoiceInv(v)
    ensures Onward(v.sch, SetRecFlag(v, true).sch)
  {
    hide SubInv;
  }

  lemma StepOnward<RS>(k: Kernel<RS>, s: World<RS>, step: Step<RS>)
    requires Ready(s) && VoiceInv(s.v) && LeavesPassAlone(step)
    ensures Onward(s.v.sch, Apply(k, s, step).v.sch)
  {
    match step
    case Do(op) => ControlOnward(k, s.v, op); hide Control;
    case OneSample(x, y) => SampleOnward(k, s.v, s.buf, x, y); hide VoiceSample;
    case Finish => hide SubInv;
  }

  // Between any two moments of a run that neither re-arms nor cancels the pass,
  // progress only goes forward and a recording head stays the recording head.
  lemma {:induction false} PassGoesOnward<RS>(k: Kernel<RS>, s: World<RS>, steps: seq<Step<RS>>)
    requires Ready(s) && VoiceInv(s.v)
    requires forall step | step in steps :: LeavesPassAlone(step)
    ensures Onward(s.v.sch, RunSteps(k, s, steps).v.sch)
    decreases |steps|
  {
    if steps != [] {
      var s1 := Apply(k, s, steps[0]);
      StepOnward(k, s, steps[0]);
      StepKeeps(k, s, steps[0]);
      PassGoesOnward(k, s1, steps[1..]);
      RunKeeps(k, s1, steps[1..]);
      hide Apply, Onward, HeadInv;
      OnwardTrans(s.v.sch, s1.v.sch, RunSteps(k, s1, steps[1..]).v.sch);
    }
  }

  // Every buffer write from arming to completion: before the first cut nothing is
  // written; from then on only one head writes, the same throughout, in the
  // states fading in, playing, fading out, each at most once and in that order;
  // after the cut that finishes the pass nothing is written.
  lemma OneHeadOneActivation<RS>(k: Kernel<RS>, s: World<RS>, before: seq<Step<RS>>, after: seq<Step<RS>>)
    requires Ready(s) && VoiceInv(s.v)
    requires forall step | step in before + after :: LeavesPassAlone(step)
    ensures var armed := Apply(k, s, Do(OpRecOnce(true)));
            var mid := RunSteps(k, armed, before);
            var last := RunSteps(k, mid, after);
            && Writers(armed.v) == {}
            && (Armed(mid.v.sch) || Done(mid.v.sch) ==> Writers(mid.v) == {})
            && (Recording(mid.v.sch) ==> Writers(mid.v) <= {mid.v.sch.onceHead})
            && Progress(mid.v.sch) <= Progress(last.v.sch)
            && (Recording(mid.v.sch) && Recording(last.v.sch) ==> last.v.sch.onceHead == mid.v.sch.onceHead)
  {
    var armed := Apply(k, s, Do(OpRecOnce(true)));
    StepKeeps(k, s, Do(OpRecOnce(true)));
    assert Armed(armed.v.sch) by { ArmingArms(k, s); }
    var mid := RunSteps(k, armed, before);
    RunKeeps(k, armed, before);
    assert forall step | step in before :: step in before + after;
    assert forall step | step in after :: step in before + after;
    PassGoesOnward(k, mid, after);
    WritersByProgress(armed.v);
    WritersByProgress(mid.v);
    hide RunSteps, Apply, Writers;
  }

  lemma ArmingArms<RS>(k: Kernel<RS>, s: World<RS>)
    requires Ready(s)
    ensures Armed(Apply(k, s, Do(OpRecOnce(true))).v.sch) && Apply(k, s, Do(OpRecOnce(true))).v.recFlag
  {
  }

  // ---- what other threads are told ----

  // Each flag operation changes the published pair just as the mirrors change.
  lemma PublishedFollowsMirror<RS>(k: Kernel<RS>, v: Voice<RS>, pre: Stage, post: Stage)
    requires VoiceInv(v)
    ensures forall on: bool :: PublishedFlags(SetRecFlag(v, on)) == FlagStep(PublishedFlags(v), SetRec(on))
    ensures forall on: bool :: PublishedFlags(SetRecOnceFlag(v, on)) == FlagStep(PublishedFlags(v), SetRecOnce(on))
    ensures PublishedFlags(ResetTo(k, v, pre, post)) == FlagStep(PublishedFlags(v), ResetVoice)
  {
    hide SubInv;
  }

  // No other step touches the pair, except the block end that finishes a pass,
  // and that turns (on, on) into (off, off).
  lemma OnlyFinishUnannounced<RS>(k: Kernel<RS>, s: World<RS>, step: Step<RS>)
    requires Ready(s) && VoiceInv(s.v)
    requires !step.Do? || !(step.op.OpRec? || step.op.OpRecOnce? || step.op.OpReset?)
    ensures var f, f' := PublishedFlags(s.v), PublishedFlags(Apply(k, s, step).v);
            if step.Finish? && Done(s.v.sch) then f == Flags(true, true) && f' == Flags(false, false)
            else f' == f
  {
    match step
    case Do(op) => OtherOpsKeepPair(k, s.v, op); hide Control;
    case OneSample(x, y) => SampleKeepsPair(k, s.v, s.buf, x, y); hide VoiceSample;
    case Finish => hide SubInv;
  }

  lemma OtherOpsKeepPair<RS>(k: Kernel<RS>, v: Voice<RS>, op: Op<RS>)
    requires VoiceInv(v) && Sized(v.sch) && !op.OpRec? && !op.OpRecOnce? && !op.OpReset?
    ensures PublishedFlags(Control(k, v, op)) == PublishedFlags(v)
  {
    match op
    case OpCut(sec) => CutToPosKeeps(v.sch, sec); hide CutToPos;
    case _ => hide SubInv;
  }

  lemma SampleKeepsPair<RS>(k: Kernel<RS>, v: Voice<RS>, buf: seq<real>, x: real, y: real)
    requires VoiceInv(v) && Fits(v.sch, buf)
    ensures PublishedFlags(VoiceSample(k, v, buf, x, y).0) == PublishedFlags(v)
  {
    InputStageKeeps(v, buf, x);
    InputStageHead(v, x);
    var (v1, hx) := InputStage(v, x);
    if v.playFlag || v.recFlag { HeadSampleKeeps(k, v1.sch, buf, hx, v.recFlag); }
    hide InputStage, MixOut, HeadInv, StageNext, Heads.Sample;
  }
}
