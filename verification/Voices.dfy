/**
 One voice (`softcut/Voice.cpp`): the control operations and the per-sample and
 per-block processing, as functions of the voice's state.
 */
module Voices {
  import opened SvfMath
  import opened Heads
  import opened FlagMirror

  // The one-pole smoother behind rate and levels (`LogRamp`).
  datatype Ramp = Ramp(b: real, x0: real, y0: real)

  // `smooth1pole`
  function Smooth1Pole(x0: real, y0: real, b: real): real {
    x0 + (y0 - x0) * b
  }

  function RampUpdate(r: Ramp): Ramp {
    r.(y0 := Smooth1Pole(r.x0, r.y0, r.b))
  }

  function RampReset(r: Ramp, x: real): Ramp {
    r.(x0 := x, y0 := x)
  }

  datatype Stage = Stage(coeffs: Coeffs, memory: Memory, mix: Mix)

  function StageNext(f: Stage, x: real): (Stage, real) {
    var m := Tick(f.coeffs, f.memory, x);
    (f.(memory := m), Output(f.coeffs, m, x, f.mix))
  }

  datatype Voice<RS> = Voice(sch: Rwh<RS>, pre: Stage, post: Stage, preDry: real, postDry: real,
                             rateRamp: Ramp, preRamp: Ramp, recRamp: Ramp,
                             playFlag: bool, recFlag: bool, fixQuirks: bool)

  // What `publishFlags` makes visible to other threads.
  function PublishedFlags<RS>(v: Voice<RS>): Flags {
    Flags(v.recFlag, OnceActive(v.sch))
  }

  // ---- control operations ----

  function SetRecFlag<RS>(v: Voice<RS>, val: bool): Voice<RS> {
    var sch1 := if v.recFlag then (if !(val || v.playFlag) then StopHeads(v.sch) else v.sch)
                else if val && !v.playFlag then RunHeads(v.sch) else v.sch;
    v.(recFlag := val, sch := if !val && OnceActive(sch1) then SetOnce(sch1, false) else sch1)
  }

  function SetPlayFlag<RS>(v: Voice<RS>, val: bool): Voice<RS> {
    var sch1 := if v.playFlag then (if !(val || v.recFlag) then StopHeads(v.sch) else v.sch)
                else if val && !v.recFlag then RunHeads(v.sch) else v.sch;
    v.(playFlag := val, sch := sch1)
  }

  function SetRecOnceFlag<RS>(v: Voice<RS>, val: bool): Voice<RS> {
    var v1 := v.(sch := SetOnce(v.sch, val));
    if val then SetRecFlag(v1, true) else v1
  }

  function ClearMemory(f: Stage): Stage {
    f.(memory := Memory(0.0, 0.0, 0.0))
  }

  // The head's part of a reset.  Its `init` overrides the first fade time; with the
  // quirks fixed it is set again.
  function ResetHead<RS>(k: Kernel<RS>, w: Rwh<RS>, fixQuirks: bool): Rwh<RS> {
    var w1 := SetFadeTime(w, 0.01);
    var w2 := Heads.Init(k, w1.(h0 := w1.h0.(recOffset := -8), h1 := w1.h1.(recOffset := -8)));
    if fixQuirks then SetFadeTime(w2, 0.01) else w2
  }

  // `pre` and `post` are the filters with the defaults `reset` installs; their
  // coefficients depend on the sample rate and the stored corner.
  function ResetTo<RS>(k: Kernel<RS>, v: Voice<RS>, pre: Stage, post: Stage): Voice<RS> {
    v.(pre := ClearMemory(pre), post := ClearMemory(post), preDry := 0.0, postDry := 1.0,
       rateRamp := RampReset(v.rateRamp, 1.0), recRamp := RampReset(v.recRamp, 0.0),
       preRamp := RampReset(v.preRamp, 0.0), recFlag := false, playFlag := false,
       sch := ResetHead(k, v.sch, v.fixQuirks))
  }

  datatype Op<RS> =
    | OpPlay(on: bool) | OpRec(on: bool) | OpRecOnce(on: bool) | OpLoop(on: bool)
    | OpLoopStart(sec: real) | OpLoopEnd(sec: real) | OpFadeTime(sec: real)
    | OpCut(sec: real) | OpStop | OpReset(pre: Stage, post: Stage)
    | OpRate(target: real) | OpRecLevel(target: real) | OpPreLevel(target: real)
    | OpFilters(pre: Stage, post: Stage, preDry: real, postDry: real)
    | OpSampleRate(hz: real, pre: Stage, post: Stage, rateB: real, preB: real, recB: real)

  // The head's rate, the filters' coefficients and the smoothers' poles change; fade
  // increment, loop points and phases stay as they were.
  function SetSampleRate<RS>(v: Voice<RS>, hz: real, pre: Stage, post: Stage,
                             rateB: real, preB: real, recB: real): Voice<RS>
  {
    v.(sch := v.sch.(sr := hz),
       pre := pre.(memory := v.pre.memory), post := post.(memory := v.post.memory),
       rateRamp := v.rateRamp.(b := rateB), preRamp := v.preRamp.(b := preB), recRamp := v.recRamp.(b := recB))
  }

  function Control<RS>(k: Kernel<RS>, v: Voice<RS>, op: Op<RS>): Voice<RS>
    requires Sized(v.sch)
  {
    match op
    case OpPlay(on) => SetPlayFlag(v, on)
    case OpRec(on) => SetRecFlag(v, on)
    case OpRecOnce(on) => SetRecOnceFlag(v, on)
    case OpLoop(on) => v.(sch := v.sch.(loopFlag := on))
    case OpLoopStart(sec) => v.(sch := v.sch.(start := InFrames(sec, v.sch.sr), queuedFlag := false))
    case OpLoopEnd(sec) => v.(sch := v.sch.(end := InFrames(sec, v.sch.sr), queuedFlag := false))
    case OpFadeTime(sec) => v.(sch := SetFadeTime(v.sch, sec))
    case OpCut(sec) => v.(sch := CutToPos(v.sch, sec))
    case OpStop => v.(sch := StopHeads(v.sch))
    case OpReset(pre, post) => ResetTo(k, v, pre, post)
    case OpRate(target) => v.(rateRamp := v.rateRamp.(x0 := target))
    case OpRecLevel(target) => v.(recRamp := v.recRamp.(x0 := target))
    case OpPreLevel(target) => v.(preRamp := v.preRamp.(x0 := target))
    case OpFilters(pre, post, preDry, postDry) =>
      v.(pre := pre.(memory := v.pre.memory), post := post.(memory := v.post.memory),
         preDry := preDry, postDry := postDry)
    case OpSampleRate(hz, pre, post, rateB, preB, recB) => SetSampleRate(v, hz, pre, post, rateB, preB, recB)
  }

  // ---- processing ----

  // The smoothed rate and levels reach the head before each sample.
  function Ramped<RS>(v: Voice<RS>): Voice<RS> {
    var r, p, c := RampUpdate(v.rateRamp), RampUpdate(v.preRamp), RampUpdate(v.recRamp);
    v.(rateRamp := r, preRamp := p, recRamp := c,
       sch := SetHeadRate(v.sch, r.y0).(pre := p.y0, rec := c.y0))
  }

  function WithDry(wet: real, x: real, dry: real): real {
    wet + x * dry
  }

  // The input filter, then the ramps: what the head will be given.
  function InputStage<RS>(v: Voice<RS>, x: real): (Voice<RS>, real) {
    var (pre, fx) := StageNext(v.pre, x);
    (Ramped(v.(pre := pre)), WithDry(fx, x, v.preDry))
  }

  // The head reads and writes according to the two flags.  `y` is the local the
  // sample loop reuses; recording without playing leaves it as it was.
  function HeadStage<RS>(k: Kernel<RS>, v: Voice<RS>, buf: seq<real>, x: real, y: real): (Rwh<RS>, seq<real>, real)
    requires Fits(v.sch, buf)
  {
    if v.playFlag || v.recFlag then
      var (sch, buf') := Heads.Sample(k, v.sch, buf, x, v.recFlag);
      (sch, buf', if v.playFlag then MixOut(k, v.sch, buf) else y)
    else (v.sch, buf, 0.0)
  }

  function OutputStage<RS>(v: Voice<RS>, y: real): (Voice<RS>, real) {
    var (post, fy) := StageNext(v.post, y);
    (v.(post := post), WithDry(fy, y, v.postDry))
  }

  // One pass of the loop in `processBlockMono`: the voice, the buffer, the reused
  // local and the output sample.
  function VoiceSample<RS>(k: Kernel<RS>, v: Voice<RS>, buf: seq<real>, x: real, y: real)
    : (Voice<RS>, seq<real>, real, real)
    requires Fits(v.sch, buf)
  {
    var (v1, hx) := InputStage(v, x);
    InputStageKeeps(v, buf, x);
    var (sch, buf', y') := HeadStage(k, v1, buf, hx, y);
    var (v2, out) := OutputStage(v1.(sch := sch), y');
    (v2, buf', y', out)
  }

  // The end of a block: a finished one-shot pass switches recording off.
  function EndBlock<RS>(v: Voice<RS>): Voice<RS> {
    if v.recFlag && v.sch.onceDone then v.(recFlag := false, sch := SetOnce(v.sch, false)) else v
  }

  // The samples of a block, in order.
  function VoiceSamples<RS>(k: Kernel<RS>, v: Voice<RS>, buf: seq<real>, xs: seq<real>, y: real)
    : (Voice<RS>, seq<real>, seq<real>)
    requires Fits(v.sch, buf)
    decreases |xs|
  {
    if xs == [] then (v, buf, [])
    else
      var (v1, buf1, y1, out) := VoiceSample(k, v, buf, xs[0], y);
      VoiceSampleFits(k, v, buf, xs[0], y);
      var (v2, buf2, outs) := VoiceSamples(k, v1, buf1, xs[1..], y1);
      (v2, buf2, [out] + outs)
  }

  function VoiceBlock<RS>(k: Kernel<RS>, v: Voice<RS>, buf: seq<real>, xs: seq<real>, y: real)
    : (Voice<RS>, seq<real>, seq<real>)
    requires Fits(v.sch, buf)
  {
    var (v1, buf1, outs) := VoiceSamples(k, v, buf, xs, y);
    (EndBlock(v1), buf1, outs)
  }

  // ---- the write indices stay inside the buffer ----

  lemma AdvanceFits<RS>(w: Rwh<RS>, buf: seq<real>)
    requires Fits(w, buf)
    ensures Fits(Advance(w), buf)
  {
    MovePhasesFits(w, buf);
    MoveFadesFits(MovePhases(w), buf);
    DequeueFits(MoveFades(MovePhases(w)), buf);
    hide MovePhases, MoveFades, Dequeue;
  }

  lemma MoveFadesFits<RS>(w: Rwh<RS>, buf: seq<real>)
    requires Fits(w, buf)
    ensures Fits(MoveFades(w), buf)
  {
  }

  lemma DequeueFits<RS>(w: Rwh<RS>, buf: seq<real>)
    requires Fits(w, buf)
    ensures Fits(Dequeue(w), buf)
  {
  }

  lemma MovePhasesFits<RS>(w: Rwh<RS>, buf: seq<real>)
    requires Fits(w, buf)
    ensures Fits(MovePhases(w), buf)
  {
  }

  lemma SampleFits<RS>(k: Kernel<RS>, w: Rwh<RS>, buf: seq<real>, x: real, write: bool)
    requires Fits(w, buf)
    ensures var (w', buf') := Heads.Sample(k, w, buf, x, write); Fits(w', buf') && |buf'| == |buf|
    ensures !write ==> Heads.Sample(k, w, buf, x, write).1 == buf
  {
    hide Advance;
    var (w1, buf1) := if write then PokeHeads(k, w, buf, x) else (w, buf);
    hide PokeHeads;
    AdvanceFits(w1, buf1);
  }

  lemma InputStageKeeps<RS>(v: Voice<RS>, buf: seq<real>, x: real)
    requires Fits(v.sch, buf)
    ensures var v1 := InputStage(v, x).0;
            Fits(v1.sch, buf) && v1.playFlag == v.playFlag && v1.recFlag == v.recFlag
  {
    hide RampUpdate, FadeInc, StageNext;
  }

  lemma VoiceSampleFits<RS>(k: Kernel<RS>, v: Voice<RS>, buf: seq<real>, x: real, y: real)
    requires Fits(v.sch, buf)
    ensures var (v', buf', _, _) := VoiceSample(k, v, buf, x, y); Fits(v'.sch, buf') && |buf'| == |buf|
    ensures !v.recFlag ==> VoiceSample(k, v, buf, x, y).1 == buf
  {
    InputStageKeeps(v, buf, x);
    var (v1, hx) := InputStage(v, x);
    hide InputStage, StageNext, MixOut, Heads.Sample, Fits;
    SampleFits(k, v1.sch, buf, hx, v.recFlag);
  }

  lemma ControlFits<RS>(k: Kernel<RS>, v: Voice<RS>, buf: seq<real>, op: Op<RS>)
    requires Fits(v.sch, buf)
    ensures Fits(Control(k, v, op).sch, buf)
  {
    hide FadeInc;
    CutToPosFits(v.sch, buf);
    FlagFits(v, buf, op);
    if op.OpReset? { ResetFits(k, v, buf, op.pre, op.post); }
    hide CutToPos, ResetTo, SetRecFlag, SetPlayFlag, SetRecOnceFlag;
  }

  lemma FlagFits<RS>(v: Voice<RS>, buf: seq<real>, op: Op<RS>)
    requires Fits(v.sch, buf)
    ensures op.OpPlay? ==> Fits(SetPlayFlag(v, op.on).sch, buf)
    ensures op.OpRec? ==> Fits(SetRecFlag(v, op.on).sch, buf)
    ensures op.OpRecOnce? ==> Fits(SetRecOnceFlag(v, op.on).sch, buf)
  {
  }

  lemma ResetFits<RS>(k: Kernel<RS>, v: Voice<RS>, buf: seq<real>, pre: Stage, post: Stage)
    requires Fits(v.sch, buf)
    ensures Fits(ResetTo(k, v, pre, post).sch, buf)
  {
    hide FadeInc;
  }

  lemma CutToPosFits<RS>(w: Rwh<RS>, buf: seq<real>)
    requires Fits(w, buf)
    ensures forall sec :: Fits(CutToPos(w, sec), buf)
  {
  }

  // ---- the smoother ----

  function RampAfter(r: Ramp, n: nat): Ramp {
    if n == 0 then r else RampUpdate(RampAfter(r, n - 1))
  }

  function Power(b: real, n: nat): real {
    if n == 0 then 1.0 else Power(b, n - 1) * b
  }

  // Left alone, a level comes nearer to its target by the factor b at every sample.
  lemma {:induction false} RampNears(r: Ramp, n: nat)
    ensures RampAfter(r, n).x0 == r.x0 && RampAfter(r, n).b == r.b
    ensures RampAfter(r, n).y0 - r.x0 == (r.y0 - r.x0) * Power(r.b, n)
  {
    if n > 0 {
      RampNears(r, n - 1);
      var d, p := r.y0 - r.x0, Power(r.b, n - 1);
      assert d * p * r.b == d * (p * r.b);
    }
  }
}
