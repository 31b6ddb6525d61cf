/**
 A voice set to loop and play that has not been cut.

 Only a cut marks the head it makes active.  A voice as it is made, or reset while its
 second head was active, plays with a head that is not marked, and such a head never asks
 for a wrap.
 */
module LoopUncut {
  import opened Heads
  import opened Voices
  import opened HeadSafety
  import opened LoopBound

  // Playing on one head, the other stopped, nothing queued.
  ghost predicate OneHead<RS>(w: Rwh<RS>) {
    var a, o := Head(w, w.active), Head(w, Other(w.active));
    (w.active == 0 || w.active == 1) && a.state.Playing? && o.state.Stopped? && !w.queuedFlag
  }

  function ActivePhase<RS>(v: Voice<RS>): real {
    Head(v.sch, v.sch.active).phase
  }

  predicate Marked<RS>(w: Rwh<RS>) {
    Head(w, w.active).active
  }

  // Looping on one head inside the loop.
  ghost predicate Settled<RS>(v: Voice<RS>, l: Loop) {
    && VoiceInv(v) && v.playFlag && RampWithin(v.rateRamp, l.maxRate) && OneHead(v.sch)
    && v.sch.loopFlag && v.sch.start == l.start && v.sch.end == l.end
    && v.sch.fadeTime == l.fadeTime && v.sch.sr == l.sr && l.maxRate > 0.0
    && l.start <= ActivePhase(v) <= l.end
    && (Marked(v.sch) ==> !Head(v.sch, Other(v.sch.active)).active)
  }

  // Samples one after the other, each with its input and what the reused local held.
  function Samples<RS>(ins: seq<(real, real)>): (steps: seq<Step<RS>>)
    ensures forall step | step in steps :: step.OneSample?
    decreases |ins|
  {
    if ins == [] then [] else [OneSample(ins[0].0, ins[0].1)] + Samples(ins[1..])
  }

  // However long it plays, the active head stays below `bound`.
  ghost predicate StaysBelow<RS>(k: Kernel<RS>, s: World<RS>, bound: real)
    requires Ready(s)
  {
    forall ins :: ActivePhase(RunSteps(k, s, Samples(ins)).v) <= bound
  }

  // ---- unmarked, a head never wraps ----

  ghost predicate Runaway<RS>(v: Voice<RS>, low: real, maxRate: real) {
    && v.playFlag && OneHead(v.sch) && !Marked(v.sch) && RampWithin(v.rateRamp, maxRate)
    && low <= v.rateRamp.x0 && low <= v.rateRamp.y0
  }

  lemma TickRunsOn<RS>(w: Rwh<RS>, rate: real)
    requires OneHead(w) && !Marked(w) && Sized(w)
    ensures var w' := Ticked(w, rate);
            && OneHead(w') && !Marked(w') && w'.active == w.active
            && Head(w', w'.active).phase == Head(w, w.active).phase + rate
  {
    hide FadeInc;
  }

  lemma MotionRunsOn<RS>(a: Rwh<RS>, b: Rwh<RS>)
    requires SameMotion(a, b) && OneHead(a) && !Marked(a)
    ensures OneHead(b) && !Marked(b) && Head(b, b.active).phase == Head(a, a.active).phase
  {
  }

  lemma SampleRunsOn<RS>(k: Kernel<RS>, v: Voice<RS>, buf: seq<real>, x: real, y: real, low: real, maxRate: real)
    requires Fits(v.sch, buf) && Runaway(v, low, maxRate)
    ensures var v' := VoiceSample(k, v, buf, x, y).0;
            && Runaway(v', low, maxRate)
            && ActivePhase(v') == ActivePhase(v) + RampUpdate(v.rateRamp).y0 >= ActivePhase(v) + low
  {
    hide VoiceSample, Ticked, SameMotion, OneHead, Marked, Smooth1Pole, Fits;
    var rate, w := RampUpdate(v.rateRamp).y0, v.sch;
    FitsSized(w, buf);
    SampleTicks(k, v, buf, x, y);
    RampStays(v.rateRamp, maxRate);
    SmoothBetween(v.rateRamp.x0, v.rateRamp.y0, v.rateRamp.b);
    TickRunsOn(w, rate);
    MotionRunsOn(Ticked(w, rate), VoiceSample(k, v, buf, x, y).0.sch);
  }

  lemma FitsSized<RS>(w: Rwh<RS>, buf: seq<real>)
    requires Fits(w, buf)
    ensures Sized(w)
  {
  }

  // After n samples it is n times the slowest rate further on, wherever the loop ends.
  lemma {:induction false} RunsOn<RS>(k: Kernel<RS>, s: World<RS>, ins: seq<(real, real)>, low: real, maxRate: real)
    requires Ready(s) && Runaway(s.v, low, maxRate)
    ensures var s' := RunSteps(k, s, Samples(ins));
            Runaway(s'.v, low, maxRate) && ActivePhase(s'.v) >= ActivePhase(s.v) + |ins| as real * low
    decreases |ins|
  {
    hide Runaway, VoiceSample, Ready, ActivePhase;
    if ins != [] {
      var step: Step<RS> := OneSample(ins[0].0, ins[0].1);
      ReadyFits(s);
      SampleRunsOn(k, s.v, s.buf, ins[0].0, ins[0].1, low, maxRate);
      RunsOn(k, Apply(k, s, step), ins[1..], low, maxRate);
      RunOne(k, s, step, Samples(ins[1..]));
      OneMore(|ins|, low);
    }
  }

  lemma ReadyFits<RS>(s: World<RS>)
    requires Ready(s)
    ensures Fits(s.v.sch, s.buf)
  {
  }

  lemma OneMore(n: nat, low: real)
    requires n > 0
    ensures n as real * low == (n - 1) as real * low + low
  {
  }

  lemma BeyondAny(from: real, low: real, bound: real) returns (n: nat)
    requires low > 0.0
    ensures from + n as real * low > bound
  {
    var q := (bound - from) / low;
    n := if q < 0.0 then 0 else q.Floor + 1;
    assert n as real > q;
    assert (n as real - q) * low > 0.0;
    assert q * low == bound - from;
  }

  // ---- marked or not ----

  lemma SamplesStay<RS>(l: Loop, ins: seq<(real, real)>)
    ensures forall step | step in Samples<RS>(ins) :: StaysInLoop(l, step)
  {
  }

  lemma SettledLoops<RS>(v: Voice<RS>, l: Loop)
    requires Settled(v, l) && Marked(v.sch)
    ensures Looping(v, l, l.start)
  {
    hide SubInv;
  }

  lemma BoundOfRun<RS>(k: Kernel<RS>, s: World<RS>, l: Loop, ins: seq<(real, real)>)
    requires Ready(s) && Looping(s.v, l, l.start)
    ensures ActivePhase(RunSteps(k, s, Samples(ins)).v) <= l.end + Reach(l)
  {
    hide Reach, Looping, LastCut, Ready, StaysInLoop, RunSteps, Samples, Max;
    var steps := Samples<RS>(ins);
    SamplesStay<RS>(l, ins);
    OvershootBound(k, s, l, l.start, steps);
    var c := LastCut(k, s, steps, l.start);
    LoopingCut(RunSteps(k, s, steps).v, l, c);
    ReachPositive(l);
    MaxWithin(l.end, c, Reach(l));
  }

  lemma MaxWithin(end: real, c: real, reach: real)
    requires c <= end && reach >= 0.0
    ensures Max(end, c + reach) <= end + reach
  {
  }

  lemma LoopingCut<RS>(v: Voice<RS>, l: Loop, c: real)
    requires Looping(v, l, c)
    ensures l.start <= c <= l.end
  {
  }

  lemma ReachPositive(l: Loop)
    ensures Reach(l) >= 1.0
  {
  }

  lemma MarkedStays<RS>(k: Kernel<RS>, s: World<RS>, l: Loop)
    requires Ready(s) && Settled(s.v, l) && Marked(s.v.sch)
    ensures StaysBelow(k, s, l.end + Reach(l))
  {
    hide Settled, Marked, Ready, RunSteps, Samples, Reach, Looping, ActivePhase;
    SettledLoops(s.v, l);
    forall ins ensures ActivePhase(RunSteps(k, s, Samples(ins)).v) <= l.end + Reach(l) {
      BoundOfRun(k, s, l, ins);
    }
  }

  lemma SettledRunsAway<RS>(v: Voice<RS>, l: Loop)
    requires Settled(v, l) && !Marked(v.sch)
    ensures var low := Min(v.rateRamp.x0, v.rateRamp.y0); low > 0.0 && Runaway(v, low, l.maxRate)
  {
    hide VoiceInv, OneHead;
  }

  lemma UnmarkedGoes<RS>(k: Kernel<RS>, s: World<RS>, l: Loop, bound: real)
    requires Ready(s) && Settled(s.v, l) && !Marked(s.v.sch)
    ensures !StaysBelow(k, s, bound)
  {
    hide Settled, Marked, Ready, RunSteps, Samples, Runaway, ActivePhase, Min;
    SettledRunsAway(s.v, l);
    var low := Min(s.v.rateRamp.x0, s.v.rateRamp.y0);
    var n := BeyondAny(ActivePhase(s.v), low, bound);
    var ins := seq(n, _ => (0.0, 0.0));
    RunsOn(k, s, ins, low, l.maxRate);
    assert ActivePhase(RunSteps(k, s, Samples(ins)).v) > bound;
  }

  // Left to loop on one head, a voice stays below some bound exactly when that head is
  // marked.
  lemma BoundedIff<RS>(k: Kernel<RS>, s: World<RS>, l: Loop)
    requires Ready(s) && Settled(s.v, l)
    ensures (exists bound :: StaysBelow(k, s, bound)) <==> Marked(s.v.sch)
  {
    hide *;
    if Marked(s.v.sch) {
      MarkedStays(k, s, l);
    } else {
      forall bound ensures !StaysBelow(k, s, bound) { UnmarkedGoes(k, s, l, bound); }
    }
  }

  // ---- how a voice comes to play unmarked ----

  // Reset with its first head unmarked, as it is made or after a cut to its second head;
  // then given a loop's end, loop and play.
  function SetLooping<RS>(k: Kernel<RS>, v: Voice<RS>, sec: real): Voice<RS>
    requires Sized(v.sch)
  {
    var v1 := v.(sch := v.sch.(end := InFrames(sec, v.sch.sr), queuedFlag := false));
    SetPlayFlag(v1.(sch := v1.sch.(loopFlag := true)), true)
  }

  lemma SetLoopingIsControl<RS>(k: Kernel<RS>, v: Voice<RS>, sec: real)
    requires Sized(v.sch)
    ensures SetLooping(k, v, sec)
         == Control(k, Control(k, Control(k, v, OpLoopEnd(sec)), OpLoop(true)), OpPlay(true))
  {
    hide SetPlayFlag;
  }

  lemma ResetPlaysUnmarked<RS>(k: Kernel<RS>, v: Voice<RS>, pre: Stage, post: Stage, sec: real)
    requires Sized(v.sch) && !v.sch.h0.active && 0.0 <= v.rateRamp.b <= 1.0
    requires InFrames(sec, v.sch.sr) >= 0.0
    ensures var r := ResetTo(k, v, pre, post);
            Sized(r.sch)
            && var v' := SetLooping(k, r, sec);
               var l := Loop(0.0, InFrames(sec, v.sch.sr), r.sch.fadeTime, v.sch.sr, 1.0);
               Settled(v', l) && !Marked(v'.sch) && ActivePhase(v') == 0.0
  {
    FreshVoice(k, v, pre, post);
    hide FadeInc, InFrames;
  }
}
