/**
 A voice looping backward is the mirror image of one looping forward: what is proved of
 the one holds of the other.
 */
module LoopBackward {
  import opened Heads
  import opened Voices
  import opened HeadSafety
  import opened LoopBound

  // A position seen from the other end of the loop.
  function Mirror(l: Loop, p: real): real {
    l.start + l.end - p
  }

  function MirrorSub<RS>(l: Loop, h: Sub<RS>): Sub<RS> {
    h.(phase := Mirror(l, h.phase), rate := -h.rate, incDir := -h.incDir)
  }

  function MirrorPair<RS>(l: Loop, w: Rwh<RS>): Rwh<RS> {
    w.(h0 := MirrorSub(l, w.h0), h1 := MirrorSub(l, w.h1), queued := Mirror(l, w.queued), rate := -w.rate)
  }

  predicate OfLoop<RS>(l: Loop, w: Rwh<RS>) {
    w.start == l.start && w.end == l.end && Sized(w)
  }

  // ---- one sample ----

  lemma RateMirrors<RS>(l: Loop, w: Rwh<RS>, rate: real)
    requires rate != 0.0
    ensures SetHeadRate(MirrorPair(l, w), -rate) == MirrorPair(l, SetHeadRate(w, rate))
  {
    assert RealAbs(-rate) == RealAbs(rate);
    assert FadeInc(-rate, w.fadeTime, w.sr) == FadeInc(rate, w.fadeTime, w.sr);
    RateMirrorsSub(l, w.h0, rate);
    RateMirrorsSub(l, w.h1, rate);
    hide FadeInc, MirrorSub, SetRate;
  }

  lemma RateMirrorsSub<RS>(l: Loop, h: Sub<RS>, rate: real)
    requires rate != 0.0
    ensures SetRate(MirrorSub(l, h), -rate) == MirrorSub(l, SetRate(h, rate))
  {
  }

  lemma PhaseMirrors<RS>(l: Loop, h: Sub<RS>, loop: bool)
    requires h.rate != 0.0
    ensures var (h', a) := UpdatePhase(h, l.start, l.end, loop);
            var (m', b) := UpdatePhase(MirrorSub(l, h), l.start, l.end, loop);
            && m' == MirrorSub(l, h') && (a.LoopPos? <==> b.LoopNeg?) && (a.LoopNeg? <==> b.LoopPos?)
  {
  }

  lemma ActionMirrors<RS>(l: Loop, w: Rwh<RS>, a: HeadAction, b: HeadAction)
    requires OfLoop(l, w) && (a.LoopPos? <==> b.LoopNeg?) && (a.LoopNeg? <==> b.LoopPos?)
    ensures TakeAction(MirrorPair(l, w), b) == MirrorPair(l, TakeAction(w, a)) && OfLoop(l, TakeAction(w, a))
  {
  }

  lemma PhasesMirror<RS>(l: Loop, w: Rwh<RS>)
    requires OfLoop(l, w) && w.h0.rate != 0.0 && w.h1.rate != 0.0
    ensures MovePhases(MirrorPair(l, w)) == MirrorPair(l, MovePhases(w)) && OfLoop(l, MovePhases(w))
  {
    hide UpdatePhase, TakeAction, Mirror;
    PhaseMirrors(l, w.h0, w.loopFlag);
    PhaseMirrors(l, w.h1, w.loopFlag);
    var (h0, a0) := UpdatePhase(w.h0, w.start, w.end, w.loopFlag);
    var (h1, a1) := UpdatePhase(w.h1, w.start, w.end, w.loopFlag);
    var b0 := UpdatePhase(MirrorSub(l, w.h0), w.start, w.end, w.loopFlag).1;
    var b1 := UpdatePhase(MirrorSub(l, w.h1), w.start, w.end, w.loopFlag).1;
    PhaseSize(w.h0, w.start, w.end, w.loopFlag);
    PhaseSize(w.h1, w.start, w.end, w.loopFlag);
    ActionMirrors(l, w.(h0 := h0), a0, b0);
    var w1 := TakeAction(w.(h0 := h0), a0);
    ActionShape(w.(h0 := h0), a0);
    ActionMirrors(l, w1.(h1 := h1), a1, b1);
  }

  lemma PhaseSize<RS>(h: Sub<RS>, start: real, end: real, loop: bool)
    ensures UpdatePhase(h, start, end, loop).0.frames == h.frames
  {
  }

  lemma FadesMirror<RS>(l: Loop, w: Rwh<RS>)
    requires OfLoop(l, w)
    ensures MoveFades(MirrorPair(l, w)) == MirrorPair(l, MoveFades(w)) && OfLoop(l, MoveFades(w))
  {
  }

  // The heads a cut leaves: the one that was active, and the one that comes in at `pos`.
  function Leaving<RS>(h: Sub<RS>): Sub<RS> {
    (if h.state.Stopped? then h else SetState(h, FadeOut)).(active := false)
  }

  function Entering<RS>(h: Sub<RS>, pos: real): Sub<RS>
    requires h.frames > 0
  {
    SetPhase(SetState(h, FadeIn), pos).(active := true)
  }

  lemma CutIs<RS>(w: Rwh<RS>, pos: real)
    requires Sized(w) && !Fading(Head(w, w.active).state) && (w.active == 0 || w.active == 1)
    ensures CutToPhase(w, pos)
            == if w.active == 0 then OnceAtCut(w, 1).(h0 := Leaving(w.h0), h1 := Entering(w.h1, pos), active := 1)
               else OnceAtCut(w, 0).(h1 := Leaving(w.h1), h0 := Entering(w.h0, pos), active := 0)
  {
    hide SetState, SetPhase;
  }

  lemma LeavingMirrors<RS>(l: Loop, h: Sub<RS>, pos: real)
    requires h.frames > 0
    ensures Leaving(MirrorSub(l, h)) == MirrorSub(l, Leaving(h))
    ensures SameSub(Entering(MirrorSub(l, h), Mirror(l, pos)), MirrorSub(l, Entering(h, pos)))
  {
  }

  lemma MarksMirror<RS>(l: Loop, w: Rwh<RS>, newActive: nat)
    ensures OnceAtCut(MirrorPair(l, w), newActive) == MirrorPair(l, OnceAtCut(w, newActive))
  {
    hide MirrorSub, Mirror;
    var w1 := if w.onceHead == newActive then w.(onceHead := -1, onceDone := true) else w;
    assert MirrorPair(l, w1)
        == if w.onceHead == newActive then MirrorPair(l, w).(onceHead := -1, onceDone := true) else MirrorPair(l, w);
  }

  // A cut sets the write index besides, which has no mirror image.
  lemma CutMirrors<RS>(l: Loop, w: Rwh<RS>, pos: real)
    requires OfLoop(l, w) && (w.active == 0 || w.active == 1)
    ensures Sized(MirrorPair(l, w))
    ensures SameMotion(CutToPhase(MirrorPair(l, w), Mirror(l, pos)), MirrorPair(l, CutToPhase(w, pos)))
  {
    if Fading(Head(w, w.active).state) {
      SameIsSame(MirrorPair(l, w));
      hide MirrorSub, SameMotion;
    } else {
      CutIs(w, pos);
      CutIs(MirrorPair(l, w), Mirror(l, pos));
      MarksMirror(l, w, Other(w.active));
      LeavingMirrors(l, w.h0, pos);
      LeavingMirrors(l, w.h1, pos);
      hide Leaving, Entering, OnceAtCut, Mirror, CutToPhase, MirrorSub, Fading;
    }
  }

  lemma SameIsSame<RS>(w: Rwh<RS>)
    ensures SameMotion(w, w)
  {
  }

  lemma DequeueMirrors<RS>(l: Loop, w: Rwh<RS>)
    requires OfLoop(l, w) && (w.active == 0 || w.active == 1)
    ensures Sized(MirrorPair(l, w))
    ensures SameMotion(Dequeue(MirrorPair(l, w)), MirrorPair(l, Dequeue(w)))
  {
    CutMirrors(l, w, w.queued);
    hide CutToPhase;
  }

  // A sample at one rate, seen in the mirror, is a sample at the opposite rate.
  lemma TickMirrors<RS>(l: Loop, w: Rwh<RS>, rate: real)
    requires OfLoop(l, w) && rate != 0.0 && (w.active == 0 || w.active == 1)
    ensures Sized(MirrorPair(l, w))
    ensures SameMotion(Ticked(MirrorPair(l, w), -rate), MirrorPair(l, Ticked(w, rate)))
  {
    hide SetHeadRate, MovePhases, MoveFades, Dequeue, SameMotion, MirrorPair;
    var w1 := SetHeadRate(w, rate);
    RateMirrors(l, w, rate);
    RateSet(w, rate);
    PhasesMirror(l, w1);
    FadesMirror(l, MovePhases(w1));
    SameActive(w, rate);
    DequeueMirrors(l, MoveFades(MovePhases(w1)));
    MirrorSize(l, w);
  }

  lemma MirrorSize<RS>(l: Loop, w: Rwh<RS>)
    requires OfLoop(l, w)
    ensures Sized(MirrorPair(l, w))
  {
  }

  lemma SameActive<RS>(w: Rwh<RS>, rate: real)
    ensures MoveFades(MovePhases(SetHeadRate(w, rate))).active == w.active
  {
    PhasesShape(SetHeadRate(w, rate));
    hide MovePhases, UpdateFade, UpdatePhase;
  }

  lemma RateSet<RS>(w: Rwh<RS>, rate: real)
    ensures var w1 := SetHeadRate(w, rate);
            && w1.h0.rate == rate && w1.h1.rate == rate && w1.start == w.start && w1.end == w.end
            && (Sized(w) ==> Sized(w1))
  {
  }

  // ---- a voice looping backward ----

  function Opposite(r: Ramp): Ramp {
    r.(x0 := -r.x0, y0 := -r.y0)
  }

  // Playing and looping at rates in [-R, 0), since the latest cut, which was to c.
  ghost predicate LoopingBack<RS>(v: Voice<RS>, l: Loop, c: real) {
    && VoiceInv(v) && v.playFlag && RampWithin(Opposite(v.rateRamp), l.maxRate)
    && LoopInv(MirrorPair(l, v.sch), l, Mirror(l, c))
  }

  lemma MotionMirrors<RS>(l: Loop, a: Rwh<RS>, b: Rwh<RS>)
    requires SameMotion(a, b)
    ensures SameMotion(MirrorPair(l, a), MirrorPair(l, b))
  {
  }

  lemma RampOpposite(r: Ramp, maxRate: real)
    requires RampWithin(Opposite(r), maxRate)
    ensures RampUpdate(Opposite(r)) == Opposite(RampUpdate(r)) && RampWithin(Opposite(RampUpdate(r)), maxRate)
    ensures -maxRate <= RampUpdate(r).y0 < 0.0
  {
    var x, y, b := r.x0, r.y0, r.b;
    assert (-y + x) * b == -((y - x) * b);
    RampStays(Opposite(r), maxRate);
  }

  lemma BackHas<RS>(v: Voice<RS>, l: Loop, c: real)
    requires LoopingBack(v, l, c)
    ensures v.sch.start == l.start && v.sch.end == l.end && (v.sch.active == 0 || v.sch.active == 1)
    ensures v.playFlag && VoiceInv(v)
  {
    hide Arriving;
  }

  lemma CutSeen<RS>(l: Loop, w: Rwh<RS>, w': Rwh<RS>, c: real)
    ensures LatestCut(MirrorPair(l, w), MirrorPair(l, w'), Mirror(l, c)) == Mirror(l, LatestCut(w, w', c))
  {
  }

  lemma SameCut<RS>(w: Rwh<RS>, a: Rwh<RS>, b: Rwh<RS>, c: real)
    requires SameMotion(a, b)
    ensures LatestCut(w, a, c) == LatestCut(w, b, c)
  {
  }

  lemma PairHas<RS>(w: Rwh<RS>, l: Loop, c: real)
    requires LoopInv(MirrorPair(l, w), l, Mirror(l, c))
    ensures w.start == l.start && w.end == l.end && (w.active == 0 || w.active == 1)
    ensures Sized(w) ==> OfLoop(l, w)
  {
    hide Arriving;
  }

  // The loop's invariant, in the mirror, survives a sample at a backward rate.
  lemma TickKeepsBack<RS>(w: Rwh<RS>, l: Loop, c: real, rate: real)
    requires Sized(w) && LoopInv(MirrorPair(l, w), l, Mirror(l, c)) && -l.maxRate <= rate < 0.0
    ensures var w' := Ticked(w, rate); LoopInv(MirrorPair(l, w'), l, Mirror(l, LatestCut(w, w', c)))
  {
    hide *;
    PairHas(w, l, c);
    TickMirrors(l, w, rate);
    var m := MirrorPair(l, w);
    TickKeeps(m, l, Mirror(l, c), -rate);
    var there, here := Ticked(m, -rate), MirrorPair(l, Ticked(w, rate));
    MotionKeepsLoop(there, here, l, LatestCut(m, there, Mirror(l, c)));
    SameCut(m, there, here, Mirror(l, c));
    CutSeen(l, w, Ticked(w, rate), c);
  }

  lemma MotionKeepsBack<RS>(w: Rwh<RS>, a: Rwh<RS>, b: Rwh<RS>, l: Loop, c: real)
    requires SameMotion(a, b) && LoopInv(MirrorPair(l, a), l, Mirror(l, LatestCut(w, a, c)))
    ensures LoopInv(MirrorPair(l, b), l, Mirror(l, LatestCut(w, b, c)))
  {
    hide LoopInv, MirrorPair, Mirror, LatestCut, SameMotion;
    MotionMirrors(l, a, b);
    MotionKeepsLoop(MirrorPair(l, a), MirrorPair(l, b), l, Mirror(l, LatestCut(w, a, c)));
    SameCut(w, a, b, c);
  }

  lemma FitsSized<RS>(w: Rwh<RS>, buf: seq<real>)
    requires Fits(w, buf)
    ensures Sized(w)
  {
  }

  lemma SampleKeepsBack<RS>(k: Kernel<RS>, v: Voice<RS>, buf: seq<real>, l: Loop, c: real, x: real, y: real)
    requires Fits(v.sch, buf) && LoopingBack(v, l, c)
    ensures var v' := VoiceSample(k, v, buf, x, y).0; LoopingBack(v', l, LatestCut(v.sch, v'.sch, c))
  {
    hide VoiceSample, Ticked, LoopInv, VoiceInv, RampUpdate, SameMotion, Fits, MirrorPair, Mirror, LatestCut,
         RampWithin, Opposite, Sized;
    FitsSized(v.sch, buf);
    SampleKeeps(k, v, buf, x, y);
    SampleTicks(k, v, buf, x, y);
    RampOpposite(v.rateRamp, l.maxRate);
    var r := RampUpdate(v.rateRamp).y0;
    TickKeepsBack(v.sch, l, c, r);
    MotionKeepsBack(v.sch, Ticked(v.sch, r), VoiceSample(k, v, buf, x, y).0.sch, l, c);
  }

  // ---- whole runs ----

  // As for a voice looping forward, with targets in [-R, 0).
  predicate StaysBack<RS>(l: Loop, step: Step<RS>) {
    match step
    case Do(OpRate(target)) => -l.maxRate <= target < 0.0
    case _ => StaysInLoop(l, step)
  }

  lemma MarksMirrored<RS>(l: Loop, a: Rwh<RS>, b: Rwh<RS>)
    requires SameButMarks(a, b)
    ensures SameButMarks(MirrorPair(l, a), MirrorPair(l, b))
  {
  }

  lemma MarksKeepBack<RS>(a: Rwh<RS>, b: Rwh<RS>, l: Loop, c: real)
    requires SameButMarks(a, b) && LoopInv(MirrorPair(l, a), l, Mirror(l, c)) && HeadInv(b)
    ensures LoopInv(MirrorPair(l, b), l, Mirror(l, c)) && LatestCut(a, b, c) == c
  {
    MarksMirrored(l, a, b);
    assert HeadInv(MirrorPair(l, b));
    MarksKeepLoop(MirrorPair(l, a), MirrorPair(l, b), l, Mirror(l, c));
    hide LoopInv, MirrorSub;
  }

  lemma CutToMirrors<RS>(l: Loop, w: Rwh<RS>, pos: real)
    requires OfLoop(l, w) && (w.active == 0 || w.active == 1)
    ensures Sized(MirrorPair(l, w))
    ensures SameMotion(CutTo(MirrorPair(l, w), Mirror(l, pos)), MirrorPair(l, CutTo(w, pos)))
  {
    CutMirrors(l, w, pos);
    SameIsSame(MirrorPair(l, Enqueue(w, pos)));
    hide CutToPhase, SameMotion, Mirror;
  }

  lemma CutKeepsBack<RS>(w: Rwh<RS>, l: Loop, c: real, pos: real)
    requires Sized(w) && LoopInv(MirrorPair(l, w), l, Mirror(l, c)) && l.start <= pos <= l.end
    ensures LoopInv(MirrorPair(l, CutTo(w, pos)), l, Mirror(l, LatestCut(w, CutTo(w, pos), c)))
  {
    PairHas(w, l, c);
    CutToMirrors(l, w, pos);
    assert l.start <= Mirror(l, pos) <= l.end;
    hide CutTo, LoopInv, SameMotion, MirrorPair, Mirror, LatestCut;
    var m := MirrorPair(l, w);
    CutKeepsLoop(m, l, Mirror(l, c), Mirror(l, pos));
    var there, here := CutTo(m, Mirror(l, pos)), MirrorPair(l, CutTo(w, pos));
    MotionKeepsLoop(there, here, l, LatestCut(m, there, Mirror(l, c)));
    SameCut(m, there, here, Mirror(l, c));
    CutSeen(l, w, CutTo(w, pos), c);
  }

  lemma QuietOpBack<RS>(k: Kernel<RS>, v: Voice<RS>, l: Loop, c: real, op: Op<RS>)
    requires Sized(v.sch) && LoopingBack(v, l, c) && StaysBack(l, Do(op)) && !op.OpCut?
    ensures var v' := Control(k, v, op);
            && v'.playFlag && RampWithin(Opposite(v'.rateRamp), l.maxRate)
            && SameButMarks(v.sch, v'.sch)
  {
    LoopConstants(MirrorPair(l, v.sch), l, Mirror(l, c));
    FlagsLeaveMotion(v, if op.OpRec? || op.OpRecOnce? then op.on else true);
    hide SetRecFlag, SetRecOnceFlag, SetPlayFlag, LoopInv, HeadInv;
  }

  lemma VoiceCutBack<RS>(k: Kernel<RS>, v: Voice<RS>, l: Loop, c: real, sec: real)
    requires Sized(v.sch) && LoopingBack(v, l, c) && l.start <= InFrames(sec, l.sr) <= l.end
    ensures var v' := Control(k, v, OpCut(sec));
            && LoopInv(MirrorPair(l, v'.sch), l, Mirror(l, LatestCut(v.sch, v'.sch, c)))
            && v'.playFlag && v'.rateRamp == v.rateRamp
  {
    LoopConstants(MirrorPair(l, v.sch), l, Mirror(l, c));
    CutKeepsBack(v.sch, l, c, InFrames(sec, v.sch.sr));
    hide LoopInv, CutTo, LatestCut, InFrames;
  }

  lemma OpKeepsBack<RS>(k: Kernel<RS>, v: Voice<RS>, l: Loop, c: real, op: Op<RS>)
    requires Sized(v.sch) && LoopingBack(v, l, c) && StaysBack(l, Do(op))
    ensures var v' := Control(k, v, op); LoopingBack(v', l, LatestCut(v.sch, v'.sch, c))
  {
    ControlKeeps(k, v, op);
    if op.OpCut? {
      VoiceCutBack(k, v, l, c, op.sec);
    } else {
      QuietOpBack(k, v, l, c, op);
      MarksKeepBack(v.sch, Control(k, v, op).sch, l, c);
    }
    hide Control, LatestCut, LoopInv, HeadInv, RampWithin, Mirror, MirrorPair;
  }

  lemma FinishKeepsBack<RS>(v: Voice<RS>, l: Loop, c: real)
    requires LoopingBack(v, l, c)
    ensures LoopingBack(EndBlock(v), l, LatestCut(v.sch, EndBlock(v).sch, c))
  {
    hide LoopInv, Mirror, MirrorPair, RampWithin;
    MarksKeepBack(v.sch, EndBlock(v).sch, l, c);
  }

  lemma StepKeepsBack<RS>(k: Kernel<RS>, s: World<RS>, l: Loop, c: real, step: Step<RS>)
    requires Ready(s) && LoopingBack(s.v, l, c) && StaysBack(l, step)
    ensures var s' := Apply(k, s, step); LoopingBack(s'.v, l, LatestCut(s.v.sch, s'.v.sch, c))
  {
    hide LoopingBack, LatestCut;
    match step
    case Do(op) => OpKeepsBack(k, s.v, l, c, op); hide Control;
    case OneSample(x, y) => SampleKeepsBack(k, s.v, s.buf, l, c, x, y); hide VoiceSample;
    case Finish => FinishKeepsBack(s.v, l, c); hide EndBlock;
  }

  lemma BoundBack<RS>(v: Voice<RS>, l: Loop, c: real)
    requires LoopingBack(v, l, c)
    ensures Min(l.start, c - Reach(l)) <= Head(v.sch, v.sch.active).phase <= l.end
  {
    hide VoiceInv, RampWithin, LoopInv, Reach;
    BoundOfInv(MirrorPair(l, v.sch), l, Mirror(l, c));
  }

  // Backward, the active head is inside the loop, or before its start by no more than
  // max(F, R) from the latest cut, after any samples, block ends, cuts into the loop,
  // backward rates and recording switches.
  lemma {:induction false} OvershootBack<RS>(k: Kernel<RS>, s: World<RS>, l: Loop, c: real, steps: seq<Step<RS>>)
    requires Ready(s) && LoopingBack(s.v, l, c) && forall step | step in steps :: StaysBack(l, step)
    ensures var s', c' := RunSteps(k, s, steps), LastCut(k, s, steps, c);
            && LoopingBack(s'.v, l, c')
            && Min(l.start, c' - Reach(l)) <= Head(s'.v.sch, s'.v.sch.active).phase <= l.end
    decreases |steps|
  {
    hide LoopingBack, Apply, LatestCut, StaysBack, Reach, Ready, Head, Min;
    if steps == [] {
      BoundBack(s.v, l, c);
    } else {
      assert StaysBack(l, steps[0]);
      var s1 := Apply(k, s, steps[0]);
      StepKeepsBack(k, s, l, c, steps[0]);
      assert forall step | step in steps[1..] :: step in steps;
      OvershootBack(k, s1, l, LatestCut(s.v.sch, s1.v.sch, c), steps[1..]);
    }
  }

  // A cut on a settled head with a stopped partner starts such a run.
  lemma CutStartsBack<RS>(k: Kernel<RS>, s: World<RS>, l: Loop, sec: real)
    requires Ready(s) && VoiceInv(s.v) && s.v.playFlag && RampWithin(Opposite(s.v.rateRamp), l.maxRate)
    requires var w := s.v.sch;
             && w.loopFlag && w.start == l.start && w.end == l.end && w.fadeTime == l.fadeTime && w.sr == l.sr
             && l.maxRate > 0.0 && !Fading(Head(w, w.active).state) && Head(w, Other(w.active)).state.Stopped?
             && (w.queuedFlag ==> l.start <= w.queued <= l.end)
    requires l.start <= InFrames(sec, l.sr) <= l.end
    ensures LoopingBack(Apply(k, s, Do(OpCut(sec))).v, l, InFrames(sec, l.sr))
  {
    var pos, w := InFrames(sec, l.sr), s.v.sch;
    ControlKeeps(k, s.v, OpCut(sec));
    assert CutTo(w, pos) == Control(k, s.v, OpCut(sec)).sch;
    PairStartsBack(w, l, pos);
    hide CutTo, InFrames, LoopInv, HeadInv, MirrorPair, Mirror;
  }

  lemma PairStartsBack<RS>(w: Rwh<RS>, l: Loop, pos: real)
    requires HeadInv(w) && Sized(w) && w.loopFlag
    requires w.start == l.start && w.end == l.end && w.fadeTime == l.fadeTime && w.sr == l.sr && l.maxRate > 0.0
    requires !Fading(Head(w, w.active).state) && Head(w, Other(w.active)).state.Stopped?
    requires l.start <= pos <= l.end && (w.queuedFlag ==> l.start <= w.queued <= l.end)
    ensures LoopInv(MirrorPair(l, CutTo(w, pos)), l, Mirror(l, pos))
  {
    CutToMirrors(l, w, pos);
    var m := MirrorPair(l, w);
    assert HeadInv(m);
    CutStartsLoop(m, l, Mirror(l, pos));
    MotionKeepsLoop(CutTo(m, Mirror(l, pos)), MirrorPair(l, CutTo(w, pos)), l, Mirror(l, pos));
  }
}
