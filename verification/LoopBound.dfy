/**
 How far the head of a looping voice can run past its loop, over any run of the voice.

 Forward rates lie in (0, R] and may change at every sample; F is the fade length
 in samples; the loop points are fixed.  Cuts may be asked for at any time, to any
 position inside the loop, and recording may be switched at any time.
 */
module LoopBound {
  import opened Heads
  import opened Voices
  import opened HeadSafety

  // What a sample does to the pair, the writing apart.
  function Ticked<RS>(w: Rwh<RS>, rate: real): Rwh<RS>
    requires Sized(w)
  {
    Advance(SetHeadRate(w, rate))
  }

  // Loop points, fade time, sample rate and the bound on rates, all fixed.
  datatype Loop = Loop(start: real, end: real, fadeTime: real, sr: real, maxRate: real)

  // The fade length in samples.
  function FadeLength(l: Loop): (f: real)
    ensures f >= 1.0
  {
    Max(1.0, l.fadeTime * l.sr)
  }

  function Reach(l: Loop): real {
    Max(FadeLength(l), l.maxRate)
  }

  // Where an arriving head can be: a fade's length from the cut, or one sample at
  // a rate so fast that it is fully faded already.
  predicate Arriving(phase: real, fade: real, l: Loop, c: real) {
    || phase - c <= FadeLength(l) * fade
    || (fade == 1.0 && phase - c <= l.maxRate)
  }

  predicate LoopInv<RS>(w: Rwh<RS>, l: Loop, c: real) {
    var a, o := Head(w, w.active), Head(w, Other(w.active));
    && HeadInv(w)
    && w.loopFlag && w.start == l.start && w.end == l.end && l.start <= l.end
    && w.fadeTime == l.fadeTime && w.sr == l.sr && l.maxRate > 0.0
    && a.active && !o.active
    && l.start <= c <= l.end
    && (w.queuedFlag ==> l.start <= w.queued <= l.end)
    && l.start <= a.phase
    && ((a.state.Playing? && o.state.Stopped? && a.phase <= l.end && !w.queuedFlag)
        || (a.state.FadeIn? && Arriving(a.phase, a.fade, l, c) && (o.state.Stopped? || a.fade + o.fade <= 1.0)))
  }

  // Within the loop, or past it by no more than a fade from the last cut.
  lemma BoundOfInv<RS>(w: Rwh<RS>, l: Loop, c: real)
    requires LoopInv(w, l, c)
    ensures l.start <= Head(w, w.active).phase <= Max(l.end, c + Reach(l))
  {
    hide FadeLength;
    var a := Head(w, w.active);
    if Arriving(a.phase, a.fade, l, c) { ArrivingReach(a.phase, a.fade, FadeLength(l), l.maxRate, c); }
  }

  lemma ArrivingReach(phase: real, fade: real, f: real, maxRate: real, c: real)
    requires 0.0 <= fade <= 1.0 && f >= 1.0
    requires phase - c <= f * fade || phase - c <= maxRate
    ensures phase <= c + Max(f, maxRate)
  {
    ShrunkBy(f, fade);
  }

  lemma ShrunkBy(x: real, f: real)
    requires x >= 0.0 && 0.0 <= f <= 1.0
    ensures x * f <= x
  {
  }

  // A fade increment that pays for the distance travelled at `rate`.
  predicate Pays(inc: real, rate: real, f: real) {
    0.0 < inc <= 1.0 && (rate <= f ==> inc * f == rate) && (rate > f ==> inc == 1.0)
  }

  // The increment of one sample at a forward rate.
  lemma ForwardInc(rate: real, l: Loop)
    requires rate > 0.0
    ensures Pays(FadeInc(rate, l.fadeTime, l.sr), rate, FadeLength(l))
  {
    var f := FadeLength(l);
    Quotient(rate, f, rate / f);
  }

  lemma Quotient(rate: real, f: real, q: real)
    requires f > 0.0 && rate > 0.0 && q * f == rate
    ensures q > 0.0 && (rate <= f ==> q <= 1.0) && (rate > f ==> q >= 1.0)
  {
    Shifted(q, f);
    Shifted(q - 1.0, f);
    assert (q - 1.0) * f == rate - f;
  }

  lemma Shifted(d: real, f: real)
    requires f > 0.0
    ensures d > 0.0 ==> d * f > 0.0
    ensures d < 0.0 ==> d * f < 0.0
  {
  }

  // One sample of an arriving head, before any cut is taken.
  lemma ArrivingTick(phase: real, fade: real, rate: real, inc: real, l: Loop, c: real)
    requires 0.0 <= fade && 0.0 < rate <= l.maxRate && Pays(inc, rate, FadeLength(l))
    requires Arriving(phase, fade, l, c) && fade + inc <= 1.0
    ensures Arriving(phase + rate, fade + inc, l, c)
  {
    var f := FadeLength(l);
    hide FadeLength;
    if rate <= f {
      assert f * (fade + inc) == f * fade + inc * f;
    } else {
      assert fade == 0.0;
    }
  }

  // What a sample makes of a pair, before a queued cut is taken.
  lemma MidSample<RS>(w: Rwh<RS>, l: Loop, c: real, rate: real)
    requires LoopInv(w, l, c) && 0.0 < rate <= l.maxRate
    ensures var w1 := SetHeadRate(w, rate);
            var w2 := MovePhases(w1);
            var a, a2 := Head(w, w.active), Head(w2, w2.active);
            && w2.active == w.active && a2.phase == a.phase + rate && a2.state == a.state
            && a2.fade == a.fade && a2.active && !Head(w2, Other(w.active)).active
            && Head(w2, Other(w.active)).state == Head(w, Other(w.active)).state
            && Head(w2, Other(w.active)).fade == Head(w, Other(w.active)).fade
            && w2.fadeInc == FadeInc(rate, w.fadeTime, w.sr)
            && w2.queuedFlag == (w.queuedFlag || a2.phase > l.end)
            && (w2.queuedFlag ==> l.start <= w2.queued <= l.end)
            && w2.loopFlag && w2.start == w.start && w2.end == w.end
            && w2.fadeTime == w.fadeTime && w2.sr == w.sr
            && w2.onceFlag == w.onceFlag && w2.onceDone == w.onceDone && w2.onceHead == w.onceHead
  {
    hide FadeInc, LoopInv, UpdatePhase, MovePhases;
    LoopFacts(w, l, c);
    var w1 := SetHeadRate(w, rate);
    LoopingStep(w1.h0, w1.start, w1.end);
    LoopingStep(w1.h1, w1.start, w1.end);
    PhasesShape(w1);
    MidQueue(w1, l);
  }

  lemma LoopFacts<RS>(w: Rwh<RS>, l: Loop, c: real)
    requires LoopInv(w, l, c)
    ensures var a, o := Head(w, w.active), Head(w, Other(w.active));
            && (w.active == 0 || w.active == 1) && w.loopFlag && w.start == l.start <= w.end == l.end
            && a.active && !o.active && !a.state.Stopped? && l.start <= a.phase
            && (w.queuedFlag ==> l.start <= w.queued <= l.end)
  {
    hide Arriving, SubInv;
  }

  // A step of one head while looping.
  lemma LoopingStep<RS>(h: Sub<RS>, start: real, end: real)
    ensures var (h', act) := UpdatePhase(h, start, end, true);
            && h'.state == h.state && h'.fade == h.fade && h'.active == h.active
            && (!h.state.Stopped? ==> h'.phase == h.phase + h.rate)
            && (act.NoAction? <==> h.state.Stopped? || !h.active || !OutOfLoop(h.phase + h.rate, start, end))
            && !act.StopAction? && (act.LoopPos? ==> h.rate > 0.0) && (act.LoopNeg? ==> h.rate <= 0.0)
  {
  }

  // Only the active head, past the end, asks for a wrap.
  lemma MidQueue<RS>(w: Rwh<RS>, l: Loop)
    requires (w.active == 0 || w.active == 1) && w.loopFlag && w.start == l.start <= w.end == l.end
    requires w.h0.rate == w.h1.rate > 0.0
    requires var a, o := Head(w, w.active), Head(w, Other(w.active));
             a.active && !o.active && !a.state.Stopped? && l.start <= a.phase
    ensures var m, a := MovePhases(w), Head(w, w.active);
            && m.queuedFlag == (w.queuedFlag || a.phase + a.rate > l.end)
            && (m.queuedFlag ==> (w.queuedFlag && m.queued == w.queued) || m.queued == l.start)
  {
    LoopingStep(w.h0, w.start, w.end);
    LoopingStep(w.h1, w.start, w.end);
    hide UpdatePhase;
    var (h0, a0) := UpdatePhase(w.h0, w.start, w.end, w.loopFlag);
    var w1 := TakeAction(w.(h0 := h0), a0);
    var (h1, a1) := UpdatePhase(w1.h1, w1.start, w1.end, w1.loopFlag);
    assert a0.NoAction? || a0.LoopPos?;
    assert w1.h1 == w.h1 && w1.start == w.start && w1.end == w.end && w1.loopFlag;
    assert a1.NoAction? || a1.LoopPos?;
  }

  // The loop invariant survives a sample: a head still arriving has travelled no
  // further than its fade allows, and one that has arrived past the end is sent
  // back to the start within the same sample.
  lemma TickKeeps<RS>(w: Rwh<RS>, l: Loop, c: real, rate: real)
    requires LoopInv(w, l, c) && 0.0 < rate <= l.maxRate && Sized(w)
    ensures var w' := Ticked(w, rate); LoopInv(w', l, LatestCut(w, w', c))
  {
    MidSample(w, l, c, rate);
    HeadRateKeeps(w, rate);
    PhasesKeep(SetHeadRate(w, rate));
    var w2 := MovePhases(SetHeadRate(w, rate));
    FadesKeep(w2);
    var w3 := MoveFades(w2);
    DequeueKeeps(w3);
    assert Ticked(w, rate) == Dequeue(w3);
    AfterPhases(w, w2, l, c, rate);
    AfterFades(w2, l, c);
    hide LoopInv, Midway, Pending, MovePhases, MoveFades, Dequeue, SetHeadRate;
    AfterDequeue(w3, l, c);
  }

  // The latest cut position: where a newly active head starts.
  function LatestCut<RS>(w: Rwh<RS>, w': Rwh<RS>, c: real): real {
    if w'.active == w.active then c else Head(w', w'.active).phase
  }

  lemma HeadRateKeeps<RS>(w: Rwh<RS>, rate: real)
    requires HeadInv(w)
    ensures HeadInv(SetHeadRate(w, rate))
  {
  }

  // Between the fades and the queued cut.
  predicate Pending<RS>(w: Rwh<RS>, l: Loop, c: real) {
    var a, o := Head(w, w.active), Head(w, Other(w.active));
    && HeadInv(w)
    && w.loopFlag && w.start == l.start && w.end == l.end && l.start <= l.end
    && w.fadeTime == l.fadeTime && w.sr == l.sr && l.maxRate > 0.0
    && a.active && !o.active
    && l.start <= c <= l.end && l.start <= a.phase
    && (w.queuedFlag ==> l.start <= w.queued <= l.end)
    && ((a.state.Playing? && o.state.Stopped? && (a.phase <= l.end || w.queuedFlag))
        || (a.state.FadeIn? && Arriving(a.phase, a.fade, l, c) && (o.state.Stopped? || a.fade + o.fade <= 1.0)))
  }

  // Between the phases and the fades.
  predicate Midway<RS>(w: Rwh<RS>, l: Loop, c: real) {
    var a, o := Head(w, w.active), Head(w, Other(w.active));
    && HeadInv(w) && w.fadeInc > 0.0
    && w.loopFlag && w.start == l.start && w.end == l.end && l.start <= l.end
    && w.fadeTime == l.fadeTime && w.sr == l.sr && l.maxRate > 0.0
    && a.active && !o.active
    && l.start <= c <= l.end && l.start <= a.phase
    && (w.queuedFlag ==> l.start <= w.queued <= l.end)
    && (a.phase <= l.end || w.queuedFlag)
    && ((a.state.Playing? && o.state.Stopped?)
        || (a.state.FadeIn? && (a.fade + w.fadeInc <= 1.0 ==> Arriving(a.phase, a.fade + w.fadeInc, l, c))
            && (o.state.Stopped? || a.fade + o.fade <= 1.0)))
  }

  lemma LoopArrives<RS>(w: Rwh<RS>, l: Loop, c: real)
    requires LoopInv(w, l, c)
    ensures var a := Head(w, w.active); 0.0 <= a.fade && (a.state.FadeIn? ==> Arriving(a.phase, a.fade, l, c))
    ensures w.fadeTime == l.fadeTime && w.sr == l.sr
  {
    hide Arriving;
  }

  lemma ArrivesAfterTick<RS>(w: Rwh<RS>, l: Loop, c: real, rate: real)
    requires LoopInv(w, l, c) && 0.0 < rate <= l.maxRate
    ensures var a, inc := Head(w, w.active), FadeInc(rate, w.fadeTime, w.sr);
            && inc > 0.0
            && (a.state.FadeIn? && a.fade + inc <= 1.0 ==> Arriving(a.phase + rate, a.fade + inc, l, c))
  {
    var a, inc := Head(w, w.active), FadeInc(rate, w.fadeTime, w.sr);
    LoopArrives(w, l, c);
    ForwardInc(rate, l);
    assert inc > 0.0;
    hide FadeInc, HeadInv, LoopInv, Pays, Arriving;
    if a.state.FadeIn? && a.fade + inc <= 1.0 {
      ArrivingTick(a.phase, a.fade, rate, inc, l, c);
    }
  }

  lemma AfterPhases<RS>(w: Rwh<RS>, w2: Rwh<RS>, l: Loop, c: real, rate: real)
    requires LoopInv(w, l, c) && 0.0 < rate <= l.maxRate
    requires w2 == MovePhases(SetHeadRate(w, rate)) && HeadInv(w2)
    ensures Midway(w2, l, c)
  {
    MidSample(w, l, c, rate);
    ArrivesAfterTick(w, l, c, rate);
    hide MovePhases, SetHeadRate, FadeInc, FadeLength, HeadInv, Arriving;
  }

  lemma AfterFades<RS>(w: Rwh<RS>, l: Loop, c: real)
    requires Midway(w, l, c) && HeadInv(MoveFades(w))
    ensures Pending(MoveFades(w), l, c)
  {
    hide Arriving, FadeLength;
  }

  lemma AfterDequeue<RS>(w: Rwh<RS>, l: Loop, c: real)
    requires Pending(w, l, c) && Sized(w) && HeadInv(Dequeue(w))
    ensures LoopInv(Dequeue(w), l, LatestCut(w, Dequeue(w), c))
  {
    hide FadeLength;
  }

  // A cut to a position inside the loop, taken at once or queued.
  lemma CutKeepsLoop<RS>(w: Rwh<RS>, l: Loop, c: real, pos: real)
    requires LoopInv(w, l, c) && l.start <= pos <= l.end && Sized(w)
    ensures LoopInv(CutTo(w, pos), l, LatestCut(w, CutTo(w, pos), c))
  {
    CutKeeps(w, pos);
    hide FadeLength;
  }

  // A cut on a settled head whose partner is stopped starts the story.
  lemma CutStartsLoop<RS>(w: Rwh<RS>, l: Loop, pos: real)
    requires HeadInv(w) && Sized(w) && w.loopFlag
    requires w.start == l.start && w.end == l.end && w.fadeTime == l.fadeTime && w.sr == l.sr && l.maxRate > 0.0
    requires !Fading(Head(w, w.active).state) && Head(w, Other(w.active)).state.Stopped?
    requires l.start <= pos <= l.end && (w.queuedFlag ==> l.start <= w.queued <= l.end)
    ensures LoopInv(CutTo(w, pos), l, pos) && Head(CutTo(w, pos), CutTo(w, pos).active).phase == pos
  {
    CutKeeps(w, pos);
    hide FadeLength;
  }

  // ---- a voice's samples move its head so ----

  // The same but for what the writing uses: resampler, write index and levels.
  ghost predicate SameMotion<RS>(a: Rwh<RS>, b: Rwh<RS>) {
    && SameSub(a.h0, b.h0) && SameSub(a.h1, b.h1)
    && b == a.(h0 := b.h0, h1 := b.h1, pre := b.pre, rec := b.rec)
  }

  ghost predicate SameSub<RS>(a: Sub<RS>, b: Sub<RS>) {
    b == a.(wrIdx := b.wrIdx, resamp := b.resamp)
  }

  lemma SubsMoveAlike<RS>(a: Sub<RS>, b: Sub<RS>, start: real, end: real, loop: bool, inc: real)
    requires SameSub(a, b)
    ensures SameSub(UpdatePhase(a, start, end, loop).0, UpdatePhase(b, start, end, loop).0)
    ensures UpdatePhase(a, start, end, loop).1 == UpdatePhase(b, start, end, loop).1
    ensures SameSub(UpdateFade(a, inc), UpdateFade(b, inc))
  {
  }

  lemma PhasesMoveAlike<RS>(a: Rwh<RS>, b: Rwh<RS>)
    requires SameMotion(a, b)
    ensures SameMotion(MovePhases(a), MovePhases(b))
  {
    SubsMoveAlike(a.h0, b.h0, a.start, a.end, a.loopFlag, 0.0);
    SubsMoveAlike(a.h1, b.h1, a.start, a.end, a.loopFlag, 0.0);
    hide UpdatePhase, UpdateFade, SameSub;
  }

  lemma FadesMoveAlike<RS>(a: Rwh<RS>, b: Rwh<RS>)
    requires SameMotion(a, b)
    ensures SameMotion(MoveFades(a), MoveFades(b))
  {
    SubsMoveAlike(a.h0, b.h0, 0.0, 0.0, false, a.fadeInc);
    SubsMoveAlike(a.h1, b.h1, 0.0, 0.0, false, a.fadeInc);
    hide UpdatePhase, UpdateFade, SameSub;
  }

  lemma SubsCutAlike<RS>(a: Sub<RS>, b: Sub<RS>, pos: real)
    requires SameSub(a, b) && a.frames > 0
    ensures forall st :: SameSub(SetState(a, st), SetState(b, st))
    ensures SameSub(SetPhase(SetState(a, FadeIn), pos), SetPhase(SetState(b, FadeIn), pos))
  {
  }

  lemma CutsMoveAlike<RS>(a: Rwh<RS>, b: Rwh<RS>, pos: real)
    requires SameMotion(a, b) && Sized(a) && Sized(b)
    ensures SameMotion(CutToPhase(a, pos), CutToPhase(b, pos))
  {
    SubsCutAlike(a.h0, b.h0, pos);
    SubsCutAlike(a.h1, b.h1, pos);
    MarksCutAlike(a, b, Other(a.active));
    hide SetState, SetPhase, OnceAtCut;
    if a.active == 0 { CutsAlikeFrom0(a, b, pos); } else { CutsAlikeFrom1(a, b, pos); }
    hide *;
  }

  lemma MarksCutAlike<RS>(a: Rwh<RS>, b: Rwh<RS>, newActive: nat)
    requires SameMotion(a, b)
    ensures SameMotion(OnceAtCut(a, newActive), OnceAtCut(b, newActive))
  {
    hide SameSub;
  }

  lemma CutsAlikeFrom0<RS>(a: Rwh<RS>, b: Rwh<RS>, pos: real)
    requires SameMotion(a, b) && Sized(a) && Sized(b) && a.active == 0 && SameMotion(OnceAtCut(a, 1), OnceAtCut(b, 1))
    requires SameSub(SetState(a.h0, FadeOut), SetState(b.h0, FadeOut))
    requires SameSub(SetPhase(SetState(a.h1, FadeIn), pos), SetPhase(SetState(b.h1, FadeIn), pos))
    ensures SameMotion(CutToPhase(a, pos), CutToPhase(b, pos))
  {
    hide SetState, SetPhase, OnceAtCut;
  }

  lemma CutsAlikeFrom1<RS>(a: Rwh<RS>, b: Rwh<RS>, pos: real)
    requires SameMotion(a, b) && Sized(a) && Sized(b) && a.active != 0 && SameMotion(OnceAtCut(a, 0), OnceAtCut(b, 0))
    requires SameSub(SetState(a.h1, FadeOut), SetState(b.h1, FadeOut))
    requires SameSub(SetPhase(SetState(a.h0, FadeIn), pos), SetPhase(SetState(b.h0, FadeIn), pos))
    ensures SameMotion(CutToPhase(a, pos), CutToPhase(b, pos))
  {
    hide SetState, SetPhase, OnceAtCut;
  }

  lemma DequeuesMoveAlike<RS>(a: Rwh<RS>, b: Rwh<RS>)
    requires SameMotion(a, b) && Sized(a) && Sized(b)
    ensures SameMotion(Dequeue(a), Dequeue(b))
  {
    CutsMoveAlike(a, b, a.queued);
    hide CutToPhase;
  }

  lemma AdvancesMoveAlike<RS>(a: Rwh<RS>, b: Rwh<RS>)
    requires SameMotion(a, b) && Sized(a) && Sized(b)
    ensures SameMotion(Advance(a), Advance(b))
  {
    PhasesMoveAlike(a, b);
    FadesMoveAlike(MovePhases(a), MovePhases(b));
    DequeuesMoveAlike(MoveFades(MovePhases(a)), MoveFades(MovePhases(b)));
    hide MovePhases, MoveFades, Dequeue, SameMotion;
  }

  lemma PokeMovesNothing<RS>(k: Kernel<RS>, w: Rwh<RS>, buf: seq<real>, i: int, x: real)
    requires Fits(w, buf)
    ensures SameMotion(w, PokeHead(k, w, buf, i, x).0)
  {
    hide Write, Clipped;
  }

  lemma PokesMoveNothing<RS>(k: Kernel<RS>, w: Rwh<RS>, buf: seq<real>, x: real)
    requires Fits(w, buf)
    ensures SameMotion(w, PokeHeads(k, w, buf, x).0)
  {
    PokeMovesNothing(k, w, buf, w.onceHead, x);
    PokeMovesNothing(k, w, buf, 0, x);
    var (w1, buf1) := PokeHead(k, w, buf, 0, x);
    PokeMovesNothing(k, w1, buf1, 1, x);
    hide PokeHead, Fits;
  }

  // Playing, a sample of the voice moves phases, fades and the queued cut as the bare
  // heads move at the smoothed rate.
  lemma SampleTicks<RS>(k: Kernel<RS>, v: Voice<RS>, buf: seq<real>, x: real, y: real)
    requires Fits(v.sch, buf) && v.playFlag
    ensures var v' := VoiceSample(k, v, buf, x, y).0;
            && SameMotion(Ticked(v.sch, RampUpdate(v.rateRamp).y0), v'.sch)
            && v'.rateRamp == RampUpdate(v.rateRamp) && v'.playFlag
  {
    InputStageKeeps(v, buf, x);
    InputMoves(v, x);
    var (v1, hx) := InputStage(v, x);
    HeadSampleTicks(k, v1.sch, SetHeadRate(v.sch, RampUpdate(v.rateRamp).y0), buf, hx, v.recFlag);
    hide InputStage, Heads.Sample, StageNext, MixOut, SetHeadRate, Advance, SameMotion, Fits;
  }

  lemma InputMoves<RS>(v: Voice<RS>, x: real)
    ensures var v1 := InputStage(v, x).0;
            && SameMotion(SetHeadRate(v.sch, RampUpdate(v.rateRamp).y0), v1.sch)
            && v1.rateRamp == RampUpdate(v.rateRamp)
  {
    hide RampUpdate, StageNext, FadeInc;
  }

  lemma HeadSampleTicks<RS>(k: Kernel<RS>, w: Rwh<RS>, w0: Rwh<RS>, buf: seq<real>, x: real, write: bool)
    requires Fits(w, buf) && SameMotion(w0, w) && Sized(w0)
    ensures SameMotion(Advance(w0), Heads.Sample(k, w, buf, x, write).0)
  {
    var w1 := if write then PokeHeads(k, w, buf, x).0 else w;
    if write { PokesMoveNothing(k, w, buf, x); MotionTrans(w0, w, w1); }
    hide PokeHeads;
    AdvancesMoveAlike(w0, w1);
    hide Advance, SameMotion;
  }

  lemma MotionTrans<RS>(a: Rwh<RS>, b: Rwh<RS>, c: Rwh<RS>)
    requires SameMotion(a, b) && SameMotion(b, c)
    ensures SameMotion(a, c)
  {
  }

  lemma MotionKeepsLoop<RS>(a: Rwh<RS>, b: Rwh<RS>, l: Loop, c: real)
    requires SameMotion(a, b) && LoopInv(a, l, c)
    ensures LoopInv(b, l, c) && b.active == a.active && b.queuedFlag == a.queuedFlag && b.queued == a.queued
    ensures Head(b, b.active).phase == Head(a, a.active).phase
  {
    hide Arriving;
  }

  // ---- whole runs of the voice ----

  // The smoother stays between where it is and where it is going.
  predicate RampWithin(r: Ramp, maxRate: real) {
    0.0 <= r.b <= 1.0 && 0.0 < r.x0 <= maxRate && 0.0 < r.y0 <= maxRate
  }

  lemma RampStays(r: Ramp, maxRate: real)
    requires RampWithin(r, maxRate)
    ensures RampWithin(RampUpdate(r), maxRate)
  {
    hide Smooth1Pole;
    SmoothBetween(r.x0, r.y0, r.b);
  }

  lemma SmoothBetween(x0: real, y0: real, b: real)
    requires 0.0 <= b <= 1.0
    ensures Min(x0, y0) <= Smooth1Pole(x0, y0, b) <= Max(x0, y0)
  {
    var d := y0 - x0;
    var p := d * b;
    assert Smooth1Pole(x0, y0, b) == x0 + p;
    if d >= 0.0 { Shrinks(d, b); } else { Rises(d, b); }
  }

  lemma Shrinks(d: real, b: real)
    requires d >= 0.0 && 0.0 <= b <= 1.0
    ensures 0.0 <= d * b <= d
  {
  }

  lemma Rises(d: real, b: real)
    requires d <= 0.0 && 0.0 <= b <= 1.0
    ensures d <= d * b <= 0.0
  {
  }

  ghost predicate Looping<RS>(v: Voice<RS>, l: Loop, c: real) {
    && VoiceInv(v) && v.playFlag && RampWithin(v.rateRamp, l.maxRate) && LoopInv(v.sch, l, c)
  }

  // Play and loop stay on, targets lie in (0, R], cuts go into the loop; the loop
  // points, the fade time and the sample rate stay, and nothing is stopped or reset.
  predicate StaysInLoop<RS>(l: Loop, step: Step<RS>) {
    match step
    case Do(OpPlay(on)) => on
    case Do(OpLoop(on)) => on
    case Do(OpRate(target)) => 0.0 < target <= l.maxRate
    case Do(OpCut(sec)) => l.start <= InFrames(sec, l.sr) <= l.end
    case Do(op) => op.OpRec? || op.OpRecOnce? || op.OpRecLevel? || op.OpPreLevel? || op.OpFilters?
    case _ => true
  }

  // The position of the latest cut taken in the run.
  function LastCut<RS>(k: Kernel<RS>, s: World<RS>, steps: seq<Step<RS>>, c: real): real
    requires Ready(s)
    decreases |steps|
  {
    if steps == [] then c
    else
      var s1 := Apply(k, s, steps[0]);
      LastCut(k, s1, steps[1..], LatestCut(s.v.sch, s1.v.sch, c))
  }

  // The flag operations touch only the one-shot marks while play is on.
  lemma FlagsLeaveMotion<RS>(v: Voice<RS>, on: bool)
    requires v.playFlag
    ensures SameButMarks(v.sch, SetRecFlag(v, on).sch) && SameButMarks(v.sch, SetRecOnceFlag(v, on).sch)
    ensures SetPlayFlag(v, true).sch == v.sch && SetPlayFlag(v, true).playFlag
    ensures SetRecFlag(v, on).playFlag && SetRecOnceFlag(v, on).playFlag
    ensures SetRecFlag(v, on).rateRamp == v.rateRamp && SetRecOnceFlag(v, on).rateRamp == v.rateRamp
    ensures SetPlayFlag(v, true).rateRamp == v.rateRamp
  {
  }

  ghost predicate SameButMarks<RS>(a: Rwh<RS>, b: Rwh<RS>) {
    b == a.(onceFlag := b.onceFlag, onceDone := b.onceDone, onceHead := b.onceHead)
  }

  lemma MarksKeepLoop<RS>(a: Rwh<RS>, b: Rwh<RS>, l: Loop, c: real)
    requires SameButMarks(a, b) && LoopInv(a, l, c) && HeadInv(b)
    ensures LoopInv(b, l, c) && LatestCut(a, b, c) == c
  {
    hide Arriving, HeadInv;
  }

  lemma OpKeepsLoop<RS>(k: Kernel<RS>, v: Voice<RS>, l: Loop, c: real, op: Op<RS>)
    requires Sized(v.sch) && Looping(v, l, c) && StaysInLoop(l, Do(op))
    ensures var v' := Control(k, v, op); Looping(v', l, LatestCut(v.sch, v'.sch, c))
  {
    ControlKeeps(k, v, op);
    LoopConstants(v.sch, l, c);
    if op.OpCut? { VoiceCutKeeps(k, v, l, c, op.sec); } else { QuietOpKeeps(k, v, l, c, op); }
    hide Control, LatestCut, LoopInv, VoiceInv, RampWithin;
  }

  lemma VoiceCutKeeps<RS>(k: Kernel<RS>, v: Voice<RS>, l: Loop, c: real, sec: real)
    requires Sized(v.sch) && LoopInv(v.sch, l, c) && v.sch.sr == l.sr && l.start <= InFrames(sec, l.sr) <= l.end
    ensures var v' := Control(k, v, OpCut(sec));
            && LoopInv(v'.sch, l, LatestCut(v.sch, v'.sch, c))
            && v'.playFlag == v.playFlag && v'.rateRamp == v.rateRamp
  {
    hide LoopInv, CutTo, LatestCut, InFrames;
    CutKeepsLoop(v.sch, l, c, InFrames(sec, v.sch.sr));
  }

  lemma QuietOpKeeps<RS>(k: Kernel<RS>, v: Voice<RS>, l: Loop, c: real, op: Op<RS>)
    requires Sized(v.sch) && Looping(v, l, c) && StaysInLoop(l, Do(op)) && !op.OpCut?
    requires VoiceInv(Control(k, v, op))
    ensures var v' := Control(k, v, op);
            && LoopInv(v'.sch, l, LatestCut(v.sch, v'.sch, c))
            && v'.playFlag && RampWithin(v'.rateRamp, l.maxRate)
  {
    LoopConstants(v.sch, l, c);
    FlagsLeaveMotion(v, if op.OpRec? || op.OpRecOnce? then op.on else true);
    hide SetRecFlag, SetRecOnceFlag, SetPlayFlag, LoopInv, HeadInv, LatestCut;
    MarksKeepLoop(v.sch, Control(k, v, op).sch, l, c);
  }

  lemma LoopConstants<RS>(w: Rwh<RS>, l: Loop, c: real)
    requires LoopInv(w, l, c)
    ensures w.loopFlag && w.sr == l.sr
  {
  }

  lemma SampleKeepsLoop<RS>(k: Kernel<RS>, v: Voice<RS>, buf: seq<real>, l: Loop, c: real, x: real, y: real)
    requires Fits(v.sch, buf) && Looping(v, l, c)
    ensures var v' := VoiceSample(k, v, buf, x, y).0; Looping(v', l, LatestCut(v.sch, v'.sch, c))
  {
    SampleKeeps(k, v, buf, x, y);
    SampleTicks(k, v, buf, x, y);
    RampStays(v.rateRamp, l.maxRate);
    var w, v' := v.sch, VoiceSample(k, v, buf, x, y).0;
    var t := Ticked(w, RampUpdate(v.rateRamp).y0);
    TickKeeps(w, l, c, RampUpdate(v.rateRamp).y0);
    MotionKeepsLoop(t, v'.sch, l, LatestCut(w, t, c));
    hide VoiceSample, Ticked, LoopInv, VoiceInv, RampUpdate, SameMotion, Fits;
  }

  lemma FinishKeepsLoop<RS>(v: Voice<RS>, l: Loop, c: real)
    requires Looping(v, l, c)
    ensures Looping(EndBlock(v), l, LatestCut(v.sch, EndBlock(v).sch, c))
  {
    hide LoopInv;
    MarksKeepLoop(v.sch, EndBlock(v).sch, l, c);
  }

  lemma StepKeepsLoop<RS>(k: Kernel<RS>, s: World<RS>, l: Loop, c: real, step: Step<RS>)
    requires Ready(s) && Looping(s.v, l, c) && StaysInLoop(l, step)
    ensures var s' := Apply(k, s, step); Looping(s'.v, l, LatestCut(s.v.sch, s'.v.sch, c))
  {
    hide Looping, LatestCut;
    match step
    case Do(op) => OpKeepsLoop(k, s.v, l, c, op); hide Control;
    case OneSample(x, y) => SampleKeepsLoop(k, s.v, s.buf, l, c, x, y); hide VoiceSample;
    case Finish => FinishKeepsLoop(s.v, l, c); hide EndBlock;
  }

  lemma BoundOfVoice<RS>(v: Voice<RS>, l: Loop, c: real)
    requires Looping(v, l, c)
    ensures l.start <= Head(v.sch, v.sch.active).phase <= Max(l.end, c + Reach(l))
  {
    hide VoiceInv, RampWithin, LoopInv, Reach;
    BoundOfInv(v.sch, l, c);
  }

  // After any samples, block ends, cuts into the loop, rates and recording switches the
  // active head is inside the loop, or past its end by no more than max(F, R) from the
  // latest cut.
  lemma {:induction false} OvershootBound<RS>(k: Kernel<RS>, s: World<RS>, l: Loop, c: real, steps: seq<Step<RS>>)
    requires Ready(s) && Looping(s.v, l, c) && forall step | step in steps :: StaysInLoop(l, step)
    ensures var s', c' := RunSteps(k, s, steps), LastCut(k, s, steps, c);
            && Looping(s'.v, l, c')
            && l.start <= Head(s'.v.sch, s'.v.sch.active).phase <= Max(l.end, c' + Reach(l))
    decreases |steps|
  {
    hide Looping, Apply, LatestCut, StaysInLoop, Reach, Ready, Head, Max;
    if steps == [] {
      BoundOfVoice(s.v, l, c);
    } else {
      assert StaysInLoop(l, steps[0]);
      var s1 := Apply(k, s, steps[0]);
      StepKeepsLoop(k, s, l, c, steps[0]);
      assert forall step | step in steps[1..] :: step in steps;
      OvershootBound(k, s1, l, LatestCut(s.v.sch, s1.v.sch, c), steps[1..]);
    }
  }

  // Left to loop, a head only ever cuts back to the start.
  lemma TickGoesHome<RS>(w: Rwh<RS>, l: Loop, c: real, rate: real)
    requires LoopInv(w, l, c) && 0.0 < rate <= l.maxRate && Sized(w)
    requires w.queuedFlag ==> w.queued == l.start
    ensures var w' := Ticked(w, rate);
            && (w'.queuedFlag ==> w'.queued == l.start)
            && (LatestCut(w, w', c) == c || LatestCut(w, w', c) == l.start)
  {
    var w2 := MovePhases(SetHeadRate(w, rate));
    assert w2.queuedFlag ==> w2.queued == l.start by { QueuesStart(w, l, c, rate); }
    assert w2.active == w.active by { MidSample(w, l, c, rate); }
    var w3 := MoveFades(w2);
    assert w3.queuedFlag == w2.queuedFlag && w3.queued == w2.queued && w3.active == w2.active;
    assert Ticked(w, rate) == Dequeue(w3);
    hide MovePhases, SetHeadRate, LoopInv, MoveFades;
    assert w3.active == 0 || w3.active == 1 by { ActiveIndex(w, l, c); }
  }

  lemma ActiveIndex<RS>(w: Rwh<RS>, l: Loop, c: real)
    requires LoopInv(w, l, c)
    ensures w.active == 0 || w.active == 1
  {
  }

  lemma QueuesStart<RS>(w: Rwh<RS>, l: Loop, c: real, rate: real)
    requires LoopInv(w, l, c) && 0.0 < rate
    requires w.queuedFlag ==> w.queued == l.start
    ensures var w2 := MovePhases(SetHeadRate(w, rate)); w2.queuedFlag ==> w2.queued == l.start
  {
    hide FadeInc;
  }

  // Looping from its start, with at most that queued.
  ghost predicate AtHome<RS>(v: Voice<RS>, l: Loop) {
    Looping(v, l, l.start) && (v.sch.queuedFlag ==> v.sch.queued == l.start)
  }

  lemma SampleStaysHome<RS>(k: Kernel<RS>, v: Voice<RS>, buf: seq<real>, l: Loop, x: real, y: real)
    requires Fits(v.sch, buf) && AtHome(v, l)
    ensures AtHome(VoiceSample(k, v, buf, x, y).0, l)
  {
    var rate, w, v' := RampUpdate(v.rateRamp).y0, v.sch, VoiceSample(k, v, buf, x, y).0;
    RampStays(v.rateRamp, l.maxRate);
    SampleKeepsLoop(k, v, buf, l, l.start, x, y);
    SampleTicks(k, v, buf, x, y);
    TickGoesHome(w, l, l.start, rate);
    TickKeeps(w, l, l.start, rate);
    var t := Ticked(w, rate);
    MotionKeepsLoop(t, v'.sch, l, LatestCut(w, t, l.start));
    hide VoiceSample, Ticked, LoopInv, VoiceInv, RampUpdate, SameMotion, Fits;
  }

  lemma StepStaysHome<RS>(k: Kernel<RS>, s: World<RS>, l: Loop, step: Step<RS>)
    requires Ready(s) && AtHome(s.v, l) && StaysInLoop(l, step) && !(step.Do? && step.op.OpCut?)
    ensures AtHome(Apply(k, s, step).v, l)
  {
    match step
    case OneSample(x, y) => SampleStaysHome(k, s.v, s.buf, l, x, y); hide VoiceSample, AtHome;
    case Finish => FinishKeepsLoop(s.v, l, l.start); hide Looping;
    case Do(op) =>
      OpKeepsLoop(k, s.v, l, l.start, op);
      OpLeavesQueue(k, s.v, l, op);
      hide Control, Looping;
  }

  lemma OpLeavesQueue<RS>(k: Kernel<RS>, v: Voice<RS>, l: Loop, op: Op<RS>)
    requires Sized(v.sch) && v.playFlag && StaysInLoop(l, Do(op)) && !op.OpCut?
    ensures var w, w' := v.sch, Control(k, v, op).sch;
            w'.active == w.active && w'.queuedFlag == w.queuedFlag && w'.queued == w.queued
  {
    FlagsLeaveMotion(v, if op.OpRec? || op.OpRecOnce? then op.on else true);
    hide SetRecFlag, SetRecOnceFlag, SetPlayFlag;
  }

  // Once cut to the start of a loop at least max(F, R) long, a looping voice that is
  // not cut elsewhere never leaves it.
  lemma {:induction false} NeverLeavesLoop<RS>(k: Kernel<RS>, s: World<RS>, l: Loop, steps: seq<Step<RS>>)
    requires Ready(s) && AtHome(s.v, l) && l.end - l.start >= Reach(l)
    requires forall step | step in steps :: StaysInLoop(l, step) && !(step.Do? && step.op.OpCut?)
    ensures var w := RunSteps(k, s, steps).v.sch; l.start <= Head(w, w.active).phase <= l.end
    decreases |steps|
  {
    if steps == [] {
      BoundOfInv(s.v.sch, l, l.start);
    } else {
      assert StaysInLoop(l, steps[0]) && !(steps[0].Do? && steps[0].op.OpCut?);
      StepStaysHome(k, s, l, steps[0]);
      assert forall step | step in steps[1..] :: step in steps;
      hide AtHome, Apply, StaysInLoop, Reach;
      NeverLeavesLoop(k, Apply(k, s, steps[0]), l, steps[1..]);
    }
  }

  // A cut of a playing voice, into the loop, on a settled head whose partner is stopped
  // starts the story; to the loop's start, at home.
  lemma CutStartsVoice<RS>(k: Kernel<RS>, s: World<RS>, l: Loop, sec: real)
    requires Ready(s) && VoiceInv(s.v) && s.v.playFlag && RampWithin(s.v.rateRamp, l.maxRate)
    requires var w := s.v.sch;
             && w.loopFlag && w.start == l.start && w.end == l.end && w.fadeTime == l.fadeTime && w.sr == l.sr
             && l.maxRate > 0.0 && l.start <= InFrames(sec, l.sr) <= l.end
             && !Fading(Head(w, w.active).state) && Head(w, Other(w.active)).state.Stopped? && !w.queuedFlag
    ensures var v := Apply(k, s, Do(OpCut(sec))).v;
            && Looping(v, l, InFrames(sec, l.sr)) && Head(v.sch, v.sch.active).phase == InFrames(sec, l.sr)
            && (InFrames(sec, l.sr) == l.start ==> AtHome(v, l))
  {
    ControlKeeps(k, s.v, OpCut(sec));
    var w, pos := s.v.sch, InFrames(sec, l.sr);
    assert HeadInv(w);
    hide CutTo, LoopInv, VoiceInv, RampWithin, HeadInv, InFrames;
    CutStartsLoop(w, l, pos);
    CutLeavesQueue(w, pos);
  }

  lemma CutLeavesQueue<RS>(w: Rwh<RS>, pos: real)
    requires Sized(w) && !Fading(Head(w, w.active).state)
    ensures CutTo(w, pos).queuedFlag == w.queuedFlag
  {
  }
}
