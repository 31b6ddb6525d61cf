/**
 The crossfading record/playback head (`SubHead.cpp`, `ReadWriteHead.cpp`) as
 functions of its state.  Phases, rates and fades are reals; the buffer is a
 sequence whose length is the power of two `frames`.
 */
module Heads {

  datatype HeadState = Playing | Stopped | FadeIn | FadeOut

  datatype HeadAction = NoAction | StopAction | LoopPos | LoopNeg

  // The per-sample arithmetic this model leaves open: the resampler (its state,
  // the absolute rate and an input sample give a new state and any finite number
  // of frames), the soft clipper, the two fade curves and the mixing gain.
  datatype Kernel<!RS> = Kernel(resample: (RS, real, real) -> (RS, seq<real>), rewind: RS -> RS,
                                clip: real -> real, preCurve: real -> real, recCurve: real -> real,
                                gain: real -> real)

  datatype Sub<RS> = Sub(state: HeadState, rate: real, incDir: int, phase: real, fade: real, trig: real,
                         active: bool, wrIdx: nat, recOffset: int, frames: nat, resamp: RS)

  function Trunc(x: real): int {
    if x >= 0.0 then x.Floor else -((-x).Floor)
  }

  function RealAbs(x: real): (a: real)
    ensures a >= 0.0
  {
    if x < 0.0 then -x else x
  }

  // `(x + bufFrames_) & bufMask_` for a power-of-two buffer.
  function Wrap(x: int, frames: nat): (i: nat)
    requires frames > 0
    ensures i < frames
  {
    x % frames
  }

  // ---- one subhead ----

  function SubInit<RS>(k: Kernel<RS>, h: Sub<RS>): Sub<RS> {
    h.(phase := 0.0, fade := 0.0, trig := 0.0, state := Stopped, resamp := k.rewind(h.resamp),
       incDir := 1, recOffset := -8)
  }

  function SetState<RS>(h: Sub<RS>, s: HeadState): Sub<RS> {
    h.(state := s, fade := if s.Stopped? then 0.0 else if s.Playing? then 1.0 else h.fade)
  }

  function SetPhase<RS>(h: Sub<RS>, p: real): Sub<RS>
    requires h.frames > 0
  {
    h.(phase := p, wrIdx := Wrap(Trunc(p) + h.incDir * h.recOffset, h.frames))
  }

  function SetRate<RS>(h: Sub<RS>, r: real): Sub<RS> {
    h.(rate := r, incDir := if r > 0.0 then 1 else -1)
  }

  predicate OutOfLoop(p: real, start: real, end: real) {
    p > end || p < start
  }

  function UpdatePhase<RS>(h: Sub<RS>, start: real, end: real, loop: bool): (Sub<RS>, HeadAction) {
    if h.state.Stopped? then (h.(trig := 0.0), NoAction)
    else
      var p := h.phase + h.rate;
      if h.active && OutOfLoop(p, start, end) then
        if loop then (h.(trig := 1.0, phase := p), if h.rate > 0.0 then LoopPos else LoopNeg)
        else (h.(trig := 0.0, state := FadeOut, phase := p), StopAction)
      else (h.(trig := 0.0, phase := p), NoAction)
  }

  function UpdateFade<RS>(h: Sub<RS>, inc: real): Sub<RS> {
    match h.state
    case FadeIn => if h.fade + inc > 1.0 then h.(fade := 1.0, state := Playing) else h.(fade := h.fade + inc)
    case FadeOut => if h.fade - inc < 0.0 then h.(fade := 0.0, state := Stopped) else h.(fade := h.fade - inc)
    case _ => h
  }

  function Blend(was: real, y: real, pre: real, rec: real): real {
    was * pre + y * rec
  }

  // The write loop of `poke`: each frame is blended in and the write index moves.
  function Write(buf: seq<real>, idx: nat, dir: int, ys: seq<real>, pre: real, rec: real): (seq<real>, nat)
    requires idx < |buf|
    ensures |Write(buf, idx, dir, ys, pre, rec).0| == |buf| && Write(buf, idx, dir, ys, pre, rec).1 < |buf|
    decreases |ys|
  {
    if ys == [] then (buf, idx)
    else Write(buf[idx := Blend(buf[idx], ys[0], pre, rec)], Wrap(idx + dir, |buf|), dir, ys[1..], pre, rec)
  }

  function Clipped<RS>(k: Kernel<RS>, ys: seq<real>): seq<real> {
    seq(|ys|, i requires 0 <= i < |ys| => k.clip(ys[i]))
  }

  // How much of the old sample stays, and how much of the new one goes in.
  function PreFade<RS>(k: Kernel<RS>, fade: real, pre: real): real {
    pre + (1.0 - pre) * k.preCurve(fade)
  }

  function RecFade<RS>(k: Kernel<RS>, fade: real, rec: real): real {
    rec * k.recCurve(fade)
  }

  function Poke<RS>(k: Kernel<RS>, h: Sub<RS>, buf: seq<real>, x: real, pre: real, rec: real): (Sub<RS>, seq<real>)
    requires h.wrIdx < |buf|
    ensures |Poke(k, h, buf, x, pre, rec).1| == |buf|
  {
    var (rs, ys) := k.resample(h.resamp, RealAbs(h.rate), x);
    if h.state.Stopped? then (h.(resamp := rs), buf)
    else
      var (buf', idx) := Write(buf, h.wrIdx, h.incDir, Clipped(k, ys), PreFade(k, h.fade, pre),
          RecFade(k, h.fade, rec));
      (h.(resamp := rs, wrIdx := idx), buf')
  }

  function Hermite(x: real, y0: real, y1: real, y2: real, y3: real): real {
    (((0.5 * (y3 - y0) + 1.5 * (y1 - y2)) * x + (y0 - 2.5 * y1 + 2.0 * y2 - 0.5 * y3)) * x + 0.5 * (y2 - y0)) * x + y1
  }

  function Peek<RS>(h: Sub<RS>, buf: seq<real>): real
    requires |buf| > 0
  {
    var i := Trunc(h.phase);
    var n := |buf|;
    Hermite(h.phase - i as real, buf[Wrap(i - 1, n)], buf[Wrap(i, n)], buf[Wrap(i + 1, n)], buf[Wrap(i + 2, n)])
  }

  // At a whole phase the interpolation is the sample there, and towards the next one it
  // runs into that.
  lemma HermiteEnds(y0: real, y1: real, y2: real, y3: real)
    ensures Hermite(0.0, y0, y1, y2, y3) == y1 && Hermite(1.0, y0, y1, y2, y3) == y2
  {
  }

  // Four samples on a line: the interpolation lies on it.
  lemma HermiteLine(x: real, c: real, d: real)
    ensures Hermite(x, c - d, c, c + d, c + 2.0 * d) == c + d * x
  {
    var a3 := 0.5 * (c + 2.0 * d - (c - d)) + 1.5 * (c - (c + d));
    var a2 := (c - d) - 2.5 * c + 2.0 * (c + d) - 0.5 * (c + 2.0 * d);
    assert a3 == 0.0 && a2 == 0.0 && 0.5 * (c + d - (c - d)) == d;
  }

  lemma PeekAtSample<RS>(h: Sub<RS>, buf: seq<real>)
    requires |buf| > 0 && h.phase == Trunc(h.phase) as real
    ensures Peek(h, buf) == buf[Wrap(Trunc(h.phase), |buf|)]
  {
    var i, n := Trunc(h.phase), |buf|;
    HermiteEnds(buf[Wrap(i - 1, n)], buf[Wrap(i, n)], buf[Wrap(i + 1, n)], buf[Wrap(i + 2, n)]);
    hide Hermite, Trunc;
  }

  lemma PeekOnLine<RS>(h: Sub<RS>, buf: seq<real>, c: real, d: real)
    requires |buf| > 0
    requires var i := Trunc(h.phase);
             && buf[Wrap(i - 1, |buf|)] == c - d && buf[Wrap(i, |buf|)] == c
             && buf[Wrap(i + 1, |buf|)] == c + d && buf[Wrap(i + 2, |buf|)] == c + 2.0 * d
    ensures Peek(h, buf) == c + d * (h.phase - Trunc(h.phase) as real)
  {
    HermiteLine(h.phase - Trunc(h.phase) as real, c, d);
    hide Hermite, Trunc, Wrap;
  }

  // ---- the pair ----

  datatype Rwh<RS> = Rwh(h0: Sub<RS>, h1: Sub<RS>, start: real, end: real,
                         queued: real, queuedFlag: bool, fadeTime: real, fadeInc: real,
                         active: nat, loopFlag: bool, pre: real, rec: real,
                         onceFlag: bool, onceDone: bool, onceHead: int, rate: real, sr: real)

  function Head<RS>(w: Rwh<RS>, i: int): Sub<RS> {
    if i == 0 then w.h0 else w.h1
  }

  function WithHead<RS>(w: Rwh<RS>, i: int, h: Sub<RS>): Rwh<RS> {
    if i == 0 then w.(h0 := h) else w.(h1 := h)
  }

  // `active ^ 1`
  function Other(i: int): nat {
    if i == 0 then 1 else 0
  }

  predicate Fading(s: HeadState) {
    s.FadeIn? || s.FadeOut?
  }

  function Max(x: real, y: real): real { if x > y then x else y }

  function Min(x: real, y: real): real { if x < y then x else y }

  function FadeInc(rate: real, fadeTime: real, sr: real): real {
    Max(0.0, Min(RealAbs(rate) / Max(1.0, fadeTime * sr), 1.0))
  }

  function CalcFadeInc<RS>(w: Rwh<RS>): Rwh<RS> {
    w.(fadeInc := FadeInc(w.rate, w.fadeTime, w.sr))
  }

  function SetFadeTime<RS>(w: Rwh<RS>, secs: real): Rwh<RS> {
    CalcFadeInc(w.(fadeTime := secs))
  }

  function SetHeadRate<RS>(w: Rwh<RS>, r: real): Rwh<RS> {
    CalcFadeInc(w.(rate := r)).(h0 := SetRate(w.h0, r), h1 := SetRate(w.h1, r))
  }

  function SetOnce<RS>(w: Rwh<RS>, x: bool): Rwh<RS> {
    w.(onceFlag := x, onceDone := false, onceHead := -1)
  }

  predicate OnceActive<RS>(w: Rwh<RS>) {
    w.onceDone || w.onceFlag || w.onceHead > -1
  }

  function Init<RS>(k: Kernel<RS>, w: Rwh<RS>): Rwh<RS> {
    SetOnce(SetFadeTime(w.(start := 0.0, end := 0.0, active := 0, rate := 1.0), 0.1)
              .(queued := 0.0, queuedFlag := false, h0 := SubInit(k, w.h0), h1 := SubInit(k, w.h1)), false)
  }

  function Enqueue<RS>(w: Rwh<RS>, pos: real): Rwh<RS> {
    w.(queued := pos, queuedFlag := true)
  }

  function TakeAction<RS>(w: Rwh<RS>, a: HeadAction): Rwh<RS> {
    match a
    case LoopPos => Enqueue(w, w.start)
    case LoopNeg => Enqueue(w, w.end)
    case _ => w
  }

  // What a cut does to the one-shot record marks.
  function OnceAtCut<RS>(w: Rwh<RS>, newActive: nat): Rwh<RS> {
    var w1 := if w.onceHead == newActive then w.(onceHead := -1, onceDone := true) else w;
    if w1.onceFlag then w1.(onceFlag := false, onceHead := newActive) else w1
  }

  predicate Sized<RS>(w: Rwh<RS>) {
    w.h0.frames > 0 && w.h1.frames > 0
  }

  function CutToPhase<RS>(w: Rwh<RS>, pos: real): Rwh<RS>
    requires Sized(w)
  {
    var s := Head(w, w.active).state;
    if Fading(s) then w  // "badness! performed a cut while still fading"
    else
      var newActive := Other(w.active);
      var leaving := if s.Stopped? then Head(w, w.active) else SetState(Head(w, w.active), FadeOut);
      var entering := SetPhase(SetState(Head(w, newActive), FadeIn), pos);
      var w1 := OnceAtCut(w, newActive);
      WithHead(WithHead(w1, w.active, leaving.(active := false)), newActive,
          entering.(active := true)).(active := newActive)
  }

  function Dequeue<RS>(w: Rwh<RS>): Rwh<RS>
    requires Sized(w)
  {
    if Fading(Head(w, w.active).state) then w
    else (if w.queuedFlag then CutToPhase(w, w.queued) else w).(queuedFlag := false)
  }

  function InFrames(seconds: real, sr: real): real {
    seconds * sr
  }

  function CutTo<RS>(w: Rwh<RS>, pos: real): Rwh<RS>
    requires Sized(w)
  {
    if Fading(Head(w, w.active).state) then Enqueue(w, pos) else CutToPhase(w, pos)
  }

  function CutToPos<RS>(w: Rwh<RS>, seconds: real): Rwh<RS>
    requires Sized(w)
  {
    CutTo(w, InFrames(seconds, w.sr))
  }

  function StopHeads<RS>(w: Rwh<RS>): Rwh<RS> {
    w.(h0 := SetState(w.h0, Stopped), h1 := SetState(w.h1, Stopped))
  }

  function RunHeads<RS>(w: Rwh<RS>): Rwh<RS> {
    WithHead(w, w.active, SetState(Head(w, w.active), Playing))
  }

  // ---- one sample ----

  predicate Fits<RS>(w: Rwh<RS>, buf: seq<real>) {
    && |buf| > 0 && w.h0.frames == |buf| && w.h1.frames == |buf|
    && w.h0.wrIdx < |buf| && w.h1.wrIdx < |buf|
  }

  function PokeHead<RS>(k: Kernel<RS>, w: Rwh<RS>, buf: seq<real>, i: int, x: real): (Rwh<RS>, seq<real>)
    requires Fits(w, buf)
    ensures Fits(PokeHead(k, w, buf, i, x).0, PokeHead(k, w, buf, i, x).1)
    ensures |PokeHead(k, w, buf, i, x).1| == |buf|
  {
    var (h, buf') := Poke(k, Head(w, i), buf, x, w.pre, w.rec);
    (WithHead(w, i, h), buf')
  }

  function PokeHeads<RS>(k: Kernel<RS>, w: Rwh<RS>, buf: seq<real>, x: real): (Rwh<RS>, seq<real>)
    requires Fits(w, buf)
    ensures Fits(PokeHeads(k, w, buf, x).0, PokeHeads(k, w, buf, x).1)
    ensures |PokeHeads(k, w, buf, x).1| == |buf|
  {
    if OnceActive(w) then
      if w.onceHead > -1 then PokeHead(k, w, buf, w.onceHead, x) else (w, buf)
    else
      var (w1, buf1) := PokeHead(k, w, buf, 0, x);
      PokeHead(k, w1, buf1, 1, x)
  }

  // Phases move, loop wraps are queued, fades move, a queued cut is taken.
  function MovePhases<RS>(w: Rwh<RS>): (r: Rwh<RS>)
    ensures r.h0.frames == w.h0.frames && r.h1.frames == w.h1.frames
  {
    var (h0, a0) := UpdatePhase(w.h0, w.start, w.end, w.loopFlag);
    var w1 := TakeAction(w.(h0 := h0), a0);
    var (h1, a1) := UpdatePhase(w1.h1, w1.start, w1.end, w1.loopFlag);
    TakeAction(w1.(h1 := h1), a1)
  }

  // Moving the phases changes the two heads and what is queued.
  lemma PhasesShape<RS>(w: Rwh<RS>)
    ensures var m := MovePhases(w);
            m == w.(h0 := UpdatePhase(w.h0, w.start, w.end, w.loopFlag).0,
                    h1 := UpdatePhase(w.h1, w.start, w.end, w.loopFlag).0,
                    queued := m.queued, queuedFlag := m.queuedFlag)
  {
    hide UpdatePhase, TakeAction;
    var (h0, a0) := UpdatePhase(w.h0, w.start, w.end, w.loopFlag);
    ActionShape(w.(h0 := h0), a0);
    var w1 := TakeAction(w.(h0 := h0), a0);
    var (h1, a1) := UpdatePhase(w1.h1, w1.start, w1.end, w1.loopFlag);
    ActionShape(w1.(h1 := h1), a1);
  }

  lemma ActionShape<RS>(w: Rwh<RS>, a: HeadAction)
    ensures var m := TakeAction(w, a); m == w.(queued := m.queued, queuedFlag := m.queuedFlag)
  {
  }

  function MoveFades<RS>(w: Rwh<RS>): (r: Rwh<RS>)
    ensures r.h0.frames == w.h0.frames && r.h1.frames == w.h1.frames
  {
    w.(h0 := UpdateFade(w.h0, w.fadeInc), h1 := UpdateFade(w.h1, w.fadeInc))
  }

  function Advance<RS>(w: Rwh<RS>): Rwh<RS>
    requires Sized(w)
  {
    Dequeue(MoveFades(MovePhases(w)))
  }

  // `mixFade`
  function MixFade<RS>(k: Kernel<RS>, x: real, y: real, a: real, b: real): real {
    x * k.gain(a) + y * k.gain(b)
  }

  function MixOut<RS>(k: Kernel<RS>, w: Rwh<RS>, buf: seq<real>): real
    requires |buf| > 0
  {
    MixFade(k, Peek(w.h0, buf), Peek(w.h1, buf), w.h0.fade, w.h1.fade)
  }

  // `processSample` and `processSampleNoRead` write; `processSampleNoWrite` does not.
  function Sample<RS>(k: Kernel<RS>, w: Rwh<RS>, buf: seq<real>, x: real, write: bool): (Rwh<RS>, seq<real>)
    requires Fits(w, buf)
  {
    var (w1, buf1) := if write then PokeHeads(k, w, buf, x) else (w, buf);
    (Advance(w1), buf1)
  }
}
