/**
 A voice that does not loop: past the end its head fades out, stops and stays silent.
 */
module PlayOnce {
  import opened Heads
  import opened Voices
  import opened HeadSafety
  import opened LoopBound
  import opened HeadOutput

  // The bare heads over samples at the given rates.
  function TickedAll<RS>(w: Rwh<RS>, rates: seq<real>): (r: Rwh<RS>)
    requires Sized(w)
    ensures Sized(r)
    decreases |rates|
  {
    if rates == [] then w
    else
      TickSize(w, rates[0]);
      TickedAll(Ticked(w, rates[0]), rates[1..])
  }

  lemma TickSize<RS>(w: Rwh<RS>, rate: real)
    requires Sized(w)
    ensures Sized(Ticked(w, rate))
  {
    SizesKeep(SetHeadRate(w, rate));
    hide SetHeadRate, Advance;
    RateSizes(w, rate);
  }

  lemma RateSizes<RS>(w: Rwh<RS>, rate: real)
    requires Sized(w)
    ensures Sized(SetHeadRate(w, rate))
  {
  }

  lemma SizesKeep<RS>(w: Rwh<RS>)
    requires Sized(w)
    ensures Sized(Advance(w))
  {
    hide UpdateFade, UpdatePhase, OnceAtCut, MovePhases;
    PhasesShape(w);
    FadeSizes(w);
  }

  lemma FadeSizes<RS>(w: Rwh<RS>)
    ensures forall h: Sub<RS>, inc :: UpdateFade(h, inc).frames == h.frames
    ensures UpdatePhase(w.h0, w.start, w.end, w.loopFlag).0.frames == w.h0.frames
    ensures UpdatePhase(w.h1, w.start, w.end, w.loopFlag).0.frames == w.h1.frames
  {
  }

  // How far the fades move at these rates.
  function Faded<RS>(w: Rwh<RS>, rates: seq<real>): real {
    if rates == [] then 0.0 else FadeInc(rates[0], w.fadeTime, w.sr) + Faded(w, rates[1..])
  }

  // Loop off, no cut queued, the other head stopped; the active one is on its way out, or
  // at the first sample will be.
  predicate GoingOut<RS>(w: Rwh<RS>, rate: real) {
    var a, o := Head(w, w.active), Head(w, Other(w.active));
    && (w.active == 0 || w.active == 1) && !w.loopFlag && !w.queuedFlag && o.state.Stopped?
    && (a.state.FadeOut? || (a.state.Playing? && a.active && OutOfLoop(a.phase + rate, w.start, w.end)))
  }

  // With no more than `fade` of it left.
  predicate Out<RS>(w: Rwh<RS>, fade: real) {
    var a, o := Head(w, w.active), Head(w, Other(w.active));
    && (w.active == 0 || w.active == 1) && !w.loopFlag && !w.queuedFlag && o.state.Stopped?
    && (if fade >= 0.0 then a.state.FadeOut? && a.fade == fade else a.state.Stopped? && a.fade == 0.0)
  }

  lemma TickGoesOut<RS>(w: Rwh<RS>, rate: real)
    requires Sized(w) && GoingOut(w, rate)
    ensures var w' := Ticked(w, rate);
            && Out(w', Head(w, w.active).fade - FadeInc(rate, w.fadeTime, w.sr))
            && w'.fadeTime == w.fadeTime && w'.sr == w.sr
  {
    hide FadeInc;
  }

  lemma OutStays<RS>(w: Rwh<RS>, fade: real, rate: real)
    requires Sized(w) && Out(w, fade) && fade < 0.0
    ensures Out(Ticked(w, rate), fade) && Ticked(w, rate).fadeTime == w.fadeTime && Ticked(w, rate).sr == w.sr
  {
    hide FadeInc;
  }

  lemma OutAt<RS>(w: Rwh<RS>, fade: real, fade': real)
    requires Out(w, fade) && fade < 0.0 && fade' < 0.0
    ensures Out(w, fade')
  {
  }

  lemma OutGoesOn<RS>(w: Rwh<RS>, fade: real, rate: real)
    requires Out(w, fade) && fade >= 0.0
    ensures GoingOut(w, rate) && Head(w, w.active).fade == fade
  {
  }

  lemma SameFades<RS>(w: Rwh<RS>, w': Rwh<RS>, rates: seq<real>)
    requires w'.fadeTime == w.fadeTime && w'.sr == w.sr
    ensures Faded(w', rates) == Faded(w, rates) >= 0.0
  {
    if rates != [] { SameFades(w, w', rates[1..]); }
    hide FadeInc;
    FadeForward(if rates == [] then 0.0 else rates[0], w.fadeTime, w.sr);
  }

  lemma FadeForward(rate: real, fadeTime: real, sr: real)
    ensures FadeInc(rate, fadeTime, sr) >= 0.0
  {
  }

  // From wherever it leaves its region, at whatever rates: the head's fade goes down by
  // each sample's increment until nothing is left, and then it has stopped and stays so.
  lemma {:induction false} FadesOut<RS>(w: Rwh<RS>, fade: real, rates: seq<real>)
    requires Sized(w) && Out(w, fade)
    ensures Out(TickedAll(w, rates), fade - Faded(w, rates))
    decreases |rates|
  {
    hide Out, Ticked, FadeInc, Head, GoingOut;
    if rates != [] {
      var r, w' := rates[0], Ticked(w, rates[0]);
      TickSize(w, r);
      SameFades(w, w, rates[1..]);
      FadeForward(r, w.fadeTime, w.sr);
      var inc := FadeInc(r, w.fadeTime, w.sr);
      if fade >= 0.0 {
        OutGoesOn(w, fade, r);
        TickGoesOut(w, r);
      } else {
        OutStays(w, fade, r);
        OutAt(w', fade, fade - inc);
      }
      SameFades(w, w', rates[1..]);
      FadesOut(w', fade - inc, rates[1..]);
    }
  }

  lemma PlaysOut<RS>(w: Rwh<RS>, rates: seq<real>)
    requires Sized(w) && rates != [] && GoingOut(w, rates[0])
    ensures Out(TickedAll(w, rates), Head(w, w.active).fade - Faded(w, rates))
  {
    hide Out, Ticked, FadeInc, GoingOut;
    TickSize(w, rates[0]);
    TickGoesOut(w, rates[0]);
    var w' := Ticked(w, rates[0]);
    SameFades(w, w', rates[1..]);
    FadesOut(w', Head(w, w.active).fade - FadeInc(rates[0], w.fadeTime, w.sr), rates[1..]);
  }

  // Both heads stopped, a playing voice is silent.
  lemma StoppedIsSilent<RS>(k: Kernel<RS>, v: Voice<RS>, buf: seq<real>, x: real, y: real)
    requires Fits(v.sch, buf) && v.playFlag && VoiceInv(v) && FadeGains(k)
    requires v.sch.h0.state.Stopped? && v.sch.h1.state.Stopped?
    ensures Heard(k, v, buf, x, y) == 0.0
  {
    BothHeard(k, v, buf, x, y);
    NeitherHeard(k, buf, v.sch.h0.phase, v.sch.h1.phase);
    hide Heard, Fits, Both;
  }

  lemma NeitherHeard<RS>(k: Kernel<RS>, buf: seq<real>, p: real, q: real)
    requires |buf| > 0 && FadeGains(k)
    ensures Both(k, buf, p, 0.0, q, 0.0) == 0.0
  {
    hide At;
  }
}
