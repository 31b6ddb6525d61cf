/**
 The head as the objects the audio thread updates: `SubHead` owns its phase, fade
 and write index and writes the shared sample array in place; `ReadWriteHead`
 drives two of them.  Every method is tied to the function of module `Heads` that
 gives its new state.
 */
module HeadObjects {
  import opened Heads

  lemma WriteNext(buf: seq<real>, idx: nat, dir: int, ys: seq<real>, i: nat, pre: real, rec: real)
    requires idx < |buf| && i < |ys|
    ensures Write(buf, idx, dir, ys[i..], pre, rec)
         == Write(buf[idx := Blend(buf[idx], ys[i], pre, rec)], Wrap(idx + dir, |buf|), dir, ys[i + 1..], pre, rec)
  {
    assert ys[i..][1..] == ys[i + 1..] && ys[i..][0] == ys[i];
    hide Blend;
  }

  // The parts of a cut, in the order the source takes them.
  function Leaving<RS>(w: Rwh<RS>): Rwh<RS> {
    var h := Head(w, w.active);
    WithHead(w, w.active, if h.state.Stopped? then h else SetState(h, FadeOut))
  }

  function Entering<RS>(w: Rwh<RS>, newActive: nat, pos: real): Rwh<RS>
    requires Sized(w)
  {
    WithHead(WithHead(w, w.active, Head(w, w.active).(active := false)), newActive,
             SetPhase(SetState(Head(w, newActive), FadeIn), pos).(active := true)).(active := newActive)
  }

  // `w2` is the pair after leaving and marking.
  lemma CutSteps<RS>(w: Rwh<RS>, w2: Rwh<RS>, pos: real)
    requires Sized(w) && w.active <= 1 && !Fading(Head(w, w.active).state)
    requires w2 == OnceAtCut(Leaving(w), Other(w.active)) && Sized(w2)
    ensures CutToPhase(w, pos) == Entering(w2, Other(w.active), pos)
  {
    hide SetPhase, SetState, Fading;
    var l := Leaving(w);
    MarksSeeNoHeads(w, l, Other(w.active));
    hide OnceAtCut;
    if w.active == 0 { CutFrom0(w, l, w2, pos); } else { CutFrom1(w, l, w2, pos); }
    hide *;
  }

  lemma CutFrom0<RS>(w: Rwh<RS>, l: Rwh<RS>, w2: Rwh<RS>, pos: real)
    requires Sized(w) && w.active == 0 && !Fading(Head(w, 0).state) && l == Leaving(w)
    requires w2 == OnceAtCut(w, 1).(h0 := l.h0, h1 := l.h1) && w2.active == 0 && Sized(w2)
    ensures CutToPhase(w, pos) == Entering(w2, 1, pos)
  {
    hide SetPhase, SetState, Fading, OnceAtCut;
  }

  lemma CutFrom1<RS>(w: Rwh<RS>, l: Rwh<RS>, w2: Rwh<RS>, pos: real)
    requires Sized(w) && w.active == 1 && !Fading(Head(w, 1).state) && l == Leaving(w)
    requires w2 == OnceAtCut(w, 0).(h0 := l.h0, h1 := l.h1) && w2.active == 1 && Sized(w2)
    ensures CutToPhase(w, pos) == Entering(w2, 0, pos)
  {
    hide SetPhase, SetState, Fading, OnceAtCut;
  }

  // The marks do not depend on the heads' states.
  lemma MarksSeeNoHeads<RS>(w: Rwh<RS>, w1: Rwh<RS>, newActive: nat)
    requires w1 == w.(h0 := w1.h0, h1 := w1.h1)
    ensures OnceAtCut(w1, newActive) == OnceAtCut(w, newActive).(h0 := w1.h0, h1 := w1.h1)
    ensures OnceAtCut(w, newActive).active == w.active
  {
  }

  lemma WriteNone(buf: seq<real>, idx: nat, dir: int, pre: real, rec: real)
    requires idx < |buf|
    ensures Write(buf, idx, dir, [], pre, rec) == (buf, idx)
  {
  }

  lemma FadeTimeKeepsHeads<RS>(w: Rwh<RS>, secs: real)
    ensures Heads.SetFadeTime(w, secs).h0 == w.h0 && Heads.SetFadeTime(w, secs).h1 == w.h1
  {
  }

  class SubHead<RS> {
    const buf: array<real>
    var state: HeadState
    var rate: real
    var incDir: int
    var phase: real
    var fade: real
    var trig: real
    var active: bool
    var wrIdx: nat
    var recOffset: int
    var resamp: RS

    ghost predicate Valid()
      reads this
    {
      wrIdx < buf.Length
    }

    function View(): Sub<RS>
      reads this
    {
      Sub(state, rate, incDir, phase, fade, trig, active, wrIdx, recOffset, buf.Length, resamp)
    }

    constructor (buf: array<real>, resamp: RS)
      requires buf.Length > 0
      ensures Valid() && this.buf == buf
      ensures View() == Sub(Stopped, 1.0, 1, 0.0, 0.0, 0.0, false, 0, -8, buf.Length, resamp)
    {
      this.buf, this.resamp := buf, resamp;
      state, rate, incDir, phase, fade, trig := Stopped, 1.0, 1, 0.0, 0.0, 0.0;
      active, wrIdx, recOffset := false, 0, -8;
    }

    method Init(k: Kernel<RS>)
      requires Valid()
      modifies this
      ensures Valid() && View() == SubInit(k, old(View()))
    {
      phase, fade, trig, state := 0.0, 0.0, 0.0, Stopped;
      resamp := k.rewind(resamp);
      incDir, recOffset := 1, -8;
    }

    method SetState(s: HeadState)
      requires Valid()
      modifies this`state, this`fade
      ensures Valid() && View() == Heads.SetState(old(View()), s)
    {
      state := s;
      if state == Stopped { fade := 0.0; }
      if s == Playing { fade := 1.0; }
    }

    method SetPhase(p: real)
      requires Valid()
      modifies this`phase, this`wrIdx
      ensures Valid() && View() == Heads.SetPhase(old(View()), p)
    {
      phase := p;
      wrIdx := Wrap(Trunc(phase) + incDir * recOffset, buf.Length);
    }

    method SetRate(r: real)
      requires Valid()
      modifies this`rate, this`incDir
      ensures Valid() && View() == Heads.SetRate(old(View()), r)
    {
      rate := r;
      incDir := if r > 0.0 then 1 else -1;
    }

    method UpdatePhase(start: real, end: real, loop: bool) returns (res: HeadAction)
      requires Valid()
      modifies this`phase, this`trig, this`state
      ensures Valid() && (View(), res) == Heads.UpdatePhase(old(View()), start, end, loop)
    {
      res := NoAction;
      trig := 0.0;
      if state != Stopped {
        var p := phase + rate;
        if active {
          if rate > 0.0 {
            if p > end || p < start {
              if loop { trig := 1.0; res := LoopPos; } else { state := FadeOut; res := StopAction; }
            }
          } else {
            if p > end || p < start {
              if loop { trig := 1.0; res := LoopNeg; } else { state := FadeOut; res := StopAction; }
            }
          }
        }
        phase := p;
      }
    }

    method UpdateFade(inc: real)
      requires Valid()
      modifies this`fade, this`state
      ensures Valid() && View() == Heads.UpdateFade(old(View()), inc)
    {
      match state
      case FadeIn =>
        fade := fade + inc;
        if fade > 1.0 { fade := 1.0; state := Playing; }
      case FadeOut =>
        fade := fade - inc;
        if fade < 0.0 { fade := 0.0; state := Stopped; }
      case _ =>
    }

    // The resampled frames are clipped and blended into the array, forwards or
    // backwards from the write index.
    method Poke(k: Kernel<RS>, x: real, pre: real, rec: real)
      requires Valid()
      modifies this`resamp, this`wrIdx, buf
      ensures Valid() && (View(), buf[..]) == Heads.Poke(k, old(View()), old(buf[..]), x, pre, rec)
    {
      var (rs, src) := k.resample(resamp, RealAbs(rate), x);
      resamp := rs;
      if state == Stopped { return; }
      var preFade := PreFade(k, fade, pre);
      var recFade := RecFade(k, fade, rec);
      hide Write, Clipped;
      WriteFrames(Clipped(k, src), preFade, recFade);
    }

    method WriteFrames(ys: seq<real>, pre: real, rec: real)
      requires Valid()
      modifies this`wrIdx, buf
      ensures Valid() && (buf[..], wrIdx) == Write(old(buf[..]), old(wrIdx), incDir, ys, pre, rec)
    {
      hide Write, Blend;
      assert ys[0..] == ys;
      for i := 0 to |ys|
        invariant wrIdx < buf.Length
        invariant Write(old(buf[..]), old(wrIdx), incDir, ys, pre, rec)
               == Write(buf[..], wrIdx, incDir, ys[i..], pre, rec)
      {
        WriteNext(buf[..], wrIdx, incDir, ys, i, pre, rec);
        BlendAt(ys[i], pre, rec);
        wrIdx := Wrap(wrIdx + incDir, buf.Length);
      }
      assert ys[|ys|..] == [];
      WriteNone(buf[..], wrIdx, incDir, pre, rec);
    }

    // `buf_[wrIdx_] *= pre; buf_[wrIdx_] += y * rec`
    method BlendAt(y: real, pre: real, rec: real)
      requires Valid()
      modifies buf
      ensures buf[..] == old(buf[..])[wrIdx := Blend(old(buf[wrIdx]), y, pre, rec)]
    {
      buf[wrIdx] := buf[wrIdx] * pre;
      buf[wrIdx] := buf[wrIdx] + y * rec;
    }

    method Peek() returns (y: real)
      requires Valid()
      ensures y == Heads.Peek(View(), buf[..])
      ensures phase == Trunc(phase) as real ==> y == buf[Wrap(Trunc(phase), buf.Length)]
    {
      var phase1 := Trunc(phase);
      var n := buf.Length;
      var y0 := buf[Wrap(phase1 - 1, n)];
      var y1 := buf[Wrap(phase1, n)];
      var y3 := buf[Wrap(phase1 + 2, n)];
      var y2 := buf[Wrap(phase1 + 1, n)];
      y := Hermite(phase - phase1 as real, y0, y1, y2, y3);
      if phase == phase1 as real { HermiteEnds(y0, y1, y2, y3); }
      hide Hermite;
    }
  }

  class ReadWriteHead<RS> {
    const head0: SubHead<RS>
    const head1: SubHead<RS>
    var start: real
    var end: real
    var queued: real
    var queuedFlag: bool
    var fadeTime: real
    var fadeInc: real
    var active: nat
    var loopFlag: bool
    var pre: real
    var rec: real
    var onceFlag: bool
    var onceDone: bool
    var onceHead: int
    var rate: real
    var sr: real

    // Every use of `active` and `recOnceHead` as an index is in bounds.
    ghost predicate Valid()
      reads this, head0, head1
    {
      && head0 != head1 && head0.buf == head1.buf
      && head0.Valid() && head1.Valid()
      && active <= 1 && -1 <= onceHead <= 1
    }

    function View(): Rwh<RS>
      reads this, head0, head1
    {
      Rwh(head0.View(), head1.View(), start, end, queued, queuedFlag, fadeTime, fadeInc, active, loopFlag,
          pre, rec, onceFlag, onceDone, onceHead, rate, sr)
    }

    function At(i: int): (h: SubHead<RS>)
      requires 0 <= i <= 1
    {
      if i == 0 then head0 else head1
    }

    constructor (buf: array<real>, resamp: RS, sr: real)
      requires buf.Length > 0
      ensures Valid() && fresh(head0) && fresh(head1) && head0.buf == buf
      ensures View().h0 == View().h1 == Sub(Stopped, 1.0, 1, 0.0, 0.0, 0.0, false, 0, -8, buf.Length, resamp)
    {
      head0 := new SubHead(buf, resamp);
      head1 := new SubHead(buf, resamp);
      start, end, queued, queuedFlag, fadeTime, fadeInc := 0.0, 0.0, 0.0, false, 0.0, 0.0;
      active, loopFlag, pre, rec, rate, this.sr := 0, false, 0.0, 0.0, 1.0, sr;
      onceFlag, onceDone, onceHead := false, false, -1;
    }

    method Init(k: Kernel<RS>)
      requires Valid()
      modifies this, head0, head1
      ensures Valid() && View() == Heads.Init(k, old(View()))
    {
      hide View, Heads.SetFadeTime, SubInit, SetOnce;
      ClearPlaces();
      FadeTimeKeepsHeads(View(), 0.1);
      SetFadeTime(0.1);
      ClearQueue();
      InitHeads(k);
      SetRecOnceFlag(false);
    }

    method ClearPlaces()
      requires Valid()
      modifies this`start, this`end, this`active, this`rate
      ensures Valid() && View() == old(View()).(start := 0.0, end := 0.0, active := 0, rate := 1.0)
    {
      start, end, active, rate := 0.0, 0.0, 0, 1.0;
    }

    method ClearQueue()
      requires Valid()
      modifies this`queued, this`queuedFlag
      ensures Valid() && View() == old(View()).(queued := 0.0, queuedFlag := false)
    {
      queued, queuedFlag := 0.0, false;
    }

    method InitHeads(k: Kernel<RS>)
      requires Valid()
      modifies head0, head1
      ensures Valid() && View() == old(View()).(h0 := SubInit(k, old(View()).h0), h1 := SubInit(k, old(View()).h1))
    {
      hide SubInit;
      head0.Init(k);
      head1.Init(k);
    }

    method CalcFadeInc()
      requires Valid()
      modifies this`fadeInc
      ensures Valid() && View() == Heads.CalcFadeInc(old(View()))
    {
      var inc := RealAbs(rate) / Max(1.0, fadeTime * sr);
      inc := Max(0.0, Min(inc, 1.0));
      assert inc == FadeInc(rate, fadeTime, sr);
      hide FadeInc, Max, Min, RealAbs;
      fadeInc := inc;
    }

    method SetFadeTime(secs: real)
      requires Valid()
      modifies this`fadeTime, this`fadeInc
      ensures Valid() && View() == Heads.SetFadeTime(old(View()), secs)
    {
      fadeTime := secs;
      CalcFadeInc();
    }

    method SetRate(x: real)
      requires Valid()
      modifies this`rate, this`fadeInc, head0, head1
      ensures Valid() && View() == SetHeadRate(old(View()), x)
    {
      rate := x;
      CalcFadeInc();
      head0.SetRate(x);
      head1.SetRate(x);
    }

    method SetSampleRate(hz: real)
      requires Valid()
      modifies this`sr
      ensures Valid() && View() == old(View()).(sr := hz)
    {
      sr := hz;
    }

    method SetRecOffsetSamples(d: int)
      requires Valid()
      modifies head0`recOffset, head1`recOffset
      ensures Valid()
      ensures View() == old(View()).(h0 := old(View()).h0.(recOffset := d), h1 := old(View()).h1.(recOffset := d))
    {
      head0.recOffset, head1.recOffset := d, d;
    }

    method SetPre(x: real)
      requires Valid()
      modifies this`pre
      ensures Valid() && View() == old(View()).(pre := x)
    {
      pre := x;
    }

    method SetRec(x: real)
      requires Valid()
      modifies this`rec
      ensures Valid() && View() == old(View()).(rec := x)
    {
      rec := x;
    }

    method SetRecOnceFlag(val: bool)
      requires Valid()
      modifies this`onceFlag, this`onceDone, this`onceHead
      ensures Valid() && View() == SetOnce(old(View()), val)
    {
      onceFlag, onceDone, onceHead := val, false, -1;
    }

    method EnqueueCrossfade(pos: real)
      requires Valid()
      modifies this`queued, this`queuedFlag
      ensures Valid() && View() == Enqueue(old(View()), pos)
    {
      queued := pos;
      queuedFlag := true;
    }

    method TakeAction(act: HeadAction)
      requires Valid()
      modifies this`queued, this`queuedFlag
      ensures Valid() && View() == Heads.TakeAction(old(View()), act)
    {
      match act
      case LoopPos => EnqueueCrossfade(start);
      case LoopNeg => EnqueueCrossfade(end);
      case _ =>
    }

    // `bad` is the complaint the source prints: a cut while still fading.
    method CutToPhase(pos: real) returns (bad: bool)
      requires Valid()
      modifies this, head0, head1
      ensures Valid() && View() == Heads.CutToPhase(old(View()), pos)
      ensures bad == old(Fading(Head(View(), active).state))
    {
      var s := At(active).state;
      if s == FadeIn || s == FadeOut { return true; }
      bad := false;
      var newActive := Other(active);
      ghost var w := View();
      assert View().active == active && newActive <= 1;
      hide View, Heads.SetState, Heads.SetPhase, Heads.CutToPhase, OnceAtCut, Entering, Leaving;
      LeaveActive();
      MarkOnce(newActive);
      CutSteps(w, View(), pos);
      Swap(newActive, pos);
    }

    method LeaveActive()
      requires Valid()
      modifies head0, head1
      ensures Valid() && active == old(active) && View() == Leaving(old(View()))
    {
      if At(active).state != Stopped { At(active).SetState(FadeOut); }
    }

    // A pass that was being recorded ends; one that was armed begins.
    method MarkOnce(newActive: nat)
      requires Valid() && newActive <= 1
      modifies this`onceHead, this`onceDone, this`onceFlag
      ensures Valid() && Sized(View()) && View() == OnceAtCut(old(View()), newActive)
    {
      if onceHead == newActive {
        onceHead := -1;
        onceDone := true;
      }
      if onceFlag {
        onceFlag := false;
        onceHead := newActive;
      }
    }

    // The head at `newActive` takes over at `pos`.
    method Swap(newActive: nat, pos: real)
      requires Valid() && newActive == Other(active)
      modifies this`active, head0, head1
      ensures Valid() && View() == Entering(old(View()), newActive, pos)
    {
      At(newActive).SetState(FadeIn);
      At(newActive).SetPhase(pos);
      At(active).active := false;
      At(newActive).active := true;
      active := newActive;
    }

    // Never trips the complaint of `CutToPhase`.
    method DequeueCrossfade() returns (bad: bool)
      requires Valid()
      modifies this, head0, head1
      ensures Valid() && View() == Dequeue(old(View()))
      ensures !bad
    {
      bad := false;
      var s := At(active).state;
      if !(s == FadeIn || s == FadeOut) {
        if queuedFlag { bad := CutToPhase(queued); }
        queuedFlag := false;
      }
    }

    // Never trips the complaint of `CutToPhase`.
    method CutToPos(seconds: real) returns (bad: bool)
      requires Valid()
      modifies this, head0, head1
      ensures Valid() && View() == Heads.CutToPos(old(View()), seconds)
      ensures !bad
    {
      bad := false;
      var s := At(active).state;
      if s == FadeIn || s == FadeOut {
        EnqueueCrossfade(InFrames(seconds, sr));
      } else {
        bad := CutToPhase(InFrames(seconds, sr));
      }
    }

    method Stop()
      requires Valid()
      modifies head0, head1
      ensures Valid() && View() == StopHeads(old(View()))
    {
      head0.SetState(Stopped);
      head1.SetState(Stopped);
    }

    method Run()
      requires Valid()
      modifies head0, head1
      ensures Valid() && View() == RunHeads(old(View()))
    {
      At(active).SetState(Playing);
    }

    // ---- one sample ----

    method PokeOne(k: Kernel<RS>, i: int, x: real)
      requires Valid() && 0 <= i <= 1
      modifies head0, head1, head0.buf
      ensures Valid() && (View(), head0.buf[..]) == PokeHead(k, old(View()), old(head0.buf[..]), i, x)
    {
      At(i).Poke(k, x, pre, rec);
    }

    method PokeBoth(k: Kernel<RS>, x: real)
      requires Valid()
      modifies head0, head1, head0.buf
      ensures Valid() && (View(), head0.buf[..]) == PokeHeads(k, old(View()), old(head0.buf[..]), x)
    {
      if onceFlag || onceDone || onceHead > -1 {
        if onceHead > -1 { PokeOne(k, onceHead, x); }
      } else {
        PokeOne(k, 0, x);
        PokeOne(k, 1, x);
      }
    }

    method Move()
      requires Valid()
      modifies this, head0, head1
      ensures Valid() && View() == Advance(old(View()))
    {
      MovePhases();
      head0.UpdateFade(fadeInc);
      head1.UpdateFade(fadeInc);
      var _ := DequeueCrossfade();
    }

    method MovePhases()
      requires Valid()
      modifies this, head0, head1
      ensures Valid() && View() == Heads.MovePhases(old(View()))
    {
      var act := head0.UpdatePhase(start, end, loopFlag);
      TakeAction(act);
      act := head1.UpdatePhase(start, end, loopFlag);
      TakeAction(act);
    }

    method MixFade(k: Kernel<RS>) returns (out: real)
      requires Valid()
      ensures out == MixOut(k, View(), head0.buf[..])
      ensures out == Heads.Peek(head0.View(), head0.buf[..]) * k.gain(head0.fade)
                     + Heads.Peek(head1.View(), head0.buf[..]) * k.gain(head1.fade)
    {
      hide Heads.Peek;
      var x := head0.Peek();
      var y := head1.Peek();
      out := Heads.MixFade(k, x, y, head0.fade, head1.fade);
    }

    method ProcessSample(k: Kernel<RS>, x: real) returns (out: real)
      requires Valid()
      modifies this, head0, head1, head0.buf
      ensures Valid() && (View(), head0.buf[..]) == Sample(k, old(View()), old(head0.buf[..]), x, true)
      ensures out == old(MixOut(k, View(), head0.buf[..]))
      ensures out == old(Heads.Peek(head0.View(), head0.buf[..]) * k.gain(head0.fade)
                         + Heads.Peek(head1.View(), head0.buf[..]) * k.gain(head1.fade))
    {
      hide Heads.Peek, MixOut, Advance, PokeHeads;
      out := MixFade(k);
      PokeBoth(k, x);
      Move();
    }

    method ProcessSampleNoRead(k: Kernel<RS>, x: real)
      requires Valid()
      modifies this, head0, head1, head0.buf
      ensures Valid() && (View(), head0.buf[..]) == Sample(k, old(View()), old(head0.buf[..]), x, true)
    {
      PokeBoth(k, x);
      Move();
    }

    method ProcessSampleNoWrite(k: Kernel<RS>) returns (out: real)
      requires Valid()
      modifies this, head0, head1
      ensures Valid() && forall x :: (View(), head0.buf[..]) == Sample(k, old(View()), old(head0.buf[..]), x, false)
      ensures out == old(MixOut(k, View(), head0.buf[..]))
      ensures out == old(Heads.Peek(head0.View(), head0.buf[..]) * k.gain(head0.fade)
                         + Heads.Peek(head1.View(), head0.buf[..]) * k.gain(head1.fade))
    {
      hide Heads.Peek, MixOut, Advance;
      out := MixFade(k);
      Move();
    }
  }
}
