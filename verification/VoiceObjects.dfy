/**
 A voice as the object the audio thread runs: its filters, ramps, flags and head
 are updated sample by sample, its buffer and output in place.
 */
module VoiceObjects {
  import opened SvfMath
  import opened Svf
  import opened SvfTuning
  import opened Heads
  import opened HeadObjects
  import opened FlagMirror
  import Voices

  function StageOf(f: Filter): Voices.Stage
    reads f
  {
    Voices.Stage(f.Coeffs(), f.Memory(), f.Mix())
  }

  class Voice<RS> {
    const sch: ReadWriteHead<RS>
    const svfPre: Filter
    const svfPost: Filter
    const fixQuirks: bool
    var svfPreFcBase: real
    var preDry: real
    var postDry: real
    var rateRamp: Voices.Ramp
    var preRamp: Voices.Ramp
    var recRamp: Voices.Ramp
    var playFlag: bool
    var recFlag: bool
    var savedRecFlag: bool
    var savedRecOnceFlag: bool

    ghost predicate Valid()
      reads this, sch, sch.head0, sch.head1, svfPre, svfPost
    {
      svfPre != svfPost && svfPre.Valid() && svfPost.Valid() && sch.Valid()
    }

    function View(): Voices.Voice<RS>
      reads this, sch, sch.head0, sch.head1, svfPre, svfPost
    {
      Voices.Voice(sch.View(), StageOf(svfPre), StageOf(svfPost), preDry, postDry,
                   rateRamp, preRamp, recRamp, playFlag, recFlag, fixQuirks)
    }

    function Samples(): seq<real>
      reads sch.head0.buf
    {
      sch.head0.buf[..]
    }

    // What other threads see.
    function Saved(): Flags
      reads this
    {
      Flags(savedRecFlag, savedRecOnceFlag)
    }

    // `sr` is what the head's rate happens to be until one is set; the filters start
    // at 48000 Hz.
    constructor (k: Kernel<RS>, warp: real -> real, buf: array<real>, resamp: RS, sr: real, fix: bool)
      requires buf.Length > 0
      ensures Valid() && sch.head0.buf == buf && Saved() == Flags(false, false)
      ensures !playFlag && !recFlag && !OnceActive(sch.View())
      ensures svfPre.warp == svfPost.warp == warp
      ensures svfPre.Tuning() == FreshPre && svfPost.Tuning() == Fresh
      ensures fresh(sch) && fresh(sch.head0) && fresh(sch.head1) && fresh(svfPre) && fresh(svfPost)
    {
      sch := new ReadWriteHead(buf, resamp, sr);
      svfPre := new Filter(warp);
      svfPost := new Filter(warp);
      fixQuirks, svfPreFcBase := fix, 16000.0;
      preDry, postDry := 0.0, 1.0;
      rateRamp, preRamp, recRamp := Voices.Ramp(0.0, 0.0, 0.0), Voices.Ramp(0.0, 0.0, 0.0), Voices.Ramp(0.0, 0.0, 0.0);
      playFlag, recFlag, savedRecFlag, savedRecOnceFlag := false, false, false, false;
      new;
      Reset(k);
    }

    // Both filters' defaults, then the ramps, flags and the head.
    method Reset(k: Kernel<RS>)
      requires Valid()
      modifies this, sch, sch.head0, sch.head1, svfPre, svfPost
      ensures Valid() && View() == Voices.ResetTo(k, old(View()), StageOf(svfPre), StageOf(svfPost))
      ensures svfPre.Tuning() == Tuning(old(svfPre.sr), Held(old(svfPre.sr), old(svfPreFcBase)), 4.0)
      ensures svfPost.Tuning() == Tuning(old(svfPost.sr), Held(old(svfPost.sr), 12000.0), 4.0)
      ensures svfPre.Mix() == Mix(1.0, 0.0, 0.0, 0.0) && svfPost.Mix() == Mix(0.0, 0.0, 0.0, 0.0)
      ensures Saved() == Flags(false, false)
    {
      ghost var v := View();
      assert v.sch == sch.View() && v.rateRamp == rateRamp && v.preRamp == preRamp && v.recRamp == recRamp;
      assert !OnceActive(Voices.ResetHead(k, v.sch, fixQuirks));
      hide View, sch.View, StageOf, Voices.ResetHead, Voices.RampReset, Voices.ClearMemory, Held;
      ResetFilters();
      ResetRamps();
      ResetHead(k);
      PublishFlags();
    }

    method ResetFilters()
      requires Valid()
      modifies this`preDry, this`postDry, svfPre, svfPost
      ensures Valid()
      ensures View() == old(View()).(pre := Voices.ClearMemory(StageOf(svfPre)), preDry := 0.0,
                                     post := Voices.ClearMemory(StageOf(svfPost)), postDry := 1.0)
      ensures svfPre.Tuning() == Tuning(old(svfPre.sr), Held(old(svfPre.sr), svfPreFcBase), 4.0)
      ensures svfPost.Tuning() == Tuning(old(svfPost.sr), Held(old(svfPost.sr), 12000.0), 4.0)
      ensures svfPre.Mix() == Mix(1.0, 0.0, 0.0, 0.0) && svfPost.Mix() == Mix(0.0, 0.0, 0.0, 0.0)
    {
      hide sch.View, Held;
      Defaults(svfPre, 1.0, svfPreFcBase);
      preDry := 0.0;
      Defaults(svfPost, 0.0, 12000.0);
      postDry := 1.0;
    }

    method ResetRamps()
      requires Valid()
      modifies this`rateRamp, this`recRamp, this`preRamp, this`recFlag, this`playFlag
      ensures Valid()
      ensures View() == old(View()).(rateRamp := Voices.RampReset(old(rateRamp), 1.0),
                                     recRamp := Voices.RampReset(old(recRamp), 0.0),
                                     preRamp := Voices.RampReset(old(preRamp), 0.0),
                                     recFlag := false, playFlag := false)
    {
      hide sch.View, StageOf;
      rateRamp := Voices.RampReset(rateRamp, 1.0);
      recRamp := Voices.RampReset(recRamp, 0.0);
      preRamp := Voices.RampReset(preRamp, 0.0);
      recFlag, playFlag := false, false;
    }

    // The smoothers' poles follow from their times and the rate; they are parameters.
    method SetSampleRate(hz: real, rateB: real, preB: real, recB: real)
      requires Valid() && hz > 0.0
      modifies this`rateRamp, this`preRamp, this`recRamp, sch`sr, svfPre, svfPost
      ensures Valid()
      ensures View() == Voices.SetSampleRate(old(View()), hz, StageOf(svfPre), StageOf(svfPost), rateB, preB, recB)
      ensures svfPre.Tuning() == Turn(old(svfPre.Tuning()), ToRate(hz))
      ensures svfPost.Tuning() == Turn(old(svfPost.Tuning()), ToRate(hz))
    {
      hide sch.View;
      rateRamp := rateRamp.(b := rateB);
      preRamp := preRamp.(b := preB);
      recRamp := recRamp.(b := recB);
      sch.SetSampleRate(hz);
      RetuneFilters(hz);
    }

    method RetuneFilters(hz: real)
      requires Valid() && hz > 0.0
      modifies svfPre, svfPost
      ensures Valid()
      ensures svfPre.Memory() == old(svfPre.Memory()) && svfPost.Memory() == old(svfPost.Memory())
      ensures svfPre.Tuning() == Turn(old(svfPre.Tuning()), ToRate(hz))
      ensures svfPost.Tuning() == Turn(old(svfPost.Tuning()), ToRate(hz))
    {
      svfPre.SetSampleRate(hz);
      svfPost.SetSampleRate(hz);
    }

    method ResetHead(k: Kernel<RS>)
      requires Valid()
      modifies sch, sch.head0, sch.head1
      ensures Valid() && View() == old(View()).(sch := Voices.ResetHead(k, old(sch.View()), fixQuirks))
    {
      hide StageOf, Heads.Init, Heads.SetFadeTime, sch.View;
      sch.SetFadeTime(0.01);
      sch.SetRecOffsetSamples(-8);
      sch.Init(k);
      if fixQuirks { sch.SetFadeTime(0.01); }
    }

    method Defaults(f: Filter, lp: real, fc: real)
      requires f.Valid()
      modifies f
      ensures f.Valid() && f.Mix() == Mix(lp, 0.0, 0.0, 0.0) && f.Memory() == Memory(0.0, 0.0, 0.0)
      ensures f.Tuning() == Tuning(old(f.sr), Held(old(f.sr), fc), 4.0)
    {
      f.ClearState();
      f.lpMix, f.hpMix, f.bpMix, f.brMix := lp, 0.0, 0.0, 0.0;
      f.SetRq(4.0);
      f.SetFc(fc);
    }

    method PublishFlags()
      requires Valid()
      modifies this`savedRecFlag, this`savedRecOnceFlag
      ensures Valid() && View() == old(View()) && Saved() == Voices.PublishedFlags(View())
    {
      savedRecFlag := recFlag;
      savedRecOnceFlag := sch.onceDone || sch.onceFlag || sch.onceHead > -1;
    }

    method SetRecFlag(val: bool)
      requires Valid()
      modifies this`recFlag, this`savedRecFlag, this`savedRecOnceFlag, sch, sch.head0, sch.head1
      ensures Valid() && View() == Voices.SetRecFlag(old(View()), val)
      ensures Saved() == Voices.PublishedFlags(View())
    {
      ghost var v := View();
      assert v.sch == sch.View() && v.recFlag == recFlag && v.playFlag == playFlag;
      hide RunHeads, StopHeads, StageOf, sch.View;
      if recFlag {
        if !(val || playFlag) { sch.Stop(); }
      } else {
        if val && !playFlag { sch.Run(); }
      }
      recFlag := val;
      if !val { CancelPass(); }
      PublishFlags();
    }

    // Turns record-once off if it is active.
    method CancelPass()
      requires Valid()
      modifies sch
      ensures Valid()
      ensures View() == old(View()).(sch := if OnceActive(old(sch.View())) then SetOnce(old(sch.View()), false)
                                            else old(sch.View()))
    {
      hide StageOf;
      if sch.onceDone || sch.onceFlag || sch.onceHead > -1 { sch.SetRecOnceFlag(false); }
    }

    method SetPlayFlag(val: bool)
      requires Valid()
      modifies this`playFlag, sch, sch.head0, sch.head1
      ensures Valid() && View() == Voices.SetPlayFlag(old(View()), val)
    {
      if playFlag {
        if !(val || recFlag) { sch.Stop(); }
      } else {
        if val && !recFlag { sch.Run(); }
      }
      playFlag := val;
    }

    method SetRecOnceFlag(val: bool)
      requires Valid()
      modifies this`recFlag, this`savedRecFlag, this`savedRecOnceFlag, sch, sch.head0, sch.head1
      ensures Valid() && View() == Voices.SetRecOnceFlag(old(View()), val)
      ensures Saved() == Voices.PublishedFlags(View())
    {
      sch.SetRecOnceFlag(val);
      if val { SetRecFlag(true); }
      PublishFlags();
    }

    // ---- one sample ----

    method Smooth()
      requires Valid()
      modifies this`rateRamp, this`preRamp, this`recRamp, sch, sch.head0, sch.head1
      ensures Valid() && View() == Voices.Ramped(old(View()))
    {
      hide Voices.RampUpdate, SetHeadRate, View;
      SmoothRate();
      SmoothLevels();
    }

    method SmoothRate()
      requires Valid()
      modifies this`rateRamp, sch, sch.head0, sch.head1
      ensures Valid()
      ensures var r := Voices.RampUpdate(old(View()).rateRamp);
              View() == old(View()).(rateRamp := r, sch := SetHeadRate(old(View()).sch, r.y0))
    {
      hide Voices.RampUpdate, SetHeadRate, sch.View, StageOf;
      rateRamp := Voices.RampUpdate(rateRamp);
      sch.SetRate(rateRamp.y0);
    }

    method SmoothLevels()
      requires Valid()
      modifies this`preRamp, this`recRamp, sch
      ensures Valid()
      ensures var p, c := Voices.RampUpdate(old(View()).preRamp), Voices.RampUpdate(old(View()).recRamp);
              View() == old(View()).(preRamp := p, recRamp := c, sch := old(View()).sch.(pre := p.y0, rec := c.y0))
    {
      hide Voices.RampUpdate, sch.View, StageOf;
      preRamp := Voices.RampUpdate(preRamp);
      sch.SetPre(preRamp.y0);
      recRamp := Voices.RampUpdate(recRamp);
      sch.SetRec(recRamp.y0);
    }

    // `sampleFunc`: which of the head's three ways of running, or silence.
    method RunHead(k: Kernel<RS>, x: real, y: real) returns (y': real)
      requires Valid()
      modifies sch, sch.head0, sch.head1, sch.head0.buf
      ensures Valid()
      ensures (sch.View(), Samples(), y') == Voices.HeadStage(k, old(View()), old(Samples()), x, y)
    {
      y' := y;
      if playFlag {
        if recFlag { y' := sch.ProcessSample(k, x); } else { y' := sch.ProcessSampleNoWrite(k); }
      } else {
        if recFlag { sch.ProcessSampleNoRead(k, x); } else { y' := 0.0; }
      }
    }

    method OneSample(k: Kernel<RS>, x: real, y: real) returns (y': real, out: real)
      requires Valid()
      modifies this, sch, sch.head0, sch.head1, sch.head0.buf, svfPre, svfPost
      ensures Valid()
      ensures (View(), Samples(), y', out) == Voices.VoiceSample(k, old(View()), old(Samples()), x, y)
    {
      ghost var v, b := View(), Samples();
      var hx := FilterIn(x);
      ghost var v1 := View();
      assert sch.View() == v1.sch;
      y' := RunHead(k, hx, y);
      assert View() == v1.(sch := sch.View());
      hide View, Voices.HeadStage, Voices.InputStage, Voices.OutputStage;
      out := FilterOut(y');
    }

    method FilterIn(x: real) returns (hx: real)
      requires Valid()
      modifies this, sch, sch.head0, sch.head1, svfPre
      ensures Valid() && (View(), hx) == Voices.InputStage(old(View()), x)
    {
      hide Tick, Output, Voices.Ramped, Voices.WithDry;
      ghost var v := View();
      var fx := svfPre.GetNextSample(x);
      assert (View(), fx) == (v.(pre := Voices.StageNext(v.pre, x).0), Voices.StageNext(v.pre, x).1);
      hide Voices.StageNext;
      hx := Voices.WithDry(fx, x, preDry);
      Smooth();
    }

    method FilterOut(y: real) returns (out: real)
      requires Valid()
      modifies svfPost
      ensures Valid() && (View(), out) == Voices.OutputStage(old(View()), y)
    {
      hide Tick, Output, Voices.WithDry;
      var fy := svfPost.GetNextSample(y);
      out := Voices.WithDry(fy, y, postDry);
    }

    // ---- one block ----

    // `frames` samples of `input` go to `output` from `at` on; nothing else in
    // `output` changes.  `y0` is what the reused local happened to hold.
    method ProcessBlockMono(k: Kernel<RS>, input: array<real>, output: array<real>, at: nat, frames: nat, y0: real)
      requires Valid() && frames <= input.Length && at + frames <= output.Length
      requires input != output && sch.head0.buf != input && sch.head0.buf != output
      modifies this, sch, sch.head0, sch.head1, sch.head0.buf, svfPre, svfPost, output
      ensures Valid()
      ensures (View(), Samples(), output[at..at + frames])
           == Voices.VoiceBlock(k, old(View()), old(Samples()), old(input[..frames]), y0)
      ensures output[..at] == old(output[..at]) && output[at + frames..] == old(output[at + frames..])
      ensures Saved() == Voices.PublishedFlags(View())
    {
      hide View, Voices.VoiceSamples, Voices.EndBlock;
      RunBlock(k, input, output, at, frames, y0);
      FinishPass();
      PublishFlags();
    }

    // A finished one-shot pass switches recording off.
    method FinishPass()
      requires Valid()
      modifies this`recFlag, sch
      ensures Valid() && View() == Voices.EndBlock(old(View()))
    {
      hide StageOf;
      if recFlag {
        if sch.onceDone {
          recFlag := false;
          sch.SetRecOnceFlag(false);
        }
      }
    }

    method RunBlock(k: Kernel<RS>, input: array<real>, output: array<real>, at: nat, frames: nat, y0: real)
      requires Valid() && frames <= input.Length && at + frames <= output.Length
      requires input != output && sch.head0.buf != input && sch.head0.buf != output
      modifies this, sch, sch.head0, sch.head1, sch.head0.buf, svfPre, svfPost, output
      ensures Valid()
      ensures (View(), Samples(), output[at..at + frames])
           == Voices.VoiceSamples(k, old(View()), old(Samples()), old(input[..frames]), y0)
      ensures output[..at] == old(output[..at]) && output[at + frames..] == old(output[at + frames..])
    {
      hide Voices.VoiceSamples, Voices.VoiceSample;
      ghost var xs := input[..frames];
      var y := y0;
      assert xs[0..] == xs;
      PrependNone(k, View(), Samples(), xs, y);
      assert output[at..at + 0] == [];
      for i := 0 to frames
        invariant Valid() && input[..frames] == xs
        invariant Voices.VoiceSamples(k, old(View()), old(Samples()), xs, y0)
               == Prepend(output[at..at + i], Voices.VoiceSamples(k, View(), Samples(), xs[i..], y))
        invariant output[..at] == old(output[..at]) && output[at + frames..] == old(output[at + frames..])
      {
        SamplesNext(k, View(), Samples(), xs, i, y);
        ghost var done := output[at..at + i];
        var out;
        y, out := OneSample(k, input[i], y);
        output[at + i] := out;
        assert output[at..at + i + 1] == done + [out];
        PrependTwice(done, [out], Voices.VoiceSamples(k, View(), Samples(), xs[i + 1..], y));
      }
      assert xs[frames..] == [];
      SamplesNone(k, View(), Samples(), y, output[at..at + frames]);
    }
  }

  lemma PrependTwice<RS>(a: seq<real>, b: seq<real>, rest: (Voices.Voice<RS>, seq<real>, seq<real>))
    ensures Prepend(a, Prepend(b, rest)) == Prepend(a + b, rest)
  {
    assert a + (b + rest.2) == a + b + rest.2;
  }

  lemma PrependNone<RS>(k: Kernel<RS>, v: Voices.Voice<RS>, buf: seq<real>, xs: seq<real>, y: real)
    requires Fits(v.sch, buf)
    ensures Prepend([], Voices.VoiceSamples(k, v, buf, xs, y)) == Voices.VoiceSamples(k, v, buf, xs, y)
  {
    assert [] + Voices.VoiceSamples(k, v, buf, xs, y).2 == Voices.VoiceSamples(k, v, buf, xs, y).2;
  }

  lemma SamplesNone<RS>(k: Kernel<RS>, v: Voices.Voice<RS>, buf: seq<real>, y: real, outs: seq<real>)
    requires Fits(v.sch, buf)
    ensures Prepend(outs, Voices.VoiceSamples(k, v, buf, [], y)) == (v, buf, outs)
  {
    assert outs + [] == outs;
  }

  function Prepend<RS>(outs: seq<real>, rest: (Voices.Voice<RS>, seq<real>, seq<real>))
    : (Voices.Voice<RS>, seq<real>, seq<real>)
  {
    (rest.0, rest.1, outs + rest.2)
  }

  lemma SamplesNext<RS>(k: Kernel<RS>, v: Voices.Voice<RS>, buf: seq<real>, xs: seq<real>, i: nat, y: real)
    requires Fits(v.sch, buf) && i < |xs|
    ensures var (v1, buf1, y1, out) := Voices.VoiceSample(k, v, buf, xs[i], y);
            && Fits(v1.sch, buf1)
            && Voices.VoiceSamples(k, v, buf, xs[i..], y)
               == Prepend([out], Voices.VoiceSamples(k, v1, buf1, xs[i + 1..], y1))
  {
    assert xs[i..][0] == xs[i] && xs[i..][1..] == xs[i + 1..];
    Voices.VoiceSampleFits(k, v, buf, xs[i], y);
    hide Voices.VoiceSample;
  }
}
