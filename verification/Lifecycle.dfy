/**
 What `Engine::start` and `Engine::stop` achieve: the device and the flag after a call
 are what the call asked for and the device answered.
 */
module Lifecycle {
  import opened Options
  import opened CommandRing
  import opened FlagMirror
  import opened ControlProtocol
  import opened ControlSafety

  // ---- what a call leaves ----

  // The device could not be made ready, or would not start.
  predicate Refused(call: seq<Step>) {
    Check(false) in call || StartReturns(false) in call
  }

  predicate NoEnter(call: seq<Step>) {
    forall step :: step in call ==> !step.Enter?
  }

  // The device is up after a start, unless it was down and refused.
  predicate Up(start: bool, was: bool, refused: bool) {
    start && (was || !refused)
  }

  // Every accepted change has run.
  ghost predicate Drained(s: State) {
    forall osc: bool ::
      var c := Chan(s, osc);
      && |c.ring.popped| <= |c.ring.pushed| && Queue(c.ring) == []
      && |c.fate| <= |c.issued| && c.executed == Accepted(c.issued, c.fate)
  }

  // How far a call of `start` or `stop` has come, on an engine that was running or not.
  predicate Amid(s: State, start: bool, was: bool, refused: bool) {
    match s.life
    case Outside => s.running == Up(start, was, refused)
    case Wanting(b) => b == start && s.running == was && !refused
    case Checking(b) => b == start && s.running == was && !refused
    case Stopping => !start
    case Lowering => !Up(start, was, refused)
    case FinalDrain(_) => !Up(start, was, refused)
    case Releasing => s.running == Up(start, was, refused)
    case _ => start && !was && !refused
  }

  // Producers and the audio thread leave the call and the flag alone.
  lemma OthersLeave(s: State, step: Step)
    requires Enabled(s, step) && (step.Produce? || step.AudioDrain?)
    ensures Apply(s, step).life == s.life && Apply(s, step).running == s.running
  {
    if step.Produce? {
      ProducerLeaves(s, step.osc, step.step);
      hide ProducerApply, ProducerEnabled, DrainApply;
    } else {
      DrainLeaves(s, s.audio.d, step.seen);
      hide ProducerApply, ProducerEnabled, DrainApply;
    }
  }

  lemma ProducerLeaves(s: State, osc: bool, step: ProducerStep)
    requires ProducerEnabled(s, osc, step)
    ensures ProducerApply(s, osc, step).life == s.life && ProducerApply(s, osc, step).running == s.running
  {
    hide LoadHead, LoadTail, WriteSlot, StoreHead, TailObservable, Published, MirrorAtIssue, MirrorAtReturn;
  }

  lemma DrainLeaves(s: State, d: Drain, seen: nat)
    requires DrainEnabled(s, d, seen)
    ensures DrainApply(s, d, seen).0.life == s.life && DrainApply(s, d, seen).0.running == s.running
  {
    hide LoadOwnTail, LoadOtherHead, TakeSlot, StoreTail, HeadObservable, Published;
  }

  lemma FinalDrainStep(s: State)
    requires Enabled(s, LifeDrain)
    ensures var s' := Apply(s, LifeDrain); (s'.life.FinalDrain? || s'.life.Releasing?) && s'.running == s.running
  {
    DrainLeaves(s, s.life.d, |Chan(s, s.life.d.osc).ring.pushed|);
    hide DrainApply, ProducerApply;
  }

  lemma AmidStep(s: State, step: Step, start: bool, was: bool, refused: bool)
    requires WindowInv(s) && Enabled(s, step) && !step.Enter? && Amid(s, start, was, refused)
    ensures Amid(Apply(s, step), start, was, refused || Refused([step]))
  {
    assert Refused([step]) <==> step == Check(false) || step == StartReturns(false);
    if step.Produce? || step.AudioDrain? {
      OthersLeave(s, step);
      hide Apply, Enabled;
    } else if step.LifeDrain? {
      FinalDrainStep(s);
      hide Apply;
    } else {
      hide DrainApply, ProducerApply, DrainEnabled, ProducerEnabled;
    }
  }

  lemma WindowHolds(s: State)
    requires Inv(s)
    ensures WindowInv(s)
  {
  }

  lemma {:induction false} AmidRun(s: State, call: seq<Step>, s': State, start: bool, was: bool, refused: bool)
    requires Inv(s) && Run(s, call, s') && NoEnter(call) && Amid(s, start, was, refused)
    ensures Amid(s', start, was, refused || Refused(call))
    decreases |call|
  {
    hide Inv, Enabled, Apply, Amid;
    if call != [] {
      StepKeepsInv(s, call[0]);
      WindowHolds(s);
      AmidStep(s, call[0], start, was, refused);
      AmidRun(Apply(s, call[0]), call[1..], s', start, was, refused || Refused([call[0]]));
      assert call == [call[0]] + call[1..];
      assert Refused(call) <==> Refused([call[0]]) || Refused(call[1..]);
    }
  }

  lemma Entered(s: State, start: bool)
    requires Enabled(s, Enter(start))
    ensures Amid(Apply(s, Enter(start)), start, s.running, false)
  {
  }

  // When a call of `start` or `stop` is over, the flag and the device are up exactly when
  // it was a start and the device was up before or did not refuse; otherwise no callback
  // is live, and every accepted change has run.
  lemma CallDecides(cap: nat, f: Flags, before: seq<Step>, s0: State, start: bool, call: seq<Step>, s: State)
    requires cap > 0 && Run(Init(cap, f), before, s0)
    requires Run(s0, [Enter(start)] + call, s) && NoEnter(call) && s.life.Outside?
    ensures s.running == s.window == (start && (s0.running || !Refused(call)))
    ensures !s.running ==> s.audio.Quiet? && Drained(s)
  {
    InitInv(cap, f);
    EveryRunKeepsInv(Init(cap, f), before, s0);
    var steps := [Enter(start)] + call;
    assert steps[0] == Enter(start) && steps[1..] == call;
    hide Inv, Drained;
    StepKeepsInv(s0, Enter(start));
    WindowHolds(s0);
    var s1 := Apply(s0, Enter(start));
    Entered(s0, start);
    hide Apply, Init;
    AmidRun(s1, call, s, start, s0.running, false);
    EveryRunKeepsInv(s1, call, s);
    DownIsDrained(s);
  }

  lemma DownIsDrained(s: State)
    requires Inv(s) && s.life.Outside?
    ensures s.running == s.window
    ensures !s.running ==> s.audio.Quiet? && Drained(s)
  {
    hide Accepted, Queue, RingInv, CountInv, FlagChanges, Refusals;
    if !s.running {
      assert Drainer(s) == None;
      forall osc: bool
        ensures var c := Chan(s, osc);
                && |c.ring.popped| <= |c.ring.pushed| && Queue(c.ring) == []
                && |c.fate| <= |c.issued| && c.executed == Accepted(c.issued, c.fate)
      {
        var c := Chan(s, osc);
        RingBounds(c.ring, PusherAt(c.pc), Popper(s, osc));
        assert c.executed + [] + [] == c.executed;
      }
    }
  }

  lemma {:induction false} RunSplits(s: State, steps: seq<Step>, i: nat, s': State) returns (mid: State)
    requires Run(s, steps, s') && i <= |steps|
    ensures Run(s, steps[..i], mid) && Run(mid, steps[i..], s')
    decreases i
  {
    hide Apply, Enabled;
    if i == 0 {
      mid := s;
      assert steps[0..] == steps;
    } else {
      var first, rest := steps[0], steps[1..];
      mid := RunSplits(Apply(s, first), rest, i - 1, s');
      assert rest[i - 1..] == steps[i..];
      Prepended(s, first, rest[..i - 1], mid);
      assert [first] + rest[..i - 1] == steps[..i];
    }
  }

  lemma Prepended(s: State, first: Step, rest: seq<Step>, s': State)
    requires Enabled(s, first) && Run(Apply(s, first), rest, s')
    ensures Run(s, [first] + rest, s')
  {
    hide Apply, Enabled;
    var steps := [first] + rest;
    assert steps[0] == first && steps[1..] == rest;
  }

  // A stop stops: over every run whose last call was one and is over, the flag is down, no
  // callback is live, and what was accepted has run.
  lemma StopStops(cap: nat, f: Flags, steps: seq<Step>, i: nat, s: State)
    requires cap > 0 && Run(Init(cap, f), steps, s)
    requires i < |steps| && steps[i] == Enter(false) && NoEnter(steps[i + 1..]) && s.life.Outside?
    ensures !s.running && !s.window && s.audio.Quiet? && Drained(s)
  {
    hide Drained, Run;
    var s0 := RunSplits(Init(cap, f), steps, i, s);
    assert steps[i..] == [Enter(false)] + steps[i + 1..];
    CallDecides(cap, f, steps[..i], s0, false, steps[i + 1..], s);
  }

  // A start the device did not refuse leaves it running.
  lemma StartStarts(cap: nat, f: Flags, steps: seq<Step>, i: nat, s: State)
    requires cap > 0 && Run(Init(cap, f), steps, s)
    requires i < |steps| && steps[i] == Enter(true) && NoEnter(steps[i + 1..]) && s.life.Outside?
    requires !Refused(steps[i + 1..])
    ensures s.running && s.window
  {
    hide Drained, Run;
    var s0 := RunSplits(Init(cap, f), steps, i, s);
    assert steps[i..] == [Enter(true)] + steps[i + 1..];
    CallDecides(cap, f, steps[..i], s0, true, steps[i + 1..], s);
  }
}
