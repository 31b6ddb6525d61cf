/**
 Two runs of the control protocol, step by step from a fresh engine: one in which a
 getter's pending answer is not the final one, and one in which both producers are
 about to change the DSP on their own threads.
 */
module RecordRuns {
  import opened Options
  import opened CommandRing
  import opened FlagMirror
  import opened ControlProtocol
  import opened ControlSafety
  import opened ReadYourWrites
  import opened RecordPasses

  // Python is the one that changes flags.
  ghost predicate Reaches(s: State, s': State) {
    exists steps :: PassRun(false, s, steps, s')
  }

  ghost predicate QuietlyReaches(s: State, s': State, issued: seq<FlagOp>) {
    exists steps :: ConsideredRun(false, s, steps, s') && IssuedAll(steps) == issued
  }

  lemma {:induction false} PassRunExtends(s: State, steps: seq<Step>, s1: State, step: Step)
    requires PassRun(false, s, steps, s1) && Enabled(s1, step) && Allowed(false, s1, step)
    ensures PassRun(false, s, steps + [step], Apply(s1, step))
    decreases |steps|
  {
    hide Enabled, Apply, Allowed;
    if steps == [] {
      assert [step][1..] == [];
    } else {
      PassRunExtends(Apply(s, steps[0]), steps[1..], s1, step);
      assert (steps + [step])[1..] == steps[1..] + [step];
    }
  }

  lemma {:induction false} QuietRunExtends(s: State, steps: seq<Step>, s1: State, step: Step)
    requires ConsideredRun(false, s, steps, s1) && Enabled(s1, step) && Considered(false, s1, step)
    ensures ConsideredRun(false, s, steps + [step], Apply(s1, step))
    decreases |steps|
  {
    hide Enabled, Apply, Considered;
    if steps == [] {
      assert [step][1..] == [];
    } else {
      QuietRunExtends(Apply(s, steps[0]), steps[1..], s1, step);
      assert (steps + [step])[1..] == steps[1..] + [step];
    }
  }

  lemma {:induction false} IssuedAppend(steps: seq<Step>, step: Step)
    ensures IssuedAll(steps + [step]) == IssuedAll(steps) + Issued(step)
  {
    hide Issued;
    if steps == [] {
      assert [step][1..] == [];
      assert Issued(step) + [] == [] + Issued(step);
    } else {
      IssuedAppend(steps[1..], step);
      assert (steps + [step])[1..] == steps[1..] + [step];
      assert Issued(steps[0]) + (IssuedAll(steps[1..]) + Issued(step))
          == Issued(steps[0]) + IssuedAll(steps[1..]) + Issued(step);
    }
  }

  lemma Begin(s: State)
    ensures Reaches(s, s) && QuietlyReaches(s, s, [])
  {
    assert PassRun(false, s, [], s) && ConsideredRun(false, s, [], s) && IssuedAll([]) == [];
  }

  lemma Go(s: State, s1: State, step: Step, s2: State)
    requires Reaches(s, s1) && Enabled(s1, step) && Allowed(false, s1, step) && s2 == Apply(s1, step)
    ensures Reaches(s, s2)
  {
    hide Enabled, Apply, Allowed;
    var steps :| PassRun(false, s, steps, s1);
    PassRunExtends(s, steps, s1, step);
  }

  lemma GoQuietly(s: State, s1: State, issued: seq<FlagOp>, step: Step, s2: State)
    requires QuietlyReaches(s, s1, issued) && Enabled(s1, step) && Considered(false, s1, step) && s2 == Apply(s1, step)
    ensures QuietlyReaches(s, s2, issued + Issued(step))
  {
    hide Enabled, Apply, Considered;
    var steps :| ConsideredRun(false, s, steps, s1) && IssuedAll(steps) == issued;
    QuietRunExtends(s, steps, s1, step);
    IssuedAppend(steps, step);
  }

  const Arm := Flag(SetRecOnce(true))
  const Again := Flag(SetRec(true))
  const On := Flags(true, true)
  const Off := Flags(false, false)

  function PyStep(step: ProducerStep): Step {
    Produce(false, step)
  }

  // ---- a one-shot pass armed while the engine is stopped ----

  function WithPy(s: State, pc: Producer, fate: seq<bool>, executed: seq<Cmd>): State {
    s.(py := s.py.(pc := pc, fate := fate, executed := executed))
  }

  function AskedFor(cap: nat, f: Flags): State {
    Init(cap, f).(py := Channel(Counting(Arm), Empty(cap), [Arm], [], []), mirror := On)
  }

  function AboutToArm(cap: nat, f: Flags): State {
    WithPy(AskedFor(cap, f), Direct(Arm), [], []).(pending := 1, readers := 1)
  }

  function Armed(cap: nat, f: Flags): State {
    WithPy(AskedFor(cap, f), Idle, [true], [Arm]).(published := On)
  }

  lemma ReachDirect(cap: nat, f: Flags)
    ensures Reaches(Init(cap, f), AboutToArm(cap, f))
  {
    hide Reaches;
    var s0, s1 := Init(cap, f), AskedFor(cap, f);
    Begin(s0);
    Go(s0, s0, PyStep(Issue(Arm)), s1);
    var s2 := WithPy(s1, Waiting(Arm), [], []).(pending := 1);
    Go(s0, s1, PyStep(Count), s2);
    var s3 := WithPy(s1, Deciding(Arm), [], []).(pending := 1, readers := 1);
    Go(s0, s2, PyStep(Lock), s3);
    Go(s0, s3, PyStep(Read), AboutToArm(cap, f));
  }

  lemma ReachArmed(cap: nat, f: Flags)
    ensures Reaches(Init(cap, f), Armed(cap, f))
  {
    hide Reaches;
    ReachDirect(cap, f);
    var s0, s4 := Init(cap, f), AboutToArm(cap, f);
    var s5 := WithPy(s4, DirectRan(Arm), [true], [Arm]).(published := On);
    Go(s0, s4, PyStep(RunHere), s5);
    var s6 := WithPy(s5, Leaving(Arm, true), [true], [Arm]).(pending := 0);
    Go(s0, s5, PyStep(CountDownHere), s6);
    Go(s0, s6, PyStep(Unlock), Armed(cap, f));
  }

  // ---- the engine starts, and a block finishes the pass ----

  function Started(cap: nat, f: Flags): State {
    Armed(cap, f).(running := true, window := true)
  }

  function Finishing(cap: nat, f: Flags): State {
    Started(cap, f).(audio := Processing)
  }

  lemma ReachStarted(cap: nat, f: Flags)
    ensures Reaches(Init(cap, f), Started(cap, f))
  {
    hide Reaches, Empty;
    ReachArmed(cap, f);
    var s0, s := Init(cap, f), Armed(cap, f);
    Go(s0, s, Enter(true), s.(life := Wanting(true)));
    var t := s.(life := Checking(true), writer := true);
    Go(s0, s.(life := Wanting(true)), LockExclusive, t);
    Go(s0, t, Check(true), t.(life := Raising));
    var u := t.(running := true, life := Calling);
    Go(s0, t.(life := Raising), RaiseFlag, u);
    Go(s0, u, CallStart, u.(window := true, life := Starting));
    Go(s0, u.(window := true, life := Starting), StartReturns(true), u.(window := true, life := Releasing));
    Go(s0, u.(window := true, life := Releasing), Step.Release, Started(cap, f));
  }

  lemma ReachFinishing(cap: nat, f: Flags)
    requires cap > 0
    ensures Reaches(Init(cap, f), Finishing(cap, f)) && Enabled(Finishing(cap, f), FinishPass)
  {
    hide Reaches;
    ReachStarted(cap, f);
    var s0, s := Init(cap, f), Started(cap, f);
    Go(s0, s, CallBack, s.(audio := Draining(Popping(false, PopIdle))));
    Go(s0, s.(audio := Draining(Popping(false, PopIdle))), AudioDrain(0),
        s.(audio := Draining(Popping(false, PopTail(0)))));
    Go(s0, s.(audio := Draining(Popping(false, PopTail(0)))), AudioDrain(0),
        s.(audio := Draining(Popping(true, PopIdle))));
    Go(s0, s.(audio := Draining(Popping(true, PopIdle))), AudioDrain(0),
        s.(audio := Draining(Popping(true, PopTail(0)))));
    Go(s0, s.(audio := Draining(Popping(true, PopTail(0)))), AudioDrain(0), Finishing(cap, f));
  }

  // ---- recording is switched on again ----

  function Finished(cap: nat, f: Flags): State {
    Finishing(cap, f).(published := Off)
  }

  // The queue with the new change in it.
  function Stale(cap: nat, f: Flags): State
    requires cap > 0
  {
    var s := Finished(cap, f);
    var r := Empty(cap).(buf := Empty(cap).buf[0 := Some(Again)], head := Succ(0, cap), pushed := [Again]);
    s.(py := Channel(Idle, r, [Arm, Again], [true, true], [Arm]), pending := 1)
  }

  lemma ReachPushing(cap: nat, f: Flags)
    ensures var s := Finished(cap, f);
            QuietlyReaches(s, s.(py := s.py.(pc := Pushing(Again, 0, PushIdle), issued := [Arm, Again]),
                                 pending := 1, readers := 1), [SetRec(true)])
  {
    hide QuietlyReaches, Empty;
    var s := Finished(cap, f);
    Begin(s);
    var s1 := s.(py := s.py.(pc := Counting(Again), issued := [Arm, Again]));
    GoQuietly(s, s, [], PyStep(Issue(Again)), s1);
    assert [] + [SetRec(true)] == [SetRec(true)] && [SetRec(true)] + [] == [SetRec(true)];
    var s2 := s1.(py := s1.py.(pc := Waiting(Again)), pending := 1);
    GoQuietly(s, s1, [SetRec(true)], PyStep(Count), s2);
    var s3 := s2.(py := s2.py.(pc := Deciding(Again)), readers := 1);
    GoQuietly(s, s2, [SetRec(true)], PyStep(Lock), s3);
    GoQuietly(s, s3, [SetRec(true)], PyStep(Read), s3.(py := s3.py.(pc := Pushing(Again, 0, PushIdle))));
  }

  function Written(cap: nat, f: Flags): State
    requires cap > 0
  {
    var s := Finished(cap, f);
    s.(py := s.py.(pc := Pushing(Again, 0, PushWrote(Again, 0)), issued := [Arm, Again],
                   ring := Empty(cap).(buf := Empty(cap).buf[0 := Some(Again)])),
       pending := 1, readers := 1)
  }

  lemma ReachWritten(cap: nat, f: Flags)
    requires cap >= 2
    ensures QuietlyReaches(Finished(cap, f), Written(cap, f), [SetRec(true)])
  {
    hide QuietlyReaches;
    ReachPushing(cap, f);
    var s := Finished(cap, f);
    var s4 := s.(py := s.py.(pc := Pushing(Again, 0, PushIdle), issued := [Arm, Again]), pending := 1, readers := 1);
    assert [SetRec(true)] + [] == [SetRec(true)];
    var s5 := s4.(py := s4.py.(pc := Pushing(Again, 0, PushHead(Again, 0))));
    GoQuietly(s, s4, [SetRec(true)], PyStep(PushLoadHead), s5);
    var s6 := s5.(py := s5.py.(pc := Pushing(Again, 0, PushRoom(Again, 0))));
    GoQuietly(s, s5, [SetRec(true)], PyStep(PushLoadTail(0)), s6);
    GoQuietly(s, s6, [SetRec(true)], PyStep(PushWrite), Written(cap, f));
  }

  lemma ReachStale(cap: nat, f: Flags)
    requires cap >= 2
    ensures QuietlyReaches(Finished(cap, f), Stale(cap, f), [SetRec(true)])
  {
    hide QuietlyReaches;
    ReachWritten(cap, f);
    var s, s7 := Finished(cap, f), Written(cap, f);
    assert [SetRec(true)] + [] == [SetRec(true)];
    var r := s7.py.ring.(head := Succ(0, cap), pushed := [Again]);
    var s8 := s7.(py := s7.py.(pc := Leaving(Again, true), ring := r, fate := [true, true]));
    GoQuietly(s, s7, [SetRec(true)], PyStep(PushPublish), s8);
    GoQuietly(s, s8, [SetRec(true)], PyStep(Unlock), Stale(cap, f));
  }

  // For every queue and every pair to start from: a pass is armed, finishes, and
  // recording is switched on again.  Until that is applied the getters claim
  // record-once; once it is, they do not.
  lemma StaleRun(cap: nat, f: Flags) returns (before: seq<Step>, s: State, after: seq<Step>, s': State)
    requires cap >= 2
    ensures PassRun(false, Init(cap, f), before, s) && Enabled(s, FinishPass)
    ensures ConsideredRun(false, Apply(s, FinishPass), after, s') && s'.py.pc.Idle? && s'.pending == 1
    ensures Run(Init(cap, f), before + [FinishPass] + after, s')
    ensures Bounded(s', false) && Answer(s') == Flags(true, true) && Settled(false, s') == Flags(true, false)
  {
    ReachFinishing(cap, f);
    ReachStale(cap, f);
    s, s' := Finishing(cap, f), Stale(cap, f);
    before :| PassRun(false, Init(cap, f), before, s);
    assert Apply(s, FinishPass) == Finished(cap, f);
    after :| ConsideredRun(false, Finished(cap, f), after, s');
    StaleAnswer(cap, f);
    hide Enabled, Apply, Finishing, Stale, Finished, Settled;
    PassThenQuiet(Init(cap, f), before, s, after, s');
  }

  lemma StaleAnswer(cap: nat, f: Flags)
    requires cap >= 2
    ensures var s := Stale(cap, f);
            && s.py.pc.Idle? && s.pending == 1 && Bounded(s, false)
            && Answer(s) == Flags(true, true) && Settled(false, s) == Flags(true, false)
  {
    var s := Stale(cap, f);
    assert Queue(s.py.ring) == [Again];
    assert Line(false, s) == [Again];
    assert FlagOps([Again]) == [SetRec(true)] by { assert [Again][1..] == []; }
    assert [SetRec(true)][1..] == [];
    assert FlagSteps(FlagStep(Off, SetRec(true)), []) == Flags(true, false);
  }

  lemma {:induction false} QuietIsRun(s: State, steps: seq<Step>, s': State)
    requires ConsideredRun(false, s, steps, s')
    ensures Run(s, steps, s')
    decreases |steps|
  {
    hide Enabled, Apply, Considered;
    if steps != [] { QuietIsRun(Apply(s, steps[0]), steps[1..], s'); }
  }

  lemma {:induction false} PassThenQuiet(s: State, before: seq<Step>, s1: State, after: seq<Step>, s': State)
    requires PassRun(false, s, before, s1) && Enabled(s1, FinishPass)
    requires ConsideredRun(false, Apply(s1, FinishPass), after, s')
    ensures Run(s, before + [FinishPass] + after, s')
    decreases |before|
  {
    hide Enabled, Apply, Allowed, Considered;
    var steps := before + [FinishPass] + after;
    if before == [] {
      QuietIsRun(Apply(s1, FinishPass), after, s');
      assert steps[0] == FinishPass && steps[1..] == after;
    } else {
      PassThenQuiet(Apply(s, before[0]), before[1..], s1, after, s');
      assert steps[1..] == before[1..] + [FinishPass] + after;
    }
  }

  // ---- both producers at the DSP at once ----

  // Both have read that the engine is stopped, under the shared lock.
  function BothDirect(cap: nat, f: Flags): State {
    var s, c := AboutToArm(cap, f), Param(true, 0);
    s.(osc := Channel(Direct(c), Empty(cap), [c], [], []), readers := 2)
  }

  lemma BothProducersAct(cap: nat, f: Flags)
    ensures Reaches(Init(cap, f), BothDirect(cap, f))
    ensures Acting(BothDirect(cap, f), Python) && Acting(BothDirect(cap, f), Osc)
  {
    hide Reaches, Empty;
    ReachDirect(cap, f);
    var s0, s, c := Init(cap, f), AboutToArm(cap, f), Param(true, 0);
    var s1 := s.(osc := s.osc.(pc := Waiting(c), issued := [c]));
    Go(s0, s, Produce(true, Issue(c)), s1);
    var s2 := s1.(osc := s1.osc.(pc := Deciding(c)), readers := 2);
    Go(s0, s1, Produce(true, Lock), s2);
    Go(s0, s2, Produce(true, Read), BothDirect(cap, f));
  }
}
