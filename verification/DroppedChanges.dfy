/**
 What the getters answer when flag changes have been dropped and passes have finished.

 A setter stores the mirror before it knows whether its change will be queued, so a
 dropped change stays in the mirror.
 */
module DroppedChanges {
  import opened CommandRing
  import opened FlagMirror
  import opened ControlProtocol
  import opened ControlSafety
  import opened ReadYourWrites

  // Any steps at all, with one producer of flag changes.
  ghost predicate AnyRun(who: bool, s: State, steps: seq<Step>, s': State)
    decreases |steps|
  {
    if steps == [] then s' == s
    else Enabled(s, steps[0]) && OtherChangesNone(who, steps[0]) && AnyRun(who, Apply(s, steps[0]), steps[1..], s')
  }

  lemma {:induction false} AnyRunClean(who: bool, s: State, steps: seq<Step>, s': State)
    requires Clean(who, s) && AnyRun(who, s, steps, s')
    ensures Clean(who, s')
    decreases |steps|
  {
    hide Clean, Enabled, Apply, OtherChangesNone;
    if steps != [] {
      CleanStep(who, s, steps[0]);
      AnyRunClean(who, Apply(s, steps[0]), steps[1..], s');
    }
  }

  lemma InitClean(who: bool, cap: nat, f: Flags)
    requires cap > 0
    ensures Clean(who, Init(cap, f))
  {
    InitInv(cap, f);
    hide Inv;
  }

  // After any run from a fresh engine, drops and finished passes included, and then one
  // without them: with nothing pending the getters answer with what the DSP has.  While
  // something is pending they answer with what it will have exactly when, for each of the
  // two flags, mirror and DSP were to agree on it at the end of the first run, or a change
  // made since fixes it.
  lemma AnswerIff(who: bool, cap: nat, f: Flags, before: seq<Step>, s: State, after: seq<Step>, s': State)
    requires cap > 0 && AnyRun(who, Init(cap, f), before, s)
    requires ConsideredRun(who, s, after, s') && Chan(s', who).pc.Idle?
    ensures Bounded(s, who) && Bounded(s', who)
    ensures s'.pending <= 0 ==> Answer(s') == Settled(who, s')
    ensures s'.pending > 0 ==>
              (Answer(s') == Settled(who, s') <==> AgreeAfter(Mirror(who, s), Settled(who, s), IssuedAll(after)))
  {
    hide Clean, AnyRun, ConsideredRun, Settled, AgreeAfter, FlagSteps;
    InitClean(who, cap, f);
    AnyRunClean(who, Init(cap, f), before, s);
    RunMoves(who, s, after, s');
    if s'.pending > 0 {
      AgreeIff(Mirror(who, s), Settled(who, s), IssuedAll(after));
    } else {
      PendingNotNegative(who, s');
      NothingPending(who, s');
    }
  }

  // About to drop a flag change.
  predicate Drops(who: bool, s: State, op: FlagOp) {
    Chan(s, who).pc == Dropping(Flag(op))
  }

  // A drop leaves the mirror as it is; the DSP will settle on the pair without the change.
  lemma DropParts(who: bool, s: State, op: FlagOp)
    requires Clean(who, s) && Drops(who, s, op)
    ensures Enabled(s, Produce(who, GiveUp)) && Bounded(s, who)
    ensures var s1 := Apply(s, Produce(who, GiveUp));
            && Clean(who, s1) && Bounded(s1, who) && Mirror(who, s1) == Mirror(who, s)
            && Settled(who, s) == FlagStep(Settled(who, s1), op)
  {
    var step := Produce(who, GiveUp);
    var s1 := Apply(s, step);
    assert Enabled(s, step);
    CleanStep(who, s, step);
    DropState(who, s, op);
    SameInFlight(who, s, step);
    hide Clean, Apply, Enabled, Inv, InFlight, Queue, FlagOps, Settled, Line;
    CleanBounds(who, s);
    CleanBounds(who, s1);
    DropLine(who, s, s1, op);
    FlagStepsAppend(s1.published, Outstanding(who, s1), op);
    SettledIs(who, s);
    SettledIs(who, s1);
  }

  lemma SettledIs(who: bool, s: State)
    requires Bounded(s, who)
    ensures Settled(who, s) == FlagSteps(s.published, Outstanding(who, s))
  {
  }

  lemma DropState(who: bool, s: State, op: FlagOp)
    requires Drops(who, s, op)
    ensures Enabled(s, Produce(who, GiveUp))
    ensures var s1 := Apply(s, Produce(who, GiveUp));
            && s1.published == s.published && s1.mirror == s.mirror && Chan(s1, who).ring == Chan(s, who).ring
            && Chan(s1, who).pc == Leaving(Flag(op), false) && Mirror(who, s1) == Mirror(who, s)
  {
  }

  lemma DropLine(who: bool, s: State, s1: State, op: FlagOp)
    requires Bounded(s, who) && Bounded(s1, who) && Chan(s1, who).ring == Chan(s, who).ring
    requires InFlight(s1, who) == InFlight(s, who)
    requires Chan(s, who).pc == Dropping(Flag(op)) && Chan(s1, who).pc == Leaving(Flag(op), false)
    ensures Outstanding(who, s) == Outstanding(who, s1) + [op]
  {
    assert Line(who, s) == Line(who, s1) + [Flag(op)];
    hide Line, InFlight, Queue;
    FlagOpsConcat(Line(who, s1), [Flag(op)]);
    SingleFlagOp(Flag(op));
  }

  // After the first drop: with something pending the getters answer with what the DSP
  // will have exactly when, for each flag, the dropped change would have made no
  // difference to it or a change made since fixes it.
  lemma AnswerAfterDropIff(who: bool, cap: nat, f: Flags, before: seq<Step>, s: State, op: FlagOp,
                           after: seq<Step>, s': State)
    requires cap > 0 && ConsideredRun(who, Init(cap, f), before, s) && Drops(who, s, op)
    requires Enabled(s, Produce(who, GiveUp)) && ConsideredRun(who, Apply(s, Produce(who, GiveUp)), after, s')
    requires Chan(s', who).pc.Idle? && s'.pending > 0
    ensures var s1 := Apply(s, Produce(who, GiveUp));
            && Bounded(s1, who) && Bounded(s', who)
            && (Answer(s') == Settled(who, s') <==>
                  AgreeAfter(FlagStep(Settled(who, s1), op), Settled(who, s1), IssuedAll(after)))
  {
    InitClean(who, cap, f);
    InitAgrees(who, cap, f);
    hide Clean, ConsideredRun, Settled, AgreeAfter, Apply, Enabled, FlagSteps, Drops;
    var s1 := Apply(s, Produce(who, GiveUp));
    RunMoves(who, Init(cap, f), before, s);
    DropParts(who, s, op);
    RunMoves(who, s1, after, s');
    AgreeIff(Mirror(who, s1), Settled(who, s1), IssuedAll(after));
  }

  lemma InitAgrees(who: bool, cap: nat, f: Flags)
    requires cap > 0
    ensures Bounded(Init(cap, f), who) && Settled(who, Init(cap, f)) == Mirror(who, Init(cap, f))
  {
  }
}
