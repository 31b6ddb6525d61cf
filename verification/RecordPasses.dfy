/**
 Runs in which one-shot passes finish, any number of times.

 A finished pass turns the DSP's pair off without the mirror hearing of it.  Until
 the next finish the two agree again, because a pass can only finish after a
 record-once that switches both flags on, whatever they were.
 */
module RecordPasses {
  import opened CommandRing
  import opened FlagMirror
  import opened ControlProtocol
  import opened ControlSafety
  import opened ReadYourWrites

  predicate Allowed(who: bool, s: State, step: Step)
    requires Enabled(s, step)
  {
    step.FinishPass? || Considered(who, s, step)
  }

  ghost predicate PassRun(who: bool, s: State, steps: seq<Step>, s': State)
    decreases |steps|
  {
    if steps == [] then s' == s
    else Enabled(s, steps[0]) && Allowed(who, s, steps[0]) && PassRun(who, Apply(s, steps[0]), steps[1..], s')
  }

  // `q` is the published pair as it would be had no pass finished: the mirror follows
  // from it, and it is the published pair itself wherever a pass can finish.
  ghost predicate Untold(who: bool, s: State, q: Flags)
    requires Bounded(s, who)
  {
    && Mirror(who, s) == FlagSteps(q, Outstanding(who, s))
    && (s.published.recOnce ==> q == s.published)
  }

  ghost predicate Synced(who: bool, s: State) {
    Clean(who, s) && Bounded(s, who) && exists q :: Untold(who, s, q)
  }

  lemma OnceOnForgets(p: Flags, q: Flags, op: FlagOp)
    requires p.recOnce ==> q == p
    ensures FlagStep(p, op).recOnce ==> FlagStep(q, op) == FlagStep(p, op)
  {
  }

  lemma StepSyncs(who: bool, s: State, step: Step, q: Flags)
    requires Clean(who, s) && Bounded(s, who) && Untold(who, s, q)
    requires Enabled(s, step) && Considered(who, s, step)
    ensures Synced(who, Apply(s, step))
  {
    StepMoves(who, s, step);
    MirrorStep(who, s, step);
    hide Clean, Apply, Considered, Enabled, Mirror, Outstanding;
    var s', ops := Apply(s, step), Outstanding(who, s);
    if Outstanding(who, s') == ops + Issued(step) && s'.published == s.published {
      FlagStepsConcat(q, ops, Issued(step));
      assert Untold(who, s', q);
    } else {
      OnceOnForgets(s.published, q, ops[0]);
      assert Untold(who, s', FlagStep(q, ops[0]));
    }
  }

  lemma PassSyncs(who: bool, s: State, q: Flags)
    requires Clean(who, s) && Bounded(s, who) && Untold(who, s, q) && Enabled(s, FinishPass)
    ensures Synced(who, Apply(s, FinishPass))
  {
    PassState(who, s);
    hide Clean, Apply, Enabled, Mirror, Outstanding;
    assert Untold(who, Apply(s, FinishPass), q);
  }

  lemma PassState(who: bool, s: State)
    requires Clean(who, s) && Bounded(s, who) && Enabled(s, FinishPass)
    ensures var s' := Apply(s, FinishPass);
            && Clean(who, s') && Bounded(s', who) && Mirror(who, s') == Mirror(who, s)
            && Outstanding(who, s') == Outstanding(who, s)
            && s.published == Flags(true, true) && s'.published == Flags(false, false)
  {
    hide Clean, Queue, FlagOps, Apply, Enabled, InHand, Line;
    PassOnlyPublishes(s);
    PassClean(who, s);
    SameThreadsSameLine(who, s, Apply(s, FinishPass));
  }

  lemma PassClean(who: bool, s: State)
    requires Clean(who, s) && Enabled(s, FinishPass)
    ensures Clean(who, Apply(s, FinishPass))
  {
    hide Inv, Apply, Enabled;
    PassOnlyPublishes(s);
    StepKeepsInv(s, FinishPass);
  }

  lemma PassOnlyPublishes(s: State)
    requires Enabled(s, FinishPass)
    ensures s.published == Flags(true, true) && Apply(s, FinishPass) == s.(published := Flags(false, false))
  {
  }

  lemma SameThreadsSameLine(who: bool, s: State, s': State)
    requires Bounded(s, who) && s' == s.(published := s'.published)
    ensures Line(who, s') == Line(who, s)
  {
    hide Queue, InHand;
  }

  lemma {:induction false} RunSyncs(who: bool, s: State, steps: seq<Step>, s': State)
    requires Synced(who, s) && PassRun(who, s, steps, s')
    ensures Synced(who, s')
    decreases |steps|
  {
    if steps != [] {
      var q :| Untold(who, s, q);
      if steps[0].FinishPass? { PassSyncs(who, s, q); } else { StepSyncs(who, s, steps[0], q); }
      hide Synced, Untold, Apply, Enabled, Allowed;
      RunSyncs(who, Apply(s, steps[0]), steps[1..], s');
    }
  }

  lemma InitSynced(who: bool, cap: nat, f: Flags)
    requires cap > 0
    ensures Synced(who, Init(cap, f))
  {
    InitInv(cap, f);
    hide Inv;
    assert Untold(who, Init(cap, f), f);
  }

  // Whenever a pass can finish, the mirror is what the DSP will settle on, however
  // many passes finished before.
  lemma AgreesAtEveryPass(who: bool, cap: nat, f: Flags, steps: seq<Step>, s: State)
    requires cap > 0 && PassRun(who, Init(cap, f), steps, s) && Enabled(s, FinishPass)
    ensures Clean(who, s) && Bounded(s, who) && Settled(who, s) == Mirror(who, s)
  {
    InitSynced(who, cap, f);
    RunSyncs(who, Init(cap, f), steps, s);
    hide Clean, PassRun, Mirror, Outstanding;
  }

  // After one pass: the mirror goes on from (on, on) and the DSP from (off, off).
  lemma AnswerAfterPass(who: bool, s: State, steps: seq<Step>, s': State)
    requires Clean(who, s) && Enabled(s, FinishPass)
    requires Bounded(s, who) && Settled(who, s) == Mirror(who, s)
    requires ConsideredRun(who, Apply(s, FinishPass), steps, s')
    ensures Bounded(s', who)
    ensures Mirror(who, s') == Settled(who, s') <==> Forget(Outstanding(who, s) + IssuedAll(steps))
  {
    var s1, ops := Apply(s, FinishPass), Outstanding(who, s);
    PassState(who, s);
    RunMoves(who, s1, steps, s');
    assert Settled(who, s) == FlagSteps(Flags(true, true), ops);
    assert Settled(who, s1) == FlagSteps(Flags(false, false), ops);
    hide Clean, ConsideredRun, Settled, Outstanding, Mirror, Apply, Enabled, FlagSteps;
    FlagStepsConcat(Flags(true, true), ops, IssuedAll(steps));
    FlagStepsConcat(Flags(false, false), ops, IssuedAll(steps));
    MirrorAgreesAfterPassIff(ops + IssuedAll(steps));
  }

  // Over every run from a fresh engine, with any number of finished passes: with
  // nothing pending the getters answer with what the DSP has; while something is
  // pending they answer with what it will have exactly when the changes outstanding
  // at the latest finish and those made since leave no trace of the pair they
  // started from.
  lemma AnswerAfterPassesIff(who: bool, cap: nat, f: Flags, before: seq<Step>, s: State, after: seq<Step>, s': State)
    requires cap > 0 && PassRun(who, Init(cap, f), before, s) && Enabled(s, FinishPass)
    requires ConsideredRun(who, Apply(s, FinishPass), after, s') && Chan(s', who).pc.Idle?
    ensures Bounded(s, who) && Bounded(s', who)
    ensures s'.pending <= 0 ==> Answer(s') == Settled(who, s')
    ensures s'.pending > 0 ==> (Answer(s') == Settled(who, s') <==> Forget(Outstanding(who, s) + IssuedAll(after)))
  {
    AgreesAtEveryPass(who, cap, f, before, s);
    PassState(who, s);
    RunMoves(who, Apply(s, FinishPass), after, s');
    AnswerAfterPass(who, s, after, s');
    hide Clean, PassRun, ConsideredRun, Apply, Enabled, Settled, Outstanding;
    if s'.pending <= 0 {
      PendingNotNegative(who, s');
      NothingPending(who, s');
    }
  }
}
