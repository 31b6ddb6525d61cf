/**
 What the `rec` and `rec_once` getters answer while one producer, `who`, changes the
 flags: the Python thread or the OSC receiver.

 A getter reads the mirror while flag changes are pending and the DSP's published
 pair otherwise.  The two agree because the mirror step commutes with the DSP step;
 only a finished one-shot pass, which the mirror never hears of, can part them.
 */
module ReadYourWrites {
  import opened Options
  import opened CommandRing
  import opened FlagMirror
  import opened ControlProtocol
  import opened ControlSafety

  function FlagOps(cmds: seq<Cmd>): seq<FlagOp> {
    if cmds == [] then []
    else (if cmds[0].Flag? then [cmds[0].op] else []) + FlagOps(cmds[1..])
  }

  // The flag change the flag producer has asked for and not yet queued or run.
  function InHand(p: Producer): seq<Cmd> {
    match p
    case Counting(cmd) => [cmd]
    case Waiting(cmd) => [cmd]
    case Deciding(cmd) => [cmd]
    case Direct(cmd) => [cmd]
    case Pushing(cmd, _, _) => [cmd]
    case Dropping(cmd) => [cmd]
    case _ => []
  }

  predicate Bounded(s: State, osc: bool) {
    |Chan(s, osc).ring.popped| <= |Chan(s, osc).ring.pushed|
  }

  // The flag producer's changes asked for and not yet applied, oldest first.
  function Line(who: bool, s: State): seq<Cmd>
    requires Bounded(s, who)
  {
    InFlight(s, who) + Queue(Chan(s, who).ring) + InHand(Chan(s, who).pc)
  }

  function Outstanding(who: bool, s: State): seq<FlagOp>
    requires Bounded(s, who)
  {
    FlagOps(Line(who, s))
  }

  // The mirror as the calling thread will see it when the setter returns.
  function Mirror(who: bool, s: State): Flags {
    if !Chan(s, who).pc.Idle? && Chan(s, who).pc.cmd == Flag(ResetVoice) then Flags(false, false) else s.mirror
  }

  function Answer(s: State): Flags {
    Getter(s.pending, s.mirror, s.published)
  }

  // What the getters will report once everything outstanding has been applied.
  function Settled(who: bool, s: State): Flags
    requires Bounded(s, who)
  {
    FlagSteps(s.published, Outstanding(who, s))
  }

  predicate OtherChangesNone(who: bool, step: Step) {
    step.Produce? && step.step.Issue? && step.osc != who ==> step.step.cmd.Param?
  }

  // The steps considered: only the producer `who` changes flags, none of its
  // flag changes is dropped, and no one-shot pass finishes.
  predicate Considered(who: bool, s: State, step: Step)
    requires Enabled(s, step)
  {
    match step
    case Produce(osc, Issue(cmd)) => osc != who ==> cmd.Param?
    case Produce(osc, GiveUp) => Chan(s, osc).pc.Dropping? && !Chan(s, osc).pc.cmd.Flag?
    case FinishPass => false
    case _ => true
  }

  ghost predicate ConsideredRun(who: bool, s: State, steps: seq<Step>, s': State)
    decreases |steps|
  {
    if steps == [] then s' == s
    else Enabled(s, steps[0]) && Considered(who, s, steps[0]) && ConsideredRun(who, Apply(s, steps[0]), steps[1..], s')
  }

  function Issued(step: Step): seq<FlagOp> {
    match step
    case Produce(_, Issue(cmd)) => if cmd.Flag? then [cmd.op] else []
    case _ => []
  }

  function IssuedAll(steps: seq<Step>): seq<FlagOp> {
    if steps == [] then [] else Issued(steps[0]) + IssuedAll(steps[1..])
  }

  predicate AllParams(cmds: seq<Cmd>) {
    forall cmd | cmd in cmds :: cmd.Param?
  }

  ghost predicate Clean(who: bool, s: State) {
    Inv(s) && AllParams(Chan(s, !who).issued)
  }

  lemma CleanBounds(who: bool, s: State)
    requires Clean(who, s)
    ensures Bounded(s, who)
    ensures Bounded(s, !who)
  {
  }

  lemma CleanInv(who: bool, s: State)
    requires Clean(who, s)
    ensures Inv(s)
  {
  }

  // ---- sequences of changes ----

  lemma {:induction false} FlagOpsConcat(a: seq<Cmd>, b: seq<Cmd>)
    ensures FlagOps(a + b) == FlagOps(a) + FlagOps(b)
  {
    if a == [] {
      assert a + b == b;
    } else {
      FlagOpsConcat(a[1..], b);
      assert (a + b)[1..] == a[1..] + b && (a + b)[0] == a[0];
      var front := if a[0].Flag? then [a[0].op] else [];
      assert front + (FlagOps(a[1..]) + FlagOps(b)) == (front + FlagOps(a[1..])) + FlagOps(b);
    }
  }

  lemma {:induction false} FlagOpsCount(cmds: seq<Cmd>)
    ensures |FlagOps(cmds)| == FlagChanges(cmds)
  {
    if cmds != [] { FlagOpsCount(cmds[1..]); }
  }

  lemma {:induction false} AcceptedAreIssued(issued: seq<Cmd>, fate: seq<bool>)
    requires |fate| <= |issued|
    ensures forall cmd | cmd in Accepted(issued, fate) :: cmd in issued
  {
    if fate != [] { AcceptedAreIssued(issued, fate[..|fate| - 1]); }
  }

  // The other producer's queue and drains carry no flag changes.
  lemma OtherCarriesParams(who: bool, s: State)
    requires Clean(who, s)
    ensures InFlight(s, !who) != [] ==> InFlight(s, !who)[0].Param?
  {
    hide RingInv, Accepted, FlagChanges, Refusals;
    AcceptedAreIssued(Chan(s, !who).issued, Chan(s, !who).fate);
    var c := Chan(s, !who);
    if InFlight(s, !who) != [] {
      CleanBounds(who, s);
      assert (c.executed + InFlight(s, !who) + Queue(c.ring))[|c.executed|] == InFlight(s, !who)[0];
    }
  }

  // ---- one step ----

  lemma MirrorStep(who: bool, s: State, step: Step)
    requires Clean(who, s) && Enabled(s, step) && Considered(who, s, step)
    ensures Mirror(who, Apply(s, step)) == FlagSteps(Mirror(who, s), Issued(step))
  {
    if !Chan(s, !who).pc.Idle? { OtherIssuesParams(who, s); }
    hide Clean, Mirror;
    if !step.Produce? {
      MirrorElsewhere(who, s, step);
    } else {
      ProduceIsProducer(s, step);
      hide Apply;
      if step.step.Issue? { MirrorAtIssuing(who, s, step); } else { MirrorInProducer(who, s, step.osc, step.step); }
    }
  }

  lemma MirrorElsewhere(who: bool, s: State, step: Step)
    requires Enabled(s, step) && !step.Produce?
    ensures Mirror(who, Apply(s, step)) == Mirror(who, s)
  {
    ElsewhereKeeps(who, s, step);
    hide Apply, Enabled;
  }

  // The audio and lifecycle threads leave the producers and the mirror alone.
  lemma ElsewhereKeeps(osc: bool, s: State, step: Step)
    requires Enabled(s, step) && !step.Produce?
    ensures var s' := Apply(s, step);
            && Chan(s', osc).pc == Chan(s, osc).pc && Chan(s', osc).issued == Chan(s, osc).issued
            && s'.mirror == s.mirror
  {
    hide DrainApply, DrainEnabled;
    if IsDrain(s, step) { DrainKeepsProducer(osc, s, DrainOf(s, step), SeenBy(s, step)); }
  }

  lemma DrainKeepsProducer(osc: bool, s: State, d: Drain, seen: nat)
    requires DrainEnabled(s, d, seen)
    ensures var s' := DrainApply(s, d, seen).0;
            && Chan(s', osc).pc == Chan(s, osc).pc && Chan(s', osc).issued == Chan(s, osc).issued
            && s'.mirror == s.mirror && s'.audio == s.audio && s'.life == s.life
  {
    hide LoadOwnTail, LoadOtherHead, TakeSlot, StoreTail, Published;
  }

  lemma MirrorAtIssuing(who: bool, s: State, step: Step)
    requires Enabled(s, step) && Considered(who, s, step) && step.Produce? && step.step.Issue?
    ensures Mirror(who, ProducerApply(s, step.osc, step.step)) == FlagSteps(Mirror(who, s), Issued(step))
  {
    if step.step.cmd.Flag? {
      var op := step.step.cmd.op;
      assert [op][1..] == [];
      assert FlagSteps(FlagStep(Mirror(who, s), op), []) == FlagStep(Mirror(who, s), op);
    }
  }

  lemma MirrorInProducer(who: bool, s: State, osc: bool, step: ProducerStep)
    requires ProducerEnabled(s, osc, step) && (Chan(s, !who).pc.Idle? || Chan(s, !who).pc.cmd.Param?)
    requires !step.Issue?
    ensures Mirror(who, ProducerApply(s, osc, step)) == Mirror(who, s)
  {
  }

  lemma OtherIssuesParams(who: bool, s: State)
    requires Clean(who, s) && !Chan(s, !who).pc.Idle?
    ensures Chan(s, !who).pc.cmd.Param?
  {
    hide RingInv, Accepted, FlagChanges, Refusals, Queue;
    assert Chan(s, !who).pc.cmd in Chan(s, !who).issued;
  }

  // How the outstanding changes and the published pair move together.
  ghost predicate Moves(who: bool, s: State, step: Step, s': State)
    requires Bounded(s, who) && Bounded(s', who)
  {
    || (Outstanding(who, s') == Outstanding(who, s) + Issued(step) && s'.published == s.published)
    || (Outstanding(who, s) != [] && Issued(step) == [] && Outstanding(who, s') == Outstanding(who, s)[1..]
        && s'.published == FlagStep(s.published, Outstanding(who, s)[0]))
  }

  lemma MovesSettle(who: bool, s: State, step: Step, s': State)
    requires Bounded(s, who) && Bounded(s', who)
    requires Moves(who, s, step, s')
    ensures Settled(who, s') == FlagSteps(Settled(who, s), Issued(step))
  {
    if Outstanding(who, s') == Outstanding(who, s) + Issued(step) && s'.published == s.published {
      FlagStepsConcat(s.published, Outstanding(who, s), Issued(step));
    }
  }

  // Steps that leave the flag producer's queue, its carried command and the pair alone.
  lemma SameLine(who: bool, s: State, step: Step, s': State)
    requires Bounded(s, who) && Bounded(s', who)
    requires Line(who, s') == Line(who, s) && Issued(step) == [] && s'.published == s.published
    ensures Moves(who, s, step, s')
  {
    assert Outstanding(who, s) + [] == Outstanding(who, s);
  }

  lemma AppliedFront(who: bool, s: State, step: Step, s': State)
    requires Bounded(s, who) && Bounded(s', who)
    requires Line(who, s) != [] && Line(who, s') == Line(who, s)[1..] && Issued(step) == []
    requires s'.published == Published(s.published, Line(who, s)[0])
    ensures Moves(who, s, step, s')
  {
    if Line(who, s)[0].Flag? {
      assert Outstanding(who, s) == [Line(who, s)[0].op] + Outstanding(who, s');
    } else {
      assert Outstanding(who, s) == [] + Outstanding(who, s');
      assert Outstanding(who, s) + [] == Outstanding(who, s);
    }
  }

  lemma IssueMoves(who: bool, s: State, step: Step)
    requires Enabled(s, step) && Clean(who, s) && Clean(who, Apply(s, step)) && Considered(who, s, step)
    requires step.Produce? && step.step.Issue?
    ensures Bounded(s, who) && Bounded(Apply(s, step), who)
    ensures Moves(who, s, step, Apply(s, step))
  {
    CleanBounds(who, s);
    CleanBounds(who, Apply(s, step));
    IssueState(who, s, step);
    SameInFlight(who, s, step);
    hide Clean, Inv, Queue, FlagOps, Moves, Apply, InFlight, Line, InHand, Outstanding;
    var s', cmd := Apply(s, step), step.step.cmd;
    if step.osc != who {
      UnmovedLine(who, s, s');
      SameLine(who, s, step, s');
    } else {
      SingleFlagOp(cmd);
      LineGrows(who, s, step, s', cmd);
    }
  }

  lemma IssueState(who: bool, s: State, step: Step)
    requires Enabled(s, step) && Considered(who, s, step) && step.Produce? && step.step.Issue?
    ensures var s', cmd := Apply(s, step), step.step.cmd;
            && s'.published == s.published
            && Issued(step) == (if cmd.Flag? then [cmd.op] else [])
            && (if step.osc == who then Chan(s', who).ring == Chan(s, who).ring
                                        && InHand(Chan(s, who).pc) == [] && InHand(Chan(s', who).pc) == [cmd]
                else Chan(s', who) == Chan(s, who) && Issued(step) == [])
  {
    hide Accepted, MirrorAtIssue;
  }

  lemma LineGrows(who: bool, s: State, step: Step, s': State, cmd: Cmd)
    requires Bounded(s, who) && Bounded(s', who)
    requires Chan(s', who).ring == Chan(s, who).ring && InFlight(s', who) == InFlight(s, who)
             && s'.published == s.published
    requires InHand(Chan(s, who).pc) == [] && InHand(Chan(s', who).pc) == [cmd]
    requires Issued(step) == FlagOps([cmd])
    ensures Moves(who, s, step, s')
  {
    assert Line(who, s') == Line(who, s) + [cmd];
    FlagOpsConcat(Line(who, s), [cmd]);
  }

  lemma SingleFlagOp(cmd: Cmd)
    ensures FlagOps([cmd]) == if cmd.Flag? then [cmd.op] else []
  {
    assert [cmd][1..] == [];
  }

  // Running a change on its own thread happens with nothing outstanding but it.
  lemma RunHereMoves(who: bool, s: State, step: Step)
    requires Enabled(s, step) && Clean(who, s) && Clean(who, Apply(s, step)) && step.Produce? && step.step.RunHere?
    ensures Bounded(s, who) && Bounded(Apply(s, step), who)
    ensures Moves(who, s, step, Apply(s, step))
  {
    hide Inv, Clean, Apply, Enabled, InFlight, Queue, FlagOps, Moves, Line, InHand, Outstanding;
    CleanBounds(who, s);
    CleanBounds(who, Apply(s, step));
    SameInFlight(who, s, step);
    RunHereState(who, s, step);
    if step.osc == who { RunHereAlone(who, s, step); } else { OtherIssuesParams(who, s); }
    var s' := Apply(s, step);
    if step.osc != who {
      UnmovedLine(who, s, s');
      SameLine(who, s, step, s');
    } else {
      LoneLine(who, s);
      LoneLine(who, s');
      AppliedFront(who, s, step, s');
    }
  }

  // Nothing queued and nothing carried: the line is what the producer has in hand.
  lemma LoneLine(who: bool, s: State)
    requires Bounded(s, who) && InFlight(s, who) == [] && Queue(Chan(s, who).ring) == []
    ensures Line(who, s) == InHand(Chan(s, who).pc)
  {
    hide InFlight, Queue, InHand;
  }

  lemma RunHereAlone(who: bool, s: State, step: Step)
    requires Enabled(s, step) && Clean(who, s) && step.Produce? && step.step.RunHere? && step.osc == who
    ensures Bounded(s, who) && InFlight(s, who) == [] && Queue(Chan(s, who).ring) == []
  {
    CleanBounds(who, s);
    hide RingInv, Accepted, FlagChanges, Refusals, Queue, CountInv;
  }

  lemma RunHereState(who: bool, s: State, step: Step)
    requires Enabled(s, step) && step.Produce? && step.step.RunHere?
    ensures var s', c := Apply(s, step), Chan(s, step.osc);
            && c.pc.Direct? && Issued(step) == []
            && s'.published == Published(s.published, c.pc.cmd)
            && Chan(s', who).ring == Chan(s, who).ring
            && (if step.osc == who then InHand(c.pc) == [c.pc.cmd] && InHand(Chan(s', who).pc) == []
                else Chan(s', who) == Chan(s, who))
  {
    hide Published;
  }

  lemma PublishMoves(who: bool, s: State, step: Step)
    requires Enabled(s, step) && Clean(who, s) && Clean(who, Apply(s, step)) && step.Produce? && step.step.PushPublish?
    ensures Bounded(s, who) && Bounded(Apply(s, step), who)
    ensures Moves(who, s, step, Apply(s, step))
  {
    hide Inv, RingInv, Queue, FlagOps, Moves, InFlight;
    CleanBounds(who, s);
    CleanBounds(who, Apply(s, step));
    PublishedQueue(s, step.osc);
    PublishedState(who, s, step);
    hide Clean, Apply;
    var s', c := Apply(s, step), Chan(s, step.osc);
    if step.osc == who {
      assert Line(who, s') == InFlight(s, who) + (Queue(c.ring) + [c.pc.cmd]) + [];
      assert Line(who, s') == Line(who, s);
    }
    SameLine(who, s, step, s');
  }

  lemma PublishedState(who: bool, s: State, step: Step)
    requires Enabled(s, step) && step.Produce? && step.step.PushPublish?
    ensures var s', c := Apply(s, step), Chan(s, step.osc);
            && s'.published == s.published && InFlight(s', who) == InFlight(s, who)
            && c.pc.Pushing? && c.pc.at.PushWrote? && c.pc.at.h < c.ring.cap
            && (if step.osc != who then Chan(s', who) == Chan(s, who)
                else Chan(s', who).ring == StoreHead(c.ring, c.pc.at).0 && Chan(s', who).pc.Leaving?)
  {
  }

  lemma PublishedQueue(s: State, osc: bool)
    requires Inv(s) && ProducerEnabled(s, osc, PushPublish)
    ensures var c := Chan(s, osc);
            var r' := StoreHead(c.ring, c.pc.at).0;
            && |c.ring.popped| <= |c.ring.pushed| && |r'.popped| <= |r'.pushed|
            && Queue(r') == Queue(c.ring) + [c.pc.cmd]
  {
    hide Accepted, FlagChanges, Refusals, CountInv, StrandInv, Queue;
    var c := Chan(s, osc);
    RingBounds(c.ring, c.pc.at, Popper(s, osc));
    PublishStep(c.ring, c.pc.at, Popper(s, osc));
  }

  lemma GiveUpMoves(who: bool, s: State, step: Step)
    requires Enabled(s, step) && Clean(who, s) && Clean(who, Apply(s, step)) && Considered(who, s, step)
    requires step.Produce? && step.step.GiveUp?
    ensures Bounded(s, who) && Bounded(Apply(s, step), who)
    ensures Moves(who, s, step, Apply(s, step))
  {
    hide RingInv, Accepted, FlagChanges, Refusals, Queue, Inv, Clean, InFlight, FlagOps;
    CleanBounds(who, s);
    CleanBounds(who, Apply(s, step));
    var s' := Apply(s, step);
    SameInFlight(who, s, step);
    if step.osc != who {
      SameLine(who, s, step, s');
    } else {
      var cmd := Chan(s, who).pc.cmd;
      assert Line(who, s) == Line(who, s') + [cmd] by {
        assert Line(who, s') + [cmd] == InFlight(s, who) + Queue(Chan(s, who).ring) + [cmd];
      }
      FlagOpsConcat(Line(who, s'), [cmd]);
      SingleFlagOp(cmd);
      assert Outstanding(who, s') + [] == Outstanding(who, s');
    }
  }

  lemma SameInFlight(who: bool, s: State, step: Step)
    requires step.Produce? && Enabled(s, step)
    ensures InFlight(Apply(s, step), who) == InFlight(s, who)
  {
    ProduceIsProducer(s, step);
    ProducerLeavesThreads(s, step.osc, step.step);
    hide Apply, ProducerApply, Enabled;
  }

  lemma ProducerLeavesThreads(s: State, osc: bool, step: ProducerStep)
    requires ProducerEnabled(s, osc, step)
    ensures ProducerApply(s, osc, step).audio == s.audio && ProducerApply(s, osc, step).life == s.life
  {
    hide LoadHead, LoadTail, WriteSlot, StoreHead, MirrorAtIssue, MirrorAtReturn, Published;
  }

  lemma PushedQueue(s: State, step: Step)
    requires Enabled(s, step) && Inv(s) && step.Produce?
    requires step.step.PushLoadTail? || step.step.PushWrite?
    ensures var c, r' := Chan(s, step.osc), Chan(Apply(s, step), step.osc).ring;
            |c.ring.popped| <= |c.ring.pushed| && |r'.popped| <= |r'.pushed| && Queue(r') == Queue(c.ring)
  {
    hide Accepted, FlagChanges, Refusals, CountInv, StrandInv;
    var c := Chan(s, step.osc);
    if step.step.PushLoadTail? {
      SeeTailStep(c.ring, c.pc.at, Popper(s, step.osc), step.step.seen);
    } else {
      WriteStep(c.ring, c.pc.at, Popper(s, step.osc));
    }
  }

  lemma PushMoves(who: bool, s: State, step: Step)
    requires Enabled(s, step) && Clean(who, s) && Clean(who, Apply(s, step)) && step.Produce?
    requires step.step.PushLoadTail? || step.step.PushWrite?
    ensures Bounded(s, who) && Bounded(Apply(s, step), who)
    ensures Moves(who, s, step, Apply(s, step))
  {
    hide Clean, Inv, RingInv, Queue, FlagOps, Moves, InFlight;
    CleanInv(who, s);
    CleanBounds(who, s);
    CleanBounds(who, Apply(s, step));
    PushedQueue(s, step);
    SameInFlight(who, s, step);
    SameLine(who, s, step, Apply(s, step));
  }

  // The steps that only move the producer along.
  predicate Walks(step: ProducerStep) {
    step.Count? || step.Lock? || step.Read? || step.PushLoadHead? || step.CountDownHere? || step.Unlock?
        || step.Uncount?
  }

  lemma WalkMoves(who: bool, s: State, step: Step)
    requires Enabled(s, step) && Clean(who, s) && Clean(who, Apply(s, step)) && step.Produce? && Walks(step.step)
    ensures Bounded(s, who) && Bounded(Apply(s, step), who)
    ensures Moves(who, s, step, Apply(s, step))
  {
    CleanBounds(who, s);
    CleanBounds(who, Apply(s, step));
    SameInFlight(who, s, step);
    WalkState(who, s, step);
    hide Inv, Clean, Apply, InFlight, Queue, FlagOps, Moves, InHand;
    SameHandLine(who, s, Apply(s, step));
    SameLine(who, s, step, Apply(s, step));
  }

  lemma WalkState(who: bool, s: State, step: Step)
    requires Enabled(s, step) && step.Produce? && Walks(step.step)
    ensures var s' := Apply(s, step);
            && s'.published == s.published && Issued(step) == []
            && Chan(s', who).ring == Chan(s, who).ring
            && InHand(Chan(s', who).pc) == InHand(Chan(s, who).pc)
  {
    ProduceIsProducer(s, step);
    OtherChannelStays(s, step.osc, step.step, !step.osc);
    if step.osc == who { OwnWalk(s, who, step.step); }
    hide Apply, ProducerApply, Enabled, InHand;
  }

  lemma OtherChannelStays(s: State, osc: bool, step: ProducerStep, other: bool)
    requires ProducerEnabled(s, osc, step) && other != osc
    ensures Chan(ProducerApply(s, osc, step), other) == Chan(s, other)
    ensures Walks(step) ==> ProducerApply(s, osc, step).published == s.published
  {
    hide LoadHead, LoadTail, WriteSlot, StoreHead, MirrorAtIssue, MirrorAtReturn, Published;
  }

  lemma OwnWalk(s: State, osc: bool, step: ProducerStep)
    requires ProducerEnabled(s, osc, step) && Walks(step)
    ensures var c' := Chan(ProducerApply(s, osc, step), osc);
            c'.ring == Chan(s, osc).ring && InHand(c'.pc) == InHand(Chan(s, osc).pc)
  {
    hide LoadHead, MirrorAtReturn;
  }

  lemma SameHandLine(who: bool, s: State, s': State)
    requires Bounded(s, who) && Chan(s', who).ring == Chan(s, who).ring
    requires InHand(Chan(s', who).pc) == InHand(Chan(s, who).pc) && InFlight(s', who) == InFlight(s, who)
    ensures Line(who, s') == Line(who, s)
  {
    hide InHand, InFlight, Queue;
  }

  lemma SearchedQueue(s: State, step: Step)
    requires Inv(s) && IsDrain(s, step) && DrainOf(s, step).Popping? && !DrainOf(s, step).at.PopTook?
    ensures var d := DrainOf(s, step);
            var r, r' := Chan(s, d.osc).ring, Chan(Apply(s, step), d.osc).ring;
            |r.popped| <= |r.pushed| && |r'.popped| <= |r'.pushed| && Queue(r') == Queue(r)
  {
    hide Accepted, FlagChanges, Refusals, CountInv, StrandInv, Queue;
    var d := DrainOf(s, step);
    var c := Chan(s, d.osc);
    RingBounds(c.ring, PusherAt(c.pc), d.at);
    match d.at
    case PopTail(_) => SeeHeadStep(c.ring, PusherAt(c.pc), d.at, SeenBy(s, step));
    case PopReady(_) => TakeStep(c.ring, PusherAt(c.pc), d.at);
    case _ =>
  }

  lemma SearchingMoves(who: bool, s: State, step: Step)
    requires Enabled(s, step) && Clean(who, s) && Clean(who, Apply(s, step)) && IsDrain(s, step)
    requires DrainOf(s, step).Popping? && !DrainOf(s, step).at.PopTook?
    ensures Bounded(s, who) && Bounded(Apply(s, step), who)
    ensures Moves(who, s, step, Apply(s, step))
  {
    CleanInv(who, s);
    CleanBounds(who, s);
    CleanBounds(who, Apply(s, step));
    SearchedQueue(s, step);
    SearchCarriesNothing(who, s, step);
    ElsewhereKeeps(who, s, step);
    SearchState(who, s, step);
    hide Clean, RingInv, Queue, FlagOps, Moves, Inv, InFlight, Apply, InHand;
    var s' := Apply(s, step);
    assert Line(who, s') == Line(who, s);
    SameLine(who, s, step, s');
  }

  lemma SearchState(who: bool, s: State, step: Step)
    requires IsDrain(s, step) && DrainOf(s, step).Popping? && !DrainOf(s, step).at.PopTook?
    ensures var s' := Apply(s, step);
            && s'.published == s.published && Issued(step) == []
            && (DrainOf(s, step).osc != who ==> Chan(s', who) == Chan(s, who))
  {
    hide LoadOwnTail, LoadOtherHead, TakeSlot;
  }

  lemma SearchCarriesNothing(who: bool, s: State, step: Step)
    requires Inv(s) && IsDrain(s, step) && DrainOf(s, step).Popping? && !DrainOf(s, step).at.PopTook?
    ensures InFlight(s, who) == [] && InFlight(Apply(s, step), who) == []
  {
    hide Inv, DrainApply, DrainEnabled, Apply;
    DrainerIs(s, step);
    SearchGoesOn(s, DrainOf(s, step), SeenBy(s, step));
    DrainerNext(s, step);
  }

  lemma DrainerNext(s: State, step: Step)
    requires IsDrain(s, step) && (step.LifeDrain? ==> !s.audio.Draining?) && (step.AudioDrain? ==> !s.life.FinalDrain?)
    ensures Drainer(Apply(s, step)) == DrainApply(s, DrainOf(s, step), SeenBy(s, step)).1
  {
    DrainKeepsProducer(false, s, DrainOf(s, step), SeenBy(s, step));
    hide DrainApply, DrainEnabled;
  }

  lemma SearchGoesOn(s: State, d: Drain, seen: nat)
    requires DrainEnabled(s, d, seen) && d.Popping? && !d.at.PopTook?
    ensures var d' := DrainApply(s, d, seen).1; d'.Some? ==> d'.value.Popping?
  {
  }

  lemma DrainerIs(s: State, step: Step)
    requires Inv(s) && IsDrain(s, step)
    ensures Drainer(s) == Some(DrainOf(s, step))
    ensures step.LifeDrain? ==> !s.audio.Draining?
    ensures step.AudioDrain? ==> !s.life.FinalDrain?
  {
    hide ChannelInv, StrandInv, CountInv;
  }

  lemma ReleasedQueue(s: State, step: Step)
    requires Inv(s) && IsDrain(s, step) && DrainOf(s, step).Popping? && DrainOf(s, step).at.PopTook?
    ensures var d := DrainOf(s, step);
            var r, r' := Chan(s, d.osc).ring, Chan(Apply(s, step), d.osc).ring;
            |r.popped| <= |r.pushed| && |r'.popped| <= |r'.pushed| && Queue(r) == [d.at.item] + Queue(r')
  {
    hide Accepted, FlagChanges, Refusals, CountInv, StrandInv, Queue;
    var d := DrainOf(s, step);
    var c := Chan(s, d.osc);
    RingBounds(c.ring, PusherAt(c.pc), d.at);
    ReleaseStep(c.ring, PusherAt(c.pc), d.at);
    RingBounds(StoreTail(c.ring, d.at).0, PusherAt(c.pc), PopIdle);
  }

  lemma ReleasingMoves(who: bool, s: State, step: Step)
    requires Enabled(s, step) && Clean(who, s) && Clean(who, Apply(s, step)) && IsDrain(s, step)
    requires DrainOf(s, step).Popping? && DrainOf(s, step).at.PopTook?
    ensures Bounded(s, who) && Bounded(Apply(s, step), who)
    ensures Moves(who, s, step, Apply(s, step))
  {
    hide Inv, RingInv, Queue, FlagOps, Moves;
    CleanBounds(who, s);
    CleanBounds(who, Apply(s, step));
    ReleasedQueue(s, step);
    DrainerIs(s, step);
    hide Clean;
    var s', d := Apply(s, step), DrainOf(s, step);
    assert Drainer(s') == Some(Running(d.osc, d.at.item));
    if d.osc == who {
      assert InFlight(s, who) == [] && InFlight(s', who) == [d.at.item];
      assert Line(who, s) == [] + ([d.at.item] + Queue(Chan(s', who).ring)) + InHand(Chan(s, who).pc);
      assert Line(who, s') == [d.at.item] + Queue(Chan(s', who).ring) + InHand(Chan(s, who).pc);
    }
    SameLine(who, s, step, s');
  }

  lemma ExecutingMoves(who: bool, s: State, step: Step)
    requires Enabled(s, step) && Clean(who, s) && Clean(who, Apply(s, step)) && IsDrain(s, step)
    requires !DrainOf(s, step).Popping?
    ensures Bounded(s, who) && Bounded(Apply(s, step), who)
    ensures Moves(who, s, step, Apply(s, step))
  {
    CleanBounds(who, s);
    CleanBounds(who, Apply(s, step));
    OtherCarriesParams(who, s);
    DrainerIs(s, step);
    hide Clean, Inv, RingInv, Queue, FlagOps, Moves, Line;
    var s', d := Apply(s, step), DrainOf(s, step);
    ExecutedState(who, s, step);
    if d.Running? && d.osc == who {
      CarriedLine(who, s, s', d.cmd);
      AppliedFront(who, s, step, s');
    } else {
      assert d.Running? ==> InFlight(s, !who) == [d.cmd];
      UnmovedLine(who, s, s');
      SameLine(who, s, step, s');
    }
  }

  lemma ExecutedState(who: bool, s: State, step: Step)
    requires Enabled(s, step) && IsDrain(s, step) && !DrainOf(s, step).Popping?
    requires Drainer(s) == Some(DrainOf(s, step)) && (step.LifeDrain? ==> !s.audio.Draining?)
    ensures var s', d := Apply(s, step), DrainOf(s, step);
            && Chan(s', who).ring == Chan(s, who).ring && Chan(s', who).pc == Chan(s, who).pc
            && InFlight(s', who) == []
            && InFlight(s, who) == (if d.Running? && d.osc == who then [d.cmd] else [])
            && s'.published == (if d.Running? then Published(s.published, d.cmd) else s.published)
  {
  }

  lemma CarriedLine(who: bool, s: State, s': State, cmd: Cmd)
    requires Bounded(s, who)
    requires Chan(s', who).ring == Chan(s, who).ring && Chan(s', who).pc == Chan(s, who).pc
    requires InFlight(s, who) == [cmd] && InFlight(s', who) == []
    ensures Line(who, s) != [] && Line(who, s)[0] == cmd && Line(who, s') == Line(who, s)[1..]
  {
    hide InFlight, Queue, InHand;
    var rest := Queue(Chan(s, who).ring) + InHand(Chan(s, who).pc);
    assert Line(who, s) == [cmd] + rest && Line(who, s') == rest;
  }

  lemma UnmovedLine(who: bool, s: State, s': State)
    requires Bounded(s, who)
    requires Chan(s', who).ring == Chan(s, who).ring && Chan(s', who).pc == Chan(s, who).pc
    requires InFlight(s, who) == InFlight(s', who)
    ensures Line(who, s') == Line(who, s)
  {
  }

  lemma WindowMoves(who: bool, s: State, step: Step)
    requires Enabled(s, step) && Clean(who, s) && Clean(who, Apply(s, step)) && Considered(who, s, step)
    requires !step.Produce? && !IsDrain(s, step)
    ensures Bounded(s, who) && Bounded(Apply(s, step), who)
    ensures Moves(who, s, step, Apply(s, step))
  {
    CleanBounds(who, s);
    CleanBounds(who, Apply(s, step));
    WindowState(who, s, step);
    hide Clean, Inv, Queue, FlagOps, Apply, InFlight, Moves;
    UnmovedLine(who, s, Apply(s, step));
    SameLine(who, s, step, Apply(s, step));
  }

  lemma WindowState(who: bool, s: State, step: Step)
    requires Enabled(s, step) && Inv(s) && !step.Produce? && !IsDrain(s, step) && !step.FinishPass?
    ensures var s' := Apply(s, step);
            && Chan(s', who) == Chan(s, who) && InFlight(s', who) == InFlight(s, who)
            && s'.published == s.published && Issued(step) == []
  {
    hide ChannelInv, CountInv, StrandInv, LockInv, ReadInv, DrainEnabled;
  }

  // ---- whole runs ----

  lemma StepMoves(who: bool, s: State, step: Step)
    requires Enabled(s, step) && Clean(who, s) && Considered(who, s, step)
    ensures Clean(who, Apply(s, step))
    ensures Bounded(s, who) && Bounded(Apply(s, step), who) && Moves(who, s, step, Apply(s, step))
    ensures Settled(who, Apply(s, step)) == FlagSteps(Settled(who, s), Issued(step))
  {
    CleanStep(who, s, step);
    hide Clean, Inv, Apply, Outstanding, Settled;
    var s' := Apply(s, step);
    if step.Produce? {
      match step.step
      case Issue(_) => IssueMoves(who, s, step);
      case RunHere => RunHereMoves(who, s, step);
      case PushPublish => PublishMoves(who, s, step);
      case GiveUp => GiveUpMoves(who, s, step);
      case PushLoadTail(_) => PushMoves(who, s, step);
      case PushWrite => PushMoves(who, s, step);
      case Count => WalkMoves(who, s, step);
      case Lock => WalkMoves(who, s, step);
      case Read => WalkMoves(who, s, step);
      case Unlock => WalkMoves(who, s, step);
      case Uncount => WalkMoves(who, s, step);
      case PushLoadHead => WalkMoves(who, s, step);
      case CountDownHere => WalkMoves(who, s, step);
    } else if IsDrain(s, step) {
      if !DrainOf(s, step).Popping? { ExecutingMoves(who, s, step); }
      else if DrainOf(s, step).at.PopTook? { ReleasingMoves(who, s, step); }
      else { SearchingMoves(who, s, step); }
    } else {
      WindowMoves(who, s, step);
    }
    MovesSettle(who, s, step, s');
  }

  // Whatever happens, as long as the other producer changes no flags.
  lemma CleanStep(who: bool, s: State, step: Step)
    requires Enabled(s, step) && Clean(who, s) && OtherChangesNone(who, step)
    ensures Clean(who, Apply(s, step))
  {
    StepKeepsInv(s, step);
    hide Inv;
    if step.Produce? {
      ProduceIsProducer(s, step);
      hide Apply;
      ParamsStep(who, s, step.osc, step.step);
    } else {
      ElsewhereKeeps(who, s, step);
      ElsewhereKeeps(!who, s, step);
      hide Apply;
    }
  }

  lemma ParamsStep(who: bool, s: State, osc: bool, step: ProducerStep)
    requires ProducerEnabled(s, osc, step) && AllParams(Chan(s, !who).issued)
    requires step.Issue? && osc != who ==> step.cmd.Param?
    ensures AllParams(Chan(ProducerApply(s, osc, step), !who).issued)
  {
    hide LoadHead, LoadTail, WriteSlot, StoreHead, MirrorAtIssue, MirrorAtReturn, Published;
  }

  lemma {:induction false} RunMoves(who: bool, s: State, steps: seq<Step>, s': State)
    requires Clean(who, s) && ConsideredRun(who, s, steps, s')
    ensures Clean(who, s')
    ensures Bounded(s, who) && Bounded(s', who)
    ensures Mirror(who, s') == FlagSteps(Mirror(who, s), IssuedAll(steps))
    ensures Settled(who, s') == FlagSteps(Settled(who, s), IssuedAll(steps))
    decreases |steps|
  {
    CleanBounds(who, s);
    hide Clean, Apply, Mirror, Settled;
    if steps != [] {
      StepMoves(who, s, steps[0]);
      MirrorStep(who, s, steps[0]);
      RunMoves(who, Apply(s, steps[0]), steps[1..], s');
      FlagStepsConcat(Mirror(who, s), Issued(steps[0]), IssuedAll(steps[1..]));
      FlagStepsConcat(Settled(who, s), Issued(steps[0]), IssuedAll(steps[1..]));
    }
  }

  // When the pending count is zero nothing is outstanding.
  lemma NothingPending(who: bool, s: State)
    requires Clean(who, s) && s.pending == 0 && Chan(s, who).pc.Idle?
    ensures Bounded(s, who) && Settled(who, s) == s.published
  {
    CleanBounds(who, s);
    hide RingInv, Accepted, Refusals, Queue, FlagOps, ChannelInv;
    FlagOpsCount(Queue(Chan(s, who).ring));
    FlagOpsConcat(InFlight(s, who), Queue(Chan(s, who).ring));
    FlagOpsConcat(InFlight(s, who) + Queue(Chan(s, who).ring), []);
    FlagOpsCount(InFlight(s, who));
    FlagOpsCount([]);
    if InFlight(s, who) != [] { assert FlagChanges(InFlight(s, who)) <= DrainClaim(s) by { CarriedClaim(who, s); } }
    assert |Outstanding(who, s)| == 0;
  }

  lemma CarriedClaim(who: bool, s: State)
    requires InFlight(s, who) != []
    ensures FlagChanges(InFlight(s, who)) <= DrainClaim(s)
  {
    assert InFlight(s, who)[1..] == [];
  }

  // Read your writes: from a state where the mirror agrees with what the DSP will
  // settle on, through any interleaving in which only one producer, either, changes
  // the flags, none of its changes is dropped and no one-shot pass finishes, the
  // getters answer with the pair its own changes ask for.
  lemma ReadsItsWrites(who: bool, s: State, steps: seq<Step>, s': State)
    requires Clean(who, s) && ConsideredRun(who, s, steps, s') && Chan(s', who).pc.Idle?
    requires Bounded(s, who) && Settled(who, s) == Mirror(who, s)
    ensures Answer(s') == FlagSteps(Mirror(who, s), IssuedAll(steps))
  {
    RunMoves(who, s, steps, s');
    hide Clean, ConsideredRun, Settled;
    if s'.pending == 0 || s'.pending < 0 {
      PendingNotNegative(who, s');
      NothingPending(who, s');
    }
  }

  lemma PendingNotNegative(who: bool, s: State)
    requires Clean(who, s)
    ensures s.pending >= 0
  {
    hide RingInv, Accepted, Refusals, Queue, FlagChanges, ChannelInv;
  }

  // A fresh engine is such a state.
  lemma InitReadsItsWrites(who: bool, cap: nat, f: Flags, steps: seq<Step>, s: State)
    requires cap > 0 && ConsideredRun(who, Init(cap, f), steps, s) && Chan(s, who).pc.Idle?
    ensures Answer(s) == FlagSteps(f, IssuedAll(steps))
  {
    InitInv(cap, f);
    ReadsItsWrites(who, Init(cap, f), steps, s);
  }
}
