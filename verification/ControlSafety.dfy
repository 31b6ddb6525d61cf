/**
 What every interleaving of `ControlProtocol` keeps: one invariant, preserved by
 every step, and the safety statements read off it.
 */
module ControlSafety {
  import opened Options
  import opened CommandRing
  import opened FlagMirror
  import opened ControlProtocol

  // ---- reading the state ----

  // The changes whose fate is `accepted`, in issue order.
  function Accepted(issued: seq<Cmd>, fate: seq<bool>): seq<Cmd>
    requires |fate| <= |issued|
  {
    if fate == [] then []
    else Accepted(issued, fate[..|fate| - 1]) + (if fate[|fate| - 1] then [issued[|fate| - 1]] else [])
  }

  // How many of the voice's own changes were refused.
  function Refusals(issued: seq<Cmd>, fate: seq<bool>): nat
    requires |fate| <= |issued|
  {
    if fate == [] then 0
    else Refusals(issued, fate[..|fate| - 1]) + (if fate[|fate| - 1] then 0 else DropWeight(issued[|fate| - 1]))
  }

  function FlagChanges(cmds: seq<Cmd>): nat {
    if cmds == [] then 0 else Weight(cmds[0]) + FlagChanges(cmds[1..])
  }

  predicate HoldsShared(p: Producer) {
    p.Deciding? || p.Direct? || p.DirectRan? || p.Pushing? || p.Dropping? || p.Leaving?
  }

  predicate HoldsExclusive(l: Life) {
    !l.Outside? && !l.Wanting?
  }

  // Where `d` stands inside `pop` on the given queue.
  function PopAt(d: Drain, osc: bool): Pop<Cmd> {
    if d.Popping? && d.osc == osc then d.at else PopIdle
  }

  // The closure `d` has taken off the given queue and not yet run.
  function Carried(d: Drain, osc: bool): seq<Cmd> {
    if d.Running? && d.osc == osc then [d.cmd] else []
  }

  function Drainer(s: State): Option<Drain> {
    if s.audio.Draining? then Some(s.audio.d)
    else if s.life.FinalDrain? then Some(s.life.d)
    else None
  }

  function Popper(s: State, osc: bool): Pop<Cmd> {
    var d := Drainer(s); if d.Some? then PopAt(d.value, osc) else PopIdle
  }

  function InFlight(s: State, osc: bool): seq<Cmd> {
    var d := Drainer(s); if d.Some? then Carried(d.value, osc) else []
  }

  function PusherAt(p: Producer): Push<Cmd> {
    if p.Pushing? then p.at else PushIdle
  }

  predicate Decided(p: Producer) {
    p.Idle? || p.DirectRan? || p.Leaving? || p.Uncounting?
  }

  // A flag change this producer has counted and not yet queued, run or dropped.
  function Claim(p: Producer): nat {
    match p
    case Idle => 0
    case Counting(_) => 0
    case Leaving(cmd, ok) => if ok then 0 else Weight(cmd)
    case _ => Weight(p.cmd)
  }

  function DrainClaim(s: State): nat {
    var d := Drainer(s); if d.Some? && !d.value.Popping? then Weight(d.value.cmd) else 0
  }

  // ---- the invariant ----

  ghost predicate ChannelInv(c: Channel, at: Pop<Cmd>, carried: seq<Cmd>) {
    && RingInv(c.ring, PusherAt(c.pc), at)
    && |c.issued| == |c.fate| + (if Decided(c.pc) then 0 else 1)
    && (!c.pc.Idle? ==> c.issued != [] && c.pc.cmd == c.issued[|c.issued| - 1])
    && (c.pc.Pushing? && !c.pc.at.PushIdle? ==> c.pc.at.item == c.pc.cmd)
    && (c.pc.Counting? || c.pc.Uncounting? || c.pc.DirectRan? ==> c.pc.cmd.Flag?)
    && c.executed + carried + Queue(c.ring) == Accepted(c.issued, c.fate)
  }

  predicate LockInv(s: State) {
    && s.readers == (if HoldsShared(s.py.pc) then 1 else 0) + (if HoldsShared(s.osc.pc) then 1 else 0)
    && s.writer == HoldsExclusive(s.life)
    && (s.writer ==> s.readers == 0)
  }

  // The device window, the running flag and the lifecycle thread agree.
  predicate WindowInv(s: State) {
    && (s.window ==> s.running)
    && (!s.audio.Quiet? ==> s.window)
    && match s.life
       case Raising => !s.running
       case Calling => s.running && !s.window
       case Starting => s.running && s.window
       case Stopping => s.running && s.window
       case Lowering => s.running && !s.window
       case FinalDrain(_) => !s.running && !s.window
       case _ => s.running == s.window
  }

  // A producer that read the flag holds the lock that keeps it from changing.
  predicate ReadInv(c: Channel, running: bool) {
    && (c.pc.Direct? || c.pc.DirectRan? ==> !running)
    && (c.pc.Pushing? || c.pc.Dropping? ==> running)
  }

  ghost predicate StrandInv(s: State)
    requires |s.py.ring.popped| <= |s.py.ring.pushed| && |s.osc.ring.popped| <= |s.osc.ring.pushed|
  {
    && (!s.running && !s.life.FinalDrain? ==> Queue(s.py.ring) == [] && Queue(s.osc.ring) == [])
    && (s.life.FinalDrain? && s.life.d.osc ==> Queue(s.py.ring) == [])
  }

  ghost predicate CountInv(s: State)
    requires |s.py.ring.popped| <= |s.py.ring.pushed| && |s.osc.ring.popped| <= |s.osc.ring.pushed|
    requires |s.py.fate| <= |s.py.issued| && |s.osc.fate| <= |s.osc.issued|
  {
    && s.pending == Claim(s.py.pc) + Claim(s.osc.pc) + DrainClaim(s)
                    + FlagChanges(Queue(s.py.ring)) + FlagChanges(Queue(s.osc.ring))
    && s.dropped == Refusals(s.py.issued, s.py.fate) + Refusals(s.osc.issued, s.osc.fate)
  }

  ghost predicate Inv(s: State) {
    && ChannelInv(s.py, Popper(s, false), InFlight(s, false))
    && ChannelInv(s.osc, Popper(s, true), InFlight(s, true))
    && LockInv(s)
    && WindowInv(s)
    && ReadInv(s.py, s.running) && ReadInv(s.osc, s.running)
    && StrandInv(s)
    && CountInv(s)
  }

  lemma InitInv(cap: nat, f: Flags)
    requires cap > 0
    ensures Inv(Init(cap, f))
  {
    EmptyInv<Cmd>(cap);
  }

  lemma RingBounds(r: Ring<Cmd>, p: Push<Cmd>, c: Pop<Cmd>)
    requires RingInv(r, p, c)
    ensures |r.popped| <= |r.pushed| && r.cap > 0
  {
  }

  // ---- small facts about the histories ----

  lemma {:induction false} AcceptedIgnoresLater(issued: seq<Cmd>, fate: seq<bool>, cmd: Cmd)
    requires |fate| <= |issued|
    ensures Accepted(issued + [cmd], fate) == Accepted(issued, fate)
    ensures Refusals(issued + [cmd], fate) == Refusals(issued, fate)
  {
    if fate != [] { AcceptedIgnoresLater(issued, fate[..|fate| - 1], cmd); }
  }

  lemma AcceptedDecides(issued: seq<Cmd>, fate: seq<bool>, ok: bool)
    requires |fate| < |issued|
    ensures Accepted(issued, fate + [ok]) == Accepted(issued, fate) + (if ok then [issued[|fate|]] else [])
    ensures Refusals(issued, fate + [ok]) == Refusals(issued, fate) + (if ok then 0 else DropWeight(issued[|fate|]))
  {
    assert (fate + [ok])[..|fate|] == fate;
  }

  lemma {:induction false} FlagChangesAppend(cmds: seq<Cmd>, cmd: Cmd)
    ensures FlagChanges(cmds + [cmd]) == FlagChanges(cmds) + Weight(cmd)
  {
    if cmds == [] {
      assert [cmd][1..] == [];
    } else {
      FlagChangesAppend(cmds[1..], cmd);
      assert (cmds + [cmd])[1..] == cmds[1..] + [cmd];
    }
  }

  // ---- producer steps ----

  lemma CountStep(s: State, osc: bool, step: ProducerStep)
    requires Inv(s) && ProducerEnabled(s, osc, step) && step.Count?
    ensures Inv(ProducerApply(s, osc, step))
  {
    hide RingInv, FlagChanges, Accepted, Refusals, Queue;
  }

  lemma LockStep(s: State, osc: bool, step: ProducerStep)
    requires Inv(s) && ProducerEnabled(s, osc, step) && step.Lock?
    ensures Inv(ProducerApply(s, osc, step))
  {
    hide RingInv, FlagChanges, Accepted, Refusals, Queue;
  }

  lemma ReadStep(s: State, osc: bool, step: ProducerStep)
    requires Inv(s) && ProducerEnabled(s, osc, step) && step.Read?
    ensures Inv(ProducerApply(s, osc, step))
  {
    hide RingInv, FlagChanges, Accepted, Refusals, Queue;
  }

  lemma CountDownHereStep(s: State, osc: bool, step: ProducerStep)
    requires Inv(s) && ProducerEnabled(s, osc, step) && step.CountDownHere?
    ensures Inv(ProducerApply(s, osc, step))
  {
    hide RingInv, FlagChanges, Accepted, Refusals, Queue;
  }

  lemma UnlockStep(s: State, osc: bool, step: ProducerStep)
    requires Inv(s) && ProducerEnabled(s, osc, step) && step.Unlock?
    ensures Inv(ProducerApply(s, osc, step))
  {
    hide RingInv, FlagChanges, Accepted, Refusals, Queue;
  }

  lemma UncountStep(s: State, osc: bool, step: ProducerStep)
    requires Inv(s) && ProducerEnabled(s, osc, step) && step.Uncount?
    ensures Inv(ProducerApply(s, osc, step))
  {
    hide RingInv, FlagChanges, Accepted, Refusals, Queue;
  }

  lemma IssueStep(s: State, osc: bool, step: ProducerStep)
    requires Inv(s) && ProducerEnabled(s, osc, step) && step.Issue?
    ensures Inv(ProducerApply(s, osc, step))
  {
    hide RingInv, FlagChanges, Accepted, Refusals, Queue;
    var c := Chan(s, osc);
    AcceptedIgnoresLater(c.issued, c.fate, step.cmd);
  }

  // Running a change on the producer's own thread: nothing is queued ahead of it.
  lemma RunHereStep(s: State, osc: bool, step: ProducerStep)
    requires Inv(s) && ProducerEnabled(s, osc, step) && step.RunHere?
    ensures Inv(ProducerApply(s, osc, step))
  {
    hide RingInv, FlagChanges, Accepted, Refusals, Queue;
    var c := Chan(s, osc);
    AcceptedDecides(c.issued, c.fate, true);
    assert |c.ring.popped| <= |c.ring.pushed| by { RingBounds(c.ring, PusherAt(c.pc), Popper(s, osc)); }
    assert InFlight(s, osc) == [] && Queue(c.ring) == [];
    assert c.executed + [] + [] == c.executed;
    assert (c.executed + [c.pc.cmd]) + [] + [] == c.executed + [c.pc.cmd];
  }

  lemma GiveUpStep(s: State, osc: bool, step: ProducerStep)
    requires Inv(s) && ProducerEnabled(s, osc, step) && step.GiveUp?
    ensures Inv(ProducerApply(s, osc, step))
  {
    hide RingInv, FlagChanges, Accepted, Refusals, Queue;
    var c := Chan(s, osc);
    AcceptedDecides(c.issued, c.fate, false);
    assert Accepted(c.issued, c.fate) + [] == Accepted(c.issued, c.fate);
  }

  lemma PushLoadHeadStep(s: State, osc: bool, step: ProducerStep)
    requires Inv(s) && ProducerEnabled(s, osc, step) && step.PushLoadHead?
    ensures Inv(ProducerApply(s, osc, step))
  {
    hide RingInv, FlagChanges, Accepted, Refusals, Queue;
    var c := Chan(s, osc);
    BeginPushStep(c.ring, c.pc.at, Popper(s, osc), c.pc.cmd);
  }

  lemma PushLoadTailStep(s: State, osc: bool, step: ProducerStep)
    requires Inv(s) && ProducerEnabled(s, osc, step) && step.PushLoadTail?
    ensures Inv(ProducerApply(s, osc, step))
  {
    hide RingInv, FlagChanges, Accepted, Refusals, Queue;
    var c := Chan(s, osc);
    SeeTailStep(c.ring, c.pc.at, Popper(s, osc), step.seen);
  }

  lemma PushWriteStep(s: State, osc: bool, step: ProducerStep)
    requires Inv(s) && ProducerEnabled(s, osc, step) && step.PushWrite?
    ensures Inv(ProducerApply(s, osc, step))
  {
    hide RingInv, FlagChanges, Accepted, Refusals, Queue;
    var c := Chan(s, osc);
    WriteStep(c.ring, c.pc.at, Popper(s, osc));
  }

  lemma PushPublishStep(s: State, osc: bool, step: ProducerStep)
    requires Inv(s) && ProducerEnabled(s, osc, step) && step.PushPublish?
    ensures Inv(ProducerApply(s, osc, step))
  {
    hide RingInv, FlagChanges, Accepted, Refusals, Queue;
    var c, at := Chan(s, osc), Popper(s, osc);
    RingBounds(c.ring, c.pc.at, at);
    PublishStep(c.ring, c.pc.at, at);
    AcceptedDecides(c.issued, c.fate, true);
    FlagChangesAppend(Queue(c.ring), c.pc.cmd);
    var before := c.executed + InFlight(s, osc);
    assert before + (Queue(c.ring) + [c.pc.cmd]) == (before + Queue(c.ring)) + [c.pc.cmd];
  }

  // ---- draining steps, taken by the audio thread or by `start` / `stop` ----

  predicate IsDrain(s: State, step: Step) {
    Enabled(s, step) && (step.AudioDrain? || step.LifeDrain?)
  }

  function DrainOf(s: State, step: Step): Drain
    requires IsDrain(s, step)
  {
    if step.AudioDrain? then s.audio.d else s.life.d
  }

  function SeenBy(s: State, step: Step): nat
    requires IsDrain(s, step)
  {
    if step.AudioDrain? then step.seen else |Chan(s, s.life.d.osc).ring.pushed|
  }

  lemma BeginPopDrain(s: State, step: Step)
    requires Inv(s) && IsDrain(s, step) && DrainOf(s, step).Popping? && DrainOf(s, step).at.PopIdle?
    ensures Inv(Apply(s, step))
  {
    hide RingInv, FlagChanges, Accepted, Refusals, Queue;
    var d := DrainOf(s, step);
    var c := Chan(s, d.osc);
    BeginPopStep(c.ring, PusherAt(c.pc), d.at);
  }

  // Only the final drain, whose view of the queue is current, may conclude that
  // nothing is left.
  lemma SeeHeadDrain(s: State, step: Step)
    requires Inv(s) && IsDrain(s, step) && DrainOf(s, step).Popping? && DrainOf(s, step).at.PopTail?
    ensures Inv(Apply(s, step))
  {
    hide RingInv, FlagChanges, Accepted, Refusals, Queue;
    var d, seen := DrainOf(s, step), SeenBy(s, step);
    var c := Chan(s, d.osc);
    RingBounds(c.ring, PusherAt(c.pc), d.at);
    EmptyIsConservative(c.ring, PusherAt(c.pc), d.at, seen);
    SeeHeadStep(c.ring, PusherAt(c.pc), d.at, seen);
  }

  lemma TakeDrain(s: State, step: Step)
    requires Inv(s) && IsDrain(s, step) && DrainOf(s, step).Popping? && DrainOf(s, step).at.PopReady?
    ensures Inv(Apply(s, step))
  {
    hide RingInv, FlagChanges, Accepted, Refusals, Queue;
    var d := DrainOf(s, step);
    var c := Chan(s, d.osc);
    TakeStep(c.ring, PusherAt(c.pc), d.at);
  }

  lemma ReleaseDrain(s: State, step: Step)
    requires Inv(s) && IsDrain(s, step) && DrainOf(s, step).Popping? && DrainOf(s, step).at.PopTook?
    ensures Inv(Apply(s, step))
  {
    hide RingInv, Accepted, Refusals, Queue, FlagChanges, LockInv, WindowInv, ReadInv;
    ReleaseKeepsLocks(s, step);
    var d := DrainOf(s, step);
    var c := Chan(s, d.osc);
    RingBounds(c.ring, PusherAt(c.pc), d.at);
    ReleaseStep(c.ring, PusherAt(c.pc), d.at);
    RingBounds(StoreTail(c.ring, d.at).0, PusherAt(c.pc), PopIdle);
    var q' := Queue(StoreTail(c.ring, d.at).0);
    assert c.executed + [] + ([d.at.item] + q') == c.executed + [d.at.item] + q';
    FlagChangesFront(d.at.item, q');
  }

  lemma ReleaseKeepsLocks(s: State, step: Step)
    requires Inv(s) && IsDrain(s, step) && DrainOf(s, step).Popping? && DrainOf(s, step).at.PopTook?
    ensures var s' := Apply(s, step);
            && LockInv(s') && WindowInv(s') && ReadInv(s'.py, s'.running) && ReadInv(s'.osc, s'.running)
            && Drainer(s) == Some(DrainOf(s, step))
               && Drainer(s') == Some(Running(DrainOf(s, step).osc, DrainOf(s, step).at.item))
            && s'.running == s.running
  {
    hide ChannelInv, CountInv, StrandInv, StoreTail;
  }

  lemma FlagChangesFront(cmd: Cmd, cmds: seq<Cmd>)
    ensures FlagChanges([cmd] + cmds) == Weight(cmd) + FlagChanges(cmds)
  {
    assert ([cmd] + cmds)[1..] == cmds;
  }

  lemma ExecuteDrain(s: State, step: Step)
    requires Inv(s) && IsDrain(s, step) && DrainOf(s, step).Running?
    ensures Inv(Apply(s, step))
  {
    hide RingInv, FlagChanges, Accepted, Refusals, Queue;
    var d := DrainOf(s, step);
    var c := Chan(s, d.osc);
    assert (c.executed + [d.cmd]) + [] == c.executed + [d.cmd];
  }

  lemma CountDownDrain(s: State, step: Step)
    requires Inv(s) && IsDrain(s, step) && DrainOf(s, step).Ran?
    ensures Inv(Apply(s, step))
  {
    hide RingInv, FlagChanges, Accepted, Refusals, Queue;
  }

  // ---- every other step of the audio and lifecycle threads ----

  lemma WindowStep(s: State, step: Step)
    requires Inv(s) && Enabled(s, step) && !step.Produce? && !IsDrain(s, step)
    ensures Inv(Apply(s, step))
  {
    hide RingInv, FlagChanges, Accepted, Refusals, Queue;
  }

  lemma StepKeepsInv(s: State, step: Step)
    requires Inv(s) && Enabled(s, step)
    ensures Inv(Apply(s, step))
  {
    hide Inv, Apply;
    if IsDrain(s, step) {
      match DrainOf(s, step)
      case Popping(_, PopIdle) => BeginPopDrain(s, step);
      case Popping(_, PopTail(_)) => SeeHeadDrain(s, step);
      case Popping(_, PopReady(_)) => TakeDrain(s, step);
      case Popping(_, PopTook(_, _)) => ReleaseDrain(s, step);
      case Running(_, _) => ExecuteDrain(s, step);
      case Ran(_, _) => CountDownDrain(s, step);
    } else if step.Produce? {
      ProducerKeepsInv(s, step.osc, step.step);
      assert Apply(s, step) == ProducerApply(s, step.osc, step.step) by { ProduceIsProducer(s, step); }
    } else {
      WindowStep(s, step);
    }
  }

  lemma ProduceIsProducer(s: State, step: Step)
    requires Enabled(s, step) && step.Produce?
    ensures Apply(s, step) == ProducerApply(s, step.osc, step.step)
  {
  }

  lemma ProducerKeepsInv(s: State, osc: bool, step: ProducerStep)
    requires Inv(s) && ProducerEnabled(s, osc, step)
    ensures Inv(ProducerApply(s, osc, step))
  {
    hide Inv, ProducerApply;
    match step
    case Issue(_) => IssueStep(s, osc, step);
    case Count => CountStep(s, osc, step);
    case Lock => LockStep(s, osc, step);
    case Read => ReadStep(s, osc, step);
    case RunHere => RunHereStep(s, osc, step);
    case CountDownHere => CountDownHereStep(s, osc, step);
    case PushLoadHead => PushLoadHeadStep(s, osc, step);
    case PushLoadTail(_) => PushLoadTailStep(s, osc, step);
    case PushWrite => PushWriteStep(s, osc, step);
    case PushPublish => PushPublishStep(s, osc, step);
    case GiveUp => GiveUpStep(s, osc, step);
    case Unlock => UnlockStep(s, osc, step);
    case Uncount => UncountStep(s, osc, step);
  }

  lemma {:induction false} EveryRunKeepsInv(s: State, steps: seq<Step>, s': State)
    requires Inv(s) && Run(s, steps, s')
    ensures Inv(s')
    decreases |steps|
  {
    hide Inv, Enabled, Apply;
    if steps != [] {
      StepKeepsInv(s, steps[0]);
      EveryRunKeepsInv(Apply(s, steps[0]), steps[1..], s');
    }
  }

  // ---- the safety statements, for every state of every run ----

  // Each producer's accepted changes run exactly once each and in issue order,
  // across every switch between running directly and queueing: those already run,
  // the one a drain carries and those still queued are together the accepted
  // ones.  Refused changes never run, and a voice's drop counter is the number of
  // its own.
  lemma ExactlyOnceInOrder(cap: nat, f: Flags, steps: seq<Step>, s: State)
    requires cap > 0 && Run(Init(cap, f), steps, s)
    ensures forall osc: bool ::
              var c := Chan(s, osc);
              && |c.ring.popped| <= |c.ring.pushed| && |c.fate| <= |c.issued|
              && c.executed + InFlight(s, osc) + Queue(c.ring) == Accepted(c.issued, c.fate)
              && (c.pc.Idle? ==> |c.fate| == |c.issued|)
    ensures |s.py.fate| <= |s.py.issued| && |s.osc.fate| <= |s.osc.issued|
    ensures s.dropped == Refusals(s.py.issued, s.py.fate) + Refusals(s.osc.issued, s.osc.fate)
  {
    InitInv(cap, f);
    EveryRunKeepsInv(Init(cap, f), steps, s);
    hide Run, Accepted, Queue;
  }

  // With the engine stopped and no start or stop in progress, every accepted
  // change has run: the final drain strands nothing.
  lemma NothingStranded(cap: nat, f: Flags, steps: seq<Step>, s: State)
    requires cap > 0 && Run(Init(cap, f), steps, s)
    requires !s.running && !s.writer
    ensures forall osc: bool ::
              var c := Chan(s, osc);
              && |c.ring.popped| <= |c.ring.pushed| && Queue(c.ring) == []
              && |c.fate| <= |c.issued| && c.executed == Accepted(c.issued, c.fate)
  {
    InitInv(cap, f);
    EveryRunKeepsInv(Init(cap, f), steps, s);
    hide Run, Accepted, Queue;
    assert Drainer(s) == None;
    forall osc: bool
      ensures Chan(s, osc).executed == Accepted(Chan(s, osc).issued, Chan(s, osc).fate)
    {
      var c := Chan(s, osc);
      assert c.executed + [] + [] == c.executed;
    }
  }

  // No change runs on a control thread while the device can call back, and at
  // most one thread is inside a drain, so each queue keeps a single consumer.
  lemma ControlThreadsStayOut(cap: nat, f: Flags, steps: seq<Step>, s: State)
    requires cap > 0 && Run(Init(cap, f), steps, s)
    ensures (exists osc: bool :: Chan(s, osc).pc.Direct? || Chan(s, osc).pc.DirectRan?) || s.life.FinalDrain? ==>
              !s.window && s.audio.Quiet? && !s.running
    ensures !(s.audio.Draining? && s.life.FinalDrain?)
    ensures (exists osc: bool :: Chan(s, osc).pc.Direct?) ==> !s.life.FinalDrain?
  {
    InitInv(cap, f);
    EveryRunKeepsInv(Init(cap, f), steps, s);
    hide Run, ChannelInv, CountInv, StrandInv;
  }

  // ---- who can be changing the DSP's state together ----

  datatype Thread = Python | Osc | Audio | Lifecycle

  // About to run a change, or, for the audio thread, processing a block.
  predicate Acting(s: State, t: Thread) {
    match t
    case Python => s.py.pc.Direct?
    case Osc => s.osc.pc.Direct?
    case Audio => s.audio.Processing? || (s.audio.Draining? && s.audio.d.Running?)
    case Lifecycle => s.life.FinalDrain? && s.life.d.Running?
  }

  // Two threads are at the DSP's state together only when they are the two producers,
  // with the engine stopped: each then holds the lifecycle lock shared and neither
  // keeps the other out.
  lemma OnlyProducersTogether(cap: nat, f: Flags, steps: seq<Step>, s: State, t: Thread, u: Thread)
    requires cap > 0 && Run(Init(cap, f), steps, s)
    requires t != u && Acting(s, t) && Acting(s, u)
    ensures (t == Python && u == Osc) || (t == Osc && u == Python)
    ensures !s.running && !s.window && !s.writer && s.readers == 2
  {
    hide Run, Inv, Acting;
    InitInv(cap, f);
    EveryRunKeepsInv(Init(cap, f), steps, s);
    ActingWhere(s, t);
    ActingWhere(s, u);
  }

  // Where the engine is when a thread acts.
  lemma ActingWhere(s: State, t: Thread)
    requires Inv(s) && Acting(s, t)
    ensures t == Python ==> !s.running && !s.window && !s.writer && s.py.pc.Direct?
    ensures t == Osc ==> !s.running && !s.window && !s.writer && s.osc.pc.Direct?
    ensures t == Audio ==> s.running && s.window
    ensures t == Lifecycle ==> s.writer && !s.running
    ensures s.py.pc.Direct? && s.osc.pc.Direct? ==> s.readers == 2
  {
    hide ChannelInv, CountInv, StrandInv;
  }

  // `flag_changes_pending_` is the number of flag changes queued, carried by a
  // drain, or still in a producer's hands.
  lemma PendingCountExact(cap: nat, f: Flags, steps: seq<Step>, s: State)
    requires cap > 0 && Run(Init(cap, f), steps, s)
    ensures |s.py.ring.popped| <= |s.py.ring.pushed| && |s.osc.ring.popped| <= |s.osc.ring.pushed|
    ensures s.pending == FlagChanges(Queue(s.py.ring)) + FlagChanges(Queue(s.osc.ring))
                         + DrainClaim(s) + Claim(s.py.pc) + Claim(s.osc.pc)
    ensures s.pending >= 0
  {
    InitInv(cap, f);
    EveryRunKeepsInv(Init(cap, f), steps, s);
    hide Run, FlagChanges, Queue;
  }
}