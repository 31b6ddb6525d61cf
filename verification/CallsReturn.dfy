/**
 Every setter, callback, `start` and `stop` comes back: from any reachable state, the
 steps that can be taken before something new is asked for are bounded in number, and
 there is always one until every thread is home.
 */
module CallsReturn {
  import opened Options
  import opened CommandRing
  import opened FlagMirror
  import opened ControlProtocol
  import opened ControlSafety
  import opened Lifecycle

  // No setter is called, no start or stop, and the device makes no new callback.
  predicate Inward(step: Step) {
    !step.Enter? && !step.CallBack? && !(step.Produce? && step.step.Issue?)
  }

  predicate AllInward(steps: seq<Step>) {
    forall step :: step in steps ==> Inward(step)
  }

  // No thread is inside a setter, a callback, `start` or `stop`.
  predicate Home(s: State) {
    s.py.pc.Idle? && s.osc.pc.Idle? && s.audio.Quiet? && s.life.Outside?
  }

  const QUEUED: nat := 12

  // Steps a producer can still take, with what its change costs once it is queued.
  function ProducerLeft(p: Producer): nat {
    match p
    case Idle => 0
    case Uncounting(_) => 1
    case Leaving(_, _) => 2
    case Dropping(_) => 3
    case DirectRan(_) => 3
    case Direct(_) => 5
    case Pushing(_, attempt, at) =>
      (match at
       case PushWrote(_, _) => QUEUED + 3
       case PushRoom(_, _) => QUEUED + 4
       case PushHead(_, _) => QUEUED + 5 + 2 * Attempts(attempt)
       case PushIdle => QUEUED + 6 + 2 * Attempts(attempt))
    case Deciding(_) => QUEUED + 7 + 2 * Attempts(0)
    case Waiting(_) => QUEUED + 8 + 2 * Attempts(0)
    case Counting(_) => QUEUED + 9 + 2 * Attempts(0)
  }

  function Attempts(attempt: nat): nat {
    if attempt < PUSH_ATTEMPTS then PUSH_ATTEMPTS - attempt else 0
  }

  function DrainLeft(d: Drain): nat {
    (if d.osc then 0 else 4) +
    match d
    case Popping(_, PopIdle) => 4
    case Popping(_, PopTail(_)) => 3
    case Popping(_, PopReady(_)) => 2
    case Popping(_, PopTook(_, _)) => 1
    case Running(_, _) => QUEUED
    case Ran(_, _) => 5
  }

  function AudioLeft(a: Audio): nat {
    match a case Quiet => 0 case Processing => 1 case Draining(d) => 2 + DrainLeft(d)
  }

  function LifeLeft(l: Life): nat {
    match l
    case Outside => 0
    case Releasing => 1
    case FinalDrain(d) => 2 + DrainLeft(d)
    case Lowering => QUEUED + 8
    case Stopping => QUEUED + 9
    case Starting => QUEUED + 9
    case Calling => QUEUED + 10
    case Raising => QUEUED + 11
    case Checking(_) => QUEUED + 12
    case Wanting(_) => QUEUED + 13
  }

  ghost function Queued(r: Ring<Cmd>): nat {
    if |r.popped| <= |r.pushed| then |r.pushed| - |r.popped| else 0
  }

  // How many steps are left to take, at most, before something new is asked for.
  ghost function Left(s: State): nat {
    ProducerLeft(s.py.pc) + ProducerLeft(s.osc.pc)
    + QUEUED * (Queued(s.py.ring) + Queued(s.osc.ring))
    + AudioLeft(s.audio) + LifeLeft(s.life)
    + (if s.published.rec && s.published.recOnce then 1 else 0)
  }

  // ---- every step is one less ----

  lemma QueueStays(r: Ring<Cmd>, p: Push<Cmd>, c: Pop<Cmd>)
    requires RingInv(r, p, c)
    ensures |r.popped| <= |r.pushed| && (c.PopTook? ==> |r.popped| < |r.pushed|)
  {
  }

  lemma ProducerSpends(s: State, osc: bool, step: ProducerStep)
    requires ProducerEnabled(s, osc, step) && !step.Issue?
    requires |Chan(s, osc).ring.popped| <= |Chan(s, osc).ring.pushed|
    ensures Left(ProducerApply(s, osc, step)) < Left(s)
  {
    hide ProducerApply, ProducerEnabled, Left;
    if step.PushLoadTail? || step.PushPublish? {
      RingSpends(s, osc, step);
    } else {
      SetterSpends(s, osc, step);
    }
  }

  lemma RingSpends(s: State, osc: bool, step: ProducerStep)
    requires ProducerEnabled(s, osc, step) && (step.PushLoadTail? || step.PushPublish?)
    requires |Chan(s, osc).ring.popped| <= |Chan(s, osc).ring.pushed|
    ensures Left(ProducerApply(s, osc, step)) < Left(s)
  {
    hide TailObservable, LooksFull, Succ, AudioLeft, LifeLeft;
  }

  lemma SetterSpends(s: State, osc: bool, step: ProducerStep)
    requires ProducerEnabled(s, osc, step) && !step.Issue? && !step.PushLoadTail? && !step.PushPublish?
    ensures Left(ProducerApply(s, osc, step)) < Left(s)
  {
    hide ProducerApply, ProducerEnabled, Left;
    if osc { OscSpends(s, step); } else { PySpends(s, step); }
  }

  lemma OscSpends(s: State, step: ProducerStep)
    requires ProducerEnabled(s, true, step) && !step.Issue? && !step.PushLoadTail? && !step.PushPublish?
    ensures Left(ProducerApply(s, true, step)) < Left(s)
  {
    hide Published, MirrorAtReturn, AudioLeft, LifeLeft;
  }

  lemma PySpends(s: State, step: ProducerStep)
    requires ProducerEnabled(s, false, step) && !step.Issue? && !step.PushLoadTail? && !step.PushPublish?
    ensures Left(ProducerApply(s, false, step)) < Left(s)
  {
    hide Published, MirrorAtReturn, AudioLeft, LifeLeft;
  }

  // What a drain's step takes from the steps left: the place it had, less the place it has.
  predicate Spends(was: nat, d: Drain, now: nat, next: Option<Drain>) {
    now + (if next.Some? then DrainLeft(next.value) + 1 else 0) <= was + DrainLeft(d)
  }

  lemma PopSpends(s: State, d: Drain, seen: nat)
    requires DrainEnabled(s, d, seen) && d.Popping? && !d.at.PopTook?
    ensures var (s', d') := DrainApply(s, d, seen);
            s'.audio == s.audio && s'.life == s.life && Spends(Left(s), d, Left(s'), d')
  {
    hide HeadObservable, LooksEmpty, ProducerLeft, AudioLeft, LifeLeft;
  }

  lemma TakenSpends(s: State, d: Drain, seen: nat)
    requires DrainEnabled(s, d, seen) && d.Popping? && d.at.PopTook?
    requires |Chan(s, d.osc).ring.popped| < |Chan(s, d.osc).ring.pushed|
    ensures var (s', d') := DrainApply(s, d, seen);
            s'.audio == s.audio && s'.life == s.life && Spends(Left(s), d, Left(s'), d')
  {
    hide HeadObservable, Succ, ProducerLeft, AudioLeft, LifeLeft;
  }

  lemma RunSpends(s: State, d: Drain, seen: nat)
    requires DrainEnabled(s, d, seen) && !d.Popping?
    ensures var (s', d') := DrainApply(s, d, seen);
            s'.audio == s.audio && s'.life == s.life && Spends(Left(s), d, Left(s'), d')
  {
    hide Queued, Published, ProducerLeft, AudioLeft, LifeLeft;
  }

  lemma DrainSpends(s: State, d: Drain, seen: nat)
    requires Inv(s) && Drainer(s) == Some(d) && DrainEnabled(s, d, seen)
    ensures var (s', d') := DrainApply(s, d, seen);
            s'.audio == s.audio && s'.life == s.life && Spends(Left(s), d, Left(s'), d')
  {
    hide DrainApply, DrainEnabled, Left, Spends;
    if !d.Popping? {
      RunSpends(s, d, seen);
    } else if d.at.PopTook? {
      RingHolds(s, d.osc);
      TakenSpends(s, d, seen);
    } else {
      PopSpends(s, d, seen);
    }
  }

  lemma RingHolds(s: State, osc: bool)
    requires Inv(s)
    ensures var c := Chan(s, osc);
            && RingInv(c.ring, PusherAt(c.pc), Popper(s, osc)) && |c.ring.popped| <= |c.ring.pushed|
            && (Popper(s, osc).PopTook? ==> |c.ring.popped| < |c.ring.pushed|)
  {
    var c := Chan(s, osc);
    QueueStays(c.ring, PusherAt(c.pc), Popper(s, osc));
    hide RingInv, LockInv, WindowInv, ReadInv, StrandInv, CountInv, Accepted;
  }

  lemma StepSpends(s: State, step: Step)
    requires Inv(s) && Enabled(s, step) && Inward(step)
    ensures Left(Apply(s, step)) < Left(s)
  {
    hide Apply, Enabled, Inv, Left;
    if step.Produce? {
      ProduceSpends(s, step.osc, step.step);
    } else if step.AudioDrain? {
      AudioSpends(s, step.seen);
    } else if step.LifeDrain? {
      LifeSpends(s);
    } else {
      WindowSpends(s, step);
    }
  }

  lemma ProduceSpends(s: State, osc: bool, step: ProducerStep)
    requires Inv(s) && Enabled(s, Produce(osc, step)) && !step.Issue?
    ensures Left(Apply(s, Produce(osc, step))) < Left(s)
  {
    RingHolds(s, osc);
    hide ProducerApply, ProducerEnabled, Left, Inv;
    ProducerSpends(s, osc, step);
  }

  lemma AudioSpends(s: State, seen: nat)
    requires Inv(s) && Enabled(s, AudioDrain(seen))
    ensures Left(Apply(s, AudioDrain(seen))) < Left(s)
  {
    OneDrainer(s);
    hide DrainApply, DrainEnabled, Inv;
    DrainSpends(s, s.audio.d, seen);
    hide DrainLeft, ProducerLeft, LifeLeft, Queued, ProducerApply;
  }

  lemma LifeSpends(s: State)
    requires Inv(s) && Enabled(s, LifeDrain)
    ensures Left(Apply(s, LifeDrain)) < Left(s)
  {
    hide Apply, Enabled, Left, Inv, DrainApply, DrainEnabled, Drainer, DrainLeft;
    var seen := LifeDrainIs(s);
    var (s', d) := DrainApply(s, s.life.d, seen);
    DrainSpends(s, s.life.d, seen);
    Moved(s', if d.Some? then FinalDrain(d.value) else Releasing);
  }

  lemma LifeDrainIs(s: State) returns (seen: nat)
    requires Inv(s) && Enabled(s, LifeDrain)
    ensures s.life.FinalDrain? && Drainer(s) == Some(s.life.d) && DrainEnabled(s, s.life.d, seen)
    ensures var (s', d) := DrainApply(s, s.life.d, seen);
            Apply(s, LifeDrain) == s'.(life := if d.Some? then FinalDrain(d.value) else Releasing)
  {
    OneDrainer(s);
    hide DrainApply, DrainEnabled, Inv, ProducerApply;
    seen := |Chan(s, s.life.d.osc).ring.pushed|;
  }

  lemma Moved(s: State, l: Life)
    ensures Left(s.(life := l)) + LifeLeft(s.life) == Left(s) + LifeLeft(l)
  {
    hide ProducerLeft, AudioLeft, LifeLeft, Queued;
  }

  lemma WindowSpends(s: State, step: Step)
    requires Enabled(s, step) && Inward(step) && !step.Produce? && !step.AudioDrain? && !step.LifeDrain?
    ensures Left(Apply(s, step)) < Left(s)
  {
    hide DrainApply, ProducerApply, Queued, ProducerLeft, DrainEnabled, ProducerEnabled;
  }

  lemma OneDrainer(s: State)
    requires Inv(s)
    ensures s.audio.Draining? ==> Drainer(s) == Some(s.audio.d)
    ensures s.life.FinalDrain? ==> Drainer(s) == Some(s.life.d)
  {
    hide ChannelInv, CountInv, StrandInv, LockInv, ReadInv;
  }

  // ---- there is always a step until every thread is home ----

  function ProducerNext(c: Channel): ProducerStep
    requires !c.pc.Idle?
  {
    match c.pc
    case Counting(_) => Count
    case Waiting(_) => Lock
    case Deciding(_) => Read
    case Direct(_) => RunHere
    case DirectRan(_) => CountDownHere
    case Pushing(_, _, PushIdle) => PushLoadHead
    case Pushing(_, _, PushHead(_, _)) => PushLoadTail(|c.ring.popped|)
    case Pushing(_, _, PushRoom(_, _)) => PushWrite
    case Pushing(_, _, PushWrote(_, _)) => PushPublish
    case Dropping(_) => GiveUp
    case Leaving(_, _) => Unlock
    case Uncounting(_) => Uncount
  }

  function LifeNext(s: State): Step
    requires !s.life.Outside?
  {
    match s.life
    case Wanting(_) => LockExclusive
    case Checking(_) => Check(true)
    case Raising => RaiseFlag
    case Calling => CallStart
    case Starting => StartReturns(true)
    case Stopping => StopReturns
    case Lowering => LowerFlag
    case FinalDrain(_) => LifeDrain
    case Releasing => Step.Release
  }

  // The audio thread first, then whoever holds the lock or can get it.
  function Next(s: State): Step
    requires !Home(s)
  {
    if s.audio.Draining? then AudioDrain(|Chan(s, s.audio.d.osc).ring.pushed|)
    else if s.audio.Processing? then EndBlock
    else if HoldsExclusive(s.life) then LifeNext(s)
    else if !s.py.pc.Idle? then Produce(false, ProducerNext(s.py))
    else if !s.osc.pc.Idle? then Produce(true, ProducerNext(s.osc))
    else LifeNext(s)
  }

  lemma DrainCan(s: State, d: Drain)
    requires Inv(s) && Drainer(s) == Some(d)
    ensures DrainEnabled(s, d, |Chan(s, d.osc).ring.pushed|)
  {
    RingHolds(s, d.osc);
    PopCan(Chan(s, d.osc).ring, PusherAt(Chan(s, d.osc).pc), PopAt(d, d.osc));
    hide RingInv, Inv;
  }

  lemma PopCan(r: Ring<Cmd>, p: Push<Cmd>, c: Pop<Cmd>)
    requires RingInv(r, p, c)
    ensures c.PopTail? ==> r.cap > 0 && HeadObservable(r, |r.pushed|)
    ensures c.PopReady? ==> c.t < |r.buf| && r.buf[c.t].Some?
    ensures c.PopTook? ==> c.t < r.cap
  {
  }

  lemma PushCan(r: Ring<Cmd>, p: Push<Cmd>, c: Pop<Cmd>)
    requires RingInv(r, p, c)
    ensures TailObservable(r, |r.popped|)
    ensures !p.PushIdle? ==> p.h < r.cap == |r.buf|
  {
  }

  lemma ProducerCan(s: State, osc: bool)
    requires Inv(s) && !s.writer && !Chan(s, osc).pc.Idle?
    ensures ProducerEnabled(s, osc, ProducerNext(Chan(s, osc)))
  {
    RingHolds(s, osc);
    PushCan(Chan(s, osc).ring, PusherAt(Chan(s, osc).pc), Popper(s, osc));
    LocksHold(s);
    hide Inv, RingInv, TailObservable;
  }

  lemma CanGoOn(s: State)
    requires Inv(s) && !Home(s)
    ensures Inward(Next(s)) && Enabled(s, Next(s))
  {
    OneDrainer(s);
    if s.audio.Draining? {
      hide Inv, DrainEnabled;
      DrainCan(s, s.audio.d);
    } else if !s.audio.Processing? {
      if s.life.FinalDrain? {
        hide Inv, DrainEnabled;
        DrainCan(s, s.life.d);
      } else if !HoldsExclusive(s.life) {
        LocksHold(s);
        hide Inv, ProducerEnabled, DrainEnabled;
        if !s.py.pc.Idle? { ProducerCan(s, false); }
        else if !s.osc.pc.Idle? { ProducerCan(s, true); }
      } else {
        hide Inv, ProducerEnabled, DrainEnabled;
      }
    }
  }

  lemma LocksHold(s: State)
    requires Inv(s)
    ensures LockInv(s)
  {
  }

  // ---- runs without new requests ----

  ghost predicate InwardRun(s: State, steps: seq<Step>, s': State) {
    Run(s, steps, s') && AllInward(steps)
  }

  // Such a run is no longer than `Left`, however the threads take turns.
  lemma {:induction false} InwardRunEnds(s: State, steps: seq<Step>, s': State)
    requires Inv(s) && InwardRun(s, steps, s')
    ensures Inv(s') && |steps| + Left(s') <= Left(s)
    decreases |steps|
  {
    hide Inv, Enabled, Apply, Left, Inward;
    if steps != [] {
      assert steps[0] in steps && forall step :: step in steps[1..] ==> step in steps;
      StepKeepsInv(s, steps[0]);
      StepSpends(s, steps[0]);
      InwardRunEnds(Apply(s, steps[0]), steps[1..], s');
    }
  }

  // One leads home.
  lemma {:induction false} WayHome(s: State) returns (steps: seq<Step>, s': State)
    requires Inv(s)
    ensures InwardRun(s, steps, s') && Home(s')
    decreases Left(s)
  {
    hide Inv, Enabled, Apply, Left, Inward, Home;
    if Home(s) {
      steps, s' := [], s;
    } else {
      CanGoOn(s);
      StepKeepsInv(s, Next(s));
      StepSpends(s, Next(s));
      var rest: seq<Step>;
      rest, s' := WayHome(Apply(s, Next(s)));
      Prepended(s, Next(s), rest, s');
      steps := [Next(s)] + rest;
    }
  }

  // A run that no thread can take on.
  ghost predicate Stuck(s: State) {
    forall step :: Inward(step) ==> !Enabled(s, step)
  }

  lemma StuckIsHome(s: State)
    requires Inv(s)
    ensures Stuck(s) <==> Home(s)
  {
    if Home(s) {
      HomeIsStuck(s);
    } else {
      CanGoOn(s);
    }
  }

  lemma HomeIsStuck(s: State)
    requires Home(s)
    ensures Stuck(s)
  {
    hide DrainEnabled;
  }

  // From any state reached, every run in which nothing new is asked for ends, within the
  // number of steps `Left` names, and it can be taken on exactly until no thread is inside
  // a setter, a callback, `start` or `stop`.
  lemma EveryoneComesHome(cap: nat, f: Flags, before: seq<Step>, s0: State, steps: seq<Step>, s: State)
    requires cap > 0 && Run(Init(cap, f), before, s0) && InwardRun(s0, steps, s)
    ensures |steps| <= Left(s0) && (Stuck(s) <==> Home(s))
  {
    hide Inv, Init, Stuck, Home, Left, InwardRun;
    InitInv(cap, f);
    EveryRunKeepsInv(Init(cap, f), before, s0);
    InwardRunEnds(s0, steps, s);
    StuckIsHome(s);
  }

  // So a stop called in any state reached stops and comes back.
  lemma StopComesBack(cap: nat, f: Flags, before: seq<Step>, s0: State) returns (call: seq<Step>, s: State)
    requires cap > 0 && Run(Init(cap, f), before, s0) && s0.life.Outside?
    ensures Run(s0, [Enter(false)] + call, s) && AllInward(call) && |call| <= Left(s0) + QUEUED + 13
    ensures Home(s) && !s.running && !s.window && Drained(s)
  {
    hide Inv, Init, Drained, Inward, Left, Run, Apply, Home, Queue;
    InitInv(cap, f);
    EveryRunKeepsInv(Init(cap, f), before, s0);
    StepKeepsInv(s0, Enter(false));
    Asking(s0, false);
    call, s := WayHome(Apply(s0, Enter(false)));
    InwardRunEnds(Apply(s0, Enter(false)), call, s);
    Prepended(s0, Enter(false), call, s);
    NoneEnters(call);
    HomeIsOutside(s);
    CallDecides(cap, f, before, s0, false, call, s);
  }

  lemma Asking(s: State, start: bool)
    requires s.life.Outside?
    ensures Left(Apply(s, Enter(start))) == Left(s) + QUEUED + 13
  {
    hide ProducerLeft, AudioLeft, Queued;
  }

  lemma HomeIsOutside(s: State)
    requires Home(s)
    ensures s.life.Outside?
  {
  }

  lemma NoneEnters(call: seq<Step>)
    requires AllInward(call)
    ensures NoEnter(call)
  {
    forall step | step in call ensures !step.Enter? {
      assert Inward(step);
    }
  }
}
