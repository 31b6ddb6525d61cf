/**
 How parameter changes reach the audio thread (`Voice::queue_apply`, `dsp_apply`,
 `osc_apply`, `flag_apply`; `Engine::drain_commands`, `callback_process`, `start`,
 `stop` in `src/softcut/_core.cpp`).

 Four threads take one step per atomic access, lock operation or device call:
 two producers (Python control and native OSC), the audio callback, and a thread
 inside `start` or `stop`.  The device calls back only between the call of
 `ma_device_start` and the return of `ma_device_stop` (or of a failed start).

 All voices of an engine share the two queues and the lock; the two counters and
 the flags are those of one voice, any of them.
 */
module ControlProtocol {
  import opened Options
  import opened CommandRing
  import opened FlagMirror

  // A queued closure, as one voice sees it: a plain change of its own or any change of
  // another voice, or a change of its record flags, which also counts down its
  // `flag_changes_pending_` when it has run.
  datatype Cmd = Param(own: bool, id: nat) | Flag(op: FlagOp)

  // A dropped change counts for the voice it belongs to.
  function DropWeight(cmd: Cmd): nat {
    if cmd.Flag? || cmd.own then 1 else 0
  }

  const PUSH_ATTEMPTS: nat := 100

  // Where a producer stands inside a setter.
  datatype Producer =
    | Idle
    | Counting(cmd: Cmd)                            // about to raise the pending count
    | Waiting(cmd: Cmd)                             // wants the lifecycle lock, shared
    | Deciding(cmd: Cmd)                            // holds it; about to load `running`
    | Direct(cmd: Cmd)                              // read false; about to run the change here
    | DirectRan(cmd: Cmd)                           // ran it; the pending count remains
    | Pushing(cmd: Cmd, attempt: nat, at: Push<Cmd>)
    | Dropping(cmd: Cmd)                            // every attempt found the queue full
    | Leaving(cmd: Cmd, ok: bool)                   // about to release the lock
    | Uncounting(cmd: Cmd)                          // dropped: about to lower the pending count

  // One producer with the queue it alone feeds.  `issued` lists the changes it
  // asked for, `fate` whether each was accepted, `executed` those that have run.
  datatype Channel = Channel(pc: Producer, ring: Ring<Cmd>,
                             issued: seq<Cmd>, fate: seq<bool>, executed: seq<Cmd>)

  // Where a thread stands inside `drain_commands`.
  datatype Drain =
    | Popping(osc: bool, at: Pop<Cmd>)
    | Running(osc: bool, cmd: Cmd)
    | Ran(osc: bool, cmd: Cmd)

  datatype Audio = Quiet | Draining(d: Drain) | Processing

  // Where the thread calling `start` or `stop` stands.
  datatype Life =
    | Outside
    | Wanting(start: bool)
    | Checking(start: bool)   // holds the lock exclusively; about to load `running`
    | Raising                 // about to store running = true
    | Calling                 // about to call ma_device_start
    | Starting                // inside ma_device_start
    | Stopping                // inside ma_device_stop
    | Lowering                // about to store running = false
    | FinalDrain(d: Drain)
    | Releasing               // about to release the lock

  datatype State = State(py: Channel, osc: Channel,
                         running: bool, readers: nat, writer: bool, window: bool,
                         audio: Audio, life: Life,
                         pending: int, dropped: nat, mirror: Flags, published: Flags)

  function Chan(s: State, osc: bool): Channel {
    if osc then s.osc else s.py
  }

  function WithChan(s: State, osc: bool, c: Channel): State {
    if osc then s.(osc := c) else s.(py := c)
  }

  function WithPc(s: State, osc: bool, pc: Producer): State {
    WithChan(s, osc, Chan(s, osc).(pc := pc))
  }

  function Init(cap: nat, f: Flags): State {
    var c := Channel(Idle, Empty(cap), [], [], []);
    State(c, c, false, 0, false, false, Quiet, Outside, 0, 0, f, f)
  }

  function Published(f: Flags, cmd: Cmd): Flags {
    match cmd case Param(_, _) => f case Flag(op) => FlagStep(f, op)
  }

  function Weight(cmd: Cmd): nat {
    if cmd.Flag? then 1 else 0
  }

  // Running a closure on whichever thread holds it.
  function Execute(s: State, osc: bool, cmd: Cmd): State {
    var c := Chan(s, osc);
    WithChan(s, osc, c.(executed := c.executed + [cmd])).(published := Published(s.published, cmd))
  }

  // ---- the producers' steps ----

  datatype ProducerStep =
    | Issue(cmd: Cmd) | Count | Lock | Read | RunHere | CountDownHere
    | PushLoadHead | PushLoadTail(seen: nat) | PushWrite | PushPublish
    | GiveUp | Unlock | Uncount

  predicate ProducerEnabled(s: State, osc: bool, step: ProducerStep) {
    var c := Chan(s, osc);
    match step
    case Issue(_) => c.pc.Idle?
    case Count => c.pc.Counting?
    case Lock => c.pc.Waiting? && !s.writer
    case Read => c.pc.Deciding?
    case RunHere => c.pc.Direct?
    case CountDownHere => c.pc.DirectRan?
    case PushLoadHead => c.pc.Pushing? && c.pc.at.PushIdle?
    case PushLoadTail(seen) => c.pc.Pushing? && c.pc.at.PushHead? && c.pc.at.h < c.ring.cap
        && TailObservable(c.ring, seen)
    case PushWrite => c.pc.Pushing? && c.pc.at.PushRoom? && c.pc.at.h < |c.ring.buf|
    case PushPublish => c.pc.Pushing? && c.pc.at.PushWrote? && c.pc.at.h < c.ring.cap
    case GiveUp => c.pc.Dropping?
    case Unlock => c.pc.Leaving? && s.readers > 0
    case Uncount => c.pc.Uncounting?
  }

  // A setter stores the mirror first; `reset` restores it last.
  function MirrorAtIssue(f: Flags, cmd: Cmd): Flags {
    match cmd case Param(_, _) => f case Flag(op) => if op.ResetVoice? then f else FlagStep(f, op)
  }

  function MirrorAtReturn(f: Flags, cmd: Cmd): Flags {
    if cmd == Flag(ResetVoice) then Flags(false, false) else f
  }

  function ProducerApply(s: State, osc: bool, step: ProducerStep): State
    requires ProducerEnabled(s, osc, step)
  {
    var c := Chan(s, osc);
    match step
    case Issue(cmd) =>
      WithChan(s, osc, c.(issued := c.issued + [cmd], pc := if cmd.Flag? then Counting(cmd) else Waiting(cmd)))
        .(mirror := MirrorAtIssue(s.mirror, cmd))
    case Count => WithPc(s, osc, Waiting(c.pc.cmd)).(pending := s.pending + 1)
    case Lock => WithPc(s, osc, Deciding(c.pc.cmd)).(readers := s.readers + 1)
    case Read => WithPc(s, osc, if s.running then Pushing(c.pc.cmd, 0, PushIdle) else Direct(c.pc.cmd))
    case RunHere =>
      var s' := Execute(s, osc, c.pc.cmd);
      var c' := Chan(s', osc);
      WithChan(s', osc, c'.(fate := c.fate + [true],
                            pc := if c.pc.cmd.Flag? then DirectRan(c.pc.cmd) else Leaving(c.pc.cmd, true)))
    case CountDownHere => WithPc(s, osc, Leaving(c.pc.cmd, true)).(pending := s.pending - 1)
    case PushLoadHead => WithPc(s, osc, c.pc.(at := LoadHead(c.ring, c.pc.cmd)))
    case PushLoadTail(seen) =>
      var (r, at) := LoadTail(c.ring, c.pc.at, seen);
      var pc := if at.PushRoom? then c.pc.(at := at)
                else if c.pc.attempt + 1 < PUSH_ATTEMPTS then Pushing(c.pc.cmd, c.pc.attempt + 1, PushIdle)
                else Dropping(c.pc.cmd);
      WithChan(s, osc, c.(ring := r, pc := pc))
    case PushWrite =>
      var (r, at) := WriteSlot(c.ring, c.pc.at);
      WithChan(s, osc, c.(ring := r, pc := c.pc.(at := at)))
    case PushPublish =>
      var (r, _) := StoreHead(c.ring, c.pc.at);
      WithChan(s, osc, c.(ring := r, fate := c.fate + [true], pc := Leaving(c.pc.cmd, true)))
    case GiveUp =>
      WithChan(s, osc, c.(fate := c.fate + [false], pc := Leaving(c.pc.cmd, false)))
        .(dropped := s.dropped + DropWeight(c.pc.cmd))
    case Unlock =>
      var dropped := !c.pc.ok && c.pc.cmd.Flag?;
      WithPc(s, osc, if dropped then Uncounting(c.pc.cmd) else Idle)
        .(readers := s.readers - 1, mirror := if dropped then s.mirror else MirrorAtReturn(s.mirror, c.pc.cmd))
    case Uncount => WithPc(s, osc, Idle).(pending := s.pending - 1, mirror := MirrorAtReturn(s.mirror, c.pc.cmd))
  }

  // ---- draining, on whichever thread does it ----

  predicate DrainEnabled(s: State, d: Drain, seen: nat) {
    var c := Chan(s, d.osc);
    match d
    case Popping(_, PopIdle) => true
    case Popping(_, PopTail(_)) => c.ring.cap > 0 && HeadObservable(c.ring, seen)
    case Popping(_, PopReady(t)) => t < |c.ring.buf| && c.ring.buf[t].Some?
    case Popping(_, PopTook(t, _)) => t < c.ring.cap
    case Running(_, _) => true
    case Ran(_, _) => true
  }

  // The next place in the drain, or None when both queues were found empty.
  function DrainApply(s: State, d: Drain, seen: nat): (State, Option<Drain>)
    requires DrainEnabled(s, d, seen)
  {
    var c := Chan(s, d.osc);
    match d
    case Popping(osc, PopIdle) => (s, Some(Popping(osc, LoadOwnTail(c.ring))))
    case Popping(osc, PopTail(t)) =>
      var (r, at) := LoadOtherHead(c.ring, d.at, seen);
      (WithChan(s, osc, c.(ring := r)),
       if at.PopReady? then Some(Popping(osc, at)) else if osc then None else Some(Popping(true, PopIdle)))
    case Popping(osc, PopReady(t)) =>
      var (r, at) := TakeSlot(c.ring, d.at);
      (WithChan(s, osc, c.(ring := r)), Some(Popping(osc, at)))
    case Popping(osc, PopTook(t, cmd)) =>
      var (r, _) := StoreTail(c.ring, d.at);
      (WithChan(s, osc, c.(ring := r)), Some(Running(osc, cmd)))
    case Running(osc, cmd) => (Execute(s, osc, cmd), Some(Ran(osc, cmd)))
    case Ran(osc, cmd) => (s.(pending := s.pending - Weight(cmd)), Some(Popping(osc, PopIdle)))
  }

  // ---- the audio thread and the lifecycle thread ----

  datatype Step =
    | Produce(osc: bool, step: ProducerStep)
    | CallBack | AudioDrain(seen: nat) | EndBlock | FinishPass
    | Enter(start: bool) | LockExclusive | Check(deviceReady: bool)
    | RaiseFlag | CallStart | StartReturns(ok: bool) | StopReturns | LowerFlag | LifeDrain | Release

  predicate Enabled(s: State, step: Step) {
    match step
    case Produce(osc, p) => ProducerEnabled(s, osc, p)
    case CallBack => s.audio.Quiet? && s.window
    case AudioDrain(seen) => s.audio.Draining? && DrainEnabled(s, s.audio.d, seen)
    case EndBlock => s.audio.Processing?
    // a finished one-shot pass: the DSP clears both flags and publishes
    case FinishPass => s.audio.Processing? && s.published.rec && s.published.recOnce
    case Enter(_) => s.life.Outside?
    case LockExclusive => s.life.Wanting? && s.readers == 0 && !s.writer
    case Check(_) => s.life.Checking?
    case RaiseFlag => s.life.Raising?
    case CallStart => s.life.Calling?
    case StartReturns(ok) => s.life.Starting? && (ok || s.audio.Quiet?)
    case StopReturns => s.life.Stopping? && s.audio.Quiet?
    case LowerFlag => s.life.Lowering?
    // the exclusive lock orders every earlier push before the final drain, so
    // this thread's load of `head` is current
    case LifeDrain => s.life.FinalDrain? && DrainEnabled(s, s.life.d, |Chan(s, s.life.d.osc).ring.pushed|)
    case Release => s.life.Releasing?
  }

  function Apply(s: State, step: Step): State
    requires Enabled(s, step)
  {
    match step
    case Produce(osc, p) => ProducerApply(s, osc, p)
    case CallBack => s.(audio := Draining(Popping(false, PopIdle)))
    case AudioDrain(seen) =>
      var (s', d) := DrainApply(s, s.audio.d, seen);
      s'.(audio := if d.Some? then Draining(d.value) else Processing)
    case EndBlock => s.(audio := Quiet)
    case FinishPass => s.(published := Flags(false, false))
    case Enter(start) => s.(life := Wanting(start))
    case LockExclusive => s.(life := Checking(s.life.start), writer := true)
    case Check(deviceReady) =>
      s.(life := if s.life.start then (if s.running || !deviceReady then Releasing else Raising)
                 else if s.running then Stopping else Releasing)
    case RaiseFlag => s.(running := true, life := Calling)
    case CallStart => s.(window := true, life := Starting)
    case StartReturns(ok) => if ok then s.(life := Releasing) else s.(window := false, life := Lowering)
    case StopReturns => s.(window := false, life := Lowering)
    case LowerFlag => s.(running := false, life := FinalDrain(Popping(false, PopIdle)))
    case LifeDrain =>
      var (s', d) := DrainApply(s, s.life.d, |Chan(s, s.life.d.osc).ring.pushed|);
      s'.(life := if d.Some? then FinalDrain(d.value) else Releasing)
    case Release => s.(life := Outside, writer := false)
  }

  ghost predicate Run(s: State, steps: seq<Step>, s': State)
    decreases |steps|
  {
    if steps == [] then s' == s
    else Enabled(s, steps[0]) && Run(Apply(s, steps[0]), steps[1..], s')
  }
}
