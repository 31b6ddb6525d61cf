/**
 A run in which a dropped change is still in the mirror: the queue holds one command and
 is full, and the device does not call back.
 */
module DropRun {
  import opened Options
  import opened CommandRing
  import opened FlagMirror
  import opened ControlProtocol
  import opened ReadYourWrites
  import opened DroppedChanges

  // Python is the one that changes flags.
  ghost predicate Gets(s: State, s': State) {
    exists steps :: AnyRun(false, s, steps, s')
  }

  lemma {:induction false} AnyRunExtends(s: State, steps: seq<Step>, s1: State, step: Step)
    requires AnyRun(false, s, steps, s1) && Enabled(s1, step) && OtherChangesNone(false, step)
    ensures AnyRun(false, s, steps + [step], Apply(s1, step))
    decreases |steps|
  {
    hide Enabled, Apply, OtherChangesNone;
    if steps == [] {
      assert [step][1..] == [];
    } else {
      AnyRunExtends(Apply(s, steps[0]), steps[1..], s1, step);
      assert (steps + [step])[1..] == steps[1..] + [step];
    }
  }

  lemma Begin(s: State)
    ensures Gets(s, s)
  {
    assert AnyRun(false, s, [], s);
  }

  lemma Go(s: State, s1: State, step: Step, s2: State)
    requires Gets(s, s1) && Enabled(s1, step) && OtherChangesNone(false, step) && s2 == Apply(s1, step)
    ensures Gets(s, s2)
  {
    hide Enabled, Apply, OtherChangesNone;
    var steps :| AnyRun(false, s, steps, s1);
    AnyRunExtends(s, steps, s1, step);
  }

  const First := Flag(SetRecOnce(true))
  const Lost := Flag(SetRec(false))

  function PyStep(step: ProducerStep): Step {
    Produce(false, step)
  }

  // ---- the engine running, one change queued ----

  function Started(f: Flags): State {
    Init(2, f).(running := true, window := true)
  }

  lemma GetCalling(f: Flags)
    ensures Gets(Init(2, f), Init(2, f).(running := true, writer := true, life := Calling))
  {
    hide Gets, Empty;
    var s := Init(2, f);
    Begin(s);
    Go(s, s, Enter(true), s.(life := Wanting(true)));
    var t := s.(life := Checking(true), writer := true);
    Go(s, s.(life := Wanting(true)), LockExclusive, t);
    Go(s, t, Check(true), t.(life := Raising));
    Go(s, t.(life := Raising), RaiseFlag, t.(running := true, life := Calling));
  }

  lemma GetStarted(f: Flags)
    ensures Gets(Init(2, f), Started(f))
  {
    hide Gets, Empty;
    GetCalling(f);
    var s := Init(2, f);
    var u := s.(running := true, writer := true, life := Calling);
    Go(s, u, CallStart, u.(window := true, life := Starting));
    Go(s, u.(window := true, life := Starting), StartReturns(true), u.(window := true, life := Releasing));
    Go(s, u.(window := true, life := Releasing), Step.Release, Started(f));
  }

  // The ring with that one change in it.
  function FullRing(): Ring<Cmd> {
    Ring(2, [Some(First), None], 1, 0, [First], [], 0, 0)
  }

  function OneQueued(f: Flags): State {
    Started(f).(py := Channel(Idle, FullRing(), [First], [true], []), pending := 1, mirror := Flags(true, true))
  }

  lemma GetPushing(f: Flags)
    ensures Gets(Init(2, f), Started(f).(py := Channel(Pushing(First, 0, PushIdle), Empty(2), [First], [], []),
                                         pending := 1, readers := 1, mirror := Flags(true, true)))
  {
    hide Gets, Empty;
    GetStarted(f);
    var s0, s := Init(2, f), Started(f);
    var s1 := s.(py := s.py.(pc := Counting(First), issued := [First]), mirror := Flags(true, true));
    Go(s0, s, PyStep(Issue(First)), s1);
    var s2 := s1.(py := s1.py.(pc := Waiting(First)), pending := 1);
    Go(s0, s1, PyStep(Count), s2);
    var s3 := s2.(py := s2.py.(pc := Deciding(First)), readers := 1);
    Go(s0, s2, PyStep(Lock), s3);
    Go(s0, s3, PyStep(Read), s3.(py := s3.py.(pc := Pushing(First, 0, PushIdle))));
  }

  lemma GetQueued(f: Flags)
    ensures Gets(Init(2, f), OneQueued(f))
  {
    hide Gets;
    GetPushing(f);
    var s0 := Init(2, f);
    var s := Started(f).(py := Channel(Pushing(First, 0, PushIdle), Empty(2), [First], [], []),
                         pending := 1, readers := 1, mirror := Flags(true, true));
    var s1 := s.(py := s.py.(pc := Pushing(First, 0, PushHead(First, 0))));
    Go(s0, s, PyStep(PushLoadHead), s1);
    var s2 := s1.(py := s1.py.(pc := Pushing(First, 0, PushRoom(First, 0))));
    Go(s0, s1, PyStep(PushLoadTail(0)), s2);
    var r := s2.py.ring.(buf := [Some(First), None]);
    assert s2.py.ring.buf[0 := Some(First)] == [Some(First), None];
    var s3 := s2.(py := s2.py.(pc := Pushing(First, 0, PushWrote(First, 0)), ring := r));
    Go(s0, s2, PyStep(PushWrite), s3);
    var s4 := s3.(py := s3.py.(pc := Leaving(First, true), ring := FullRing(), fate := [true]));
    assert [] + [First] == [First];
    Go(s0, s3, PyStep(PushPublish), s4);
    Go(s0, s4, PyStep(Unlock), OneQueued(f));
  }

  // ---- every attempt to queue the next one fails ----

  function Trying(f: Flags, pc: Producer): State {
    var s := OneQueued(f);
    s.(py := s.py.(pc := pc, issued := [First, Lost]), pending := 2, readers := 1, mirror := Flags(false, false))
  }

  lemma GetTrying(f: Flags)
    ensures Gets(Init(2, f), Trying(f, Pushing(Lost, 0, PushIdle)))
  {
    hide Gets;
    GetQueued(f);
    var s0, s := Init(2, f), OneQueued(f);
    var s1 := s.(py := s.py.(pc := Counting(Lost), issued := [First, Lost]), mirror := Flags(false, false));
    Go(s0, s, PyStep(Issue(Lost)), s1);
    var s2 := s1.(py := s1.py.(pc := Waiting(Lost)), pending := 2);
    Go(s0, s1, PyStep(Count), s2);
    Go(s0, s2, PyStep(Lock), Trying(f, Deciding(Lost)));
    Go(s0, Trying(f, Deciding(Lost)), PyStep(Read), Trying(f, Pushing(Lost, 0, PushIdle)));
  }

  function AfterAttempts(n: nat): Producer {
    if n < PUSH_ATTEMPTS then Pushing(Lost, n, PushIdle) else Dropping(Lost)
  }

  lemma OneAttempt(f: Flags, n: nat)
    requires n < PUSH_ATTEMPTS && Gets(Init(2, f), Trying(f, AfterAttempts(n)))
    ensures Gets(Init(2, f), Trying(f, AfterAttempts(n + 1)))
  {
    hide Gets;
    var s0 := Init(2, f);
    Go(s0, Trying(f, AfterAttempts(n)), PyStep(PushLoadHead), Trying(f, Pushing(Lost, n, PushHead(Lost, 1))));
    Go(s0, Trying(f, Pushing(Lost, n, PushHead(Lost, 1))), PyStep(PushLoadTail(0)), Trying(f, AfterAttempts(n + 1)));
  }

  lemma {:induction false} Attempts(f: Flags, n: nat)
    requires n <= PUSH_ATTEMPTS
    ensures Gets(Init(2, f), Trying(f, AfterAttempts(n)))
  {
    hide Gets;
    if n == 0 {
      GetTrying(f);
    } else {
      Attempts(f, n - 1);
      OneAttempt(f, n - 1);
    }
  }

  // ---- dropped ----

  function Dropped(f: Flags): State {
    var s := OneQueued(f);
    s.(py := s.py.(issued := [First, Lost], fate := [true, false]), dropped := 1, mirror := Flags(false, false))
  }

  lemma GetDropped(f: Flags)
    ensures Gets(Init(2, f), Dropped(f))
  {
    hide Gets;
    Attempts(f, PUSH_ATTEMPTS);
    var s0, s := Init(2, f), Trying(f, Dropping(Lost));
    var s1 := s.(py := s.py.(pc := Leaving(Lost, false), fate := [true, false]), dropped := 1);
    assert [true] + [false] == [true, false];
    Go(s0, s, PyStep(GiveUp), s1);
    var s2 := s1.(py := s1.py.(pc := Uncounting(Lost)), readers := 0);
    Go(s0, s1, PyStep(Unlock), s2);
    Go(s0, s2, PyStep(Uncount), Dropped(f));
  }

  // `set_rec_once(true)` is queued and `set_rec(false)` dropped.  Until the first is
  // applied the getters say that nothing records; then both flags are on.
  lemma DroppedRun(f: Flags) returns (steps: seq<Step>, s: State)
    ensures AnyRun(false, Init(2, f), steps, s) && s.py.pc.Idle? && s.pending == 1 && s.dropped == 1
    ensures Bounded(s, false) && Answer(s) == Flags(false, false) && Settled(false, s) == Flags(true, true)
  {
    GetDropped(f);
    s := Dropped(f);
    steps :| AnyRun(false, Init(2, f), steps, s);
    DroppedAnswer(f);
    hide AnyRun, Dropped, Settled;
  }

  lemma DroppedAnswer(f: Flags)
    ensures var s := Dropped(f);
            && s.py.pc.Idle? && s.pending == 1 && s.dropped == 1 && Bounded(s, false)
            && Answer(s) == Flags(false, false) && Settled(false, s) == Flags(true, true)
  {
    var s := Dropped(f);
    assert Queue(s.py.ring) == [First];
    assert Line(false, s) == [First];
    assert FlagOps([First]) == [SetRecOnce(true)] by { assert [First][1..] == []; }
    assert [SetRecOnce(true)][1..] == [];
    assert FlagSteps(FlagStep(f, SetRecOnce(true)), []) == Flags(true, true);
  }
}
