/**
 The single-producer / single-consumer command ring of `src/shared/command_queue.hpp`.

 `CommandRing` splits `push` and `pop` into one step per atomic access and lets a
 thread's load of the *other* thread's index return any value that index has held
 since the last one this thread saw (cache-coherent, possibly stale).  The ring is
 shown to be a FIFO queue holding at most `cap - 1` commands under every
 interleaving of those steps.

 `CommandQueues` is the same ring as an object used by one thread at a time.
 The capacity is a parameter: any `cap > 0`, a power of two in the source.
 */
module CommandRing {
  import opened Options

  // What the two threads share.  `pushed` and `popped` are histories: every
  // command whose `head` store has happened, every one whose `tail` store has.
  // `seenTail` counts the pops the producer has observed, `seenHead` the pushes
  // the consumer has observed.
  datatype Ring<T> = Ring(cap: nat, buf: seq<Option<T>>, head: nat, tail: nat,
                          pushed: seq<T>, popped: seq<T>, seenTail: nat, seenHead: nat)

  // Where the producer stands inside `push`.
  datatype Push<T> =
    | PushIdle
    | PushHead(item: T, h: nat)   // head loaded
    | PushRoom(item: T, h: nat)   // tail loaded and the ring found not full
    | PushWrote(item: T, h: nat)  // slot written, head not yet stored

  // Where the consumer stands inside `pop`.
  datatype Pop<T> =
    | PopIdle
    | PopTail(t: nat)             // tail loaded
    | PopReady(t: nat)            // head loaded and the ring found not empty
    | PopTook(t: nat, item: T)    // slot moved out, tail not yet stored

  // `(i + 1) & (CAP - 1)` for an index below a power-of-two CAP.
  function Succ(i: nat, cap: nat): nat
    requires i < cap
  {
    if i + 1 == cap then 0 else i + 1
  }

  // The slot of the i-th command ever pushed.
  function Slot(i: nat, cap: nat): (s: nat)
    requires cap > 0
    ensures s < cap
  {
    if i < cap then i else Slot(i - cap, cap)
  }

  // The queue the ring stands for.
  function Queue<T>(r: Ring<T>): seq<T>
    requires |r.popped| <= |r.pushed|
  {
    r.pushed[|r.popped|..]
  }

  function Empty<T>(cap: nat): Ring<T> {
    Ring(cap, seq(cap, i => None), 0, 0, [], [], 0, 0)
  }

  // ---- the producer's steps ----

  function LoadHead<T>(r: Ring<T>, item: T): Push<T> {
    PushHead(item, r.head)
  }

  // The producer's load of `tail` may observe any `seen` in this range.
  predicate TailObservable<T>(r: Ring<T>, seen: nat) {
    r.seenTail <= seen <= |r.popped|
  }

  // The full test, made with the observed tail index `Slot(seen, cap)`.
  predicate LooksFull<T>(r: Ring<T>, p: Push<T>, seen: nat)
    requires p.PushHead? && p.h < r.cap
  {
    Succ(p.h, r.cap) == Slot(seen, r.cap)
  }

  function LoadTail<T>(r: Ring<T>, p: Push<T>, seen: nat): (Ring<T>, Push<T>)
    requires p.PushHead? && p.h < r.cap
  {
    (r.(seenTail := seen), if LooksFull(r, p, seen) then PushIdle else PushRoom(p.item, p.h))
  }

  function WriteSlot<T>(r: Ring<T>, p: Push<T>): (Ring<T>, Push<T>)
    requires p.PushRoom? && p.h < |r.buf|
  {
    (r.(buf := r.buf[p.h := Some(p.item)]), PushWrote(p.item, p.h))
  }

  function StoreHead<T>(r: Ring<T>, p: Push<T>): (Ring<T>, Push<T>)
    requires p.PushWrote? && p.h < r.cap
  {
    (r.(head := Succ(p.h, r.cap), pushed := r.pushed + [p.item]), PushIdle)
  }

  // ---- the consumer's steps ----

  function LoadOwnTail<T>(r: Ring<T>): Pop<T> {
    PopTail(r.tail)
  }

  predicate HeadObservable<T>(r: Ring<T>, seen: nat) {
    r.seenHead <= seen <= |r.pushed|
  }

  predicate LooksEmpty<T>(r: Ring<T>, c: Pop<T>, seen: nat)
    requires r.cap > 0 && c.PopTail?
  {
    c.t == Slot(seen, r.cap)
  }

  function LoadOtherHead<T>(r: Ring<T>, c: Pop<T>, seen: nat): (Ring<T>, Pop<T>)
    requires r.cap > 0 && c.PopTail?
  {
    (r.(seenHead := seen), if LooksEmpty(r, c, seen) then PopIdle else PopReady(c.t))
  }

  // `out = std::move(buf[t])`: the slot is left moved-from.
  function TakeSlot<T>(r: Ring<T>, c: Pop<T>): (Ring<T>, Pop<T>)
    requires c.PopReady? && c.t < |r.buf| && r.buf[c.t].Some?
  {
    (r.(buf := r.buf[c.t := None]), PopTook(c.t, r.buf[c.t].value))
  }

  function StoreTail<T>(r: Ring<T>, c: Pop<T>): (Ring<T>, Pop<T>)
    requires c.PopTook? && c.t < r.cap
  {
    (r.(tail := Succ(c.t, r.cap), popped := r.popped + [c.item]), PopIdle)
  }

  // ---- the invariant ----

  // The part that speaks of the shared words alone.
  ghost predicate Counts<T>(r: Ring<T>) {
    && r.cap > 0
    && |r.buf| == r.cap
    && |r.popped| <= r.seenHead <= |r.pushed|
    && r.seenTail <= |r.popped|
    && |r.pushed| - r.seenTail <= r.cap - 1
    && r.head == Slot(|r.pushed|, r.cap)
    && r.tail == Slot(|r.popped|, r.cap)
    && r.popped == r.pushed[..|r.popped|]
  }

  // Every published, untaken command sits in its slot.
  ghost predicate Slots<T>(r: Ring<T>, c: Pop<T>)
    requires r.cap > 0 && |r.buf| == r.cap
  {
    forall i | |r.popped| <= i < |r.pushed| && !(c.PopTook? && i == |r.popped|)
      :: r.buf[Slot(i, r.cap)] == Some(r.pushed[i])
  }

  ghost predicate PushInv<T>(r: Ring<T>, p: Push<T>)
    requires r.cap > 0 && |r.buf| == r.cap
  {
    match p
    case PushIdle => true
    case PushHead(_, h) => h == r.head
    case PushRoom(_, h) => h == r.head && |r.pushed| - r.seenTail < r.cap - 1
    case PushWrote(item, h) =>
      && h == r.head && h < r.cap && |r.pushed| - r.seenTail < r.cap - 1
      && r.buf[h] == Some(item)
  }

  ghost predicate PopInv<T>(r: Ring<T>, c: Pop<T>) {
    match c
    case PopIdle => true
    case PopTail(t) => t == r.tail
    case PopReady(t) => t == r.tail && |r.popped| < r.seenHead
    case PopTook(t, item) =>
      t == r.tail && |r.popped| < r.seenHead <= |r.pushed| && item == r.pushed[|r.popped|]
  }

  ghost predicate RingInv<T>(r: Ring<T>, p: Push<T>, c: Pop<T>) {
    Counts(r) && Slots(r, c) && PushInv(r, p) && PopInv(r, c)
  }

  // Two positions less than a lap apart never share a slot.
  lemma {:induction false} DistinctSlots(a: nat, b: nat, cap: nat)
    requires cap > 0 && a < b < a + cap
    ensures Slot(a, cap) != Slot(b, cap)
  {
    if a >= cap { DistinctSlots(a - cap, b - cap, cap); }
  }

  lemma {:induction false} SlotSucc(n: nat, cap: nat)
    requires cap > 0
    ensures Slot(n + 1, cap) == Succ(Slot(n, cap), cap)
  {
    if n >= cap { SlotSucc(n - cap, cap); }
  }

  lemma EmptyInv<T>(cap: nat)
    requires cap > 0
    ensures RingInv(Empty<T>(cap), PushIdle, PopIdle)
    ensures Queue(Empty<T>(cap)) == []
  {
  }

  // The full test is exact for the tail the producer observed: it reports full
  // precisely when the ring held `cap - 1` commands beyond the pops observed.
  // So a stale tail can only make a push refuse, never overwrite.
  lemma FullIsConservative<T>(r: Ring<T>, p: Push<T>, c: Pop<T>, seen: nat)
    requires RingInv(r, p, c) && p.PushHead? && TailObservable(r, seen)
    ensures p.h < r.cap
    ensures LooksFull(r, p, seen) <==> |r.pushed| - seen == r.cap - 1
    ensures !LooksFull(r, p, seen) ==> |Queue(r)| < r.cap - 1
    ensures seen == |r.popped| ==> (LooksFull(r, p, seen) <==> |Queue(r)| == r.cap - 1)
  {
    var n := |r.pushed|;
    SlotSucc(n, r.cap);
    if n + 1 - seen != r.cap { DistinctSlots(seen, n + 1, r.cap); }
  }

  // The empty test is exact for the head the consumer observed.
  lemma EmptyIsConservative<T>(r: Ring<T>, p: Push<T>, c: Pop<T>, seen: nat)
    requires RingInv(r, p, c) && c.PopTail? && HeadObservable(r, seen)
    ensures LooksEmpty(r, c, seen) <==> seen == |r.popped|
    ensures !LooksEmpty(r, c, seen) ==> |Queue(r)| > 0
    ensures seen == |r.pushed| ==> (LooksEmpty(r, c, seen) <==> Queue(r) == [])
  {
    if seen != |r.popped| { DistinctSlots(|r.popped|, seen, r.cap); }
  }

  // ---- every step keeps the invariant; two of the eight change the queue ----

  lemma BeginPushStep<T>(r: Ring<T>, p: Push<T>, c: Pop<T>, item: T)
    requires RingInv(r, p, c) && p.PushIdle?
    ensures RingInv(r, LoadHead(r, item), c)
  {
  }

  lemma SeeTailStep<T>(r: Ring<T>, p: Push<T>, c: Pop<T>, seen: nat)
    requires RingInv(r, p, c) && p.PushHead? && TailObservable(r, seen)
    ensures p.h < r.cap
    ensures var (r', p') := LoadTail(r, p, seen); RingInv(r', p', c) && Queue(r') == Queue(r)
  {
    FullIsConservative(r, p, c, seen);
  }

  lemma WriteStep<T>(r: Ring<T>, p: Push<T>, c: Pop<T>)
    requires RingInv(r, p, c) && p.PushRoom?
    ensures p.h < |r.buf|
    ensures var (r', p') := WriteSlot(r, p); RingInv(r', p', c) && Queue(r') == Queue(r)
  {
    WrittenSlotIsFree(r, p, c);
  }

  // The head store is where a push takes effect.
  lemma PublishStep<T>(r: Ring<T>, p: Push<T>, c: Pop<T>)
    requires RingInv(r, p, c) && p.PushWrote?
    ensures p.h < r.cap
    ensures var (r', p') := StoreHead(r, p); RingInv(r', p', c) && Queue(r') == Queue(r) + [p.item]
  {
    SlotSucc(|r.pushed|, r.cap);
    PublishedSlots(r, p, c);
    hide Slots, Slot;
    var (r', p') := StoreHead(r, p);
    assert r'.pushed[..|r'.popped|] == r.pushed[..|r.popped|];
    assert PopInv(r', c) by {
      if c.PopTook? { assert r'.pushed[|r.popped|] == r.pushed[|r.popped|]; }
    }
  }

  lemma PublishedSlots<T>(r: Ring<T>, p: Push<T>, c: Pop<T>)
    requires RingInv(r, p, c) && p.PushWrote?
    ensures p.h < r.cap && Slots(StoreHead(r, p).0, c)
  {
    var r' := StoreHead(r, p).0;
    forall i | |r'.popped| <= i < |r'.pushed| && !(c.PopTook? && i == |r'.popped|)
      ensures r'.buf[Slot(i, r'.cap)] == Some(r'.pushed[i])
    {
      if i < |r.pushed| { assert r'.pushed[i] == r.pushed[i]; }
    }
  }

  // The slot a producer is about to write holds no published command, and is
  // not the slot a consumer past its empty test is reading.
  lemma WrittenSlotIsFree<T>(r: Ring<T>, p: Push<T>, c: Pop<T>)
    requires RingInv(r, p, c) && p.PushRoom?
    ensures p.h < |r.buf|
    ensures forall i | |r.popped| <= i < |r.pushed| :: Slot(i, r.cap) != p.h
    ensures c.PopReady? || c.PopTook? ==> c.t != p.h
  {
    forall i | |r.popped| <= i < |r.pushed|
      ensures Slot(i, r.cap) != p.h
    {
      DistinctSlots(i, |r.pushed|, r.cap);
    }
  }

  lemma BeginPopStep<T>(r: Ring<T>, p: Push<T>, c: Pop<T>)
    requires RingInv(r, p, c) && c.PopIdle?
    ensures RingInv(r, p, LoadOwnTail(r))
  {
  }

  lemma SeeHeadStep<T>(r: Ring<T>, p: Push<T>, c: Pop<T>, seen: nat)
    requires RingInv(r, p, c) && c.PopTail? && HeadObservable(r, seen)
    ensures var (r', c') := LoadOtherHead(r, c, seen); RingInv(r', p, c') && Queue(r') == Queue(r)
  {
    EmptyIsConservative(r, p, c, seen);
  }

  lemma TakeStep<T>(r: Ring<T>, p: Push<T>, c: Pop<T>)
    requires RingInv(r, p, c) && c.PopReady?
    ensures c.t < |r.buf| && r.buf[c.t].Some?
    ensures var (r', c') := TakeSlot(r, c);
            RingInv(r', p, c') && Queue(r') == Queue(r) && Queue(r) != [] && c'.item == Queue(r)[0]
  {
    assert r.buf[Slot(|r.popped|, r.cap)] == Some(r.pushed[|r.popped|]);
    forall i | |r.popped| < i < |r.pushed|
      ensures Slot(i, r.cap) != c.t
    {
      DistinctSlots(|r.popped|, i, r.cap);
    }
    if p.PushWrote? { DistinctSlots(|r.popped|, |r.pushed|, r.cap); }
  }

  // The tail store is where a pop takes effect.
  lemma ReleaseStep<T>(r: Ring<T>, p: Push<T>, c: Pop<T>)
    requires RingInv(r, p, c) && c.PopTook?
    ensures c.t < r.cap
    ensures var (r', c') := StoreTail(r, c); RingInv(r', p, c') && Queue(r) == [c.item] + Queue(r')
  {
    SlotSucc(|r.popped|, r.cap);
    ReleasedFront(r, p, c);
    hide Queue;
  }

  // The released command is the front of the queue.
  lemma ReleasedFront<T>(r: Ring<T>, p: Push<T>, c: Pop<T>)
    requires RingInv(r, p, c) && c.PopTook?
    ensures c.t < r.cap && |r.popped| < |r.pushed| && c.item == r.pushed[|r.popped|]
    ensures var r' := StoreTail(r, c).0;
            |r'.popped| <= |r'.pushed| && r'.popped == r'.pushed[..|r'.popped|] && Queue(r) == [c.item] + Queue(r')
  {
    hide Slot;
    var r' := StoreTail(r, c).0;
    assert r'.popped == r'.pushed[..|r'.popped|];
  }

  // ---- whole runs ----

  datatype RingAction<T> =
    | BeginPush(item: T) | SeeTail(seen: nat) | Write | Publish
    | BeginPop | SeeHead(seen: nat) | Take | Release

  datatype RingState<T> = RingState(ring: Ring<T>, producer: Push<T>, consumer: Pop<T>)

  predicate RingEnabled<T>(s: RingState<T>, a: RingAction<T>) {
    match a
    case BeginPush(_) => s.producer.PushIdle?
    case SeeTail(seen) => s.producer.PushHead? && s.producer.h < s.ring.cap && TailObservable(s.ring, seen)
    case Write => s.producer.PushRoom? && s.producer.h < |s.ring.buf|
    case Publish => s.producer.PushWrote? && s.producer.h < s.ring.cap
    case BeginPop => s.consumer.PopIdle?
    case SeeHead(seen) => s.consumer.PopTail? && HeadObservable(s.ring, seen) && s.ring.cap > 0
    case Take => s.consumer.PopReady? && s.consumer.t < |s.ring.buf| && s.ring.buf[s.consumer.t].Some?
    case Release => s.consumer.PopTook? && s.consumer.t < s.ring.cap
  }

  function RingApply<T>(s: RingState<T>, a: RingAction<T>): RingState<T>
    requires RingEnabled(s, a)
  {
    match a
    case BeginPush(item) => s.(producer := LoadHead(s.ring, item))
    case SeeTail(seen) => var (r, p) := LoadTail(s.ring, s.producer, seen); s.(ring := r, producer := p)
    case Write => var (r, p) := WriteSlot(s.ring, s.producer); s.(ring := r, producer := p)
    case Publish => var (r, p) := StoreHead(s.ring, s.producer); s.(ring := r, producer := p)
    case BeginPop => s.(consumer := LoadOwnTail(s.ring))
    case SeeHead(seen) => var (r, c) := LoadOtherHead(s.ring, s.consumer, seen); s.(ring := r, consumer := c)
    case Take => var (r, c) := TakeSlot(s.ring, s.consumer); s.(ring := r, consumer := c)
    case Release => var (r, c) := StoreTail(s.ring, s.consumer); s.(ring := r, consumer := c)
  }

  ghost predicate RingRun<T>(s: RingState<T>, actions: seq<RingAction<T>>, s': RingState<T>)
    decreases |actions|
  {
    if actions == [] then s' == s
    else RingEnabled(s, actions[0]) && RingRun(RingApply(s, actions[0]), actions[1..], s')
  }

  // A step of the FIFO queue: unchanged, one command added at the back if there
  // is room, or one removed from the front.
  ghost predicate FifoStep<T>(cap: nat, q: seq<T>, q': seq<T>) {
    || q' == q
    || (|q| < cap - 1 && |q'| == |q| + 1 && q'[..|q|] == q)
    || (q != [] && q' == q[1..])
  }

  ghost predicate StateInv<T>(s: RingState<T>) {
    RingInv(s.ring, s.producer, s.consumer)
  }

  lemma StepRefinesFifo<T>(s: RingState<T>, a: RingAction<T>)
    requires StateInv(s) && RingEnabled(s, a)
    ensures StateInv(RingApply(s, a)) && RingApply(s, a).ring.cap == s.ring.cap
    ensures FifoStep(s.ring.cap, Queue(s.ring), Queue(RingApply(s, a).ring))
  {
    var (r, p, c) := (s.ring, s.producer, s.consumer);
    match a
    case SeeTail(seen) => SeeTailStep(r, p, c, seen);
    case Write => WriteStep(r, p, c);
    case Publish =>
      PublishStep(r, p, c);
      assert (Queue(r) + [p.item])[..|Queue(r)|] == Queue(r);
    case SeeHead(seen) => SeeHeadStep(r, p, c, seen);
    case Take => TakeStep(r, p, c);
    case Release =>
      ReleaseStep(r, p, c);
      assert ([c.item] + Queue(StoreTail(r, c).0))[1..] == Queue(StoreTail(r, c).0);
    case _ =>
  }

  // Every reachable state of every run: a FIFO of at most cap - 1 commands, the
  // popped commands a prefix of the pushed ones.
  lemma {:induction false} EveryRunIsFifo<T>(s: RingState<T>, actions: seq<RingAction<T>>, s': RingState<T>)
    requires StateInv(s) && RingRun(s, actions, s')
    ensures StateInv(s')
    ensures s'.ring.popped <= s'.ring.pushed
    ensures s'.ring.pushed == s'.ring.popped + Queue(s'.ring)
    ensures |Queue(s'.ring)| <= s'.ring.cap - 1
    decreases |actions|
  {
    if actions == [] {
      assert s'.ring.pushed == s'.ring.popped + Queue(s'.ring);
    } else {
      StepRefinesFifo(s, actions[0]);
      EveryRunIsFifo(RingApply(s, actions[0]), actions[1..], s');
    }
  }
}

module CommandQueues {
  import opened CommandRing

  // The queue as one object, used by one thread at a time.
  class CommandQueue<T(0)> {
    const buf: array<T>
    var head: nat
    var tail: nat
    ghost var Contents: seq<T>

    ghost predicate Valid()
      reads this, buf
    {
      && buf.Length > 0 && head < buf.Length && tail < buf.Length
      && |Contents| <= buf.Length - 1
      && Contents == if tail <= head then buf[tail..head] else buf[tail..] + buf[..head]
    }

    constructor (cap: nat)
      requires cap > 0
      ensures Valid() && fresh(buf) && buf.Length == cap && Contents == []
    {
      buf := new T[cap];
      head, tail := 0, 0;
      Contents := [];
    }

    // Refuses exactly when the ring already holds cap - 1 commands.
    method Push(fn: T) returns (ok: bool)
      requires Valid()
      modifies this, buf
      ensures Valid()
      ensures ok <==> |old(Contents)| < buf.Length - 1
      ensures Contents == if ok then old(Contents) + [fn] else old(Contents)
    {
      var h := head;
      var n := Succ(h, buf.Length);
      if n == tail { return false; }
      buf[h] := fn;
      head := n;
      Contents := Contents + [fn];
      return true;
    }

    // Hands out the oldest command, or reports empty and changes nothing.
    method Pop(out: T) returns (ok: bool, fn: T)
      requires Valid()
      modifies this
      ensures Valid()
      ensures ok <==> old(Contents) != []
      ensures ok ==> old(Contents) == [fn] + Contents
      ensures !ok ==> Contents == old(Contents) && fn == out
    {
      var t := tail;
      if t == head { return false, out; }
      fn := buf[t];
      tail := Succ(t, buf.Length);
      Contents := Contents[1..];
      return true, fn;
    }
  }
}
