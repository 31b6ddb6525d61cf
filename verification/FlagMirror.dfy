/**
 The record flags a voice can be told to change, and the pair it reports back.

 A control thread keeps a mirror of the pair; the DSP publishes its own copy
 whenever it applies a change or finishes a one-shot recording pass.  The getters
 answer from the mirror while changes are outstanding and from the published pair
 otherwise.
 */
module FlagMirror {

  datatype FlagOp = SetRec(x: bool) | SetRecOnce(x: bool) | ResetVoice

  datatype Flags = Flags(rec: bool, recOnce: bool)

  // What one change does to the pair: recording off cancels record-once, and
  // record-once on switches recording on.
  function FlagStep(f: Flags, op: FlagOp): Flags {
    match op
    case SetRec(x) => Flags(x, x && f.recOnce)
    case SetRecOnce(x) => Flags(x || f.rec, x)
    case ResetVoice => Flags(false, false)
  }

  function FlagSteps(f: Flags, ops: seq<FlagOp>): Flags
    decreases |ops|
  {
    if ops == [] then f else FlagSteps(FlagStep(f, ops[0]), ops[1..])
  }

  function Getter(pending: int, mirror: Flags, published: Flags): Flags {
    if pending > 0 then mirror else published
  }

  lemma {:induction false} FlagStepsAppend(f: Flags, ops: seq<FlagOp>, op: FlagOp)
    ensures FlagSteps(f, ops + [op]) == FlagStep(FlagSteps(f, ops), op)
    decreases |ops|
  {
    if ops == [] {
      assert FlagSteps(FlagStep(f, op), []) == FlagStep(f, op);
    } else {
      FlagStepsAppend(FlagStep(f, ops[0]), ops[1..], op);
      assert (ops + [op])[1..] == ops[1..] + [op];
    }
  }

  lemma {:induction false} FlagStepsConcat(f: Flags, ops: seq<FlagOp>, more: seq<FlagOp>)
    ensures FlagSteps(f, ops + more) == FlagSteps(FlagSteps(f, ops), more)
    decreases |ops|
  {
    if ops == [] {
      assert ops + more == more;
    } else {
      FlagStepsConcat(FlagStep(f, ops[0]), ops[1..], more);
      assert (ops + more)[1..] == ops[1..] + more;
    }
  }

  // A change after which the pair no longer depends on what it was before.
  predicate Determines(op: FlagOp) {
    op == SetRec(false) || op == SetRecOnce(true) || op == ResetVoice
  }

  predicate FixesRec(op: FlagOp) {
    Determines(op) || op == SetRec(true)
  }

  predicate FixesOnce(op: FlagOp) {
    Determines(op) || op == SetRecOnce(false)
  }

  predicate AnyFixesRec(ops: seq<FlagOp>) {
    exists op | op in ops :: FixesRec(op)
  }

  predicate AnyFixesOnce(ops: seq<FlagOp>) {
    exists op | op in ops :: FixesOnce(op)
  }

  // Changes that leave no trace of the pair they started from.
  predicate Forget(ops: seq<FlagOp>) {
    AnyFixesRec(ops) && AnyFixesOnce(ops)
  }

  // A finished one-shot pass turns the published pair from (on, on) to
  // (off, off) without the mirror hearing of it.  What the mirror says after the
  // changes made since is what the DSP will say, exactly when those changes
  // leave no trace of the pair they started from.
  lemma {:induction false} MirrorAgreesAfterPassIff(ops: seq<FlagOp>)
    ensures FlagSteps(Flags(true, true), ops) == FlagSteps(Flags(false, false), ops) <==> Forget(ops)
  {
    ComponentsAfterPass(ops);
    var a, b := FlagSteps(Flags(true, true), ops), FlagSteps(Flags(false, false), ops);
    assert a == b <==> a.rec == b.rec && a.recOnce == b.recOnce;
  }

  lemma {:induction false} ComponentsAfterPass(ops: seq<FlagOp>)
    ensures var a, b := FlagSteps(Flags(true, true), ops), FlagSteps(Flags(false, false), ops);
            && (a.rec == b.rec <==> AnyFixesRec(ops))
            && (a.recOnce == b.recOnce <==> AnyFixesOnce(ops))
            && (b.rec ==> a.rec) && (b.recOnce ==> a.recOnce)
    decreases |ops|
  {
    if ops != [] {
      var init, last := ops[..|ops| - 1], ops[|ops| - 1];
      assert ops == init + [last];
      ComponentsAfterPass(init);
      FlagStepsAppend(Flags(true, true), init, last);
      FlagStepsAppend(Flags(false, false), init, last);
      assert forall op :: op in ops <==> op in init || op == last;
      assert AnyFixesRec(ops) <==> AnyFixesRec(init) || FixesRec(last);
      assert AnyFixesOnce(ops) <==> AnyFixesOnce(init) || FixesOnce(last);
    }
  }

  // Two pairs that go through the same changes end alike: each flag was alike before, or
  // a change fixes it.
  predicate AgreeAfter(m: Flags, x: Flags, ops: seq<FlagOp>) {
    (m.rec == x.rec || AnyFixesRec(ops)) && (m.recOnce == x.recOnce || AnyFixesOnce(ops))
  }

  lemma {:induction false} AgreeIff(m: Flags, x: Flags, ops: seq<FlagOp>)
    ensures FlagSteps(m, ops) == FlagSteps(x, ops) <==> AgreeAfter(m, x, ops)
    decreases |ops|
  {
    if ops != [] {
      AgreeIff(FlagStep(m, ops[0]), FlagStep(x, ops[0]), ops[1..]);
      assert forall op :: op in ops <==> op == ops[0] || op in ops[1..];
      assert AnyFixesRec(ops) <==> FixesRec(ops[0]) || AnyFixesRec(ops[1..]);
      assert AnyFixesOnce(ops) <==> FixesOnce(ops[0]) || AnyFixesOnce(ops[1..]);
    }
  }
}
