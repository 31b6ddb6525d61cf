/**
 The voices of an engine as the objects they are, with the sample buffers they work on.
 Running one of them changes that voice and its buffer in place and nothing else.
 */
module RackObjects {
  import opened Heads
  import opened Voices
  import opened Mixer
  import VoiceObjects

  ghost function PartsOf<RS>(v: VoiceObjects.Voice<RS>): set<object> {
    {v, v.sch, v.sch.head0, v.sch.head1, v.svfPre, v.svfPost}
  }

  // Voice i works on the buffer `pool[bufOf[i]]`; several voices may share one.
  class Bay<RS> {
    const voices: seq<VoiceObjects.Voice<RS>>
    const pool: seq<array<real>>
    const bufOf: seq<nat>
    ghost const objects: set<object>
    ghost const buffers: set<object>

    ghost function Parts(i: nat): set<object>
      requires i < |voices|
    {
      PartsOf(voices[i])
    }

    // No two voices have an object in common, nor two numbers a buffer; `objects` and
    // `buffers` hold them all.
    ghost predicate Apart() {
      && |bufOf| == |voices|
      && (forall i: nat :: i < |voices| ==> bufOf[i] < |pool| && voices[i].sch.head0.buf == pool[bufOf[i]])
      && (forall i: nat :: i < |voices| ==> Parts(i) <= objects)
      && (forall j: nat :: j < |pool| ==> pool[j] in buffers)
      && (forall i: nat, j: nat :: i < |voices| && j < |voices| && i != j ==> Parts(i) !! Parts(j))
      && (forall i: nat, j: nat :: i < |pool| && j < |pool| && i != j ==> pool[i] != pool[j])
    }

    // An array that is none of the buffers.
    ghost predicate Foreign(a: array?<real>) {
      a !in objects && a !in buffers
    }

    ghost predicate VoiceValid(i: nat)
      requires i < |voices|
      reads Parts(i)
    {
      voices[i].Valid()
    }

    ghost function VoiceAt(i: nat): Voice<RS>
      requires i < |voices|
      reads Parts(i)
    {
      voices[i].View()
    }

    ghost predicate Valid()
      requires Apart()
      reads objects
    {
      forall i: nat :: i < |voices| ==> VoiceValid(i)
    }

    ghost function View(): Rack<RS>
      requires Apart()
      reads objects, buffers
    {
      Rack(seq(|voices|, (i: int) requires 0 <= i < |voices| reads objects => VoiceAt(i)),
           seq(|pool|, (j: int) requires 0 <= j < |pool| reads buffers => pool[j][..]))
    }

    constructor (voices: seq<VoiceObjects.Voice<RS>>, pool: seq<array<real>>, bufOf: seq<nat>)
      ensures this.voices == voices && this.pool == pool && this.bufOf == bufOf
      ensures forall i: nat :: i < |voices| ==> Parts(i) <= objects
      ensures forall j: nat :: j < |pool| ==> pool[j] in buffers
      ensures forall o :: o in objects ==> exists i: nat :: i < |voices| && o in PartsOf(voices[i])
      ensures forall o :: o in buffers ==> exists j: nat :: j < |pool| && o == pool[j]
    {
      this.voices, this.pool, this.bufOf := voices, pool, bufOf;
      objects := set i: nat, o: object | i < |voices| && o in PartsOf(voices[i]) :: o;
      buffers := set j: nat | j < |pool| :: pool[j];
    }

    lemma ViewSizes()
      requires Apart() && Valid()
      ensures |View().voices| == |voices| == |bufOf| && |View().pool| == |pool|
    {
    }

    lemma ViewFits(d: nat)
      requires Apart() && Valid() && d < |voices|
      ensures bufOf[d] < |pool| && Fits(View().voices[d].sch, View().pool[bufOf[d]])
    {
      assert VoiceValid(d) && View().voices[d] == VoiceAt(d);
    }

    // One voice over `frames` samples, its output written to `output` from `at` on.
    method Process(k: Kernel<RS>, d: nat, input: array<real>, output: array<real>, at: nat, frames: nat, y0: real)
      requires Apart() && Valid() && d < |voices| && frames <= input.Length && at + frames <= output.Length
      requires input != output && Foreign(input) && Foreign(output)
      modifies objects, buffers, output
      ensures Valid() && Fits(old(View()).voices[d].sch, old(View()).pool[bufOf[d]])
      ensures var (v, buf, o) := VoiceBlock(k, old(View()).voices[d], old(View()).pool[bufOf[d]],
              old(input[..frames]), y0);
              && View() == Rack(old(View()).voices[d := v], old(View()).pool[bufOf[d] := buf])
              && |o| == frames && output[..] == Splice(old(output[..]), at, o)
    {
      hide VoiceBlock, Splice, Fits, VoiceAt;
      ViewFits(d);
      assert VoiceValid(d) && pool[bufOf[d]] in buffers;
      ghost var was := View();
      RunVoice(k, d, input, output, at, frames, y0);
      assert View().voices == was.voices[d := VoiceAt(d)];
      assert View().pool == was.pool[bufOf[d] := pool[bufOf[d]][..]];
    }

    method RunVoice(k: Kernel<RS>, d: nat, input: array<real>, output: array<real>, at: nat, frames: nat, y0: real)
      requires d < |voices| && VoiceValid(d) && frames <= input.Length && at + frames <= output.Length
      requires var buf := voices[d].sch.head0.buf; input != output && input != buf && output != buf
      modifies Parts(d), voices[d].sch.head0.buf, output
      ensures VoiceValid(d) && Fits(old(VoiceAt(d)).sch, old(voices[d].sch.head0.buf[..]))
      ensures var (v, buf, o) := VoiceBlock(k, old(VoiceAt(d)), old(voices[d].sch.head0.buf[..]),
              old(input[..frames]), y0);
              && VoiceAt(d) == v && voices[d].sch.head0.buf[..] == buf
              && |o| == frames && output[..] == Splice(old(output[..]), at, o)
    {
      hide VoiceBlock;
      ghost var before := output[..];
      voices[d].ProcessBlockMono(k, input, output, at, frames, y0);
      assert output[..] == before[..at] + output[at..at + frames] + before[at + frames..];
    }
  }

  // ---- making the voices of an engine ----

  ghost predicate Distinct(pool: seq<array<real>>) {
    && (forall j: nat :: j < |pool| ==> pool[j].Length > 0)
    && (forall i: nat, j: nat :: i < |pool| && j < |pool| && i != j ==> pool[i] != pool[j])
  }

  // A voice on its buffer, neither playing nor recording.
  ghost predicate Resting<RS>(v: VoiceObjects.Voice<RS>, buf: array<real>)
    reads PartsOf(v)
  {
    v.sch.head0.buf == buf && v.Valid() && !v.playFlag && !v.recFlag
  }

  method MakeVoice<RS>(k: Kernel<RS>, warp: real -> real, buf: array<real>, resamp: RS, sr: real, fix: bool)
    returns (v: VoiceObjects.Voice<RS>)
    requires buf.Length > 0
    ensures Resting(v, buf) && fresh(PartsOf(v))
  {
    v := new VoiceObjects.Voice(k, warp, buf, resamp, sr, fix);
  }

  ghost predicate NoneShared<RS>(voices: seq<VoiceObjects.Voice<RS>>) {
    forall i: nat, j: nat :: i < j < |voices| ==> PartsOf(voices[i]) !! PartsOf(voices[j])
  }

  // One voice for each entry of `bufOf`, no two with an object in common.
  method MakeVoices<RS>(k: Kernel<RS>, warp: real -> real, pool: seq<array<real>>, bufOf: seq<nat>,
                        resamp: RS, sr: real, fix: bool) returns (voices: seq<VoiceObjects.Voice<RS>>)
    requires Distinct(pool) && forall i: nat :: i < |bufOf| ==> bufOf[i] < |pool|
    ensures |voices| == |bufOf| && NoneShared(voices)
    ensures forall i: nat :: i < |voices| ==> fresh(PartsOf(voices[i])) && Resting(voices[i], pool[bufOf[i]])
  {
    hide Resting;
    voices := [];
    for n := 0 to |bufOf|
      invariant |voices| == n && NoneShared(voices)
      invariant forall i: nat :: i < n ==> fresh(PartsOf(voices[i])) && Resting(voices[i], pool[bufOf[i]])
    {
      var v := MakeVoice(k, warp, pool[bufOf[n]], resamp, sr, fix);
      voices := voices + [v];
    }
  }

  // Those voices with their buffers; any array there was before is foreign unless it is a
  // buffer.
  method MakeBay<RS>(k: Kernel<RS>, warp: real -> real, pool: seq<array<real>>, bufOf: seq<nat>,
                     resamp: RS, sr: real, fix: bool) returns (bay: Bay<RS>)
    requires Distinct(pool) && forall i: nat :: i < |bufOf| ==> bufOf[i] < |pool|
    ensures fresh(bay) && bay.pool == pool && bay.bufOf == bufOf && bay.Apart() && bay.Valid()
    ensures fresh(bay.objects) && bay !in bay.objects
    ensures forall o :: o in bay.buffers ==> exists j: nat :: j < |pool| && o == pool[j]
  {
    hide Resting, NoneShared, Distinct;
    var voices := MakeVoices(k, warp, pool, bufOf, resamp, sr, fix);
    bay := new Bay(voices, pool, bufOf);
    hide PartsOf;
    RestingApart(bay);
  }

  lemma RestingApart<RS>(bay: Bay<RS>)
    requires Distinct(bay.pool) && |bay.voices| == |bay.bufOf| && NoneShared(bay.voices)
    requires forall i: nat :: i < |bay.voices| ==>
               bay.bufOf[i] < |bay.pool| && Resting(bay.voices[i], bay.pool[bay.bufOf[i]])
    requires forall i: nat :: i < |bay.voices| ==> bay.Parts(i) <= bay.objects
    requires forall j: nat :: j < |bay.pool| ==> bay.pool[j] in bay.buffers
    ensures bay.Apart() && bay.Valid()
  {
    forall i: nat, j: nat | i < |bay.voices| && j < |bay.voices| && i != j ensures bay.Parts(i) !! bay.Parts(j) {
      if i < j { assert PartsOf(bay.voices[i]) !! PartsOf(bay.voices[j]); }
      if j < i { assert PartsOf(bay.voices[j]) !! PartsOf(bay.voices[i]); }
    }
  }
}
