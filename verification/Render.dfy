/**
 The engine's block loop: `process_block` over flat arrays, the double-buffered
 outputs behind the feedback, and offline rendering in chunks.
 */
module Render {
  import opened Heads
  import opened Voices
  import opened Mixer
  import opened RackObjects

  // ---- one block, in place ----

  // `voice_in` for voice `dst`.
  method FillInput(cfg: Config, prev: array<real>, ext: array?<real>, extAt: nat, frames: nat, voiceIn: array<real>,
                   dst: nat)
    requires Wired(cfg) && prev.Length == cfg.n * cfg.block && dst < cfg.n
    requires frames <= cfg.block && frames <= voiceIn.Length && (ext != null ==> extAt + frames <= ext.Length)
    requires voiceIn != prev && voiceIn != ext
    modifies voiceIn
    ensures voiceIn[..frames] == VoiceIn(cfg, prev[..], External(ext, extAt, frames), dst)
  {
    ghost var xs := External(ext, extAt, frames);
    var ig := cfg.mix[dst].inputGain;
    for i := 0 to frames
      invariant forall j :: 0 <= j < i ==> voiceIn[j] == Times(xs[j], ig)
    {
      voiceIn[i] := if ext != null then Times(ext[extAt + i], ig) else 0.0;
    }
    for src := 0 to cfg.n
      invariant forall j :: 0 <= j < frames ==> voiceIn[j] == Feed(cfg, prev[..], xs[j], dst, j, src)
    {
      var g := Gain(cfg, src, dst);
      if g != 0.0 {
        AddSource(cfg, prev, frames, voiceIn, src, g);
      }
    }
  }

  // One voice's previous block, scaled.
  method AddSource(cfg: Config, prev: array<real>, frames: nat, voiceIn: array<real>, src: nat, g: real)
    requires Wired(cfg) && prev.Length == cfg.n * cfg.block && src < cfg.n
    requires frames <= cfg.block && frames <= voiceIn.Length && voiceIn != prev
    modifies voiceIn
    ensures forall j :: 0 <= j < frames ==>
              && Cell(src, j, cfg.block) < prev.Length
              && voiceIn[j] == old(voiceIn[j]) + Times(prev[Cell(src, j, cfg.block)], g)
  {
    CellsInside(cfg.n, cfg.block);
    hide Cell, Times;
    for i := 0 to frames
      invariant forall j :: 0 <= j < i ==> voiceIn[j] == old(voiceIn[j]) + Times(prev[Cell(src, j, cfg.block)], g)
      invariant forall j :: i <= j < frames ==> voiceIn[j] == old(voiceIn[j])
    {
      voiceIn[i] := voiceIn[i] + Times(prev[Cell(src, i, cfg.block)], g);
    }
  }

  // The external block: silence when there is none.
  ghost function External(ext: array?<real>, at: nat, frames: nat): (xs: seq<real>)
    requires ext != null ==> at + frames <= ext.Length
    reads ext
    ensures |xs| == frames
  {
    if ext == null then seq(frames, _ => 0.0) else ext[at..at + frames]
  }

  // Equal except in the `count` cells from `at` on.
  predicate SameOutside(a: seq<real>, b: seq<real>, at: nat, count: nat) {
    && |a| == |b| && at + count <= |a|
    && a[..at] == b[..at] && a[at + count..] == b[at + count..]
  }

  // One voice's share of the output.
  method AddVoice(cfg: Config, cur: array<real>, out: array<real>, outAt: nat, frames: nat, d: nat)
    requires Wired(cfg) && cur.Length == cfg.n * cfg.block && d < cfg.n && cur != out
    requires frames <= cfg.block && outAt + Span(cfg, frames) <= out.Length
    modifies out
    ensures forall f: nat, c: nat :: f < frames && c < cfg.channels ==>
              && outAt + Cell(f, c, cfg.channels) < out.Length && Cell(d, f, cfg.block) < cur.Length
              && out[outAt + Cell(f, c, cfg.channels)]
                 == old(out[outAt + Cell(f, c, cfg.channels)]) + Times(cur[Cell(d, f, cfg.block)], Weight(cfg, d, c))
    ensures SameOutside(old(out[..]), out[..], outAt, Span(cfg, frames))
  {
    CellsInside(cfg.n, cfg.block);
    CellsInside(frames, cfg.channels);
    CellsDistinct(cfg.channels);
    var gl, gr := Weight(cfg, d, 0), Weight(cfg, d, 1);
    for f := 0 to frames
      invariant forall f': nat, c: nat :: f' < f && c < cfg.channels ==>
                  out[outAt + Cell(f', c, cfg.channels)]
                  == old(out[outAt + Cell(f', c, cfg.channels)]) + Times(cur[Cell(d, f', cfg.block)], Weight(cfg, d, c))
      invariant forall f': nat, c: nat :: f <= f' < frames && c < cfg.channels ==>
                  out[outAt + Cell(f', c, cfg.channels)] == old(out[outAt + Cell(f', c, cfg.channels)])
      invariant out[..outAt] == old(out[..outAt])
      invariant out[outAt + Span(cfg, frames)..] == old(out[outAt + Span(cfg, frames)..])
    {
      var o := cur[Cell(d, f, cfg.block)];
      out[outAt + Cell(f, 0, cfg.channels)] := out[outAt + Cell(f, 0, cfg.channels)] + Times(o, gl);
      if cfg.channels > 1 {
        out[outAt + Cell(f, 1, cfg.channels)] := out[outAt + Cell(f, 1, cfg.channels)] + Times(o, gr);
      }
    }
  }

  // The arrays of a block are different ones, and none is a voice's buffer.
  ghost predicate Separate<RS>(bay: Bay<RS>, ext: array?<real>, out: array<real>,
                               voiceIn: array<real>, prev: array<real>, cur: array<real>)
  {
    && out != voiceIn && out != prev && out != cur && out != ext
    && voiceIn != prev && voiceIn != cur && voiceIn != ext
    && prev != cur && cur != ext
    && bay.Foreign(ext) && bay.Foreign(out) && bay.Foreign(voiceIn) && bay.Foreign(prev) && bay.Foreign(cur)
  }

  // The voices work on the buffers the mixer gives them.
  ghost predicate Mounted<RS>(cfg: Config, bay: Bay<RS>)
    reads bay.objects
  {
    bay.Apart() && bay.Valid() && bay.bufOf == cfg.bufOf
  }

  lemma MountedApart<RS>(cfg: Config, bay: Bay<RS>)
    requires Mounted(cfg, bay)
    ensures bay.Apart()
  {
  }

  // One voice over the block: input, processing into its row of `cur`.
  method PlayVoice<RS>(k: Kernel<RS>, cfg: Config, bay: Bay<RS>,
                       ext: array?<real>, extAt: nat, frames: nat, voiceIn: array<real>,
                       prev: array<real>, cur: array<real>, d: nat)
    requires Mounted(cfg, bay) && Racked(cfg, bay.View())
    requires prev.Length == cur.Length == cfg.n * cfg.block && d < cfg.n
    requires frames <= cfg.block && frames <= voiceIn.Length && (ext != null ==> extAt + frames <= ext.Length)
    requires voiceIn != prev && voiceIn != cur && voiceIn != ext && prev != cur && cur != ext
    requires bay.Foreign(ext) && bay.Foreign(voiceIn) && bay.Foreign(prev) && bay.Foreign(cur)
    modifies bay.objects, bay.buffers, voiceIn, cur
    ensures Mounted(cfg, bay)
    ensures (bay.View(), cur[..])
         == OneVoice(k, cfg, old(bay.View()), prev[..], old(cur[..]), External(ext, extAt, frames), d)
  {
    hide VoiceBlock, Splice, VoiceIn, Fits, bay.View, bay.Valid, bay.Apart;
    bay.ViewSizes();
    CellInside(d, 0, cfg.n, cfg.block);
    FillInput(cfg, prev, ext, extAt, frames, voiceIn, d);
    bay.Process(k, d, voiceIn, cur, Cell(d, 0, cfg.block), frames, cfg.unset);
  }

  method Silence(out: array<real>, outAt: nat, count: nat)
    requires outAt + count <= out.Length
    modifies out
    ensures forall j :: outAt <= j < outAt + count ==> out[j] == 0.0
    ensures SameOutside(old(out[..]), out[..], outAt, count)
  {
    for i := 0 to count
      invariant forall j :: outAt <= j < outAt + i ==> out[j] == 0.0
      invariant SameOutside(old(out[..]), out[..], outAt, count)
    {
      out[outAt + i] := 0.0;
    }
  }

  // After `d` voices, every cell of the output holds their shares.
  ghost predicate Summed(cfg: Config, cur: seq<real>, out: seq<real>, outAt: nat, frames: nat, d: nat)
    requires Wired(cfg) && |cur| == cfg.n * cfg.block && frames <= cfg.block && d <= cfg.n
  {
    forall f: nat, c: nat :: f < frames && c < cfg.channels ==>
      && outAt + Cell(f, c, cfg.channels) < |out|
      && out[outAt + Cell(f, c, cfg.channels)] == Mixed(cfg, cur, f, c, d)
  }

  // Processing voice d leaves the shares of the voices before it.
  lemma SummedKeeps<RS>(k: Kernel<RS>, cfg: Config, r: Rack<RS>, prev: seq<real>, cur: seq<real>, ext: seq<real>,
                        out: seq<real>, outAt: nat, d: nat)
    requires Playable(cfg, r, prev, cur, ext) && d < cfg.n
    requires Summed(cfg, cur, out, outAt, |ext|, d)
    ensures Summed(cfg, OneVoice(k, cfg, r, prev, cur, ext, d).1, out, outAt, |ext|, d)
  {
    var xs := VoiceIn(cfg, prev, ext, d);
    var (_, _, o) := VoiceBlock(k, r.voices[d], r.pool[cfg.bufOf[d]], xs, cfg.unset);
    BlockFits(k, r.voices[d], r.pool[cfg.bufOf[d]], xs, cfg.unset);
    SpliceRow(cur, cfg.n, cfg.block, d, o);
    var cur' := OneVoice(k, cfg, r, prev, cur, ext, d).1;
    assert cur' == Splice(cur, Cell(d, 0, cfg.block), o);
    hide VoiceBlock, VoiceIn, Splice, Fits, Cell;
    forall f: nat, c: nat | f < |ext| && c < cfg.channels
      ensures Mixed(cfg, cur, f, c, d) == Mixed(cfg, cur', f, c, d)
    {
      MixedFrame(cfg, cur, cur', f, c, d);
    }
  }

  lemma SummedAll(cfg: Config, cur: seq<real>, out: seq<real>, outAt: nat, frames: nat)
    requires Wired(cfg) && |cur| == cfg.n * cfg.block && frames <= cfg.block
    requires outAt + Span(cfg, frames) <= |out| && Summed(cfg, cur, out, outAt, frames, cfg.n)
    ensures out[outAt..outAt + Span(cfg, frames)] == Interleaved(cfg, cur, frames)
  {
    CellsSpan(cfg, frames);
    hide Cell, Span;
    CellsMakeInterleaved(cfg, cur, frames, out[outAt..outAt + Span(cfg, frames)]);
  }

  lemma SilentSums(cfg: Config, cur: seq<real>, out: seq<real>, outAt: nat, frames: nat)
    requires Wired(cfg) && |cur| == cfg.n * cfg.block && frames <= cfg.block
    requires outAt + Span(cfg, frames) <= |out| && forall j :: outAt <= j < outAt + Span(cfg, frames) ==> out[j] == 0.0
    ensures Summed(cfg, cur, out, outAt, frames, 0)
  {
    CellsSpan(cfg, frames);
    hide Cell, Span;
  }

  // Adding voice d's shares to the sums of the first d voices.
  lemma AddedSums(cfg: Config, cur: seq<real>, before: seq<real>, after: seq<real>, outAt: nat, frames: nat, d: nat)
    requires Wired(cfg) && |cur| == cfg.n * cfg.block && frames <= cfg.block && d < cfg.n
    requires Summed(cfg, cur, before, outAt, frames, d) && |after| == |before|
    requires forall f: nat, c: nat :: f < frames && c < cfg.channels ==>
               && outAt + Cell(f, c, cfg.channels) < |after| && Cell(d, f, cfg.block) < |cur|
               && after[outAt + Cell(f, c, cfg.channels)]
                  == before[outAt + Cell(f, c, cfg.channels)] + Times(cur[Cell(d, f, cfg.block)], Weight(cfg, d, c))
    ensures Summed(cfg, cur, after, outAt, frames, d + 1)
  {
    hide Cell, Times, Weight;
  }

  lemma OutsideTwice(a: seq<real>, b: seq<real>, c: seq<real>, at: nat, count: nat)
    requires SameOutside(a, b, at, count) && SameOutside(b, c, at, count)
    ensures SameOutside(a, c, at, count)
  {
  }

  lemma RunNext<RS>(k: Kernel<RS>, cfg: Config, r: Rack<RS>, prev: seq<real>, cur: seq<real>, ext: seq<real>, d: nat)
    requires Playable(cfg, r, prev, cur, ext) && d < cfg.n
    ensures var (r1, cur1) := RunVoices(k, cfg, r, prev, cur, ext, d);
            RunVoices(k, cfg, r, prev, cur, ext, d + 1) == OneVoice(k, cfg, r1, prev, cur1, ext, d)
  {
  }

  // A block as it was found: the voices, both output buffers, the input and `out`.
  datatype Begun<RS> = Begun(r: Rack<RS>, prev: seq<real>, cur: seq<real>, ext: seq<real>, out: seq<real>, outAt: nat)

  // After the first `d` voices of that block.
  ghost predicate Reached<RS>(k: Kernel<RS>, cfg: Config, b: Begun<RS>, d: nat, now: Rack<RS>, cur: seq<real>,
                              out: seq<real>) {
    && Playable(cfg, b.r, b.prev, b.cur, b.ext) && d <= cfg.n
    && (now, cur) == RunVoices(k, cfg, b.r, b.prev, b.cur, b.ext, d)
    && Summed(cfg, cur, out, b.outAt, |b.ext|, d)
    && SameOutside(b.out, out, b.outAt, Span(cfg, |b.ext|))
  }

  // Another voice taken and its shares added.
  lemma ReachNext<RS>(k: Kernel<RS>, cfg: Config, b: Begun<RS>, d: nat, now: Rack<RS>, cur: seq<real>,
                      before: seq<real>, after: seq<real>)
    requires d < cfg.n && Reached(k, cfg, b, d, now, cur, before)
    requires SameOutside(before, after, b.outAt, Span(cfg, |b.ext|))
    requires Summed(cfg, OneVoice(k, cfg, now, b.prev, cur, b.ext, d).1, after, b.outAt, |b.ext|, d + 1)
    ensures var (now', cur') := OneVoice(k, cfg, now, b.prev, cur, b.ext, d);
            Reached(k, cfg, b, d + 1, now', cur', after)
  {
    RunNext(k, cfg, b.r, b.prev, b.cur, b.ext, d);
    OutsideTwice(b.out, before, after, b.outAt, Span(cfg, |b.ext|));
    hide RunVoices, Summed, SameOutside, OneVoice, Span;
  }

  lemma ReachedHas<RS>(k: Kernel<RS>, cfg: Config, b: Begun<RS>, d: nat, now: Rack<RS>, cur: seq<real>, out: seq<real>)
    requires Reached(k, cfg, b, d, now, cur, out)
    ensures Wired(cfg) && Racked(cfg, now) && Playable(cfg, now, b.prev, cur, b.ext)
    ensures |cur| == |b.prev| == cfg.n * cfg.block && |b.ext| <= cfg.block
    ensures Summed(cfg, cur, out, b.outAt, |b.ext|, d) && b.outAt + Span(cfg, |b.ext|) <= |out|
  {
    hide RunVoices, Summed, Span;
  }

  method AddShares(cfg: Config, cur: array<real>, out: array<real>, outAt: nat, frames: nat, d: nat)
    requires Wired(cfg) && cur.Length == cfg.n * cfg.block && d < cfg.n && cur != out
    requires frames <= cfg.block && outAt + Span(cfg, frames) <= out.Length
    requires Summed(cfg, cur[..], out[..], outAt, frames, d)
    modifies out
    ensures Summed(cfg, cur[..], out[..], outAt, frames, d + 1)
    ensures SameOutside(old(out[..]), out[..], outAt, Span(cfg, frames))
  {
    ghost var before := out[..];
    AddVoice(cfg, cur, out, outAt, frames, d);
    AddedSums(cfg, cur[..], before, out[..], outAt, frames, d);
  }

  // One voice's turn: processed, then mixed in.
  method NextVoice<RS>(k: Kernel<RS>, cfg: Config, bay: Bay<RS>,
                       ext: array?<real>, extAt: nat, out: array<real>, outAt: nat, frames: nat,
                       voiceIn: array<real>, prev: array<real>, cur: array<real>, d: nat, ghost b: Begun<RS>)
    requires d < cfg.n && frames <= voiceIn.Length && (ext != null ==> extAt + frames <= ext.Length)
    requires Separate(bay, ext, out, voiceIn, prev, cur)
    requires b.prev == prev[..] && b.ext == External(ext, extAt, frames) && b.outAt == outAt
    requires Mounted(cfg, bay) && Reached(k, cfg, b, d, bay.View(), cur[..], out[..])
    modifies bay.objects, bay.buffers, voiceIn, cur, out
    ensures Mounted(cfg, bay) && Reached(k, cfg, b, d + 1, bay.View(), cur[..], out[..])
  {
    hide *;
    MountedApart(cfg, bay);
    SeparateArrays(bay, ext, out, voiceIn, prev, cur);
    ghost var now, was, before := bay.View(), cur[..], out[..];
    ReachedHas(k, cfg, b, d, now, was, before);
    PlayKeeping(k, cfg, bay, ext, extAt, out, outAt, frames, voiceIn, prev, cur, d);
    ShareOut(k, cfg, cur, out, outAt, frames, d, b, now, was);
  }

  lemma NextPlayable<RS>(k: Kernel<RS>, cfg: Config, r: Rack<RS>, prev: seq<real>, cur: seq<real>, ext: seq<real>,
                         d: nat)
    requires Playable(cfg, r, prev, cur, ext) && d < cfg.n
    ensures var q := OneVoice(k, cfg, r, prev, cur, ext, d); Playable(cfg, q.0, prev, q.1, ext)
    ensures |OneVoice(k, cfg, r, prev, cur, ext, d).1| == cfg.n * cfg.block
  {
    hide OneVoice, Racked;
  }

  // `now` and `was` are the voices and the current outputs before this voice's turn.
  method ShareOut<RS>(k: Kernel<RS>, cfg: Config, cur: array<real>, out: array<real>, outAt: nat, frames: nat, d: nat,
                      ghost b: Begun<RS>, ghost now: Rack<RS>, ghost was: seq<real>)
    requires d < cfg.n && cur != out && outAt == b.outAt && frames == |b.ext|
             && Reached(k, cfg, b, d, now, was, out[..])
    requires Playable(cfg, now, b.prev, was, b.ext) && cur[..] == OneVoice(k, cfg, now, b.prev, was, b.ext, d).1
    requires Summed(cfg, cur[..], out[..], b.outAt, |b.ext|, d)
    modifies out
    ensures Reached(k, cfg, b, d + 1, OneVoice(k, cfg, now, b.prev, was, b.ext, d).0, cur[..], out[..])
  {
    hide *;
    ghost var before := out[..];
    ReachedHas(k, cfg, b, d, now, was, before);
    NextPlayable(k, cfg, now, b.prev, was, b.ext, d);
    AddShares(cfg, cur, out, outAt, frames, d);
    ReachNext(k, cfg, b, d, now, was, before, out[..]);
  }

  // A voice processed; the sums so far are still those of the voices before it.
  method PlayKeeping<RS>(k: Kernel<RS>, cfg: Config, bay: Bay<RS>,
                         ext: array?<real>, extAt: nat, out: array<real>, outAt: nat, frames: nat,
                         voiceIn: array<real>, prev: array<real>, cur: array<real>, d: nat)
    requires d < cfg.n && frames <= voiceIn.Length && (ext != null ==> extAt + frames <= ext.Length)
    requires Separate(bay, ext, out, voiceIn, prev, cur) && Mounted(cfg, bay)
    requires Playable(cfg, bay.View(), prev[..], cur[..], External(ext, extAt, frames))
    requires Summed(cfg, cur[..], out[..], outAt, frames, d)
    modifies bay.objects, bay.buffers, voiceIn, cur
    ensures Mounted(cfg, bay) && out[..] == old(out[..]) && prev[..] == old(prev[..])
    ensures External(ext, extAt, frames) == old(External(ext, extAt, frames))
    ensures (bay.View(), cur[..])
         == OneVoice(k, cfg, old(bay.View()), prev[..], old(cur[..]), External(ext, extAt, frames), d)
    ensures Summed(cfg, cur[..], out[..], outAt, frames, d)
  {
    hide OneVoice, Racked, Summed, bay.View, bay.Valid, bay.Apart, External;
    SummedKeeps(k, cfg, bay.View(), prev[..], cur[..], External(ext, extAt, frames), out[..], outAt, d);
    PlayVoice(k, cfg, bay, ext, extAt, frames, voiceIn, prev, cur, d);
  }

  method EveryVoice<RS>(k: Kernel<RS>, cfg: Config, bay: Bay<RS>,
                        ext: array?<real>, extAt: nat, out: array<real>, outAt: nat, frames: nat,
                        voiceIn: array<real>, prev: array<real>, cur: array<real>, ghost b: Begun<RS>)
    requires frames <= voiceIn.Length && (ext != null ==> extAt + frames <= ext.Length)
    requires Separate(bay, ext, out, voiceIn, prev, cur)
    requires b.prev == prev[..] && b.ext == External(ext, extAt, frames) && b.outAt == outAt
    requires Mounted(cfg, bay) && Reached(k, cfg, b, 0, bay.View(), cur[..], out[..])
    modifies bay.objects, bay.buffers, voiceIn, cur, out
    ensures Mounted(cfg, bay) && Reached(k, cfg, b, cfg.n, bay.View(), cur[..], out[..])
  {
    hide Reached, bay.View, bay.Valid, bay.Apart;
    for dst := 0 to cfg.n
      invariant prev[..] == b.prev && External(ext, extAt, frames) == b.ext
      invariant Mounted(cfg, bay) && Reached(k, cfg, b, dst, bay.View(), cur[..], out[..])
    {
      NextVoice(k, cfg, bay, ext, extAt, out, outAt, frames, voiceIn, prev, cur, dst, b);
    }
  }

  // `process_block`: up to a block of frames through every voice, mixed into `out`.
  method ProcessBlock<RS>(k: Kernel<RS>, cfg: Config, bay: Bay<RS>,
                          ext: array?<real>, extAt: nat, out: array<real>, outAt: nat, frames: nat,
                          voiceIn: array<real>, prev: array<real>, cur: array<real>)
    requires frames <= voiceIn.Length && (ext != null ==> extAt + frames <= ext.Length)
    requires Mounted(cfg, bay) && Playable(cfg, bay.View(), prev[..], cur[..], External(ext, extAt, frames))
    requires outAt + Span(cfg, frames) <= out.Length && Separate(bay, ext, out, voiceIn, prev, cur)
    modifies bay.objects, bay.buffers, voiceIn, cur, out
    ensures Mounted(cfg, bay)
    ensures (bay.View(), cur[..])
         == RunVoices(k, cfg, old(bay.View()), prev[..], old(cur[..]), External(ext, extAt, frames), cfg.n)
    ensures out[outAt..outAt + Span(cfg, frames)] == Interleaved(cfg, cur[..], frames)
    ensures SameOutside(old(out[..]), out[..], outAt, Span(cfg, frames))
  {
    hide Reached, Playable, RunVoices, Span, Interleaved, Racked, Separate, bay.View, bay.Valid, bay.Apart;
    ghost var b := Begun(bay.View(), prev[..], cur[..], External(ext, extAt, frames), out[..], outAt);
    SeparateArrays(bay, ext, out, voiceIn, prev, cur);
    Silence(out, outAt, Span(cfg, frames));
    ReachStart(k, cfg, b, out[..]);
    EveryVoice(k, cfg, bay, ext, extAt, out, outAt, frames, voiceIn, prev, cur, b);
    AllReached(k, cfg, b, bay.View(), cur[..], out[..]);
  }

  lemma ReachStart<RS>(k: Kernel<RS>, cfg: Config, b: Begun<RS>, out: seq<real>)
    requires Playable(cfg, b.r, b.prev, b.cur, b.ext) && SameOutside(b.out, out, b.outAt, Span(cfg, |b.ext|))
    requires forall j :: b.outAt <= j < b.outAt + Span(cfg, |b.ext|) ==> out[j] == 0.0
    ensures Reached(k, cfg, b, 0, b.r, b.cur, out)
  {
    SilentSums(cfg, b.cur, out, b.outAt, |b.ext|);
    hide Summed, Span;
  }

  lemma SeparateArrays<RS>(bay: Bay<RS>, ext: array?<real>, out: array<real>,
                           voiceIn: array<real>, prev: array<real>, cur: array<real>)
    requires Separate(bay, ext, out, voiceIn, prev, cur)
    ensures prev != out && prev != voiceIn && prev != cur && ext != out && ext != voiceIn && ext != cur && cur != out
    ensures voiceIn != out && voiceIn != cur
    ensures bay.Foreign(ext) && bay.Foreign(out) && bay.Foreign(voiceIn) && bay.Foreign(prev) && bay.Foreign(cur)
  {
  }

  lemma AllReached<RS>(k: Kernel<RS>, cfg: Config, b: Begun<RS>, now: Rack<RS>, cur: seq<real>, out: seq<real>)
    requires Reached(k, cfg, b, cfg.n, now, cur, out)
    ensures Playable(cfg, b.r, b.prev, b.cur, b.ext)
            && (now, cur) == RunVoices(k, cfg, b.r, b.prev, b.cur, b.ext, cfg.n)
    ensures Wired(cfg) && |cur| == cfg.n * cfg.block && |b.ext| <= cfg.block
    ensures b.outAt + Span(cfg, |b.ext|) <= |out|
    ensures out[b.outAt..b.outAt + Span(cfg, |b.ext|)] == Interleaved(cfg, cur, |b.ext|)
    ensures SameOutside(b.out, out, b.outAt, Span(cfg, |b.ext|))
  {
    SummedAll(cfg, cur, out, b.outAt, |b.ext|);
  }

  // ---- the engine ----

  class Engine<RS> {
    const bay: Bay<RS>
    const voiceIn: array<real>
    var prevOut: array<real>
    var curOut: array<real>
    var cfg: Config

    ghost predicate Valid()
      reads this, bay.objects, bay.buffers, prevOut, curOut
    {
      && voiceIn != prevOut && voiceIn != curOut && prevOut != curOut
      && bay.Foreign(voiceIn) && bay.Foreign(prevOut) && bay.Foreign(curOut)
      && this !in bay.objects && this !in bay.buffers
      && cfg.block <= voiceIn.Length
      && Mounted(cfg, bay) && Alive(cfg, View())
    }

    ghost function View(): Live<RS>
      requires bay.Apart()
      reads this, bay.objects, bay.buffers, prevOut, curOut
    {
      Live(bay.View(), prevOut[..], curOut[..])
    }

    ghost predicate Apart(ext: array?<real>, out: array<real>)
      reads this
    {
      && out != voiceIn && out != prevOut && out != curOut && out != ext
      && ext != voiceIn && ext != prevOut && ext != curOut
      && bay.Foreign(ext) && bay.Foreign(out)
    }

    constructor (cfg: Config, bay: Bay<RS>)
      requires Mounted(cfg, bay) && Racked(cfg, bay.View())
      ensures Valid() && this.bay == bay && this.cfg == cfg
      ensures View() == Live(bay.View(), Zeros(cfg.n * cfg.block), Zeros(cfg.n * cfg.block))
      ensures fresh(prevOut) && fresh(curOut) && fresh(voiceIn)
    {
      hide bay.View, bay.Valid, bay.Apart;
      this.bay, this.cfg := bay, cfg;
      voiceIn := new real[cfg.block](_ => 0.0);
      prevOut := new real[cfg.n * cfg.block](_ => 0.0);
      curOut := new real[cfg.n * cfg.block](_ => 0.0);
      new;
      assert prevOut[..] == Zeros(cfg.n * cfg.block) && curOut[..] == Zeros(cfg.n * cfg.block);
      assert this !in bay.objects;
      assert bay.Foreign(voiceIn);
      assert Mounted(cfg, bay);
      assert Racked(cfg, bay.View());
      hide Racked;
    }

    // A feedback gain; indices outside the voices are refused.
    method SetFeedback(src: int, dst: int, amount: real) returns (ok: bool)
      requires Valid()
      modifies this`cfg
      ensures Valid() && View() == old(View())
      ensures ok == (0 <= src < cfg.n && 0 <= dst < cfg.n)
      ensures !ok ==> cfg == old(cfg)
      ensures ok ==>
                && Cell(src, dst, cfg.n) < |cfg.fb|
                && cfg == old(cfg).(fb := old(cfg).fb[Cell(src, dst, cfg.n) := amount])
    {
      if src < 0 || src >= cfg.n || dst < 0 || dst >= cfg.n { return false; }
      CellInside(src, dst, cfg.n, cfg.n);
      cfg := cfg.(fb := cfg.fb[Cell(src, dst, cfg.n) := amount]);
      ok := true;
    }

    method ProcessCore(k: Kernel<RS>, ext: array?<real>, extAt: nat, out: array<real>, outAt: nat, frames: nat)
      requires Valid() && Apart(ext, out)
      requires frames <= cfg.block && (ext != null ==> extAt + frames <= ext.Length)
      requires outAt + Span(cfg, frames) <= out.Length
      modifies this`prevOut, this`curOut, bay.objects, bay.buffers, voiceIn, prevOut, curOut, out
      ensures Valid() && Apart(ext, out) && {prevOut, curOut} == old({prevOut, curOut})
      ensures (View(), out[outAt..outAt + Span(cfg, frames)])
              == Core(k, cfg, old(View()), old(External(ext, extAt, frames)))
      ensures SameOutside(old(out[..]), out[..], outAt, Span(cfg, frames))
    {
      hide Racked, RunVoices, Span, Interleaved, SameOutside;
      ProcessBlock(k, cfg, bay, ext, extAt, out, outAt, frames, voiceIn, prevOut, curOut);
      prevOut, curOut := curOut, prevOut;
    }

    // Whole blocks, then what is left.  Too small a destination is refused.
    method Render(k: Kernel<RS>, input: array<real>, dest: array<real>) returns (ok: bool)
      requires Valid() && Apart(input, dest)
      modifies this`prevOut, this`curOut, bay.objects, bay.buffers, voiceIn, prevOut, curOut, dest
      ensures Valid()
      ensures ok == (Span(cfg, input.Length) <= dest.Length)
      ensures !ok ==> View() == old(View()) && dest[..] == old(dest[..])
      ensures ok ==> (View(), dest[..Span(cfg, input.Length)]) == RenderAll(k, cfg, old(View()), input[..])
      ensures ok ==> SameOutside(old(dest[..]), dest[..], 0, Span(cfg, input.Length))
    {
      var needed := Span(cfg, input.Length);
      if dest.Length < needed { return false; }
      ok := true;
      RenderLoop(k, input, dest);
    }

    method RenderLoop(k: Kernel<RS>, input: array<real>, dest: array<real>)
      requires Valid() && Apart(input, dest) && Span(cfg, input.Length) <= dest.Length
      modifies this`prevOut, this`curOut, bay.objects, bay.buffers, voiceIn, prevOut, curOut, dest
      ensures Valid()
      ensures (View(), dest[..Span(cfg, input.Length)]) == RenderAll(k, cfg, old(View()), input[..])
      ensures SameOutside(old(dest[..]), dest[..], 0, Span(cfg, input.Length))
    {
      hide Rendered, Alive, Span, RenderAll, SameOutside, bay.View, bay.Valid, bay.Apart;
      ghost var j := Job(View(), input[..], dest[..]);
      var done := 0;
      AliveWired(cfg, View());
      RenderStart(k, cfg, j);
      while done < input.Length
        invariant done <= input.Length && Valid() && Apart(input, dest) && input[..] == j.xs
        invariant {prevOut, curOut} == old({prevOut, curOut})
        invariant Rendered(k, cfg, j, done, View(), dest[..])
      {
        done := RenderChunk(k, input, dest, done, j);
      }
      RenderDone(k, cfg, j, View(), dest[..]);
    }

    method RenderChunk(k: Kernel<RS>, input: array<real>, dest: array<real>, done: nat, ghost j: Job<RS>)
      returns (done': nat)
      requires Valid() && Apart(input, dest) && done < input.Length && input[..] == j.xs && cfg.block > 0
      requires Rendered(k, cfg, j, done, View(), dest[..])
      modifies this`prevOut, this`curOut, bay.objects, bay.buffers, voiceIn, prevOut, curOut, dest
      ensures Valid() && Apart(input, dest) && {prevOut, curOut} == old({prevOut, curOut})
      ensures done < done' <= input.Length && Rendered(k, cfg, j, done', View(), dest[..])
    {
      hide Rendered, Alive, Span, Core, Chunk, SameOutside;
      var chunk := Chunk(cfg, input.Length - done);
      ghost var now, before := View(), dest[..];
      RenderedRoom(k, cfg, j, done, now, before);
      ProcessCore(k, input, done, dest, Span(cfg, done), chunk);
      assert External(input, done, chunk) == j.xs[done..done + chunk];
      RenderNext(k, cfg, j, done, now, before, dest[..], chunk);
      done' := done + chunk;
    }
  }

  // ---- an engine from nothing ----

  // A voice for each entry of the configuration, on distinct buffers.
  method MakeEngine<RS>(k: Kernel<RS>, cfg: Config, warp: real -> real, pool: seq<array<real>>,
                        resamp: RS, sr: real, fix: bool) returns (e: Engine<RS>)
    requires Wired(cfg) && Distinct(pool) && forall i: nat :: i < cfg.n ==> cfg.bufOf[i] < |pool|
    ensures fresh(e) && e.Valid() && e.cfg == cfg && e.bay.pool == pool && |e.bay.voices| == cfg.n
    ensures e.View().prev == e.View().cur == Zeros(cfg.n * cfg.block)
    ensures fresh(e.bay.objects) && fresh(e.voiceIn) && fresh(e.prevOut) && fresh(e.curOut)
    ensures forall o :: o in e.bay.buffers ==> exists j: nat :: j < |pool| && o == pool[j]
  {
    var bay := MakeBay(k, warp, pool, cfg.bufOf, resamp, sr, fix);
    BayRacked(cfg, bay);
    e := new Engine(cfg, bay);
  }

  lemma BayRacked<RS>(cfg: Config, bay: Bay<RS>)
    requires Wired(cfg) && bay.Apart() && bay.Valid() && bay.bufOf == cfg.bufOf
    ensures Racked(cfg, bay.View())
  {
    bay.ViewSizes();
    forall d: nat | d < cfg.n
      ensures cfg.bufOf[d] < |bay.pool| && Fits(bay.View().voices[d].sch, bay.View().pool[cfg.bufOf[d]])
    {
      bay.ViewFits(d);
    }
    hide Fits, bay.View, bay.Valid, bay.Apart;
  }

  // Such an engine renders any input, to any destination that is large enough.
  method RenderFresh<RS>(k: Kernel<RS>, cfg: Config, warp: real -> real, pool: seq<array<real>>,
                         resamp: RS, sr: real, fix: bool, input: array<real>, dest: array<real>)
    returns (ghost st: Live<RS>, e: Engine<RS>, ok: bool)
    requires Wired(cfg) && Distinct(pool) && forall i: nat :: i < cfg.n ==> cfg.bufOf[i] < |pool|
    requires input != dest && forall j: nat :: j < |pool| ==> pool[j] != input && pool[j] != dest
    modifies set j: nat | j < |pool| :: pool[j]
    modifies dest
    ensures Alive(cfg, st) && st.prev == st.cur == Zeros(cfg.n * cfg.block)
    ensures e.Valid() && e.cfg == cfg && ok == (Span(cfg, input.Length) <= dest.Length)
    ensures ok ==> (e.View(), dest[..Span(cfg, input.Length)]) == RenderAll(k, cfg, st, old(input[..]))
  {
    hide Racked, RenderAll, Span;
    e := MakeEngine(k, cfg, warp, pool, resamp, sr, fix);
    st := e.View();
    ok := e.Render(k, input, dest);
  }

  // A rendering as it was asked for.
  datatype Job<RS> = Job(st: Live<RS>, xs: seq<real>, dest: seq<real>)

  // After the first `done` frames, what is left to render completes the whole.
  ghost predicate Rendered<RS>(k: Kernel<RS>, cfg: Config, j: Job<RS>, done: nat, now: Live<RS>, dest: seq<real>) {
    && done <= |j.xs| && Alive(cfg, j.st) && Alive(cfg, now)
    && Span(cfg, done) <= Span(cfg, |j.xs|) <= |dest|
    && RenderAll(k, cfg, j.st, j.xs) == Onto(dest[..Span(cfg, done)], RenderAll(k, cfg, now, j.xs[done..]))
    && SameOutside(j.dest, dest, 0, Span(cfg, |j.xs|))
  }

  function Onto<RS>(out: seq<real>, q: (Live<RS>, seq<real>)): (Live<RS>, seq<real>) {
    (q.0, out + q.1)
  }

  lemma RenderStart<RS>(k: Kernel<RS>, cfg: Config, j: Job<RS>)
    requires Alive(cfg, j.st) && Span(cfg, |j.xs|) <= |j.dest|
    ensures Rendered(k, cfg, j, 0, j.st, j.dest)
  {
    assert j.xs[0..] == j.xs && Span(cfg, 0) == 0;
    assert [] + RenderAll(k, cfg, j.st, j.xs).1 == RenderAll(k, cfg, j.st, j.xs).1;
    hide RenderAll, Alive;
  }

  lemma RenderDone<RS>(k: Kernel<RS>, cfg: Config, j: Job<RS>, now: Live<RS>, dest: seq<real>)
    requires Rendered(k, cfg, j, |j.xs|, now, dest)
    ensures Alive(cfg, j.st) && Alive(cfg, now) && Span(cfg, |j.xs|) <= |dest|
    ensures (now, dest[..Span(cfg, |j.xs|)]) == RenderAll(k, cfg, j.st, j.xs)
    ensures SameOutside(j.dest, dest, 0, Span(cfg, |j.xs|))
  {
    hide Span, Alive, Core;
    assert j.xs[|j.xs|..] == [];
    assert dest[..Span(cfg, |j.xs|)] + [] == dest[..Span(cfg, |j.xs|)];
  }

  lemma AliveWired<RS>(cfg: Config, st: Live<RS>)
    requires Alive(cfg, st)
    ensures Wired(cfg) && cfg.block > 0
  {
  }

  lemma RenderedRoom<RS>(k: Kernel<RS>, cfg: Config, j: Job<RS>, done: nat, now: Live<RS>, dest: seq<real>)
    requires Rendered(k, cfg, j, done, now, dest) && done < |j.xs|
    ensures var c := Chunk(cfg, |j.xs| - done); Span(cfg, done) + Span(cfg, c) <= Span(cfg, |j.xs|) <= |dest|
    ensures 0 < Chunk(cfg, |j.xs| - done) <= cfg.block && done + Chunk(cfg, |j.xs| - done) <= |j.xs|
  {
    hide RenderAll, Span, SameOutside, Playable;
    AliveWired(cfg, now);
    var c := Chunk(cfg, |j.xs| - done);
    SpanAdds(cfg, done, c);
    SpanGrows(cfg, done + c, |j.xs|);
  }

  lemma RenderNext<RS>(k: Kernel<RS>, cfg: Config, j: Job<RS>, done: nat, now: Live<RS>, before: seq<real>,
                       after: seq<real>, c: nat)
    requires Alive(cfg, now) && done < |j.xs| && c <= cfg.block && done + c <= |j.xs|
    requires c == Chunk(cfg, |j.xs| - done) && Rendered(k, cfg, j, done, now, before)
    requires SameOutside(before, after, Span(cfg, done), Span(cfg, c))
    requires after[Span(cfg, done)..Span(cfg, done) + Span(cfg, c)] == Core(k, cfg, now, j.xs[done..done + c]).1
    ensures Rendered(k, cfg, j, done + c, Core(k, cfg, now, j.xs[done..done + c]).0, after)
  {
    hide Span, Alive, Core, RenderAll, Onto;
    RenderedRoom(k, cfg, j, done, now, before);
    SpanAdds(cfg, done, c);
    RenderUnfolds(k, cfg, now, j.xs, done);
    var (st1, out1) := Core(k, cfg, now, j.xs[done..done + c]);
    var rest := RenderAll(k, cfg, st1, j.xs[done + c..]);
    OntoTwice(before[..Span(cfg, done)], out1, rest);
    PrefixGrows(before, after, Span(cfg, done), Span(cfg, c), out1);
    OutsideWider(j.dest, before, after, Span(cfg, done), Span(cfg, c), Span(cfg, |j.xs|));
    hide SameOutside;
  }

  lemma PrefixGrows(before: seq<real>, after: seq<real>, at: nat, count: nat, out: seq<real>)
    requires SameOutside(before, after, at, count) && after[at..at + count] == out
    ensures after[..at + count] == before[..at] + out
  {
    assert after[..at + count] == after[..at] + after[at..at + count];
  }

  lemma OntoTwice<RS>(a: seq<real>, b: seq<real>, q: (Live<RS>, seq<real>))
    ensures Onto(a, Onto(b, q)) == Onto(a + b, q)
  {
    assert a + (b + q.1) == a + b + q.1;
  }

  lemma OutsideWider(a: seq<real>, b: seq<real>, c: seq<real>, at: nat, count: nat, total: nat)
    requires SameOutside(a, b, 0, total) && SameOutside(b, c, at, count) && at + count <= total
    ensures SameOutside(a, c, 0, total)
  {
    assert b[at + count..][total - at - count..] == b[total..] && c[at + count..][total - at - count..] == c[total..];
  }

  lemma RenderUnfolds<RS>(k: Kernel<RS>, cfg: Config, st: Live<RS>, xs: seq<real>, done: nat)
    requires Alive(cfg, st) && done < |xs|
    ensures var c := Chunk(cfg, |xs| - done);
            && 0 < c <= |xs| - done && c <= cfg.block
            && RenderAll(k, cfg, st, xs[done..])
               == (var (st1, out1) := Core(k, cfg, st, xs[done..done + c]);
                   Onto(out1, RenderAll(k, cfg, st1, xs[done + c..])))
  {
    hide Core, Playable;
    AliveWired(cfg, st);
    var c := Chunk(cfg, |xs| - done);
    assert xs[done..][..c] == xs[done..done + c] && xs[done..][c..] == xs[done + c..];
  }

  lemma SpanGrows(cfg: Config, a: nat, b: nat)
    requires a <= b
    ensures Span(cfg, a) <= Span(cfg, b)
  {
    Monotone(a, b, cfg.channels);
  }

  function Zeros(n: nat): seq<real> {
    seq(n, _ => 0.0)
  }
}
