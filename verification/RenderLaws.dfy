/**
 What rendering in blocks amounts to: panned sums of the voices' outputs, every voice as
 if it ran alone, and no dependence on where the blocks were cut.
 */
module RenderLaws {
  import opened Heads
  import opened Voices
  import opened Mixer
  import opened HeadSafety
  import opened BlockSplit

  // ---- what went into a voice and came out of it over a whole rendering ----

  function Row(cfg: Config, cur: seq<real>, d: nat, frames: nat): (ys: seq<real>)
    requires Wired(cfg) && |cur| == cfg.n * cfg.block && d < cfg.n && frames <= cfg.block
    ensures |ys| == frames
  {
    CellInside(d, 0, cfg.n, cfg.block);
    cur[Cell(d, 0, cfg.block)..Cell(d, 0, cfg.block) + frames]
  }

  function Inputs<RS>(k: Kernel<RS>, cfg: Config, st: Live<RS>, xs: seq<real>, d: nat): (ys: seq<real>)
    requires Alive(cfg, st) && d < cfg.n
    ensures |ys| == |xs|
    decreases |xs|
  {
    if xs == [] then []
    else
      var c := Chunk(cfg, |xs|);
      VoiceIn(cfg, st.prev, xs[..c], d) + Inputs(k, cfg, Core(k, cfg, st, xs[..c]).0, xs[c..], d)
  }

  function Outputs<RS>(k: Kernel<RS>, cfg: Config, st: Live<RS>, xs: seq<real>, d: nat): (ys: seq<real>)
    requires Alive(cfg, st) && d < cfg.n
    ensures |ys| == |xs|
    decreases |xs|
  {
    if xs == [] then []
    else
      var c := Chunk(cfg, |xs|);
      var st1 := Core(k, cfg, st, xs[..c]).0;
      Row(cfg, st1.prev, d, c) + Outputs(k, cfg, st1, xs[c..], d)
  }

  function OutputsAt<RS>(k: Kernel<RS>, cfg: Config, st: Live<RS>, xs: seq<real>, t: nat): (ys: seq<real>)
    requires Alive(cfg, st) && t < |xs|
    ensures |ys| == cfg.n
  {
    seq(cfg.n, d requires 0 <= d < cfg.n => Outputs(k, cfg, st, xs, d)[t])
  }

  // ---- the output ----

  // One sample of each voice, panned: the first `d` of them.
  function Panned(cfg: Config, ys: seq<real>, c: nat, d: nat): real
    requires Wired(cfg) && |ys| == cfg.n && d <= cfg.n
  {
    if d == 0 then 0.0 else Panned(cfg, ys, c, d - 1) + Times(ys[d - 1], Weight(cfg, d - 1, c))
  }

  lemma {:induction false} MixedIsPanned(cfg: Config, cur: seq<real>, f: nat, c: nat, ys: seq<real>, d: nat)
    requires Wired(cfg) && |cur| == cfg.n * cfg.block && f < cfg.block && |ys| == cfg.n && d <= cfg.n
    requires forall i :: 0 <= i < cfg.n ==> Row(cfg, cur, i, cfg.block)[f] == ys[i]
    ensures Mixed(cfg, cur, f, c, d) == Panned(cfg, ys, c, d)
  {
    if d > 0 {
      MixedIsPanned(cfg, cur, f, c, ys, d - 1);
      RowCell(cfg, cur, d - 1, cfg.block, f);
      hide Weight;
    }
  }

  lemma RowCell(cfg: Config, cur: seq<real>, d: nat, frames: nat, f: nat)
    requires Wired(cfg) && |cur| == cfg.n * cfg.block && d < cfg.n && f < frames <= cfg.block
    ensures Cell(d, f, cfg.block) < |cur| && Row(cfg, cur, d, frames)[f] == cur[Cell(d, f, cfg.block)]
  {
    CellInside(d, f, cfg.n, cfg.block);
    CellInside(d, 0, cfg.n, cfg.block);
    assert Cell(d, f, cfg.block) == Cell(d, 0, cfg.block) + f;
  }

  lemma CoreCell<RS>(k: Kernel<RS>, cfg: Config, st: Live<RS>, ext: seq<real>, t: nat, c: nat, ys: seq<real>)
    requires Alive(cfg, st) && t < |ext| <= cfg.block && c < cfg.channels && |ys| == cfg.n
    requires forall i :: 0 <= i < cfg.n ==> Row(cfg, Core(k, cfg, st, ext).0.prev, i, |ext|)[t] == ys[i]
    ensures Cell(t, c, cfg.channels) < Span(cfg, |ext|)
    ensures Core(k, cfg, st, ext).1[Cell(t, c, cfg.channels)] == Panned(cfg, ys, c, cfg.n)
  {
    var cur := Core(k, cfg, st, ext).0.prev;
    CellsSpan(cfg, |ext|);
    InterleavedAt(cfg, cur, |ext|, t, c);
    forall i | 0 <= i < cfg.n ensures Row(cfg, cur, i, cfg.block)[t] == ys[i] {
      RowCell(cfg, cur, i, |ext|, t);
      RowCell(cfg, cur, i, cfg.block, t);
    }
    hide RunVoices, Cell, Interleaved;
    MixedIsPanned(cfg, cur, t, c, ys, cfg.n);
  }

  // Frame t, channel c of a rendering is the panned sum of the voices' outputs at t.
  lemma {:induction false} OutputIsPanned<RS>(k: Kernel<RS>, cfg: Config, st: Live<RS>, xs: seq<real>, t: nat, c: nat)
    requires Alive(cfg, st) && t < |xs| && c < cfg.channels
    ensures |RenderAll(k, cfg, st, xs).1| == Span(cfg, |xs|) && Cell(t, c, cfg.channels) < Span(cfg, |xs|)
    ensures RenderAll(k, cfg, st, xs).1[Cell(t, c, cfg.channels)] == Panned(cfg, OutputsAt(k, cfg, st, xs, t), c, cfg.n)
    decreases |xs|
  {
    hide RenderAll, Outputs, Core, Chunk, Cell, Span, Alive, Panned, OutputsAt;
    FirstBlock(k, cfg, st, xs);
    var b := Chunk(cfg, |xs|);
    var (st1, out1) := Core(k, cfg, st, xs[..b]);
    SpanAdds(cfg, b, |xs| - b);
    CellsSpan(cfg, |xs|);
    CellsSpan(cfg, b);
    var ys := OutputsAt(k, cfg, st, xs, t);
    OutputsAtSplit(k, cfg, st, xs, t);
    if t < b {
      CoreCell(k, cfg, st, xs[..b], t, c, ys);
    } else {
      OutputIsPanned(k, cfg, st1, xs[b..], t - b, c);
      CellShift(cfg, b, t, c);
    }
  }

  // A rendering is its first block and the rendering of the rest.
  lemma FirstBlock<RS>(k: Kernel<RS>, cfg: Config, st: Live<RS>, xs: seq<real>)
    requires Alive(cfg, st) && xs != []
    ensures Wired(cfg) && 0 < Chunk(cfg, |xs|) <= |xs| && Chunk(cfg, |xs|) <= cfg.block
    ensures Chunk(cfg, |xs|) < |xs| ==> Chunk(cfg, |xs|) == cfg.block
    ensures var b := Chunk(cfg, |xs|);
            var (st1, out1) := Core(k, cfg, st, xs[..b]);
            && Alive(cfg, st1) && |out1| == Span(cfg, b)
            && RenderAll(k, cfg, st, xs).0 == RenderAll(k, cfg, st1, xs[b..]).0
            && RenderAll(k, cfg, st, xs).1 == out1 + RenderAll(k, cfg, st1, xs[b..]).1
  {
    hide Core;
  }

  lemma OutputsFirst<RS>(k: Kernel<RS>, cfg: Config, st: Live<RS>, xs: seq<real>, d: nat)
    requires Alive(cfg, st) && xs != [] && d < cfg.n
    ensures var b := Chunk(cfg, |xs|);
            var st1 := Core(k, cfg, st, xs[..b]).0;
            && |st1.prev| == cfg.n * cfg.block
            && Outputs(k, cfg, st, xs, d) == Row(cfg, st1.prev, d, b) + Outputs(k, cfg, st1, xs[b..], d)
  {
    hide Core, Row;
  }

  lemma InputsFirst<RS>(k: Kernel<RS>, cfg: Config, st: Live<RS>, xs: seq<real>, d: nat)
    requires Alive(cfg, st) && xs != [] && d < cfg.n
    ensures var b := Chunk(cfg, |xs|);
            && |st.prev| == cfg.n * cfg.block
            && Inputs(k, cfg, st, xs, d)
               == VoiceIn(cfg, st.prev, xs[..b], d) + Inputs(k, cfg, Core(k, cfg, st, xs[..b]).0, xs[b..], d)
  {
    hide Core, VoiceIn;
  }

  lemma OutputAtSplit<RS>(k: Kernel<RS>, cfg: Config, st: Live<RS>, xs: seq<real>, t: nat, d: nat)
    requires Alive(cfg, st) && t < |xs| && d < cfg.n
    ensures var b := Chunk(cfg, |xs|);
            var st1 := Core(k, cfg, st, xs[..b]).0;
            Outputs(k, cfg, st, xs, d)[t]
            == (if t < b then Row(cfg, st1.prev, d, b)[t] else Outputs(k, cfg, st1, xs[b..], d)[t - b])
  {
    hide *;
    FirstBlock(k, cfg, st, xs);
    OutputsFirst(k, cfg, st, xs, d);
  }

  lemma OutputsAtSplit<RS>(k: Kernel<RS>, cfg: Config, st: Live<RS>, xs: seq<real>, t: nat)
    requires Alive(cfg, st) && t < |xs|
    ensures var b := Chunk(cfg, |xs|);
            var st1 := Core(k, cfg, st, xs[..b]).0;
            && (t < b ==> forall d :: 0 <= d < cfg.n ==> Row(cfg, st1.prev, d, b)[t] == OutputsAt(k, cfg, st, xs, t)[d])
            && (t >= b ==> OutputsAt(k, cfg, st, xs, t) == OutputsAt(k, cfg, st1, xs[b..], t - b))
  {
    hide Core, Row, Outputs, Chunk, RenderAll;
    FirstBlock(k, cfg, st, xs);
    var b := Chunk(cfg, |xs|);
    var st1 := Core(k, cfg, st, xs[..b]).0;
    forall d: nat | d < cfg.n
      ensures t < b ==> Row(cfg, st1.prev, d, b)[t] == OutputsAt(k, cfg, st, xs, t)[d]
      ensures t >= b ==> OutputsAt(k, cfg, st, xs, t)[d] == OutputsAt(k, cfg, st1, xs[b..], t - b)[d]
    {
      OutputAtSplit(k, cfg, st, xs, t, d);
    }
  }

  lemma CellShift(cfg: Config, b: nat, t: nat, c: nat)
    requires b <= t
    ensures Cell(t, c, cfg.channels) == Span(cfg, b) + Cell(t - b, c, cfg.channels)
  {
  }

  lemma AliveSizes<RS>(cfg: Config, st: Live<RS>)
    requires Alive(cfg, st)
    ensures Wired(cfg) && |st.prev| == |st.cur| == cfg.n * cfg.block && Racked(cfg, st.r)
  {
  }

  // ---- voices that do not get in each other's way ----

  // Every voice plays or does not record, and no voice records into a buffer that
  // another voice uses.
  predicate Isolated<RS>(cfg: Config, r: Rack<RS>)
    requires Racked(cfg, r)
  {
    && (forall i :: 0 <= i < cfg.n ==> VoiceInv(r.voices[i]) && Sounds(r.voices[i]))
    && (forall i, j :: 0 <= i < cfg.n && 0 <= j < cfg.n && i != j && r.voices[i].recFlag ==>
         cfg.bufOf[i] != cfg.bufOf[j])
  }

  // A block never switches recording on, and without recording leaves the buffer.
  lemma {:induction false} SamplesFlags<RS>(k: Kernel<RS>, v: Voice<RS>, buf: seq<real>, xs: seq<real>, y: real)
    requires Fits(v.sch, buf)
    ensures var (v', buf', _) := VoiceSamples(k, v, buf, xs, y); v'.recFlag == v.recFlag && (!v.recFlag ==> buf' == buf)
    decreases |xs|
  {
    if xs != [] {
      SampleKeepsFlags(k, v, buf, xs[0], y);
      VoiceSampleFits(k, v, buf, xs[0], y);
      var (v1, buf1, y1, _) := VoiceSample(k, v, buf, xs[0], y);
      hide VoiceSample, Fits;
      SamplesFlags(k, v1, buf1, xs[1..], y1);
    }
  }

  lemma BlockFlags<RS>(k: Kernel<RS>, v: Voice<RS>, buf: seq<real>, xs: seq<real>, y: real)
    requires Fits(v.sch, buf)
    ensures var (v', buf', _) := VoiceBlock(k, v, buf, xs, y);
            (v'.recFlag ==> v.recFlag) && (!v.recFlag ==> buf' == buf)
  {
    SamplesFlags(k, v, buf, xs, y);
    hide VoiceSamples, Fits;
  }

  // Voice i run alone over a block.
  function Alone<RS>(k: Kernel<RS>, cfg: Config, r: Rack<RS>, ins: seq<real>, i: nat): (Voice<RS>, seq<real>, seq<real>)
    requires Racked(cfg, r) && i < cfg.n
  {
    VoiceBlock(k, r.voices[i], r.pool[cfg.bufOf[i]], ins, cfg.unset)
  }

  // After the first `d` voices of a block: those have run as if alone, the others
  // and their buffers are as they were.
  ghost predicate RanAlone<RS>(k: Kernel<RS>, cfg: Config, r: Rack<RS>, prev: seq<real>, cur: seq<real>,
                               ext: seq<real>, d: nat, q: (Rack<RS>, seq<real>))
    requires Playable(cfg, r, prev, cur, ext) && d <= cfg.n && Playable(cfg, q.0, prev, q.1, ext)
  {
    && (forall i: nat :: i < d ==>
          (q.0.voices[i], q.0.pool[cfg.bufOf[i]], Row(cfg, q.1, i, |ext|))
              == Alone(k, cfg, r, VoiceIn(cfg, prev, ext, i), i))
    && (forall i: nat :: d <= i < cfg.n ==>
         q.0.voices[i] == r.voices[i] && q.0.pool[cfg.bufOf[i]] == r.pool[cfg.bufOf[i]])
    && (forall b: nat :: b < |r.pool| && b < |q.0.pool| && b !in cfg.bufOf ==> q.0.pool[b] == r.pool[b])
  }

  // What one voice's turn does to the other voices' rows, states and buffers.
  lemma TurnLeavesOthers<RS>(k: Kernel<RS>, cfg: Config, r: Rack<RS>, prev: seq<real>, cur: seq<real>, ext: seq<real>,
                             d: nat)
    requires Playable(cfg, r, prev, cur, ext) && d < cfg.n
    requires forall j :: 0 <= j < cfg.n && j != d && r.voices[d].recFlag ==> cfg.bufOf[d] != cfg.bufOf[j]
    ensures var q := OneVoice(k, cfg, r, prev, cur, ext, d);
            && (q.0.voices[d], q.0.pool[cfg.bufOf[d]], Row(cfg, q.1, d, |ext|))
               == Alone(k, cfg, r, VoiceIn(cfg, prev, ext, d), d)
            && (forall i: nat :: i < cfg.n && i != d ==>
                  && q.0.voices[i] == r.voices[i] && q.0.pool[cfg.bufOf[i]] == r.pool[cfg.bufOf[i]]
                  && Row(cfg, q.1, i, |ext|) == Row(cfg, cur, i, |ext|))
            && (forall b: nat :: b < |r.pool| && b !in cfg.bufOf ==> q.0.pool[b] == r.pool[b])
  {
    hide VoiceBlock, VoiceIn, Splice, Row, Cell, Fits, OneVoice;
    var ins := VoiceIn(cfg, prev, ext, d);
    var buf := r.pool[cfg.bufOf[d]];
    BlockFlags(k, r.voices[d], buf, ins, cfg.unset);
    BlockFits(k, r.voices[d], buf, ins, cfg.unset);
    TurnIs(k, cfg, r, prev, cur, ext, d);
    RowsAfterSplice(cfg, cur, d, Alone(k, cfg, r, ins, d).2);
  }

  lemma TurnIs<RS>(k: Kernel<RS>, cfg: Config, r: Rack<RS>, prev: seq<real>, cur: seq<real>, ext: seq<real>, d: nat)
    requires Playable(cfg, r, prev, cur, ext) && d < cfg.n
    ensures var (v, b, o) := Alone(k, cfg, r, VoiceIn(cfg, prev, ext, d), d);
            && |o| == |ext| && Cell(d, 0, cfg.block) + |o| <= |cur|
            && OneVoice(k, cfg, r, prev, cur, ext, d)
               == (Rack(r.voices[d := v], r.pool[cfg.bufOf[d] := b]), Splice(cur, Cell(d, 0, cfg.block), o))
  {
    hide VoiceBlock, VoiceIn, Splice, Fits;
    BlockFits(k, r.voices[d], r.pool[cfg.bufOf[d]], VoiceIn(cfg, prev, ext, d), cfg.unset);
    CellInside(d, 0, cfg.n, cfg.block);
  }

  lemma RowsAfterSplice(cfg: Config, cur: seq<real>, d: nat, o: seq<real>)
    requires Wired(cfg) && |cur| == cfg.n * cfg.block && d < cfg.n && |o| <= cfg.block
    ensures Cell(d, 0, cfg.block) + |o| <= |cur|
    ensures var cur' := Splice(cur, Cell(d, 0, cfg.block), o);
            && |cur'| == |cur| && Row(cfg, cur', d, |o|) == o
            && forall i: nat :: i < cfg.n && i != d ==> Row(cfg, cur', i, |o|) == Row(cfg, cur, i, |o|)
  {
    CellInside(d, 0, cfg.n, cfg.block);
    hide Row, Splice, Cell;
    var cur' := Splice(cur, Cell(d, 0, cfg.block), o);
    forall i: nat | i < cfg.n
      ensures Row(cfg, cur', i, |o|) == if i == d then o else Row(cfg, cur, i, |o|)
    {
      forall f: nat | f < |o|
        ensures Row(cfg, cur', i, |o|)[f] == if i == d then o[f] else Row(cfg, cur, i, |o|)[f]
      {
        SplicedSample(cfg, cur, d, o, i, f);
      }
    }
  }

  lemma SplicedSample(cfg: Config, cur: seq<real>, d: nat, o: seq<real>, i: nat, f: nat)
    requires Wired(cfg) && |cur| == cfg.n * cfg.block && d < cfg.n && i < cfg.n && f < |o| <= cfg.block
    requires Cell(d, 0, cfg.block) + |o| <= |cur|
    ensures var cur' := Splice(cur, Cell(d, 0, cfg.block), o);
            |cur'| == |cur| && Row(cfg, cur', i, |o|)[f] == if i == d then o[f] else Row(cfg, cur, i, |o|)[f]
  {
    SpliceRow(cur, cfg.n, cfg.block, d, o);
    RowCell(cfg, cur, i, |o|, f);
    RowCell(cfg, Splice(cur, Cell(d, 0, cfg.block), o), i, |o|, f);
    hide Row, Splice, Cell;
  }

  lemma {:induction false} RunAlone<RS>(k: Kernel<RS>, cfg: Config, r: Rack<RS>, prev: seq<real>, cur: seq<real>,
                                        ext: seq<real>, d: nat)
    requires Playable(cfg, r, prev, cur, ext) && Isolated(cfg, r) && d <= cfg.n
    ensures RanAlone(k, cfg, r, prev, cur, ext, d, RunVoices(k, cfg, r, prev, cur, ext, d))
  {
    hide OneVoice, VoiceIn, Row, RanAlone, Alone, Isolated, Playable;
    if d == 0 {
      AloneFrom(k, cfg, r, prev, cur, ext);
    } else {
      RunAlone(k, cfg, r, prev, cur, ext, d - 1);
      AloneNext(k, cfg, r, prev, cur, ext, d - 1, RunVoices(k, cfg, r, prev, cur, ext, d - 1));
    }
  }

  lemma AloneFrom<RS>(k: Kernel<RS>, cfg: Config, r: Rack<RS>, prev: seq<real>, cur: seq<real>, ext: seq<real>)
    requires Playable(cfg, r, prev, cur, ext)
    ensures RanAlone(k, cfg, r, prev, cur, ext, 0, (r, cur))
  {
    hide VoiceIn, Row, Fits;
  }

  lemma AloneNext<RS>(k: Kernel<RS>, cfg: Config, r: Rack<RS>, prev: seq<real>, cur: seq<real>, ext: seq<real>, d: nat,
                      q: (Rack<RS>, seq<real>))
    requires Playable(cfg, r, prev, cur, ext) && Isolated(cfg, r) && d < cfg.n && Playable(cfg, q.0, prev, q.1, ext)
    requires RanAlone(k, cfg, r, prev, cur, ext, d, q)
    ensures RanAlone(k, cfg, r, prev, cur, ext, d + 1, OneVoice(k, cfg, q.0, prev, q.1, ext, d))
  {
    hide OneVoice, VoiceBlock, VoiceIn, Row, Fits, VoiceInv, Sounds;
    TurnLeavesOthers(k, cfg, q.0, prev, q.1, ext, d);
  }

  lemma CoreAlone<RS>(k: Kernel<RS>, cfg: Config, st: Live<RS>, ext: seq<real>, i: nat)
    requires Alive(cfg, st) && Isolated(cfg, st.r) && |ext| <= cfg.block && i < cfg.n
    ensures var st1 := Core(k, cfg, st, ext).0;
            && (st1.r.voices[i], st1.r.pool[cfg.bufOf[i]], Row(cfg, st1.prev, i, |ext|))
               == Alone(k, cfg, st.r, VoiceIn(cfg, st.prev, ext, i), i)
            && |st1.r.pool| == |st.r.pool|
            && forall b: nat :: b < |st.r.pool| && b !in cfg.bufOf ==> st1.r.pool[b] == st.r.pool[b]
  {
    RunAlone(k, cfg, st.r, st.prev, st.cur, ext, cfg.n);
    hide RunVoices, Alone, VoiceIn, Row, Interleaved, Isolated;
  }

  lemma AloneKeeps<RS>(k: Kernel<RS>, cfg: Config, r: Rack<RS>, ins: seq<real>, i: nat)
    requires Racked(cfg, r) && Isolated(cfg, r) && i < cfg.n
    ensures var v := Alone(k, cfg, r, ins, i).0; VoiceInv(v) && Sounds(v) && (v.recFlag ==> r.voices[i].recFlag)
  {
    var v, buf := r.voices[i], r.pool[cfg.bufOf[i]];
    BlockFlags(k, v, buf, ins, cfg.unset);
    BlocksCompose(k, v, buf, ins, [], cfg.unset, cfg.unset, cfg.unset);
    hide VoiceBlock, VoiceInv, Sounds, Fits;
  }

  lemma StillIsolated<RS>(k: Kernel<RS>, cfg: Config, st: Live<RS>, ext: seq<real>)
    requires Alive(cfg, st) && Isolated(cfg, st.r) && |ext| <= cfg.block
    ensures Racked(cfg, Core(k, cfg, st, ext).0.r) && Isolated(cfg, Core(k, cfg, st, ext).0.r)
  {
    AliveSizes(cfg, st);
    var st1 := Core(k, cfg, st, ext).0;
    AliveSizes(cfg, st1);
    hide Core, Alone, VoiceIn, VoiceInv, Sounds, Alive;
    forall i: nat | i < cfg.n
      ensures VoiceInv(st1.r.voices[i]) && Sounds(st1.r.voices[i])
              && (st1.r.voices[i].recFlag ==> st.r.voices[i].recFlag)
    {
      CoreAlone(k, cfg, st, ext, i);
      AloneKeeps(k, cfg, st.r, VoiceIn(cfg, st.prev, ext, i), i);
    }
    hide Racked;
  }

  // However a rendering is cut into blocks, each voice ends as if it had run alone,
  // in one block, over everything it was given.
  lemma {:induction false} EachVoiceAlone<RS>(k: Kernel<RS>, cfg: Config, st: Live<RS>, xs: seq<real>, i: nat)
    requires Alive(cfg, st) && Isolated(cfg, st.r) && i < cfg.n && xs != []
    ensures var r := RenderAll(k, cfg, st, xs).0.r;
            && Racked(cfg, r)
            && (r.voices[i], r.pool[cfg.bufOf[i]], Outputs(k, cfg, st, xs, i))
               == Alone(k, cfg, st.r, Inputs(k, cfg, st, xs, i), i)
    decreases |xs|
  {
    var b := Chunk(cfg, |xs|);
    FirstBlock(k, cfg, st, xs);
    InputsFirst(k, cfg, st, xs, i);
    OutputsFirst(k, cfg, st, xs, i);
    CoreAlone(k, cfg, st, xs[..b], i);
    var st1 := Core(k, cfg, st, xs[..b]).0;
    var ins := VoiceIn(cfg, st.prev, xs[..b], i);
    if b == |xs| {
      assert xs[b..] == [];
      LastBlock(k, cfg, st1, i);
      AliveSizes(cfg, st1);
      assert ins + [] == ins && Row(cfg, st1.prev, i, b) + [] == Row(cfg, st1.prev, i, b);
      hide Core, Inputs, Outputs, RenderAll, Alone, VoiceIn, Row, Alive;
    } else {
      StillIsolated(k, cfg, st, xs[..b]);
      hide Core, Inputs, Outputs, RenderAll, VoiceIn, Row, Alive, VoiceBlock, Isolated;
      EachVoiceAlone(k, cfg, st1, xs[b..], i);
      AloneComposes(k, cfg, st.r, st1.r, ins, Inputs(k, cfg, st1, xs[b..], i), i, Row(cfg, st1.prev, i, b));
    }
  }

  lemma LastBlock<RS>(k: Kernel<RS>, cfg: Config, st: Live<RS>, i: nat)
    requires Alive(cfg, st) && i < cfg.n
    ensures RenderAll(k, cfg, st, []) == (st, []) && Inputs(k, cfg, st, [], i) == [] && Outputs(k, cfg, st, [], i) == []
  {
  }

  lemma AloneComposes<RS>(k: Kernel<RS>, cfg: Config, r: Rack<RS>, r1: Rack<RS>, xs: seq<real>, ys: seq<real>, i: nat,
                          out: seq<real>)
    requires Racked(cfg, r) && Isolated(cfg, r) && Racked(cfg, r1) && i < cfg.n
    requires (r1.voices[i], r1.pool[cfg.bufOf[i]], out) == Alone(k, cfg, r, xs, i)
    ensures Alone(k, cfg, r, xs + ys, i) == (var (v, b, o) := Alone(k, cfg, r1, ys, i); (v, b, out + o))
  {
    BlocksCompose(k, r.voices[i], r.pool[cfg.bufOf[i]], xs, ys, cfg.unset, cfg.unset, cfg.unset);
    hide VoiceBlock, Fits;
  }

  lemma {:induction false} IdleBuffers<RS>(k: Kernel<RS>, cfg: Config, st: Live<RS>, xs: seq<real>)
    requires Alive(cfg, st) && Isolated(cfg, st.r)
    ensures var r := RenderAll(k, cfg, st, xs).0.r;
            |r.pool| == |st.r.pool| && forall b: nat :: b < |r.pool| && b !in cfg.bufOf ==> r.pool[b] == st.r.pool[b]
    decreases |xs|
  {
    if xs != [] {
      var b := Chunk(cfg, |xs|);
      FirstBlock(k, cfg, st, xs);
      StillIsolated(k, cfg, st, xs[..b]);
      CorePool(k, cfg, st, xs[..b]);
      hide Core, Alive, Isolated, RenderAll;
      IdleBuffers(k, cfg, Core(k, cfg, st, xs[..b]).0, xs[b..]);
    }
  }

  lemma CorePool<RS>(k: Kernel<RS>, cfg: Config, st: Live<RS>, ext: seq<real>)
    requires Alive(cfg, st) && Isolated(cfg, st.r) && |ext| <= cfg.block
    ensures var r := Core(k, cfg, st, ext).0.r;
            |r.pool| == |st.r.pool| && forall b: nat :: b < |r.pool| && b !in cfg.bufOf ==> r.pool[b] == st.r.pool[b]
  {
    RunAlone(k, cfg, st.r, st.prev, st.cur, ext, cfg.n);
    hide RunVoices, Alone, VoiceIn, Row, Interleaved, Isolated;
  }

  // ---- no feedback: where blocks are cut does not matter ----

  predicate NoFeedback(cfg: Config) {
    forall g | g in cfg.fb :: g == 0.0
  }

  function Scaled(xs: seq<real>, gain: real): (ys: seq<real>)
    ensures |ys| == |xs|
  {
    seq(|xs|, t requires 0 <= t < |xs| => Times(xs[t], gain))
  }

  lemma {:induction false} FeedsNothing(cfg: Config, prev: seq<real>, x: real, dst: nat, f: nat, d: nat)
    requires Wired(cfg) && NoFeedback(cfg) && |prev| == cfg.n * cfg.block && dst < cfg.n && d <= cfg.n && f < cfg.block
    ensures Feed(cfg, prev, x, dst, f, d) == Times(x, cfg.mix[dst].inputGain)
  {
    if d > 0 {
      FeedsNothing(cfg, prev, x, dst, f, d - 1);
      CellInside(d - 1, dst, cfg.n, cfg.n);
      assert Gain(cfg, d - 1, dst) in cfg.fb;
    }
  }

  lemma {:induction false} InputsScaled<RS>(k: Kernel<RS>, cfg: Config, st: Live<RS>, xs: seq<real>, i: nat)
    requires Alive(cfg, st) && NoFeedback(cfg) && i < cfg.n
    ensures Inputs(k, cfg, st, xs, i) == Scaled(xs, cfg.mix[i].inputGain)
    decreases |xs|
  {
    hide *;
    AliveSizes(cfg, st);
    MixSize(cfg);
    if xs == [] {
      LastBlock(k, cfg, st, i);
      ScaledNone(cfg.mix[i].inputGain);
    } else {
      FirstBlock(k, cfg, st, xs);
      InputsFirst(k, cfg, st, xs, i);
      var b := Chunk(cfg, |xs|);
      InputsScaled(k, cfg, Core(k, cfg, st, xs[..b]).0, xs[b..], i);
      BlockScaled(cfg, st.prev, xs[..b], i);
      ScaledCut(xs, b, cfg.mix[i].inputGain);
    }
  }

  lemma MixSize(cfg: Config)
    requires Wired(cfg)
    ensures |cfg.mix| == cfg.n
  {
  }

  lemma ScaledNone(gain: real)
    ensures Scaled([], gain) == []
  {
  }

  lemma BlockScaled(cfg: Config, prev: seq<real>, ext: seq<real>, i: nat)
    requires Wired(cfg) && NoFeedback(cfg) && |prev| == cfg.n * cfg.block && i < cfg.n && |ext| <= cfg.block
    ensures VoiceIn(cfg, prev, ext, i) == Scaled(ext, cfg.mix[i].inputGain)
  {
    hide Feed, NoFeedback;
    forall f: nat | f < |ext| ensures Feed(cfg, prev, ext[f], i, f, cfg.n) == Times(ext[f], cfg.mix[i].inputGain) {
      FeedsNothing(cfg, prev, ext[f], i, f, cfg.n);
    }
  }

  // Two engines that differ at most in block size and in what an unset local holds.
  ghost predicate SameButBlock(cfg: Config, cfg': Config) {
    && cfg'.n == cfg.n && cfg'.channels == cfg.channels && cfg'.mix == cfg.mix && cfg'.fb == cfg.fb
    && cfg'.bufOf == cfg.bufOf && cfg'.cos == cfg.cos && cfg'.sin == cfg.sin
  }

  lemma AloneSame<RS>(k: Kernel<RS>, cfg: Config, cfg': Config, r: Rack<RS>, ins: seq<real>, i: nat)
    requires Racked(cfg, r) && Racked(cfg', r) && SameButBlock(cfg, cfg') && Isolated(cfg, r) && i < cfg.n
    ensures Alone(k, cfg, r, ins, i) == Alone(k, cfg', r, ins, i)
  {
    SamplesIgnoreLocal(k, r.voices[i], r.pool[cfg.bufOf[i]], ins, cfg.unset, cfg'.unset);
    hide VoiceSamples, Fits;
  }

  lemma {:induction false} PannedSame(cfg: Config, cfg': Config, ys: seq<real>, c: nat, d: nat)
    requires Wired(cfg) && Wired(cfg') && SameButBlock(cfg, cfg') && |ys| == cfg.n && d <= cfg.n
    ensures Panned(cfg, ys, c, d) == Panned(cfg', ys, c, d)
  {
    if d > 0 { PannedSame(cfg, cfg', ys, c, d - 1); }
  }

  // One rendering of `a + b`, and renderings of `a` and then of `b` from the voices
  // and buffers the first left, each with a block size and stale output blocks of
  // its own.
  ghost predicate Split<RS>(k: Kernel<RS>, whole: Config, first: Config, second: Config,
                            st: Live<RS>, st1: Live<RS>, st2: Live<RS>, a: seq<real>)
  {
    && Alive(whole, st) && Alive(first, st1) && Alive(second, st2)
    && SameButBlock(whole, first) && SameButBlock(whole, second)
    && st1.r == st.r && st2.r == RenderAll(k, first, st1, a).0.r
    && Isolated(whole, st.r)
  }

  // Voice i ends in the same state with the same buffer and output either way.
  lemma SplitVoice<RS>(k: Kernel<RS>, whole: Config, first: Config, second: Config,
                       st: Live<RS>, st1: Live<RS>, st2: Live<RS>, a: seq<real>, b: seq<real>, i: nat)
    requires Split(k, whole, first, second, st, st1, st2, a) && NoFeedback(whole) && a + b != [] && i < whole.n
    ensures var r, r' := RenderAll(k, whole, st, a + b).0.r, RenderAll(k, second, st2, b).0.r;
            && Racked(whole, r) && Racked(second, r')
            && r.voices[i] == r'.voices[i] && r.pool[whole.bufOf[i]] == r'.pool[whole.bufOf[i]]
            && Outputs(k, whole, st, a + b, i) == Outputs(k, first, st1, a, i) + Outputs(k, second, st2, b, i)
  {
    hide Alive, Racked, Isolated, RenderAll, Outputs, Alone, Scaled, NoFeedback, Inputs;
    SplitRacked(k, whole, first, second, st, st1, st2, a);
    var gain := whole.mix[i].inputGain;
    VoiceClosed(k, whole, whole, st, a + b, i);
    LastBlock(k, first, st1, i);
    LastBlock(k, second, st2, i);
    if a == [] {
      assert a + b == b && [] + Outputs(k, second, st2, b, i) == Outputs(k, second, st2, b, i);
      VoiceClosed(k, whole, second, st2, b, i);
    } else {
      VoiceClosed(k, whole, first, st1, a, i);
      if b == [] {
        assert a + b == a && Outputs(k, first, st1, a, i) + [] == Outputs(k, first, st1, a, i);
      } else {
        VoiceClosed(k, whole, second, st2, b, i);
        AloneComposes(k, whole, st.r, st2.r, Scaled(a, gain), Scaled(b, gain), i, Outputs(k, first, st1, a, i));
        ScaledParts(a, b, gain);
      }
    }
  }

  lemma SplitRacked<RS>(k: Kernel<RS>, whole: Config, first: Config, second: Config,
                        st: Live<RS>, st1: Live<RS>, st2: Live<RS>, a: seq<real>)
    requires Split(k, whole, first, second, st, st1, st2, a)
    ensures Racked(whole, st.r) && Racked(whole, st2.r) && Isolated(whole, st2.r)
    ensures Racked(second, st2.r) && Racked(first, st1.r) && Isolated(first, st1.r) && Isolated(second, st2.r)
    ensures Wired(whole) && Wired(first) && Wired(second)
  {
    hide Alive, Racked, Isolated, RenderAll, Wired;
    AliveSizes(whole, st);
    AliveSizes(first, st1);
    AliveSizes(second, st2);
    IsolatedSame(whole, first, st.r);
    RenderIsolated(k, first, st1, a);
    RackedSame(whole, second, st2.r);
    IsolatedSame(first, whole, st2.r);
    IsolatedSame(first, second, st2.r);
  }

  lemma SplitPool<RS>(k: Kernel<RS>, whole: Config, first: Config, second: Config,
                      st: Live<RS>, st1: Live<RS>, st2: Live<RS>, a: seq<real>, b: seq<real>)
    requires Split(k, whole, first, second, st, st1, st2, a)
    ensures var r, r' := RenderAll(k, whole, st, a + b).0.r, RenderAll(k, second, st2, b).0.r;
            |r.pool| == |r'.pool| && forall j: nat :: j < |r.pool| && j !in whole.bufOf ==> r.pool[j] == r'.pool[j]
  {
    hide Alive, Racked, Isolated, RenderAll, Wired;
    SplitRacked(k, whole, first, second, st, st1, st2, a);
    IdleBuffers(k, whole, st, a + b);
    IdleBuffers(k, first, st1, a);
    IdleBuffers(k, second, st2, b);
  }

  lemma SplitRack<RS>(k: Kernel<RS>, whole: Config, first: Config, second: Config,
                      st: Live<RS>, st1: Live<RS>, st2: Live<RS>, a: seq<real>, b: seq<real>)
    requires Split(k, whole, first, second, st, st1, st2, a) && NoFeedback(whole) && a + b != []
    ensures RenderAll(k, whole, st, a + b).0.r == RenderAll(k, second, st2, b).0.r
  {
    var r, r' := RenderAll(k, whole, st, a + b).0.r, RenderAll(k, second, st2, b).0.r;
    AliveSizes(whole, RenderAll(k, whole, st, a + b).0);
    AliveSizes(second, RenderAll(k, second, st2, b).0);
    SplitPool(k, whole, first, second, st, st1, st2, a, b);
    hide Alive, Isolated, RenderAll, Fits, Outputs, NoFeedback;
    forall i: nat | i < whole.n
        ensures r.voices[i] == r'.voices[i] && r.pool[whole.bufOf[i]] == r'.pool[whole.bufOf[i]] {
      SplitVoice(k, whole, first, second, st, st1, st2, a, b, i);
    }
    forall j: nat | j < |r.pool| ensures r.pool[j] == r'.pool[j] {
      if j in whole.bufOf {
        var i :| 0 <= i < |whole.bufOf| && whole.bufOf[i] == j;
      }
    }
    assert r.voices == r'.voices && r.pool == r'.pool;
  }

  // ---- the output of the two ways ----

  lemma SplitCell<RS>(k: Kernel<RS>, whole: Config, first: Config, second: Config,
                      st: Live<RS>, st1: Live<RS>, st2: Live<RS>, a: seq<real>, b: seq<real>, t: nat, c: nat)
    requires Split(k, whole, first, second, st, st1, st2, a) && NoFeedback(whole)
    requires t < |a| + |b| && c < whole.channels
    ensures var out, parts := RenderAll(k, whole, st, a + b).1,
            RenderAll(k, first, st1, a).1 + RenderAll(k, second, st2, b).1;
            var j := Cell(t, c, whole.channels);
            j < |out| && j < |parts| && out[j] == parts[j]
  {
    hide Alive, Racked, Isolated, RenderAll, Wired, Outputs, NoFeedback, Panned, Cell;
    SplitRacked(k, whole, first, second, st, st1, st2, a);
    var ys := OutputsAt(k, whole, st, a + b, t);
    OutputIsPanned(k, whole, st, a + b, t, c);
    SpanAdds(whole, |a|, |b|);
    forall i: nat | i < whole.n
      ensures Outputs(k, whole, st, a + b, i) == Outputs(k, first, st1, a, i) + Outputs(k, second, st2, b, i)
    {
      SplitVoice(k, whole, first, second, st, st1, st2, a, b, i);
    }
    if t < |a| {
      assert ys == OutputsAt(k, first, st1, a, t);
      OutputIsPanned(k, first, st1, a, t, c);
      PannedSame(whole, first, ys, c, whole.n);
    } else {
      assert ys == OutputsAt(k, second, st2, b, t - |a|);
      OutputIsPanned(k, second, st2, b, t - |a|, c);
      PannedSame(whole, second, ys, c, whole.n);
      CellShift(whole, |a|, t, c);
    }
  }

  // Sequences of rows are equal when every cell is.
  lemma SameCells(s: seq<real>, s': seq<real>, rows: nat, width: nat)
    requires width > 0 && |s| == |s'| == rows * width
    requires forall t: nat, c: nat :: t < rows && c < width ==>
               Cell(t, c, width) < |s| && s[Cell(t, c, width)] == s'[Cell(t, c, width)]
    ensures s == s'
  {
    forall j: nat | j < |s| ensures s[j] == s'[j] {
      var t, c := j / width, j % width;
      assert j == Cell(t, c, width);
      if t >= rows { Monotone(rows, t, width); }
    }
  }

  // Voices that play or stay idle, no feedback, nobody recording into a buffer
  // another voice uses: rendering `a + b` gives the output of rendering `a` and
  // then `b`, and leaves every voice and buffer the same, for every split and
  // whatever the three block sizes are.
  lemma BlockSizeIndependence<RS>(k: Kernel<RS>, whole: Config, first: Config, second: Config,
                                  st: Live<RS>, st1: Live<RS>, st2: Live<RS>, a: seq<real>, b: seq<real>)
    requires Split(k, whole, first, second, st, st1, st2, a) && NoFeedback(whole)
    ensures RenderAll(k, whole, st, a + b).0.r == RenderAll(k, second, st2, b).0.r
    ensures RenderAll(k, whole, st, a + b).1 == RenderAll(k, first, st1, a).1 + RenderAll(k, second, st2, b).1
  {
    if a + b != [] {
      SplitRack(k, whole, first, second, st, st1, st2, a, b);
      SplitOutput(k, whole, first, second, st, st1, st2, a, b);
      hide *;
    }
  }

  lemma SplitOutput<RS>(k: Kernel<RS>, whole: Config, first: Config, second: Config,
                        st: Live<RS>, st1: Live<RS>, st2: Live<RS>, a: seq<real>, b: seq<real>)
    requires Split(k, whole, first, second, st, st1, st2, a) && NoFeedback(whole)
    ensures RenderAll(k, whole, st, a + b).1 == RenderAll(k, first, st1, a).1 + RenderAll(k, second, st2, b).1
  {
    hide RenderAll, Alive, Isolated, Racked, NoFeedback, Cell, Span;
    var out, parts := RenderAll(k, whole, st, a + b).1, RenderAll(k, first, st1, a).1 + RenderAll(k, second, st2, b).1;
    SplitRacked(k, whole, first, second, st, st1, st2, a);
    SpanAdds(whole, |a|, |b|);
    SpanIs(whole, |a| + |b|);
    SpanSame(whole, first, |a|);
    SpanSame(whole, second, |b|);
    forall t: nat, c: nat | t < |a| + |b| && c < whole.channels
      ensures Cell(t, c, whole.channels) < |out| && out[Cell(t, c, whole.channels)] == parts[Cell(t, c, whole.channels)]
    {
      SplitCell(k, whole, first, second, st, st1, st2, a, b, t, c);
    }
    SameCells(out, parts, |a| + |b|, whole.channels);
  }

  lemma SpanSame(cfg: Config, cfg': Config, frames: nat)
    requires cfg.channels == cfg'.channels
    ensures Span(cfg, frames) == Span(cfg', frames)
  {
  }

  lemma SpanIs(cfg: Config, frames: nat)
    ensures Span(cfg, frames) == frames * cfg.channels
  {
  }

  lemma ScaledParts(a: seq<real>, b: seq<real>, gain: real)
    ensures Scaled(a + b, gain) == Scaled(a, gain) + Scaled(b, gain)
  {
  }

  lemma ScaledCut(xs: seq<real>, b: nat, gain: real)
    requires b <= |xs|
    ensures Scaled(xs, gain) == Scaled(xs[..b], gain) + Scaled(xs[b..], gain)
  {
    hide Scaled;
    assert xs[..b] + xs[b..] == xs;
    ScaledParts(xs[..b], xs[b..], gain);
  }

  // A voice of a rendering without feedback, whatever the block size.
  lemma VoiceClosed<RS>(k: Kernel<RS>, base: Config, cfg: Config, st: Live<RS>, xs: seq<real>, i: nat)
    requires Alive(cfg, st) && SameButBlock(base, cfg) && NoFeedback(base)
    requires Racked(base, st.r) && Isolated(base, st.r) && xs != [] && i < base.n
    ensures var r := RenderAll(k, cfg, st, xs).0.r;
            && Racked(cfg, r)
            && (r.voices[i], r.pool[base.bufOf[i]], Outputs(k, cfg, st, xs, i))
               == Alone(k, base, st.r, Scaled(xs, base.mix[i].inputGain), i)
  {
    AliveSizes(cfg, st);
    hide Alone, Inputs, Outputs, RenderAll, Alive, Scaled, Racked;
    IsolatedSame(base, cfg, st.r);
    EachVoiceAlone(k, cfg, st, xs, i);
    InputsScaled(k, cfg, st, xs, i);
    AloneSame(k, base, cfg, st.r, Scaled(xs, base.mix[i].inputGain), i);
  }

  lemma IsolatedSame<RS>(cfg: Config, cfg': Config, r: Rack<RS>)
    requires Racked(cfg, r) && Racked(cfg', r) && Isolated(cfg, r) && cfg'.n == cfg.n && cfg'.bufOf == cfg.bufOf
    ensures Isolated(cfg', r)
  {
    hide Racked, VoiceInv, Sounds;
  }

  lemma RackedSame<RS>(cfg: Config, cfg': Config, r: Rack<RS>)
    requires Wired(cfg) && SameButBlock(cfg, cfg') && Racked(cfg', r)
    ensures Racked(cfg, r)
  {
    hide Fits;
  }

  lemma {:induction false} RenderIsolated<RS>(k: Kernel<RS>, cfg: Config, st: Live<RS>, xs: seq<real>)
    requires Alive(cfg, st) && Isolated(cfg, st.r)
    ensures Racked(cfg, RenderAll(k, cfg, st, xs).0.r) && Isolated(cfg, RenderAll(k, cfg, st, xs).0.r)
    decreases |xs|
  {
    AliveSizes(cfg, RenderAll(k, cfg, st, xs).0);
    if xs != [] {
      var b := Chunk(cfg, |xs|);
      FirstBlock(k, cfg, st, xs);
      StillIsolated(k, cfg, st, xs[..b]);
      hide Core, Alive, Isolated, RenderAll;
      RenderIsolated(k, cfg, Core(k, cfg, st, xs[..b]).0, xs[b..]);
    }
  }
}
