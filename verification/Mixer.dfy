/**
 The shared mixer (`mixer.hpp`): one block of every voice, each fed the external
 input and the other voices' previous block, summed into the interleaved output
 through equal-power panning.
 */
module Mixer {
  import opened Heads
  import opened Voices

  datatype VoiceMix = VoiceMix(level: real, pan: real, inputGain: real)

  // `n` voices; `fb[src * n + dst]` feeds src into dst; voice i works on the pool
  // buffer `bufOf[i]`.  Cosine and sine stay open, and so does what an unset local
  // happens to hold.
  datatype Config = Config(n: nat, block: nat, channels: nat, mix: seq<VoiceMix>, fb: seq<real>, bufOf: seq<nat>,
                           cos: real -> real, sin: real -> real, unset: real)

  predicate Wired(cfg: Config) {
    && cfg.block > 0 && cfg.channels > 0
    && |cfg.mix| == cfg.n && |cfg.fb| == cfg.n * cfg.n && |cfg.bufOf| == cfg.n
  }

  // The voices and the sample buffers they share.
  datatype Rack<RS> = Rack(voices: seq<Voice<RS>>, pool: seq<seq<real>>)

  predicate Racked<RS>(cfg: Config, r: Rack<RS>) {
    && Wired(cfg) && |r.voices| == cfg.n
    && forall i :: 0 <= i < cfg.n ==> cfg.bufOf[i] < |r.pool| && Fits(r.voices[i].sch, r.pool[cfg.bufOf[i]])
  }

  // ---- rows and columns of a flat array ----

  function Cell(row: nat, col: nat, width: nat): nat {
    row * width + col
  }

  lemma CellInside(row: nat, col: nat, rows: nat, width: nat)
    requires row < rows && col < width
    ensures Cell(row, col, width) < rows * width
    ensures Cell(row, 0, width) + width <= rows * width
  {
    assert (row + 1) * width <= rows * width by { Monotone(row + 1, rows, width); }
  }

  lemma Monotone(a: nat, b: nat, w: nat)
    requires a <= b
    ensures a * w <= b * w
  {
  }

  lemma CellsInside(rows: nat, width: nat)
    ensures forall r: nat, c: nat :: r < rows && c < width ==> Cell(r, c, width) < rows * width
  {
    forall r: nat, c: nat | r < rows && c < width ensures Cell(r, c, width) < rows * width {
      CellInside(r, c, rows, width);
    }
  }

  lemma CellsDistinct(width: nat)
    ensures forall r: nat, c: nat, r': nat, c': nat ::
              c < width && c' < width && Cell(r, c, width) == Cell(r', c', width) ==> r == r' && c == c'
  {
    forall r: nat, c: nat, r': nat, c': nat | c < width && c' < width && Cell(r, c, width) == Cell(r', c', width)
      ensures r == r' && c == c'
    {
      if r < r' { Monotone(r + 1, r', width); }
      if r' < r { Monotone(r' + 1, r, width); }
    }
  }

  // ---- what one voice is given ----

  function Gain(cfg: Config, src: nat, dst: nat): real
    requires Wired(cfg) && src < cfg.n && dst < cfg.n
  {
    CellInside(src, dst, cfg.n, cfg.n);
    cfg.fb[Cell(src, dst, cfg.n)]
  }

  function Times(x: real, y: real): real { x * y }

  // External input at frame i and the first `src` voices' previous outputs.
  function Feed(cfg: Config, prev: seq<real>, x: real, dst: nat, i: nat, src: nat): real
    requires Wired(cfg) && |prev| == cfg.n * cfg.block && src <= cfg.n && dst < cfg.n && i < cfg.block
  {
    if src == 0 then Times(x, cfg.mix[dst].inputGain)
    else
      CellInside(src - 1, i, cfg.n, cfg.block);
      Feed(cfg, prev, x, dst, i, src - 1) + Times(prev[Cell(src - 1, i, cfg.block)], Gain(cfg, src - 1, dst))
  }

  function VoiceIn(cfg: Config, prev: seq<real>, ext: seq<real>, dst: nat): (xs: seq<real>)
    requires Wired(cfg) && |prev| == cfg.n * cfg.block && dst < cfg.n && |ext| <= cfg.block
    ensures |xs| == |ext|
  {
    seq(|ext|, i requires 0 <= i < |ext| => Feed(cfg, prev, ext[i], dst, i, cfg.n))
  }

  // ---- the voices in turn ----

  function Splice(s: seq<real>, at: nat, o: seq<real>): (r: seq<real>)
    requires at + |o| <= |s|
    ensures |r| == |s|
  {
    s[..at] + o + s[at + |o|..]
  }

  predicate Playable<RS>(cfg: Config, r: Rack<RS>, prev: seq<real>, cur: seq<real>, ext: seq<real>) {
    Racked(cfg, r) && |prev| == |cur| == cfg.n * cfg.block && |ext| <= cfg.block
  }

  // One voice over the block: its row of `cur` and its buffer change.
  function OneVoice<RS>(k: Kernel<RS>, cfg: Config, r: Rack<RS>, prev: seq<real>, cur: seq<real>, ext: seq<real>,
                        d: nat): (q: (Rack<RS>, seq<real>))
    requires Playable(cfg, r, prev, cur, ext) && d < cfg.n
    ensures Playable(cfg, q.0, prev, q.1, ext) && |q.0.pool| == |r.pool|
  {
    var (v, b, o) := VoiceBlock(k, r.voices[d], r.pool[cfg.bufOf[d]], VoiceIn(cfg, prev, ext, d), cfg.unset);
    BlockFits(k, r.voices[d], r.pool[cfg.bufOf[d]], VoiceIn(cfg, prev, ext, d), cfg.unset);
    CellInside(d, 0, cfg.n, cfg.block);
    (Rack(r.voices[d := v], r.pool[cfg.bufOf[d] := b]), Splice(cur, Cell(d, 0, cfg.block), o))
  }

  lemma {:induction false} SamplesFit<RS>(k: Kernel<RS>, v: Voice<RS>, buf: seq<real>, xs: seq<real>, y: real)
    requires Fits(v.sch, buf)
    ensures var (v', buf', outs) := VoiceSamples(k, v, buf, xs, y);
            Fits(v'.sch, buf') && |outs| == |xs| && |buf'| == |buf|
    decreases |xs|
  {
    if xs != [] {
      VoiceSampleFits(k, v, buf, xs[0], y);
      var (v1, buf1, y1, _) := VoiceSample(k, v, buf, xs[0], y);
      SamplesFit(k, v1, buf1, xs[1..], y1);
      hide VoiceSample, Fits;
    }
  }

  lemma BlockFits<RS>(k: Kernel<RS>, v: Voice<RS>, buf: seq<real>, xs: seq<real>, y: real)
    requires Fits(v.sch, buf)
    ensures var (v', buf', outs) := VoiceBlock(k, v, buf, xs, y);
            Fits(v'.sch, buf') && |outs| == |xs| && |buf'| == |buf|
  {
    SamplesFit(k, v, buf, xs, y);
    hide VoiceSamples;
  }

  // The first `d` voices, in order.
  function RunVoices<RS>(k: Kernel<RS>, cfg: Config, r: Rack<RS>, prev: seq<real>, cur: seq<real>, ext: seq<real>,
                         d: nat): (q: (Rack<RS>, seq<real>))
    requires Playable(cfg, r, prev, cur, ext) && d <= cfg.n
    ensures Playable(cfg, q.0, prev, q.1, ext) && |q.0.pool| == |r.pool|
  {
    if d == 0 then (r, cur)
    else
      var (r1, cur1) := RunVoices(k, cfg, r, prev, cur, ext, d - 1);
      OneVoice(k, cfg, r1, prev, cur1, ext, d - 1)
  }

  // ---- the output ----

  // Equal-power pan: left and right, nothing in further channels.
  function Weight(cfg: Config, d: nat, c: nat): real
    requires Wired(cfg) && d < cfg.n
  {
    var theta := (cfg.mix[d].pan * 0.5 + 0.5) * 1.5707963267948966;
    if c == 0 then cfg.mix[d].level * cfg.cos(theta)
    else if c == 1 then cfg.mix[d].level * cfg.sin(theta)
    else 0.0
  }

  // The first `d` voices' shares of frame f, channel c.
  function Mixed(cfg: Config, cur: seq<real>, f: nat, c: nat, d: nat): real
    requires Wired(cfg) && |cur| == cfg.n * cfg.block && f < cfg.block && d <= cfg.n
  {
    if d == 0 then 0.0
    else
      CellInside(d - 1, f, cfg.n, cfg.block);
      Mixed(cfg, cur, f, c, d - 1) + Times(cur[Cell(d - 1, f, cfg.block)], Weight(cfg, d - 1, c))
  }

  function Frame(cfg: Config, cur: seq<real>, f: nat): (row: seq<real>)
    requires Wired(cfg) && |cur| == cfg.n * cfg.block && f < cfg.block
    ensures |row| == cfg.channels
  {
    seq(cfg.channels, c requires 0 <= c < cfg.channels => Mixed(cfg, cur, f, c, cfg.n))
  }

  // Samples in `frames` interleaved frames.
  function Span(cfg: Config, frames: nat): nat {
    frames * cfg.channels
  }

  function Interleaved(cfg: Config, cur: seq<real>, frames: nat): (out: seq<real>)
    requires Wired(cfg) && |cur| == cfg.n * cfg.block && frames <= cfg.block
    ensures |out| == Span(cfg, frames)
  {
    if frames == 0 then [] else Interleaved(cfg, cur, frames - 1) + Frame(cfg, cur, frames - 1)
  }

  lemma {:induction false} InterleavedAt(cfg: Config, cur: seq<real>, frames: nat, f: nat, c: nat)
    requires Wired(cfg) && |cur| == cfg.n * cfg.block && frames <= cfg.block && f < frames && c < cfg.channels
    ensures Cell(f, c, cfg.channels) < |Interleaved(cfg, cur, frames)|
    ensures Interleaved(cfg, cur, frames)[Cell(f, c, cfg.channels)] == Mixed(cfg, cur, f, c, cfg.n)
  {
    CellInside(f, c, frames, cfg.channels);
    if f < frames - 1 {
      InterleavedAt(cfg, cur, frames - 1, f, c);
    }
  }

  // A flat array with the right number in every cell is the interleaving.
  lemma {:induction false} CellsMakeInterleaved(cfg: Config, cur: seq<real>, frames: nat, out: seq<real>)
    requires Wired(cfg) && |cur| == cfg.n * cfg.block && frames <= cfg.block && |out| == Span(cfg, frames)
    requires forall f: nat, c: nat :: f < frames && c < cfg.channels ==>
               Cell(f, c, cfg.channels) < |out| && out[Cell(f, c, cfg.channels)] == Mixed(cfg, cur, f, c, cfg.n)
    ensures out == Interleaved(cfg, cur, frames)
  {
    if frames > 0 {
      var cut := Cell(frames - 1, 0, cfg.channels);
      CutBefore(frames - 1, cfg.channels);
      CellsInside(frames - 1, cfg.channels);
      var last := Frame(cfg, cur, frames - 1);
      hide Cell, Mixed, Wired;
      CellsMakeInterleaved(cfg, cur, frames - 1, out[..cut]);
      forall c: nat | c < cfg.channels ensures out[cut..][c] == last[c] {
        assert Cell(frames - 1, c, cfg.channels) == cut + c;
      }
      assert out == out[..cut] + last;
    }
  }

  lemma CutBefore(f: nat, width: nat)
    ensures Cell(f, 0, width) == f * width && Cell(f, 0, width) + width == (f + 1) * width
    ensures forall c: nat :: Cell(f, c, width) == Cell(f, 0, width) + c
  {
  }

  lemma CellsSpan(cfg: Config, frames: nat)
    ensures forall f: nat, c: nat :: f < frames && c < cfg.channels ==> Cell(f, c, cfg.channels) < Span(cfg, frames)
  {
    CellsInside(frames, cfg.channels);
  }

  // Rows other than the spliced one keep their samples.
  lemma SpliceRow(s: seq<real>, rows: nat, width: nat, d: nat, o: seq<real>)
    requires |s| == rows * width && d < rows && 0 < width && |o| <= width
    ensures Cell(d, 0, width) + |o| <= |s|
    ensures var s' := Splice(s, Cell(d, 0, width), o);
            && |s'| == |s|
            && (forall r: nat, c: nat :: r < rows && c < width && r != d ==>
                 Cell(r, c, width) < |s| && s'[Cell(r, c, width)] == s[Cell(r, c, width)])
            && (forall c: nat :: c < |o| ==> Cell(d, c, width) < |s| && s'[Cell(d, c, width)] == o[c])
  {
    CellInside(d, 0, rows, width);
    CellsInside(rows, width);
    forall r: nat, c: nat | r < rows && c < width && r != d
      ensures Cell(r, c, width) < Cell(d, 0, width) || Cell(r, c, width) >= Cell(d, 0, width) + width
    {
      if r < d { Monotone(r + 1, d, width); } else { Monotone(d + 1, r, width); }
    }
  }

  lemma {:induction false} MixedFrame(cfg: Config, cur: seq<real>, cur': seq<real>, f: nat, c: nat, d: nat)
    requires Wired(cfg) && |cur| == |cur'| == cfg.n * cfg.block && f < cfg.block && d <= cfg.n
    requires forall r: nat :: r < d ==>
               Cell(r, f, cfg.block) < |cur| && cur[Cell(r, f, cfg.block)] == cur'[Cell(r, f, cfg.block)]
    ensures Mixed(cfg, cur, f, c, d) == Mixed(cfg, cur', f, c, d)
  {
    if d > 0 { MixedFrame(cfg, cur, cur', f, c, d - 1); }
  }

  // ---- the engine around the mixer ----

  // The two output buffers change places after every block.
  datatype Live<RS> = Live(r: Rack<RS>, prev: seq<real>, cur: seq<real>)

  predicate Alive<RS>(cfg: Config, st: Live<RS>) {
    Playable(cfg, st.r, st.prev, st.cur, [])
  }

  function Core<RS>(k: Kernel<RS>, cfg: Config, st: Live<RS>, ext: seq<real>): (q: (Live<RS>, seq<real>))
    requires Alive(cfg, st) && |ext| <= cfg.block
    ensures Alive(cfg, q.0) && |q.1| == Span(cfg, |ext|)
  {
    var (r, cur) := RunVoices(k, cfg, st.r, st.prev, st.cur, ext, cfg.n);
    (Live(r, cur, st.prev), Interleaved(cfg, cur, |ext|))
  }

  function Chunk(cfg: Config, frames: nat): nat {
    if frames < cfg.block then frames else cfg.block
  }

  lemma SpanAdds(cfg: Config, a: nat, b: nat)
    ensures Span(cfg, a + b) == Span(cfg, a) + Span(cfg, b)
  {
  }

  // Offline rendering: whole blocks, then what is left.
  function RenderAll<RS>(k: Kernel<RS>, cfg: Config, st: Live<RS>, xs: seq<real>): (q: (Live<RS>, seq<real>))
    requires Alive(cfg, st)
    ensures Alive(cfg, q.0) && |q.1| == Span(cfg, |xs|)
    decreases |xs|
  {
    if xs == [] then (st, [])
    else
      var c := Chunk(cfg, |xs|);
      var (st1, out1) := Core(k, cfg, st, xs[..c]);
      var (st2, out2) := RenderAll(k, cfg, st1, xs[c..]);
      SpanAdds(cfg, c, |xs| - c);
      (st2, out1 + out2)
  }
}
