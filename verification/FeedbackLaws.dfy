/**
 Feedback between the voices as a delay line: one block long within a rendering, and what
 is heard of one rendering in the next.
 */
module FeedbackLaws {
  import opened Heads
  import opened Mixer
  import opened RenderLaws
  import Division

  // ---- one rendering ----

  // External input plus what the first `d` voices put out a block ago.
  function Fed(cfg: Config, x: real, past: seq<real>, dst: nat, d: nat): real
    requires Wired(cfg) && |past| == cfg.n && dst < cfg.n && d <= cfg.n
  {
    if d == 0 then Times(x, cfg.mix[dst].inputGain)
    else Fed(cfg, x, past, dst, d - 1) + Times(past[d - 1], Gain(cfg, d - 1, dst))
  }

  // Every voice's output one block before t; what the engine starts with, before that.
  function Past<RS>(k: Kernel<RS>, cfg: Config, st: Live<RS>, xs: seq<real>, t: nat): (ys: seq<real>)
    requires Alive(cfg, st) && t < |xs|
    ensures |ys| == cfg.n
  {
    seq(cfg.n, d requires 0 <= d < cfg.n =>
      if t < cfg.block then Row(cfg, st.prev, d, cfg.block)[t] else Outputs(k, cfg, st, xs, d)[t - cfg.block])
  }

  lemma {:induction false} FeedIsFed(cfg: Config, prev: seq<real>, x: real, dst: nat, f: nat, past: seq<real>, d: nat)
    requires Wired(cfg) && |prev| == cfg.n * cfg.block && |past| == cfg.n && dst < cfg.n && d <= cfg.n && f < cfg.block
    requires forall i :: 0 <= i < cfg.n ==> Row(cfg, prev, i, cfg.block)[f] == past[i]
    ensures Feed(cfg, prev, x, dst, f, d) == Fed(cfg, x, past, dst, d)
  {
    if d > 0 {
      FeedIsFed(cfg, prev, x, dst, f, past, d - 1);
      RowCell(cfg, prev, d - 1, cfg.block, f);
      hide Gain;
    }
  }

  lemma PastLater<RS>(k: Kernel<RS>, cfg: Config, st: Live<RS>, xs: seq<real>, t: nat)
    requires Alive(cfg, st) && cfg.block <= t < |xs|
    ensures var st1 := Core(k, cfg, st, xs[..cfg.block]).0;
            Past(k, cfg, st, xs, t) == Past(k, cfg, st1, xs[cfg.block..], t - cfg.block)
  {
    hide Core, Row, Outputs, Alive, Past;
    var b := cfg.block;
    AliveSizes(cfg, st);
    FirstBlock(k, cfg, st, xs);
    var st1 := Core(k, cfg, st, xs[..b]).0;
    forall d: nat | d < cfg.n
      ensures Past(k, cfg, st, xs, t)[d] == Past(k, cfg, st1, xs[b..], t - b)[d]
    {
      PastOf(k, cfg, st, xs, t, d);
      PastOf(k, cfg, st1, xs[b..], t - b, d);
      OutputsFirst(k, cfg, st, xs, d);
    }
  }

  lemma PastOf<RS>(k: Kernel<RS>, cfg: Config, st: Live<RS>, xs: seq<real>, t: nat, d: nat)
    requires Alive(cfg, st) && t < |xs| && d < cfg.n
    ensures Wired(cfg) && |st.prev| == cfg.n * cfg.block
    ensures t < cfg.block ==> Past(k, cfg, st, xs, t)[d] == Row(cfg, st.prev, d, cfg.block)[t]
    ensures t >= cfg.block ==> Past(k, cfg, st, xs, t)[d] == Outputs(k, cfg, st, xs, d)[t - cfg.block]
  {
    hide Row, Outputs;
  }

  // Voice `dst` hears at t the external input and every voice's output exactly one block
  // earlier: only the last block of a rendering can be shorter.
  lemma {:induction false} FeedbackIsDelay<RS>(k: Kernel<RS>, cfg: Config, st: Live<RS>, xs: seq<real>, dst: nat,
                                               t: nat)
    requires Alive(cfg, st) && t < |xs| && dst < cfg.n
    ensures Inputs(k, cfg, st, xs, dst)[t] == Fed(cfg, xs[t], Past(k, cfg, st, xs, t), dst, cfg.n)
    decreases t
  {
    hide Row, Core, Inputs, VoiceIn, Alive, Fed, Past, RenderAll;
    AliveSizes(cfg, st);
    if t < cfg.block {
      FirstFed(k, cfg, st, xs, dst, t);
    } else {
      FirstBlock(k, cfg, st, xs);
      InputsFirst(k, cfg, st, xs, dst);
      FeedbackIsDelay(k, cfg, Core(k, cfg, st, xs[..cfg.block]).0, xs[cfg.block..], dst, t - cfg.block);
      PastLater(k, cfg, st, xs, t);
    }
  }

  lemma FirstFed<RS>(k: Kernel<RS>, cfg: Config, st: Live<RS>, xs: seq<real>, dst: nat, t: nat)
    requires Alive(cfg, st) && t < cfg.block && t < |xs| && dst < cfg.n
    ensures Inputs(k, cfg, st, xs, dst)[t] == Fed(cfg, xs[t], Past(k, cfg, st, xs, t), dst, cfg.n)
  {
    AliveSizes(cfg, st);
    InputsFirst(k, cfg, st, xs, dst);
    hide Row, Core, Inputs, Alive;
    FeedIsFed(cfg, st.prev, xs[t], dst, t, Past(k, cfg, st, xs, t), cfg.n);
  }

  // From a fresh engine: nothing fed back before time 0.
  lemma SilentPast<RS>(k: Kernel<RS>, cfg: Config, st: Live<RS>, xs: seq<real>, t: nat, d: nat)
    requires Alive(cfg, st) && t < |xs| && d < cfg.n && forall y | y in st.prev :: y == 0.0
    ensures Past(k, cfg, st, xs, t)[d] == if t < cfg.block then 0.0 else Outputs(k, cfg, st, xs, d)[t - cfg.block]
  {
    hide Row, Outputs, Alive;
    AliveSizes(cfg, st);
    if t < cfg.block {
      RowCell(cfg, st.prev, d, cfg.block, t);
      assert st.prev[Cell(d, t, cfg.block)] in st.prev;
    }
  }

  // ---- the next rendering ----

  // What is left of a rendering in voice d's row of the block that the next one hears.
  // After whole blocks, the last of them.  After p frames of a block begun, those frames,
  // and behind them what the same array held before: the block before the last whole one,
  // or what the engine started with.
  function LeftOver<RS>(k: Kernel<RS>, cfg: Config, st: Live<RS>, xs: seq<real>, d: nat, t: nat): real
    requires Alive(cfg, st) && d < cfg.n && t < cfg.block
  {
    var b, p := cfg.block, |xs| % cfg.block;
    WholeLength(|xs|, b);
    if xs == [] then Row(cfg, st.prev, d, b)[t]
    else if p == 0 then Outputs(k, cfg, st, xs, d)[|xs| - b + t]
    else if t < p then Outputs(k, cfg, st, xs, d)[|xs| - p + t]
    else if |xs| - p >= 2 * b then Outputs(k, cfg, st, xs, d)[|xs| - p - 2 * b + t]
    else if |xs| - p == b then Row(cfg, st.prev, d, b)[t]
    else Row(cfg, st.cur, d, b)[t]
  }

  lemma WholeLength(n: nat, b: nat)
    requires b > 0
    ensures n >= n % b && (n > 0 && n % b == 0 ==> n >= b) && (n < b ==> n % b == n)
    ensures n - n % b < 2 * b ==> n - n % b == 0 || n - n % b == b
  {
    var q := n / b;
    assert n == b * q + n % b;
    if q >= 2 { Monotone(2, q, b); }
  }

  lemma BlockLess(n: nat, b: nat)
    requires 0 < b <= n
    ensures (n - b) % b == n % b
  {
    var q, r := n / b, n % b;
    assert n == b * q + r;
    if q == 0 { assert false; }
    assert n - b == b * (q - 1) + r;
    Division.Remainder(b, q - 1, r);
  }

  // A block leaves the frames of the other array behind its end as they were.
  lemma {:induction false} VoicesKeepRest<RS>(k: Kernel<RS>, cfg: Config, r: Rack<RS>, prev: seq<real>, cur: seq<real>,
                                              ext: seq<real>, n: nat, d: nat, t: nat)
    requires Playable(cfg, r, prev, cur, ext) && n <= cfg.n && d < cfg.n && |ext| <= t < cfg.block
    ensures var cur' := RunVoices(k, cfg, r, prev, cur, ext, n).1;
            Row(cfg, cur', d, cfg.block)[t] == Row(cfg, cur, d, cfg.block)[t]
  {
    hide Row, OneVoice, Racked;
    if n > 0 {
      VoicesKeepRest(k, cfg, r, prev, cur, ext, n - 1, d, t);
      var (r1, cur1) := RunVoices(k, cfg, r, prev, cur, ext, n - 1);
      VoiceKeepsRest(k, cfg, r1, prev, cur1, ext, n - 1, d, t);
    }
  }

  lemma VoiceKeepsRest<RS>(k: Kernel<RS>, cfg: Config, r: Rack<RS>, prev: seq<real>, cur: seq<real>, ext: seq<real>,
                           i: nat, d: nat, t: nat)
    requires Playable(cfg, r, prev, cur, ext) && i < cfg.n && d < cfg.n && |ext| <= t < cfg.block
    ensures var cur' := OneVoice(k, cfg, r, prev, cur, ext, i).1;
            Row(cfg, cur', d, cfg.block)[t] == Row(cfg, cur, d, cfg.block)[t]
  {
    hide Row, Splice, VoiceIn, OneVoice, Alone, Fits;
    TurnIs(k, cfg, r, prev, cur, ext, i);
    var o := Alone(k, cfg, r, VoiceIn(cfg, prev, ext, i), i).2;
    RestAfterSplice(cfg, cur, i, o, d, t);
    RowCell(cfg, cur, d, cfg.block, t);
    RowCell(cfg, Splice(cur, Cell(i, 0, cfg.block), o), d, cfg.block, t);
  }

  lemma RestAfterSplice(cfg: Config, cur: seq<real>, i: nat, o: seq<real>, d: nat, t: nat)
    requires Wired(cfg) && |cur| == cfg.n * cfg.block && i < cfg.n && d < cfg.n && |o| <= t < cfg.block
    ensures Cell(i, 0, cfg.block) + |o| <= |cur| && Cell(d, t, cfg.block) < |cur|
    ensures Splice(cur, Cell(i, 0, cfg.block), o)[Cell(d, t, cfg.block)] == cur[Cell(d, t, cfg.block)]
  {
    SpliceRow(cur, cfg.n, cfg.block, i, o);
    CellInside(d, t, cfg.n, cfg.block);
    if d != i { hide Splice; }
  }

  lemma CoreLeaves<RS>(k: Kernel<RS>, cfg: Config, st: Live<RS>, ext: seq<real>, d: nat, t: nat)
    requires Alive(cfg, st) && |ext| <= cfg.block && d < cfg.n && t < cfg.block
    ensures var st1 := Core(k, cfg, st, ext).0;
            && Alive(cfg, st1) && st1.cur == st.prev
            && Row(cfg, st1.prev, d, cfg.block)[t]
               == (if t < |ext| then Row(cfg, st1.prev, d, |ext|)[t] else Row(cfg, st.cur, d, cfg.block)[t])
  {
    var st1 := Core(k, cfg, st, ext).0;
    if t < |ext| {
      RowCell(cfg, st1.prev, d, cfg.block, t);
      RowCell(cfg, st1.prev, d, |ext|, t);
    } else {
      VoicesKeepRest(k, cfg, st.r, st.prev, st.cur, ext, cfg.n, d, t);
    }
    hide Row, RunVoices, Interleaved, Racked;
  }

  // What a rendering leaves is that.
  lemma {:induction false} RenderingLeaves<RS>(k: Kernel<RS>, cfg: Config, st: Live<RS>, xs: seq<real>, d: nat, t: nat)
    requires Alive(cfg, st) && d < cfg.n && t < cfg.block
    ensures Alive(cfg, RenderAll(k, cfg, st, xs).0)
    ensures Row(cfg, RenderAll(k, cfg, st, xs).0.prev, d, cfg.block)[t] == LeftOver(k, cfg, st, xs, d, t)
    decreases |xs|
  {
    hide Row, Core, Outputs, RenderAll, Alive, LeftOver;
    AliveSizes(cfg, st);
    if xs == [] {
      NothingRendered(k, cfg, st, d, t);
    } else {
      FirstBlock(k, cfg, st, xs);
      var c := Chunk(cfg, |xs|);
      var st1 := Core(k, cfg, st, xs[..c]).0;
      CoreLeaves(k, cfg, st, xs[..c], d, t);
      AliveSizes(cfg, st1);
      RenderingLeaves(k, cfg, st1, xs[c..], d, t);
      LeftOverFirst(k, cfg, st, xs, d, t);
    }
  }

  lemma NothingRendered<RS>(k: Kernel<RS>, cfg: Config, st: Live<RS>, d: nat, t: nat)
    requires Alive(cfg, st) && d < cfg.n && t < cfg.block
    ensures RenderAll(k, cfg, st, []).0 == st && Row(cfg, st.prev, d, cfg.block)[t] == LeftOver(k, cfg, st, [], d, t)
  {
    hide Row;
  }

  lemma LeftOverFirst<RS>(k: Kernel<RS>, cfg: Config, st: Live<RS>, xs: seq<real>, d: nat, t: nat)
    requires Alive(cfg, st) && xs != [] && d < cfg.n && t < cfg.block
    ensures var c := Chunk(cfg, |xs|);
            LeftOver(k, cfg, st, xs, d, t) == LeftOver(k, cfg, Core(k, cfg, st, xs[..c]).0, xs[c..], d, t)
  {
    hide Row, Core, Outputs, RenderAll, Alive;
    AliveSizes(cfg, st);
    FirstBlock(k, cfg, st, xs);
    OutputsFirst(k, cfg, st, xs, d);
    var c := Chunk(cfg, |xs|);
    CoreLeaves(k, cfg, st, xs[..c], d, t);
    WholeLength(|xs|, cfg.block);
    if c < |xs| || c == cfg.block {
      BlockLess(|xs|, cfg.block);
      WholeLength(|xs| - c, cfg.block);
    }
  }

  // In the next rendering a voice hears that during the first block, and from then on
  // again what came one block earlier.  After p frames of a block begun the first p frames
  // are thus heard p frames late and the others two blocks and p frames late.
  lemma NextRenderingHears<RS>(k: Kernel<RS>, cfg: Config, st: Live<RS>, xs: seq<real>, ys: seq<real>, dst: nat, t: nat)
    requires Alive(cfg, st) && t < |ys| && dst < cfg.n
    ensures var st2 := RenderAll(k, cfg, st, xs).0;
            && Inputs(k, cfg, st2, ys, dst)[t] == Fed(cfg, ys[t], Past(k, cfg, st2, ys, t), dst, cfg.n)
            && forall d: nat :: d < cfg.n ==>
                 Past(k, cfg, st2, ys, t)[d]
                 == if t < cfg.block then LeftOver(k, cfg, st, xs, d, t) else Outputs(k, cfg, st2, ys, d)[t - cfg.block]
  {
    hide Row, Core, Outputs, RenderAll, Alive, LeftOver, Past, Inputs, Fed;
    var st2 := RenderAll(k, cfg, st, xs).0;
    FeedbackIsDelay(k, cfg, st2, ys, dst, t);
    forall d: nat | d < cfg.n
      ensures Past(k, cfg, st2, ys, t)[d]
              == if t < cfg.block then LeftOver(k, cfg, st, xs, d, t) else Outputs(k, cfg, st2, ys, d)[t - cfg.block]
    {
      PastOf(k, cfg, st2, ys, t, d);
      if t < cfg.block { RenderingLeaves(k, cfg, st, xs, d, t); }
    }
  }
}
