/**
 Who is heard where: which entry of the feedback matrix leads from which voice to which,
 and what the pan does to a voice's share of every channel.
 */
module Routing {
  import opened Heads
  import opened Mixer
  import opened RenderLaws
  import opened FeedbackLaws

  // ---- the feedback matrix ----

  // Where the gain from src into dst is kept.
  function Entry(n: nat, src: nat, dst: nat): (j: nat)
    requires src < n && dst < n
    ensures j == src * n + dst < n * n
  {
    CellInside(src, dst, n, n);
    src * n + dst
  }

  // A delayed output of every voice, each by its gain into dst: the first `d` of them.
  function Returned(cfg: Config, past: seq<real>, dst: nat, d: nat): real
    requires Wired(cfg) && |past| == cfg.n && dst < cfg.n && d <= cfg.n
  {
    if d == 0 then 0.0
    else Returned(cfg, past, dst, d - 1) + Times(past[d - 1], cfg.fb[Entry(cfg.n, d - 1, dst)])
  }

  lemma {:induction false} FedIsReturned(cfg: Config, x: real, past: seq<real>, dst: nat, d: nat)
    requires Wired(cfg) && |past| == cfg.n && dst < cfg.n && d <= cfg.n
    ensures Fed(cfg, x, past, dst, d) == Times(x, cfg.mix[dst].inputGain) + Returned(cfg, past, dst, d)
  {
    if d > 0 {
      FedIsReturned(cfg, x, past, dst, d - 1);
      assert Gain(cfg, d - 1, dst) == cfg.fb[Entry(cfg.n, d - 1, dst)];
      hide Gain, Entry, Wired;
    }
  }

  // The delay law with the matrix written out: at t voice dst hears its input and every
  // voice src's output one block earlier by the entry src * n + dst.
  lemma HeardFromEach<RS>(k: Kernel<RS>, cfg: Config, st: Live<RS>, xs: seq<real>, dst: nat, t: nat)
    requires Alive(cfg, st) && t < |xs| && dst < cfg.n
    ensures |cfg.mix| == cfg.n && Wired(cfg)
    ensures Inputs(k, cfg, st, xs, dst)[t]
            == Times(xs[t], cfg.mix[dst].inputGain) + Returned(cfg, Past(k, cfg, st, xs, t), dst, cfg.n)
  {
    hide Inputs, Past, Alive, Returned, Fed, Times;
    FeedbackIsDelay(k, cfg, st, xs, dst, t);
    AliveSizes(cfg, st);
    FedIsReturned(cfg, xs[t], Past(k, cfg, st, xs, t), dst, cfg.n);
  }

  // The gain from src into dst set.
  function WithFeedback(cfg: Config, src: nat, dst: nat, g: real): (r: Config)
    requires Wired(cfg) && src < cfg.n && dst < cfg.n
    ensures Wired(r)
  {
    cfg.(fb := cfg.fb[Entry(cfg.n, src, dst) := g])
  }

  lemma EntriesDistinct(n: nat, src: nat, dst: nat, src': nat, dst': nat)
    requires src < n && dst < n && src' < n && dst' < n && Entry(n, src, dst) == Entry(n, src', dst')
    ensures src == src' && dst == dst'
  {
    CellsDistinct(n);
    assert Cell(src, dst, n) == Cell(src', dst', n);
  }

  lemma TimesApart(x: real, g: real, was: real)
    ensures Times(x, g) == Times(x, was) + Times(x, g - was)
  {
  }

  lemma {:induction false} ReturnedChanges(cfg: Config, past: seq<real>, src: nat, dst: nat, g: real, to: nat, d: nat)
    requires Wired(cfg) && |past| == cfg.n && src < cfg.n && dst < cfg.n && to < cfg.n && d <= cfg.n
    ensures Returned(WithFeedback(cfg, src, dst, g), past, to, d)
            == Returned(cfg, past, to, d)
               + (if to == dst && src < d then Times(past[src], g - cfg.fb[Entry(cfg.n, src, dst)]) else 0.0)
  {
    if d > 0 {
      ReturnedChanges(cfg, past, src, dst, g, to, d - 1);
      if Entry(cfg.n, d - 1, to) == Entry(cfg.n, src, dst) { EntriesDistinct(cfg.n, d - 1, to, src, dst); }
      var was := cfg.fb[Entry(cfg.n, src, dst)];
      TimesApart(past[src], g, was);
      hide Entry, Wired, Times;
    }
  }

  // Setting the gain from src into dst changes what dst hears in the next block, by the
  // change of gain times what src put out a block earlier, and what no other voice hears.
  lemma FeedbackSet<RS>(k: Kernel<RS>, cfg: Config, st: Live<RS>, xs: seq<real>, src: nat, dst: nat, g: real,
                        to: nat, t: nat)
    requires Alive(cfg, st) && t < |xs| && t < cfg.block && src < cfg.n && dst < cfg.n && to < cfg.n
    ensures Wired(cfg) && Alive(WithFeedback(cfg, src, dst, g), st)
    ensures Inputs(k, WithFeedback(cfg, src, dst, g), st, xs, to)[t]
            == Inputs(k, cfg, st, xs, to)[t]
               + (if to == dst then Times(Past(k, cfg, st, xs, t)[src], g - cfg.fb[Entry(cfg.n, src, dst)]) else 0.0)
  {
    AliveSizes(cfg, st);
    StillAlive(cfg, st, src, dst, g);
    SamePast(k, cfg, st, xs, src, dst, g, t);
    hide Inputs, Past, Alive, Returned, Entry, Times, WithFeedback;
    var cfg' := WithFeedback(cfg, src, dst, g);
    SameRest(cfg, src, dst, g);
    HeardFromEach(k, cfg, st, xs, to, t);
    HeardFromEach(k, cfg', st, xs, to, t);
    ReturnedChanges(cfg, Past(k, cfg, st, xs, t), src, dst, g, to, cfg.n);
  }

  lemma SameRest(cfg: Config, src: nat, dst: nat, g: real)
    requires Wired(cfg) && src < cfg.n && dst < cfg.n
    ensures var cfg' := WithFeedback(cfg, src, dst, g);
            cfg'.n == cfg.n && cfg'.block == cfg.block && cfg'.mix == cfg.mix
  {
  }

  lemma StillAlive<RS>(cfg: Config, st: Live<RS>, src: nat, dst: nat, g: real)
    requires Alive(cfg, st) && Wired(cfg) && src < cfg.n && dst < cfg.n
    ensures Alive(WithFeedback(cfg, src, dst, g), st)
  {
    hide Fits;
  }

  lemma SamePast<RS>(k: Kernel<RS>, cfg: Config, st: Live<RS>, xs: seq<real>, src: nat, dst: nat, g: real, t: nat)
    requires Wired(cfg) && src < cfg.n && dst < cfg.n
    requires Alive(cfg, st) && Alive(WithFeedback(cfg, src, dst, g), st) && t < |xs| && t < cfg.block
    ensures Past(k, WithFeedback(cfg, src, dst, g), st, xs, t) == Past(k, cfg, st, xs, t)
  {
    hide Outputs, Fits;
  }

  // ---- the pan ----

  // The same rendering's sample with voice d silent at that time.
  function WithoutVoice(cfg: Config, ys: seq<real>, d: nat, c: nat): real
    requires Wired(cfg) && |ys| == cfg.n && d < cfg.n
  {
    Panned(cfg, ys[d := 0.0], c, cfg.n)
  }

  lemma {:induction false} PannedApart(cfg: Config, ys: seq<real>, d: nat, c: nat, m: nat)
    requires Wired(cfg) && |ys| == cfg.n && d < cfg.n && m <= cfg.n
    ensures Panned(cfg, ys, c, m)
            == Panned(cfg, ys[d := 0.0], c, m) + (if d < m then Times(ys[d], Weight(cfg, d, c)) else 0.0)
  {
    if m > 0 {
      PannedApart(cfg, ys, d, c, m - 1);
      TimesNothing(Weight(cfg, d, c));
      hide Times, Weight, Wired;
    }
  }

  lemma TimesNone(x: real)
    ensures Times(x, 0.0) == 0.0
  {
  }

  lemma TimesNothing(x: real)
    ensures Times(0.0, x) == 0.0
  {
  }

  // What voice d adds to channel c of frame t.
  function Share<RS>(k: Kernel<RS>, cfg: Config, st: Live<RS>, xs: seq<real>, t: nat, c: nat, d: nat): real
    requires Alive(cfg, st) && t < |xs| && d < cfg.n && Cell(t, c, cfg.channels) < |RenderAll(k, cfg, st, xs).1|
  {
    RenderAll(k, cfg, st, xs).1[Cell(t, c, cfg.channels)] - WithoutVoice(cfg, OutputsAt(k, cfg, st, xs, t), d, c)
  }

  lemma ShareIs<RS>(k: Kernel<RS>, cfg: Config, st: Live<RS>, xs: seq<real>, t: nat, c: nat, d: nat)
    requires Alive(cfg, st) && t < |xs| && d < cfg.n && c < cfg.channels
    ensures Wired(cfg) && Cell(t, c, cfg.channels) < |RenderAll(k, cfg, st, xs).1|
    ensures Share(k, cfg, st, xs, t, c, d) == Times(Outputs(k, cfg, st, xs, d)[t], Weight(cfg, d, c))
  {
    hide RenderAll, Outputs, Weight, Alive, Times, Cell, Span, Panned;
    AliveSizes(cfg, st);
    OutputIsPanned(k, cfg, st, xs, t, c);
    PannedApart(cfg, OutputsAt(k, cfg, st, xs, t), d, c, cfg.n);
  }

  const QUARTER: real := 1.5707963267948966

  lemma LeftWeights(cfg: Config, d: nat)
    requires Wired(cfg) && d < cfg.n && cfg.mix[d].pan == -1.0 && cfg.cos(0.0) == 1.0 && cfg.sin(0.0) == 0.0
    ensures Weight(cfg, d, 0) == cfg.mix[d].level && Weight(cfg, d, 1) == 0.0
  {
  }

  lemma RightWeights(cfg: Config, d: nat)
    requires Wired(cfg) && d < cfg.n && cfg.mix[d].pan == 1.0 && cfg.cos(QUARTER) == 0.0 && cfg.sin(QUARTER) == 1.0
    ensures Weight(cfg, d, 0) == 0.0 && Weight(cfg, d, 1) == cfg.mix[d].level
  {
  }

  // A voice panned hard to one side reaches that channel at its level and the other not at
  // all.
  lemma HardLeft<RS>(k: Kernel<RS>, cfg: Config, st: Live<RS>, xs: seq<real>, t: nat, d: nat)
    requires Alive(cfg, st) && t < |xs| && d < cfg.n && cfg.channels > 1
    requires Wired(cfg) && cfg.mix[d].pan == -1.0 && cfg.cos(0.0) == 1.0 && cfg.sin(0.0) == 0.0
    ensures |RenderAll(k, cfg, st, xs).1| == Span(cfg, |xs|)
    ensures Cell(t, 0, cfg.channels) < Span(cfg, |xs|) && Cell(t, 1, cfg.channels) < Span(cfg, |xs|)
    ensures Share(k, cfg, st, xs, t, 0, d) == Times(Outputs(k, cfg, st, xs, d)[t], cfg.mix[d].level)
    ensures Share(k, cfg, st, xs, t, 1, d) == 0.0
  {
    LeftWeights(cfg, d);
    TimesNone(Outputs(k, cfg, st, xs, d)[t]);
    hide *;
    TwoShares(k, cfg, st, xs, t, d);
  }

  lemma HardRight<RS>(k: Kernel<RS>, cfg: Config, st: Live<RS>, xs: seq<real>, t: nat, d: nat)
    requires Alive(cfg, st) && t < |xs| && d < cfg.n && cfg.channels > 1
    requires Wired(cfg) && cfg.mix[d].pan == 1.0 && cfg.cos(QUARTER) == 0.0 && cfg.sin(QUARTER) == 1.0
    ensures |RenderAll(k, cfg, st, xs).1| == Span(cfg, |xs|)
    ensures Cell(t, 0, cfg.channels) < Span(cfg, |xs|) && Cell(t, 1, cfg.channels) < Span(cfg, |xs|)
    ensures Share(k, cfg, st, xs, t, 0, d) == 0.0
    ensures Share(k, cfg, st, xs, t, 1, d) == Times(Outputs(k, cfg, st, xs, d)[t], cfg.mix[d].level)
  {
    RightWeights(cfg, d);
    TimesNone(Outputs(k, cfg, st, xs, d)[t]);
    hide *;
    TwoShares(k, cfg, st, xs, t, d);
  }

  lemma TwoShares<RS>(k: Kernel<RS>, cfg: Config, st: Live<RS>, xs: seq<real>, t: nat, d: nat)
    requires Alive(cfg, st) && t < |xs| && d < cfg.n && cfg.channels > 1
    ensures Wired(cfg) && |RenderAll(k, cfg, st, xs).1| == Span(cfg, |xs|)
    ensures Cell(t, 0, cfg.channels) < Span(cfg, |xs|) && Cell(t, 1, cfg.channels) < Span(cfg, |xs|)
    ensures Share(k, cfg, st, xs, t, 0, d) == Times(Outputs(k, cfg, st, xs, d)[t], Weight(cfg, d, 0))
    ensures Share(k, cfg, st, xs, t, 1, d) == Times(Outputs(k, cfg, st, xs, d)[t], Weight(cfg, d, 1))
  {
    hide *;
    AliveSizes(cfg, st);
    OutputIsPanned(k, cfg, st, xs, t, 0);
    OutputIsPanned(k, cfg, st, xs, t, 1);
    ShareIs(k, cfg, st, xs, t, 0, d);
    ShareIs(k, cfg, st, xs, t, 1, d);
  }

  function Square(x: real): real { x * x }

  // Wherever it is panned, its two shares carry the power of its output at its level.
  lemma EqualPower<RS>(k: Kernel<RS>, cfg: Config, st: Live<RS>, xs: seq<real>, t: nat, d: nat)
    requires Alive(cfg, st) && t < |xs| && d < cfg.n && cfg.channels > 1
    requires forall a :: Square(cfg.cos(a)) + Square(cfg.sin(a)) == 1.0
    ensures Wired(cfg) && |RenderAll(k, cfg, st, xs).1| == Span(cfg, |xs|)
    ensures Cell(t, 0, cfg.channels) < Span(cfg, |xs|) && Cell(t, 1, cfg.channels) < Span(cfg, |xs|)
    ensures Square(Share(k, cfg, st, xs, t, 0, d)) + Square(Share(k, cfg, st, xs, t, 1, d))
            == Square(Times(Outputs(k, cfg, st, xs, d)[t], cfg.mix[d].level))
  {
    hide *;
    TwoShares(k, cfg, st, xs, t, d);
    PowerOfBoth(cfg, d, Outputs(k, cfg, st, xs, d)[t]);
  }

  lemma PowerOfBoth(cfg: Config, d: nat, y: real)
    requires Wired(cfg) && d < cfg.n && forall a :: Square(cfg.cos(a)) + Square(cfg.sin(a)) == 1.0
    ensures Square(Times(y, Weight(cfg, d, 0))) + Square(Times(y, Weight(cfg, d, 1)))
            == Square(Times(y, cfg.mix[d].level))
  {
    var a := (cfg.mix[d].pan * 0.5 + 0.5) * 1.5707963267948966;
    assert Square(cfg.cos(a)) + Square(cfg.sin(a)) == 1.0;
    SquaresApart(y, cfg.mix[d].level, cfg.cos(a), cfg.sin(a));
  }

  lemma SquaresApart(y: real, l: real, c: real, s: real)
    requires Square(c) + Square(s) == 1.0
    ensures Square(Times(y, l * c)) + Square(Times(y, l * s)) == Square(y * l)
  {
    var z := y * l;
    assert Times(y, l * c) == z * c && Times(y, l * s) == z * s;
    assert (z * c) * (z * c) == (z * z) * (c * c) && (z * s) * (z * s) == (z * z) * (s * s);
    assert (z * z) * (c * c) + (z * z) * (s * s) == (z * z) * (c * c + s * s);
  }

  // Channels beyond the second stay silent.
  lemma FurtherSilent<RS>(k: Kernel<RS>, cfg: Config, st: Live<RS>, xs: seq<real>, t: nat, c: nat)
    requires Alive(cfg, st) && t < |xs| && 2 <= c < cfg.channels
    ensures Cell(t, c, cfg.channels) < |RenderAll(k, cfg, st, xs).1|
    ensures RenderAll(k, cfg, st, xs).1[Cell(t, c, cfg.channels)] == 0.0
  {
    hide RenderAll, Outputs, Alive, Cell, Span, Panned;
    AliveSizes(cfg, st);
    OutputIsPanned(k, cfg, st, xs, t, c);
    NothingPanned(cfg, OutputsAt(k, cfg, st, xs, t), c, cfg.n);
  }

  lemma {:induction false} NothingPanned(cfg: Config, ys: seq<real>, c: nat, m: nat)
    requires Wired(cfg) && |ys| == cfg.n && m <= cfg.n && c >= 2
    ensures Panned(cfg, ys, c, m) == 0.0
  {
    if m > 0 { NothingPanned(cfg, ys, c, m - 1); }
  }
}
