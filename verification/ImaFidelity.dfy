/**
 Any signal, mono or stereo, coded by the standard encoder in any number of blocks and read
 back: every frame is the encoder's own prediction, and near the signal's.
 */
module ImaFidelity {
  import opened Bytes
  import opened ImaAdpcm
  import opened ImaEncoder
  import opened ImaRoundTrip

  // ---- one block ----

  lemma SizeOfData(channels: nat, g: nat)
    ensures DataSize(channels, g) == 4 * channels * g
  {
    if g > 0 {
      SizeOfData(channels, g - 1);
      assert 4 * channels * g == 4 * channels + 4 * channels * (g - 1);
    }
  }

  function FirstOf(ls: seq<Line>): (f: Frame) {
    seq(|ls|, c requires 0 <= c < |ls| => ls[c].k.p)
  }

  function BlockFrames(ls: seq<Line>, g: nat): (fs: seq<Frame>)
    requires Lined(ls, g)
    ensures |fs| == 1 + 8 * g
  {
    [FirstOf(ls)] + DataFrames(ls, g)
  }

  lemma HeaderBack(k: Coder, h: seq<Byte>, at: nat)
    requires Valid(k) && at + 4 <= |h| && h[at..at + 4] == Header(k)
    ensures Signed16(h[at], h[at + 1]) == k.p && h[at + 2] == k.i
  {
    var b := h[at..at + 4];
    assert h[at] == b[0] && h[at + 1] == b[1] && h[at + 2] == b[2];
  }

  lemma HeadersBack(h: seq<Byte>, ls: seq<Line>, g: nat)
    requires Lined(ls, g) && h == Headers(ls, g)
    ensures Signed16(h[0], h[1]) == ls[0].k.p && h[2] == ls[0].k.i < 89
    ensures |ls| == 2 ==> Signed16(h[4], h[5]) == ls[1].k.p && h[6] == ls[1].k.i < 89
  {
    assert h[0..4] == Header(ls[0].k) && (|ls| == 2 ==> h[4..8] == Header(ls[1].k)) by { hide Header; }
    HeaderBack(ls[0].k, h, 0);
    if |ls| == 2 { HeaderBack(ls[1].k, h, 4); }
  }

  lemma HeaderRead(st: Stream, s: Dec, ls: seq<Line>, g: nat)
    requires Sound(st, s) && Lined(ls, g) && |ls| == st.channels
    requires s.pos + 4 * st.channels <= |st.file| && st.file[s.pos..s.pos + 4 * st.channels] == Headers(ls, g)
    ensures LoadBlock(st, s).Ready?
    ensures var r := LoadBlock(st, s).s; Follows(st, r, ls) && r.cached == 1 && Front(st, r) == FirstOf(ls)
  {
    HeadersBack(st.file[s.pos..s.pos + 4 * st.channels], ls, g);
    hide Signed16, Headers, Header, SeekBy, Wrap32;
  }

  predicate BlockAt(st: Stream, pos: nat, ls: seq<Line>, g: nat)
    requires Lined(ls, g)
  {
    && |ls| == st.channels && pos + st.blockAlign <= |st.file|
    && st.file[pos..pos + st.blockAlign] == Block(ls, g)
  }

  lemma BlockParts(st: Stream, pos: nat, ls: seq<Line>, g: nat)
    requires Lined(ls, g) && BlockAt(st, pos, ls, g)
    ensures var n := 4 * st.channels;
            && pos + n <= |st.file| && st.file[pos..pos + n] == Headers(ls, g)
            && DataAt(st, pos + n, ls, g) && st.blockAlign == n + DataSize(st.channels, g)
    ensures |ls| == st.channels && pos + st.blockAlign <= |st.file|
  {
    hide Headers, Data, DataSize, Lined;
    var n := 4 * st.channels;
    var b := st.file[pos..pos + st.blockAlign];
    assert st.file[pos..pos + n] == b[..n];
    assert st.file[pos + n..pos + st.blockAlign] == b[n..];
  }

  // A block gives the encoder's predictions and leaves the decoder at the next.
  lemma BlockBack(st: Stream, s: Dec, ls: seq<Line>, g: nat)
    requires Sound(st, s) && Whole(st) && g == Groups(st) && s.cached == 0 && s.bytes == 0
    requires Lined(ls, g) && BlockAt(st, s.pos, ls, g) && s.cursor + 1 + 8 * g <= st.total
    ensures var (out, s') := Read(st, s, 1 + 8 * g);
            out == BlockFrames(ls, g) && s'.cached == 0 && s'.bytes == 0 && s'.pos == s.pos + st.blockAlign
  {
    hide Read, Sound, Lined, Headers, DataAt, Follows, LoadBlock, Front, FirstOf, Groups, BlockAt, DataSize, DataFrames;
    BlockParts(st, s.pos, ls, g);
    HeaderRead(st, s, ls, g);
    var s1 := LoadBlock(st, s).s;
    BlockExact(st, s);
    FilledReads(st, s, 1);
    TakeCached(st, s1, 1);
    CachedFrames(st, s1, 1, 0);
    var s2 := Read(st, s1, 1).1;
    LoadedHeader(st, s);
    SizeOfData(st.channels, g);
    FollowsOn(st, s1, s2, ls);
    ReadyForData(st, s2, ls, g);
    DataBack(st, s2, ls, g);
    ReadOn(st, s, 1, 8 * g);
  }

  lemma ReadyForData(st: Stream, s: Dec, ls: seq<Line>, g: nat)
    requires Sound(st, s) && s.cached == 0 && s.bytes == DataSize(st.channels, g) && s.bytes < 0x1_0000
    requires Lined(ls, g) && Follows(st, s, ls) && DataAt(st, s.pos, ls, g) && s.cursor + 8 * g <= st.total
    ensures Before(st, s, ls, g)
  {
  }

  // ---- a signal in blocks ----

  // A channel's samples, and the step index the encoder has come with.
  datatype Signal = Signal(i: int, xs: seq<int>)

  // Frames of n blocks.
  function Length(g: nat, n: nat): nat {
    if n == 0 then 0 else 1 + 8 * g + Length(g, n - 1)
  }

  predicate Sampled(sg: Signal, g: nat, n: nat) {
    Index(sg.i) && Samples(sg.xs) && |sg.xs| == Length(g, n)
  }

  // The next block's line, and what is left behind it.
  function Opened(sg: Signal, g: nat): Line
    requires |sg.xs| >= 1 + 8 * g
  {
    Line(Coder(sg.xs[0], sg.i), sg.xs[1..1 + 8 * g])
  }

  function Later(sg: Signal, g: nat): Signal
    requires |sg.xs| >= 1 + 8 * g && Index(sg.i)
  {
    Signal(After(Opened(sg, g).k, Opened(sg, g).xs).i, sg.xs[1 + 8 * g..])
  }

  // What the encoder makes of the signal, the first sample of each block as it is.
  function Rebuilt(sg: Signal, g: nat, n: nat): (ys: seq<int>)
    requires Sampled(sg, g, n)
    ensures |ys| == Length(g, n)
    decreases n
  {
    if n == 0 then []
    else [sg.xs[0]] + Tracked(Opened(sg, g).k, Opened(sg, g).xs) + Rebuilt(Later(sg, g), g, n - 1)
  }

  // Sample t opens a block.
  predicate Opens(g: nat, t: nat) {
    if t < 1 + 8 * g then t == 0 else Opens(g, t - 1 - 8 * g)
  }

  // The encoder's step index when it comes to sample t.
  function IndexAt(sg: Signal, g: nat, n: nat, t: nat): (i: int)
    requires Sampled(sg, g, n) && t < Length(g, n)
    ensures Index(i)
    decreases n
  {
    if t == 0 then sg.i
    else if t < 1 + 8 * g then After(Opened(sg, g).k, Opened(sg, g).xs[..t - 1]).i
    else IndexAt(Later(sg, g), g, n - 1, t - 1 - 8 * g)
  }

  // Every rebuilt sample is near the signal's, from the one before it.
  lemma {:induction false} RebuiltNear(sg: Signal, g: nat, n: nat, t: nat)
    requires Sampled(sg, g, n) && t < Length(g, n)
    ensures var ys := Rebuilt(sg, g, n);
            if Opens(g, t) then ys[t] == sg.xs[t]
            else t > 0 && Near(StepSize(IndexAt(sg, g, n, t)), ys[t - 1], sg.xs[t], ys[t])
    decreases n
  {
    hide Near, StepSize, Tracked, After;
    var l := Opened(sg, g);
    if 0 < t < 1 + 8 * g {
      TracksNear(l.k, l.xs, t - 1);
    } else if t >= 1 + 8 * g {
      RebuiltNear(Later(sg, g), g, n - 1, t - 1 - 8 * g);
    }
  }

  // ---- one or two channels ----

  predicate AllSampled(sgs: seq<Signal>, g: nat, n: nat) {
    (|sgs| == 1 || |sgs| == 2) && forall c :: 0 <= c < |sgs| ==> Sampled(sgs[c], g, n)
  }

  function Openeds(sgs: seq<Signal>, g: nat, n: nat): (ls: seq<Line>)
    requires AllSampled(sgs, g, n) && n > 0
    ensures |ls| == |sgs| && Lined(ls, g)
  {
    seq(|sgs|, c requires 0 <= c < |sgs| => Opened(sgs[c], g))
  }

  function Laters(sgs: seq<Signal>, g: nat, n: nat): (r: seq<Signal>)
    requires AllSampled(sgs, g, n) && n > 0
    ensures |r| == |sgs| && AllSampled(r, g, n - 1)
  {
    seq(|sgs|, c requires 0 <= c < |sgs| => Later(sgs[c], g))
  }

  function Encoded(sgs: seq<Signal>, g: nat, n: nat): (b: seq<Byte>)
    requires AllSampled(sgs, g, n)
    decreases n
  {
    if n == 0 then [] else Block(Openeds(sgs, g, n), g) + Encoded(Laters(sgs, g, n), g, n - 1)
  }

  function Frames(sgs: seq<Signal>, g: nat, n: nat): (fs: seq<Frame>)
    requires AllSampled(sgs, g, n)
    ensures |fs| == Length(g, n)
    decreases n
  {
    if n == 0 then [] else BlockFrames(Openeds(sgs, g, n), g) + Frames(Laters(sgs, g, n), g, n - 1)
  }

  lemma {:induction false} FrameAt(sgs: seq<Signal>, g: nat, n: nat, t: nat, c: nat)
    requires AllSampled(sgs, g, n) && t < Length(g, n) && c < |sgs|
    ensures |Frames(sgs, g, n)[t]| == |sgs| && Frames(sgs, g, n)[t][c] == Rebuilt(sgs[c], g, n)[t]
    decreases n
  {
    hide Tracked, After;
    if 0 < t < 1 + 8 * g {
      DataFrameAt(Openeds(sgs, g, n), g, t - 1, c);
    } else if t >= 1 + 8 * g {
      FrameAt(Laters(sgs, g, n), g, n - 1, t - 1 - 8 * g, c);
    }
    hide DataFrames;
  }

  // ---- the stream read back ----

  predicate EncodedAt(st: Stream, pos: nat, sgs: seq<Signal>, g: nat, n: nat)
    requires AllSampled(sgs, g, n)
  {
    var b := Encoded(sgs, g, n);
    |sgs| == st.channels && pos + |b| <= |st.file| && st.file[pos..pos + |b|] == b
  }

  lemma FirstBlock(st: Stream, pos: nat, sgs: seq<Signal>, g: nat, n: nat)
    requires Whole(st) && g == Groups(st) && AllSampled(sgs, g, n) && n > 0 && EncodedAt(st, pos, sgs, g, n)
    ensures BlockAt(st, pos, Openeds(sgs, g, n), g)
    ensures EncodedAt(st, pos + st.blockAlign, Laters(sgs, g, n), g, n - 1)
  {
    hide Block, Openeds, Laters, AllSampled, Groups, Whole, Lined;
    var b, block := Encoded(sgs, g, n), Block(Openeds(sgs, g, n), g);
    BlockSize(st, Openeds(sgs, g, n), g);
    var all := st.file[pos..pos + |b|];
    assert st.file[pos..pos + |block|] == all[..|block|];
    assert st.file[pos + |block|..pos + |b|] == all[|block|..];
  }

  lemma BlockSize(st: Stream, ls: seq<Line>, g: nat)
    requires Whole(st) && g == Groups(st) && Lined(ls, g) && |ls| == st.channels
    ensures |Block(ls, g)| == st.blockAlign
  {
    hide Headers, Data, DataSize, Lined;
    SizeOfData(st.channels, g);
  }

  lemma {:induction false} FileBack(st: Stream, s: Dec, sgs: seq<Signal>, g: nat, n: nat)
    requires Sound(st, s) && Whole(st) && g == Groups(st) && s.cached == 0 && s.bytes == 0
    requires AllSampled(sgs, g, n) && EncodedAt(st, s.pos, sgs, g, n) && s.cursor + Length(g, n) <= st.total
    ensures Read(st, s, Length(g, n)).0 == Frames(sgs, g, n)
    decreases n
  {
    hide Read, Sound, AllSampled, EncodedAt, BlockFrames, Openeds, Laters, Groups, Whole, BlockAt;
    if n == 0 {
      ReadNothing(st, s);
    } else {
      FirstBlock(st, s.pos, sgs, g, n);
      BlockBack(st, s, Openeds(sgs, g, n), g);
      FileBack(st, Read(st, s, 1 + 8 * g).1, Laters(sgs, g, n), g, n - 1);
      ReadOn(st, s, 1 + 8 * g, Length(g, n - 1));
    }
  }

  // A signal of 16-bit samples, mono or stereo, in any number of whole blocks of any size
  // the format allows, coded by the standard encoder and decoded: every channel of every
  // frame is the encoder's prediction.
  lemma EncodedThenRead(st: Stream, sgs: seq<Signal>, n: nat, t: nat, c: nat)
    requires Whole(st) && AllSampled(sgs, Groups(st), n) && EncodedAt(st, st.dataPos, sgs, Groups(st), n)
    requires t < Length(Groups(st), n) <= st.total && c < st.channels
    ensures var fs := Straight(st, Length(Groups(st), n));
            && |fs| == Length(Groups(st), n) && |fs[t]| == st.channels && c < |sgs|
            && fs[t][c] == Rebuilt(sgs[c], Groups(st), n)[t]
  {
    assert Playable(st);
    hide Read, Groups, Encoded, AllSampled, Whole;
    FileBack(st, Start(st), sgs, Groups(st), n);
    FrameAt(sgs, Groups(st), n, t, c);
  }

  // So it is the sample itself where a block opens, and elsewhere within an eighth of the
  // step and one of it, unless the signal moved by two steps or more; then it has come
  // nearer by fifteen eighths of the step.
  lemma DecodedNear(st: Stream, sgs: seq<Signal>, n: nat, t: nat, c: nat)
    requires Whole(st) && AllSampled(sgs, Groups(st), n) && EncodedAt(st, st.dataPos, sgs, Groups(st), n)
    requires t < Length(Groups(st), n) <= st.total && c < st.channels
    ensures var fs := Straight(st, Length(Groups(st), n));
            && |fs| == Length(Groups(st), n) && |fs[t]| == st.channels && c < |sgs| && Sampled(sgs[c], Groups(st), n)
            && if Opens(Groups(st), t) then fs[t][c] == sgs[c].xs[t]
               else && t > 0 && |fs[t - 1]| == st.channels
                    && var x, y, step := sgs[c].xs[t], fs[t][c], StepSize(IndexAt(sgs[c], Groups(st), n, t));
                       && (Distance(x, fs[t - 1][c]) < 2 * step ==> 8 * Distance(x, y) <= step + 9)
                       && (Distance(x, fs[t - 1][c]) >= 2 * step ==>
                             Distance(x, y) + 15 * step / 8 <= Distance(x, fs[t - 1][c]) + 2)
  {
    var g := Groups(st);
    assert c < |sgs| && Sampled(sgs[c], g, n);
    hide Read, Groups, EncodedAt, AllSampled, Sampled, Whole, StepSize, IndexAt, Rebuilt, Opens;
    EncodedThenRead(st, sgs, n, t, c);
    RebuiltNear(sgs[c], g, n, t);
    if t > 0 { EncodedThenRead(st, sgs, n, t - 1, c); }
  }
}
