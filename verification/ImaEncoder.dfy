/**
 The encoder of the IMA's "Recommended Practices for Enhancing Digital Audio
 Compatibility in Multimedia Systems" (revision 3.00, section 6), with the block layout of
 WAVE files.  It stands on its own, with the step table as the one thing it shares with
 the decoder: sign first, then the difference compared with the step, half and a quarter
 of it.
 */
module ImaEncoder {
  import opened Bytes
  import opened ImaAdpcm

  // One channel's predicted sample and step index.
  datatype Coder = Coder(p: int, i: int)

  predicate Valid(k: Coder) {
    Sample16(k.p) && Index(k.i)
  }

  // What the comparisons with step, step / 2 and step / 4 gave.
  datatype Size = Size(whole: bool, half: bool, quarter: bool)

  function Compare(step: int, d: nat): Size {
    var whole := d >= step;
    var d1 := if whole then d - step else d;
    var half := d1 >= step / 2;
    var d2 := if half then d1 - step / 2 else d1;
    Size(whole, half, d2 >= step / 4)
  }

  function Magnitude(z: Size): (m: nat)
    ensures m < 8
  {
    (if z.whole then 4 else 0) + (if z.half then 2 else 0) + (if z.quarter then 1 else 0)
  }

  // The difference the decoder will make of it.
  function Quantised(step: int, z: Size): int {
    (if z.whole then step else 0) + (if z.half then step / 2 else 0) + (if z.quarter then step / 4 else 0) + step / 8
  }

  function Distance(x: int, y: int): nat {
    if x < y then y - x else x - y
  }

  const ADAPTATION: seq<int> := [-1, -1, -1, -1, 2, 4, 6, 8]

  // One sample: its code, and the coder behind it.
  function Code(k: Coder, x: int): (n: nat)
    requires Index(k.i)
    ensures n < 16
  {
    Magnitude(Compare(StepSize(k.i), Distance(x, k.p))) + (if x < k.p then 8 else 0)
  }

  function Predicted(k: Coder, x: int): (y: int)
    requires Index(k.i)
    ensures Sample16(y)
  {
    var q := Quantised(StepSize(k.i), Compare(StepSize(k.i), Distance(x, k.p)));
    var y := if x < k.p then k.p - q else k.p + q;
    if y > 32767 then 32767 else if y < -32768 then -32768 else y
  }

  function Adapted(k: Coder, x: int): (i: int)
    requires Index(k.i)
    ensures Index(i)
  {
    var i := k.i + ADAPTATION[Magnitude(Compare(StepSize(k.i), Distance(x, k.p)))];
    if i < 0 then 0 else if i > 88 then 88 else i
  }

  function Next(k: Coder, x: int): (k': Coder)
    requires Index(k.i)
    ensures Valid(k')
  {
    Coder(Predicted(k, x), Adapted(k, x))
  }

  // ---- how near the encoder's prediction comes ----

  // Within an eighth of the step and one more of the sample, unless that is two steps away or
  // more; then on the way to it, by fifteen eighths of the step.
  predicate Near(step: int, p: int, x: int, y: int) {
    if Distance(x, p) < 2 * step then 8 * Distance(x, y) <= step + 9
    else Distance(x, y) + (15 * step) / 8 <= Distance(x, p) + 2
  }

  lemma PredictsNear(k: Coder, x: int)
    requires Valid(k) && Sample16(x)
    ensures Near(StepSize(k.i), k.p, x, Predicted(k, x))
  {
    StepSizes(k.i);
    hide StepSize;
  }

  lemma StepSizes(i: int)
    requires Index(i)
    ensures 7 <= StepSize(i) <= 32767
  {
  }

  // The code the encoder chose is what the decoder needs to follow it.
  lemma Decodes(k: Coder, x: int)
    requires Valid(k)
    ensures NextSample(k.p, k.i, Code(k, x)) == Predicted(k, x)
    ensures NextIndex(k.i, Code(k, x)) == Adapted(k, x)
  {
    hide StepSize;
  }

  // Every step is a tenth larger than the one before, up to rounding; the last is as large
  // as 15 bits allow.
  lemma StepsGrow(i: int)
    requires 0 <= i < 88
    ensures if i < 87 then -8 <= 10 * StepSize(i + 1) - 11 * StepSize(i) <= 8 else StepSize(i + 1) == 32767
  {
    assert StepSize(88) == 32767;
    hide StepSize;
    if i < 30 {
      LowGrow(i);
    } else if i < 60 {
      MiddleGrow(i);
    } else if i < 87 {
      HighGrow(i);
    }
  }

  lemma LowGrow(i: int)
    requires 0 <= i < 30
    ensures -8 <= 10 * StepSize(i + 1) - 11 * StepSize(i) <= 8
  {
  }

  lemma MiddleGrow(i: int)
    requires 30 <= i < 60
    ensures -8 <= 10 * StepSize(i + 1) - 11 * StepSize(i) <= 8
  {
  }

  lemma HighGrow(i: int)
    requires 60 <= i < 87
    ensures -8 <= 10 * StepSize(i + 1) - 11 * StepSize(i) <= 8
  {
  }

  // ---- a channel's samples ----

  function After(k: Coder, xs: seq<int>): (k': Coder)
    requires Index(k.i)
    ensures Index(k'.i) && (Valid(k) ==> Valid(k'))
    decreases |xs|
  {
    if xs == [] then k else After(Next(k, xs[0]), xs[1..])
  }

  function Codes(k: Coder, xs: seq<int>): (ns: seq<int>)
    requires Index(k.i)
    ensures |ns| == |xs| && forall j :: 0 <= j < |ns| ==> 0 <= ns[j] < 16
    decreases |xs|
  {
    if xs == [] then [] else [Code(k, xs[0])] + Codes(Next(k, xs[0]), xs[1..])
  }

  // The predictions made on the way.
  function Tracked(k: Coder, xs: seq<int>): (ys: seq<int>)
    requires Index(k.i)
    ensures |ys| == |xs|
    decreases |xs|
  {
    if xs == [] then [] else [Next(k, xs[0]).p] + Tracked(Next(k, xs[0]), xs[1..])
  }

  lemma {:induction false} AfterSplits(k: Coder, xs: seq<int>, n: nat)
    requires Index(k.i) && n <= |xs|
    ensures var m := After(k, xs[..n]);
            && Index(m.i) && After(k, xs) == After(m, xs[n..])
            && Tracked(k, xs) == Tracked(k, xs[..n]) + Tracked(m, xs[n..])
    decreases n
  {
    hide Next;
    if n == 0 {
      assert xs[0..] == xs;
    } else {
      AfterSplits(Next(k, xs[0]), xs[1..], n - 1);
      assert xs[..n][0] == xs[0] && xs[..n][1..] == xs[1..][..n - 1];
      assert xs[1..][n - 1..] == xs[n..];
    }
  }

  predicate Samples(xs: seq<int>) {
    forall j :: 0 <= j < |xs| ==> Sample16(xs[j])
  }

  // Every prediction is near its sample, from the one before.
  lemma {:induction false} TracksNear(k: Coder, xs: seq<int>, t: nat)
    requires Valid(k) && Samples(xs) && t < |xs|
    ensures var m := After(k, xs[..t]);
            && m.p == (if t == 0 then k.p else Tracked(k, xs)[t - 1])
            && Near(StepSize(m.i), m.p, xs[t], Tracked(k, xs)[t])
    decreases t
  {
    hide Near, StepSize, Predicted, Adapted;
    if t == 0 {
      PredictsNear(k, xs[0]);
    } else {
      TracksNear(Next(k, xs[0]), xs[1..], t - 1);
      assert xs[..t][0] == xs[0] && xs[..t][1..] == xs[1..][..t - 1];
    }
  }

  // ---- words, groups and blocks ----

  // A channel's coder and the samples it has still to code.
  datatype Line = Line(k: Coder, xs: seq<int>)

  predicate Lined(ls: seq<Line>, g: nat) {
    && (|ls| == 1 || |ls| == 2)
    && forall c :: 0 <= c < |ls| ==> Valid(ls[c].k) && Samples(ls[c].xs) && |ls[c].xs| == 8 * g
  }

  // Eight codes, the first in the low half of its byte.
  function Word(ns: seq<int>): (w: seq<Byte>)
    requires |ns| == 8 && forall j :: 0 <= j < 8 ==> 0 <= ns[j] < 16
    ensures |w| == 4
  {
    [ns[0] + 16 * ns[1], ns[2] + 16 * ns[3], ns[4] + 16 * ns[5], ns[6] + 16 * ns[7]]
  }

  function WordOf(l: Line): (w: seq<Byte>)
    requires Index(l.k.i) && |l.xs| >= 8
    ensures |w| == 4
  {
    Word(Codes(l.k, l.xs[..8]))
  }

  function Rest(l: Line): Line
    requires Index(l.k.i) && |l.xs| >= 8
  {
    Line(After(l.k, l.xs[..8]), l.xs[8..])
  }

  // A word for each channel.
  function Group(ls: seq<Line>, g: nat): (b: seq<Byte>)
    requires Lined(ls, g) && g > 0
    ensures |b| == 4 * |ls|
  {
    if |ls| == 1 then WordOf(ls[0]) else WordOf(ls[0]) + WordOf(ls[1])
  }

  function Rests(ls: seq<Line>, g: nat): (r: seq<Line>)
    requires Lined(ls, g) && g > 0
    ensures Lined(r, g - 1) && |r| == |ls|
  {
    seq(|ls|, c requires 0 <= c < |ls| => Rest(ls[c]))
  }

  // Bytes of g groups.
  function DataSize(channels: nat, g: nat): nat {
    if g == 0 then 0 else 4 * channels + DataSize(channels, g - 1)
  }

  function Data(ls: seq<Line>, g: nat): (b: seq<Byte>)
    requires Lined(ls, g)
    ensures |b| == DataSize(|ls|, g)
    decreases g
  {
    if g == 0 then [] else Group(ls, g) + Data(Rests(ls, g), g - 1)
  }

  // A channel's first sample as it is, and its step index.
  function Header(k: Coder): (b: seq<Byte>)
    requires Valid(k)
    ensures |b| == 4
  {
    Le16(if k.p < 0 then k.p + 0x1_0000 else k.p) + [k.i, 0]
  }

  function Headers(ls: seq<Line>, g: nat): (b: seq<Byte>)
    requires Lined(ls, g)
    ensures |b| == 4 * |ls|
  {
    if |ls| == 1 then Header(ls[0].k) else Header(ls[0].k) + Header(ls[1].k)
  }

  function Block(ls: seq<Line>, g: nat): (b: seq<Byte>)
    requires Lined(ls, g)
    ensures |b| == 4 * |ls| + DataSize(|ls|, g)
  {
    Headers(ls, g) + Data(ls, g)
  }
}
