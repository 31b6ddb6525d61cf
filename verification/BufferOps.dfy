/**
 The one blended write behind read, copy and clear (`buffer_ops.hpp`), and the
 channel average built on it.
 */
module BufferOps {
  import opened Options

  function Min(a: int, b: int): int { if a < b then a else b }

  function Max(a: int, b: int): int { if a > b then a else b }

  function Times(x: real, y: real): real { x * y }

  function Abs(x: real): real { if x < 0.0 then -x else x }

  // ---- the envelope ----

  // One inside, a ramp of f frames at each edge.
  function FadeEnv(i: int, n: int, f: int): real {
    if f <= 0 then 1.0
    else if i < f then i as real / f as real
    else if i >= n - f then (n - 1 - i) as real / f as real
    else 1.0
  }

  // With the fade capped at half the window, the ramps do not meet and the envelope is
  // symmetric.
  lemma EnvelopeSymmetric(i: int, n: int, f: int)
    requires 0 <= i < n && f <= n / 2
    ensures 0.0 <= FadeEnv(i, n, f) <= 1.0 && FadeEnv(i, n, f) == FadeEnv(n - 1 - i, n, f)
    ensures f > 0 && i < f ==> i < n - f
  {
    if f > 0 && i < f { Ratio(i, f); }
    if f > 0 && i >= n - f { Ratio(n - 1 - i, f); }
  }

  lemma Ratio(a: int, b: int)
    requires 0 <= a < b
    ensures 0.0 <= a as real / b as real <= 1.0
  {
    var q := a as real / b as real;
    assert q * b as real == a as real;
  }

  // ---- the blended write ----

  // What is asked for: `nsrc` samples of `src` (silence when there is none) at `start`.
  datatype Job = Job(start: int, src: Option<seq<real>>, nsrc: int, preserve: real, mix: real, fade: int)

  predicate Sourced(j: Job) {
    j.src.Some? ==> j.nsrc <= |j.src.value|
  }

  // The part of the buffer it reaches.
  function From(j: Job): int { Max(j.start, 0) }

  function To(j: Job, frames: nat): int { Min(j.start + j.nsrc, frames) }

  function Blend(d: real, sv: real, preserve: real, mix: real, env: real): real {
    Times(d, 1.0 - env) + Times(Times(d, preserve) + Times(sv, mix), env)
  }

  // Sample p of the result: source sample p - start blended in under the envelope.
  function Sample(buf: seq<real>, j: Job, p: nat): real
    requires Sourced(j) && p < |buf|
  {
    var n := To(j, |buf|) - From(j);
    if From(j) <= p < To(j, |buf|) then
      var sv := if j.src.None? then 0.0 else j.src.value[p - j.start];
      Blend(buf[p], sv, j.preserve, j.mix, FadeEnv(p - From(j), n, Min(j.fade, n / 2)))
    else buf[p]
  }

  function Applied(buf: seq<real>, j: Job): (r: seq<real>)
    requires Sourced(j)
    ensures |r| == |buf|
  {
    seq(|buf|, p requires 0 <= p < |buf| => Sample(buf, j, p))
  }

  lemma FullEnvelope(d: real, sv: real, preserve: real, mix: real)
    ensures Blend(d, sv, preserve, mix, 1.0) == Times(d, preserve) + Times(sv, mix)
  {
  }

  // Part of the way from what was there to the target.
  function Way(was: real, target: real, part: real): real {
    was + (target - was) * part
  }

  // What a fade of f samples at both edges of a window of n makes of its sample i: the
  // target itself between the ramps and where there is no fade, what was there at either
  // edge, and on the ramps in even steps from one to the other.
  predicate Faded(was: real, target: real, now: real, i: int, n: int, f: int) {
    if f <= 0 || f <= i < n - f then now == target
    else if i == 0 || i == n - 1 then now == was
    else now == Way(was, target, (if i < f then i else n - 1 - i) as real / f as real)
  }

  // What the window's sample p goes to when nothing is faded.
  function Target(j: Job, was: real, p: nat): real
    requires Sourced(j) && j.start <= p < j.start + j.nsrc
  {
    was * j.preserve + (if j.src.None? then 0.0 else j.src.value[p - j.start] * j.mix)
  }

  // Every sample of the window after the write, the fade capped at half the window.
  lemma FadedWindow(buf: seq<real>, j: Job, p: nat)
    requires Sourced(j) && p < |buf| && j.start <= p < j.start + j.nsrc
    ensures var lo := if j.start < 0 then 0 else j.start;
            var n := (if j.start + j.nsrc < |buf| then j.start + j.nsrc else |buf|) - lo;
            Faded(buf[p], Target(j, buf[p], p), Applied(buf, j)[p], p - lo, n, if j.fade < n / 2 then j.fade else n / 2)
  {
    var lo, n := From(j), To(j, |buf|) - From(j);
    var f := Min(j.fade, n / 2);
    BlendIsWay(j, buf[p], p, FadeEnv(p - lo, n, f));
    EnvelopeFades(buf[p], Target(j, buf[p], p), p - lo, n, f);
    hide Blend, FadeEnv, Faded, Target, Way;
  }

  lemma BlendIsWay(j: Job, was: real, p: nat, env: real)
    requires Sourced(j) && j.start <= p < j.start + j.nsrc
    ensures Blend(was, if j.src.None? then 0.0 else j.src.value[p - j.start], j.preserve, j.mix, env)
            == Way(was, Target(j, was, p), env)
  {
    var target := Target(j, was, p);
    assert (target - was) * env == target * env - was * env;
  }

  lemma EnvelopeFades(was: real, target: real, i: int, n: int, f: int)
    requires 0 <= i < n && f <= n / 2
    ensures Faded(was, target, Way(was, target, FadeEnv(i, n, f)), i, n, f)
  {
    if f > 0 && (i == 0 || i == n - 1) { assert 0.0 / f as real == 0.0; }
  }

  method ApplyToBuffer(buf: array<real>, start0: int, src: array?<real>, nsrc: int, preserve: real, mix: real,
                       fade: int)
    requires src != buf && (src != null ==> nsrc <= src.Length)
    modifies buf
    ensures buf[..] == Applied(old(buf[..]),
            Job(start0, if src == null then None else Some(src[..]), nsrc, preserve, mix, fade))
  {
    ghost var j := Job(start0, if src == null then None else Some(src[..]), nsrc, preserve, mix, fade);
    ghost var was := buf[..];
    var start, off := start0, 0;
    if start < 0 {
      off := -start;
      start := 0;
    }
    var n := Min(nsrc - off, buf.Length - start);
    if n <= 0 {
      assert To(j, buf.Length) <= From(j);
      return;
    }
    var f := Min(fade, n / 2);
    assert From(j) == start && To(j, buf.Length) == start + n;
    if f <= 0 {
      ApplyUnfaded(buf, start, n, src, off, preserve, mix, j);
      return;
    }
    hide Times, Blend, FadeEnv;
    for i := 0 to n
      invariant forall p :: 0 <= p < buf.Length ==>
                  buf[p] == if start <= p < start + i then Sample(was, j, p) else was[p]
    {
      var env := FadeEnv(i, n, f);
      var d := buf[start + i];
      var sv := if src != null then src[off + i] else 0.0;
      buf[start + i] := Blend(d, sv, preserve, mix, env);
    }
  }

  // The common case: the envelope is one throughout.
  method ApplyUnfaded(buf: array<real>, start: nat, n: nat, src: array?<real>, off: nat, preserve: real, mix: real,
                      ghost j: Job)
    requires src != buf && start + n <= buf.Length && (src != null ==> off + n <= src.Length)
    requires Sourced(j) && j.src == (if src == null then None else Some(src[..])) && j.preserve == preserve
             && j.mix == mix
    requires From(j) == start && To(j, buf.Length) == start + n && j.start == start - off && Min(j.fade, n / 2) <= 0
    modifies buf
    ensures buf[..] == Applied(old(buf[..]), j)
  {
    ghost var was := buf[..];
    SilentBlend();
    hide Times, Blend;
    if src == null && preserve == 0.0 {
      for i := 0 to n
        invariant forall p :: 0 <= p < buf.Length ==>
                    buf[p] == if start <= p < start + i then Sample(was, j, p) else was[p]
      {
        FullEnvelope(was[start + i], 0.0, 0.0, mix);
        buf[start + i] := 0.0;
      }
    } else if src == null {
      for i := 0 to n
        invariant forall p :: 0 <= p < buf.Length ==>
                    buf[p] == if start <= p < start + i then Sample(was, j, p) else was[p]
      {
        FullEnvelope(was[start + i], 0.0, preserve, mix);
        buf[start + i] := Times(buf[start + i], preserve);
      }
    } else {
      for i := 0 to n
        invariant forall p :: 0 <= p < buf.Length ==>
                    buf[p] == if start <= p < start + i then Sample(was, j, p) else was[p]
      {
        FullEnvelope(was[start + i], src[off + i], preserve, mix);
        buf[start + i] := Times(buf[start + i], preserve) + Times(src[off + i], mix);
      }
    }
  }

  lemma SilentBlend()
    ensures forall x: real :: Times(0.0, x) == 0.0 && Times(x, 0.0) == 0.0
  {
  }

  // A negative start is the same as leaving out the head of the source.
  lemma NegativeStartTrims(buf: seq<real>, j: Job)
    requires Sourced(j) && j.start < 0 && -j.start <= j.nsrc && j.src.Some?
    ensures Applied(buf, j)
            == Applied(buf, j.(start := 0, src := Some(j.src.value[-j.start..]), nsrc := j.nsrc + j.start))
  {
    hide Blend, FadeEnv;
  }

  // Only the window changes: from the start, or the buffer's, to the source's end, or
  // the buffer's.
  lemma OnlyTheWindow(buf: seq<real>, j: Job, p: nat)
    requires Sourced(j) && p < |buf| && !(j.start <= p < j.start + j.nsrc)
    ensures Applied(buf, j)[p] == buf[p]
  {
    hide Blend, FadeEnv;
  }

  // Gains that add up to no more than one keep every sample within the bound.
  lemma StaysWithin(buf: seq<real>, j: Job, bound: real, p: nat)
    requires Sourced(j) && p < |buf| && bound >= 0.0
    requires (forall q :: 0 <= q < |buf| ==> Abs(buf[q]) <= bound)
    requires j.src.Some? ==> forall q :: 0 <= q < |j.src.value| ==> Abs(j.src.value[q]) <= bound
    requires j.preserve >= 0.0 && j.mix >= 0.0 && j.preserve + j.mix <= 1.0
    ensures Abs(Applied(buf, j)[p]) <= bound
  {
    var n := To(j, |buf|) - From(j);
    if From(j) <= p < To(j, |buf|) {
      var sv := if j.src.None? then 0.0 else j.src.value[p - j.start];
      var env := FadeEnv(p - From(j), n, Min(j.fade, n / 2));
      EnvelopeSymmetric(p - From(j), n, Min(j.fade, n / 2));
      assert Abs(sv) <= bound;
      hide Blend, FadeEnv, Abs;
      BlendWithin(buf[p], sv, j.preserve, j.mix, env, bound);
    }
  }

  lemma BlendWithin(d: real, sv: real, preserve: real, mix: real, env: real, bound: real)
    requires Abs(d) <= bound && Abs(sv) <= bound && 0.0 <= env <= 1.0
    requires preserve >= 0.0 && mix >= 0.0 && preserve + mix <= 1.0
    ensures Abs(Blend(d, sv, preserve, mix, env)) <= bound
  {
    Convex(d, sv, preserve, mix, bound);
    Convex(d, Times(d, preserve) + Times(sv, mix), 1.0 - env, env, bound);
    hide Times, Abs;
  }

  lemma Convex(x: real, y: real, k: real, l: real, bound: real)
    requires Abs(x) <= bound && Abs(y) <= bound && k >= 0.0 && l >= 0.0 && k + l <= 1.0
    ensures Abs(Times(x, k) + Times(y, l)) <= bound
  {
    Scaled(x, k, bound);
    Scaled(y, l, bound);
    hide Times;
    Shrunk(k, l, bound);
  }

  lemma Scaled(x: real, k: real, bound: real)
    requires Abs(x) <= bound && k >= 0.0
    ensures -Times(bound, k) <= Times(x, k) <= Times(bound, k)
  {
    assert (bound - x) * k >= 0.0 && (bound + x) * k >= 0.0;
  }

  lemma Shrunk(k: real, l: real, bound: real)
    requires k >= 0.0 && l >= 0.0 && k + l <= 1.0 && bound >= 0.0
    ensures Times(bound, k) + Times(bound, l) <= bound
  {
    assert bound * (1.0 - (k + l)) >= 0.0;
  }

  // ---- channels ----

  // Frame s0 + i of channel col, silence outside the data.
  function ChannelSample(data: seq<real>, channels: nat, col: nat, si: int, total: nat): real
    requires col < channels && total * channels <= |data|
  {
    if 0 <= si < total then CellInData(channels, col, si, total); data[si * channels + col] else 0.0
  }

  lemma CellInData(channels: nat, col: nat, si: nat, total: nat)
    requires col < channels && si < total
    ensures si * channels + col < total * channels
  {
    assert (si + 1) * channels <= total * channels;
  }

  function Channel(data: seq<real>, channels: nat, col: nat, s0: int, n: nat, total: nat): (out: seq<real>)
    requires col < channels && total * channels <= |data|
    ensures |out| == n
  {
    seq(n, i requires 0 <= i < n => ChannelSample(data, channels, col, s0 + i, total))
  }

  // De-interleaves `n` frames into `out`.
  method ExtractChannelInto(out: array<real>, data: seq<real>, channels: nat, col: nat, s0: int, n: nat, total: nat)
    requires n <= out.Length && col < channels && total * channels <= |data|
    modifies out
    ensures out[..] == Channel(data, channels, col, s0, n, total) + old(out[n..])
  {
    hide ChannelSample;
    for i := 0 to n
      invariant forall q :: 0 <= q < out.Length ==>
                  out[q] == if q < i then ChannelSample(data, channels, col, s0 + q, total) else old(out[q])
    {
      out[i] := ChannelOne(data, channels, col, s0 + i, total);
    }
  }

  method ChannelOne(data: seq<real>, channels: nat, col: nat, si: int, total: nat) returns (x: real)
    requires col < channels && total * channels <= |data|
    ensures x == ChannelSample(data, channels, col, si, total)
  {
    if 0 <= si < total {
      CellInData(channels, col, si, total);
      x := data[si * channels + col];
    } else {
      x := 0.0;
    }
  }

  // ---- the mono average ----

  // The sum of the first `cols` channels of frame t.
  function ChannelSum(data: seq<real>, channels: nat, t: nat, cols: nat, frames: nat): real
    requires cols <= channels && frames * channels <= |data| && t < frames
  {
    if cols == 0 then 0.0
    else ChannelSum(data, channels, t, cols - 1, frames) + ChannelSample(data, channels, cols - 1, t, frames)
  }

  function Average(data: seq<real>, channels: nat, t: nat, frames: nat): real
    requires channels > 0 && frames * channels <= |data| && t < frames
  {
    ChannelSum(data, channels, t, channels, frames) / channels as real
  }

  // Channels that all hold the same give that, and two give the middle between them.
  lemma {:induction false} SumOfEqual(data: seq<real>, channels: nat, t: nat, cols: nat, frames: nat, y: real)
    requires cols <= channels && frames * channels <= |data| && t < frames
    requires forall c: nat :: c < cols ==> ChannelSample(data, channels, c, t, frames) == y
    ensures ChannelSum(data, channels, t, cols, frames) == cols as real * y
  {
    if cols > 0 {
      SumOfEqual(data, channels, t, cols - 1, frames, y);
      assert (cols - 1) as real * y + y == cols as real * y;
    }
  }

  lemma AverageOfEqual(data: seq<real>, channels: nat, t: nat, frames: nat, y: real)
    requires channels > 0 && frames * channels <= |data| && t < frames
    requires forall c: nat :: c < channels ==> ChannelSample(data, channels, c, t, frames) == y
    ensures Average(data, channels, t, frames) == y
  {
    SumOfEqual(data, channels, t, channels, frames, y);
  }

  lemma AverageOfTwo(data: seq<real>, t: nat, frames: nat)
    requires frames * 2 <= |data| && t < frames
    ensures Average(data, 2, t, frames) == (data[2 * t] + data[2 * t + 1]) / 2.0
  {
    assert ChannelSum(data, 2, t, 1, frames) == ChannelSum(data, 2, t, 0, frames) + data[t * 2 + 0];
    assert ChannelSum(data, 2, t, 2, frames) == ChannelSum(data, 2, t, 1, frames) + data[t * 2 + 1];
  }

  // Every channel added in, then the whole scaled: the average of each frame.
  method MonoOf(data: seq<real>, channels: nat, frames: nat) returns (mono: array<real>)
    requires channels > 0 && frames * channels <= |data|
    ensures fresh(mono) && mono.Length == frames
    ensures forall t :: 0 <= t < frames ==> mono[t] == Average(data, channels, t, frames)
  {
    mono := new real[frames](_ => 0.0);
    var scratch := new real[frames](_ => 0.0);
    for col := 0 to channels
      invariant scratch != mono && fresh(mono) && fresh(scratch) && mono.Length == scratch.Length == frames
      invariant forall t :: 0 <= t < frames ==> mono[t] == ChannelSum(data, channels, t, col, frames)
    {
      hide ChannelSample;
      AddChannel(mono, scratch, data, channels, col, frames);
    }
    hide ChannelSum;
    ScaleDown(mono, channels);
  }

  method AddChannel(mono: array<real>, scratch: array<real>, data: seq<real>, channels: nat, col: nat, frames: nat)
    requires col < channels && frames * channels <= |data| && mono != scratch && mono.Length == scratch.Length == frames
    modifies mono, scratch
    ensures forall t :: 0 <= t < frames ==> mono[t] == old(mono[t]) + ChannelSample(data, channels, col, t, frames)
  {
    hide ChannelSample, Applied;
    ghost var was := mono[..];
    ExtractChannelInto(scratch, data, channels, col, 0, frames, frames);
    ghost var add := scratch[..];
    AddsUp(was, add, frames);
    ApplyToBuffer(mono, 0, scratch, frames, 1.0, 1.0, 0);
    forall t | 0 <= t < frames ensures mono[t] == was[t] + add[t] { assert mono[..][t] == was[t] + add[t]; }
  }

  method ScaleDown(mono: array<real>, channels: nat)
    requires channels > 0
    modifies mono
    ensures forall t :: 0 <= t < mono.Length ==> mono[t] == old(mono[t]) / channels as real
  {
    hide Applied;
    ghost var was := mono[..];
    ScalesBy(was, mono.Length, channels);
    ApplyToBuffer(mono, 0, null, mono.Length, 1.0 / channels as real, 0.0, 0);
    forall t | 0 <= t < mono.Length ensures mono[t] == was[t] / channels as real {
      assert mono[..][t] == was[t] / channels as real;
    }
  }

  // preserve and mix both one: addition.
  lemma AddsUp(buf: seq<real>, src: seq<real>, n: nat)
    requires |buf| == |src| == n
    ensures forall t :: 0 <= t < n ==> Applied(buf, Job(0, Some(src), n, 1.0, 1.0, 0))[t] == buf[t] + src[t]
  {
    forall t | 0 <= t < n ensures Applied(buf, Job(0, Some(src), n, 1.0, 1.0, 0))[t] == buf[t] + src[t] {
      FullEnvelope(buf[t], src[t], 1.0, 1.0);
    }
  }

  // No source: scaling.
  lemma ScalesBy(buf: seq<real>, n: nat, channels: nat)
    requires |buf| == n && channels > 0
    ensures forall t :: 0 <= t < n ==>
              Applied(buf, Job(0, None, n, 1.0 / channels as real, 0.0, 0))[t] == buf[t] / channels as real
  {
    forall t | 0 <= t < n
      ensures Applied(buf, Job(0, None, n, 1.0 / channels as real, 0.0, 0))[t] == buf[t] / channels as real
    {
      FullEnvelope(buf[t], 0.0, 1.0 / channels as real, 0.0);
      Reciprocal(buf[t], channels as real);
    }
  }

  lemma Reciprocal(x: real, c: real)
    requires c > 0.0
    ensures Times(x, 1.0 / c) == x / c && Times(0.0, 0.0) == 0.0
  {
    var r, q := 1.0 / c, x / c;
    assert r * c == 1.0 && q * c == x;
    assert (x * r - q) * c == x * (r * c) - q * c;
  }
}
