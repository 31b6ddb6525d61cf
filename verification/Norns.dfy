/**
 The norns-compatible buffer operations on two sample buffers, in frames.
 */
module Norns {
  import opened Options
  import BufferOps
  import Pcm

  // A slice's bound: negative ones count from the end, all are held inside.
  function Bound(i: int, n: nat): (b: nat)
    ensures b <= n
  {
    if i < 0 then (if i + n < 0 then 0 else i + n) else if i > n then n else i
  }

  // `s[lo:hi]`
  function Slice(s: seq<real>, lo: int, hi: int): seq<real> {
    var a, b := Bound(lo, |s|), Bound(hi, |s|);
    if a < b then s[a..b] else []
  }

  // `s[lo:]`
  function Tail(s: seq<real>, lo: int): seq<real> {
    s[Bound(lo, |s|)..]
  }

  // How long a region from s0 on is in a buffer of n frames: to the end, or `dur` frames
  // as far as the bounds, counted from either end, allow.
  function RegionLength(n: nat, s0: int, dur: Option<int>): nat {
    if dur.None? then n - Bound(s0, n) else BufferOps.Max(0, Bound(s0 + dur.value, n) - Bound(s0, n))
  }

  function StereoLength(n1: nat, n2: nat, s0: int, dur: Option<int>): nat {
    BufferOps.Min(RegionLength(n1, s0, dur), RegionLength(n2, s0, dur))
  }

  lemma RegionHas(s: seq<real>, s0: int, dur: Option<int>, a: seq<real>)
    requires a == if dur.None? then Tail(s, s0) else Slice(s, s0, s0 + dur.value)
    ensures |a| == RegionLength(|s|, s0, dur)
    ensures forall i :: 0 <= i < |a| ==> Bound(s0, |s|) + i < |s| && a[i] == s[Bound(s0, |s|) + i]
  {
  }

  function Reversed(s: seq<real>): (r: seq<real>)
    ensures |r| == |s|
  {
    seq(|s|, i requires 0 <= i < |s| => s[|s| - 1 - i])
  }

  // The left and right samples in turn.
  function Interleaved(a: seq<real>, b: seq<real>): (r: seq<real>)
    requires |a| == |b|
    ensures |r| == 2 * |a|
  {
    seq(2 * |a|, j requires 0 <= j < 2 * |a| => if j % 2 == 0 then a[j / 2] else b[j / 2])
  }

  // How many frames of a file a read takes: up to its end, or fewer when asked.
  function ReadLength(total: nat, s0: int, dur: Option<int>): nat {
    var avail := BufferOps.Max(total - s0, 0);
    BufferOps.Max(if dur.None? then avail else BufferOps.Min(dur.value, avail), 0)
  }

  // Frame i is read exactly when the file has it and it was asked for.
  lemma ReadLengthIff(total: nat, s0: int, dur: Option<int>, i: nat)
    ensures i < ReadLength(total, s0, dur) <==> s0 + i < total && (dur.Some? ==> i < dur.value)
  {
  }

  // Sample i is of the region exactly when the buffer has it and it was asked for.
  lemma RegionLengthIff(n: nat, s0: nat, dur: Option<int>, i: nat)
    requires dur.Some? ==> dur.value >= 0
    ensures i < RegionLength(n, s0, dur) <==> s0 + i < n && (dur.Some? ==> i < dur.value)
  {
  }

  // The samples a copy takes from its source buffer.
  function CopySource(s: seq<real>, ss: int, dur: Option<int>, reverse: bool): seq<real> {
    var cnt := if dur.None? then |s| - ss else dur.value;
    var region := Slice(s, ss, ss + BufferOps.Max(cnt, 0));
    if reverse then Reversed(region) else region
  }

  function Write(buf: seq<real>, at: int, src: seq<real>, preserve: real, mix: real, fade: int): (r: seq<real>)
    ensures |r| == |buf|
  {
    BufferOps.Applied(buf, BufferOps.Job(at, Some(src), |src|, preserve, mix, fade))
  }

  // Frame i holds the samples of `l` and `r` i behind p and q.
  predicate FrameIs(frames: seq<real>, i: nat, l: seq<real>, p: nat, r: seq<real>, q: nat) {
    && 2 * i + 1 < |frames| && p + i < |l| && q + i < |r|
    && frames[2 * i] == l[p + i] && frames[2 * i + 1] == r[q + i]
  }

  class Buffers {
    const buf1: array<real>
    const buf2: array<real>

    ghost predicate Valid() { buf1 != buf2 }

    constructor (frames: nat)
      ensures Valid() && fresh(buf1) && fresh(buf2) && buf1.Length == buf2.Length == frames
    {
      buf1 := new real[frames](_ => 0.0);
      buf2 := new real[frames](_ => 0.0);
    }

    function Buf(b: int): (a: array<real>)
      ensures b == 1 ==> a == buf1
      ensures b != 1 ==> a == buf2
    {
      if b == 1 then buf1 else buf2
    }

    // A blended write of a sequence.
    method Apply(b: int, at: int, src: seq<real>, preserve: real, mix: real, fade: int)
      requires Valid()
      modifies Buf(b)
      ensures Buf(b)[..] == Write(old(Buf(b)[..]), at, src, preserve, mix, fade)
    {
      var tmp := new real[|src|](i requires 0 <= i < |src| => src[i]);
      assert tmp[..] == src;
      BufferOps.ApplyToBuffer(Buf(b), at, tmp, |src|, preserve, mix, fade);
    }

    // The source is copied out first, so source and target may overlap.  Buffers other
    // than 1 and 2 are refused.
    method BufferCopyMono(srcCh: int, dstCh: int, ss: int, sd: int, dur: Option<int>,
                          fade: int, preserve: real, reverse: bool) returns (ok: bool)
      requires Valid()
      modifies buf1, buf2
      ensures ok == ((srcCh == 1 || srcCh == 2) && (dstCh == 1 || dstCh == 2))
      ensures !ok ==> buf1[..] == old(buf1[..]) && buf2[..] == old(buf2[..])
      ensures ok ==>
                Buf(dstCh)[..]
                == Write(old(Buf(dstCh)[..]), sd, CopySource(old(Buf(srcCh)[..]), ss, dur, reverse),
                         preserve, 1.0, fade)
      ensures ok ==> Buf(3 - dstCh)[..] == old(Buf(3 - dstCh)[..])
    {
      if !(srcCh == 1 || srcCh == 2) || !(dstCh == 1 || dstCh == 2) { return false; }
      hide Write, CopySource;
      var src := CopyOut(Buf(srcCh)[..], ss, dur, reverse);
      Apply(dstCh, sd, src, preserve, 1.0, fade);
      ok := true;
    }

    // Buffers 1 and 2 from s0 on, interleaved for the file writer: frame i holds both
    // buffers' samples i behind the start, as many as the shorter region has.
    method BufferWriteStereo(s0: int, dur: Option<int>) returns (frames: seq<real>)
      ensures |frames| == 2 * StereoLength(buf1.Length, buf2.Length, s0, dur)
      ensures forall i: nat :: i < StereoLength(buf1.Length, buf2.Length, s0, dur) ==>
                FrameIs(frames, i, buf1[..], Bound(s0, buf1.Length), buf2[..], Bound(s0, buf2.Length))
    {
      hide Bound, RegionLength, Interleaved, BufferOps.Min;
      var a := Region(buf1, s0, dur);
      var b := Region(buf2, s0, dur);
      var n := BufferOps.Min(|a|, |b|);
      Shorter(|a|, |b|);
      AllInTurn(a[..n], b[..n]);
      frames := Interleaved(a[..n], b[..n]);
      assert n == StereoLength(buf1.Length, buf2.Length, s0, dur);
      forall i: nat | i < n
        ensures FrameIs(frames, i, buf1[..], Bound(s0, buf1.Length), buf2[..], Bound(s0, buf2.Length))
      {
        assert a[..n][i] == a[i] && b[..n][i] == b[i];
      }
    }

    // One buffer from s0 on.
    method Region(buf: array<real>, s0: int, dur: Option<int>) returns (a: seq<real>)
      ensures |a| == RegionLength(buf.Length, s0, dur)
      ensures forall i :: 0 <= i < |a| ==>
                Bound(s0, buf.Length) + i < buf.Length && a[i] == buf[Bound(s0, buf.Length) + i]
    {
      if dur.None? { a := Tail(buf[..], s0); } else { a := Slice(buf[..], s0, s0 + dur.value); }
      hide Slice, Tail, RegionLength, Bound;
      RegionHas(buf[..], s0, dur, a);
    }

    // A file's first two channels into buffers 1 and 2; a mono file into both.
    method BufferReadStereo(data: seq<real>, channels: nat, s0: int, dur: Option<int>, d0: int, preserve: real,
                            mix: real)
      requires Valid() && channels > 0
      modifies buf1, buf2
      ensures var total := |data| / channels;
              total * channels <= |data|
              && buf1[..] == Write(old(buf1[..]), d0,
                 BufferOps.Channel(data, channels, 0, s0, ReadLength(total, s0, dur), total), preserve, mix, 0)
              && buf2[..] == Write(old(buf2[..]), d0,
                 BufferOps.Channel(data, channels, BufferOps.Min(2, channels) - 1, s0, ReadLength(total, s0, dur),
                     total), preserve, mix, 0)
    {
      WholeFrames(|data|, channels);
      var left := ChannelOf(data, channels, 0, s0, dur);
      Apply(1, d0, left, preserve, mix, 0);
      var right := ChannelOf(data, channels, BufferOps.Min(2, channels) - 1, s0, dur);
      Apply(2, d0, right, preserve, mix, 0);
    }
  }

  lemma WholeFrames(n: nat, channels: nat)
    requires channels > 0
    ensures n / channels * channels <= n
  {
  }

  // A copy of the source, taken before the target is written.
  method CopyOut(s: seq<real>, ss: int, dur: Option<int>, reverse: bool) returns (src: seq<real>)
    ensures src == CopySource(s, ss, dur, reverse)
  {
    hide Slice, Reversed;
    var cnt := if dur.None? then |s| - ss else dur.value;
    src := Slice(s, ss, ss + BufferOps.Max(cnt, 0));
    if reverse { src := Reversed(src); }
  }

  // `_channel`: one channel of an interleaved read.
  method ChannelOf(data: seq<real>, channels: nat, col: nat, s0: int, dur: Option<int>) returns (out: seq<real>)
    requires col < channels
    ensures |data| / channels * channels <= |data|
    ensures out == BufferOps.Channel(data, channels, col, s0, ReadLength(|data| / channels, s0, dur), |data| / channels)
  {
    WholeFrames(|data|, channels);
    var total := |data| / channels;
    var n := ReadLength(total, s0, dur);
    hide ReadLength;
    var buf := new real[n](_ => 0.0);
    BufferOps.ExtractChannelInto(buf, data, channels, col, s0, n, total);
    assert buf[..] == BufferOps.Channel(data, channels, col, s0, n, total) + [];
    out := buf[..];
  }

  // ---- saving and loading ----

  // What the file gives back, the container taken as it is.
  function Loaded(frames: seq<real>): (data: seq<real>)
    ensures |data| == |frames|
  {
    seq(|frames|, i requires 0 <= i < |frames| => Pcm.DecodedEncoded(frames, i); Pcm.Decoded(Pcm.Encoded(frames), 2, i))
  }

  lemma LoadedAt(frames: seq<real>, i: nat)
    requires i < |frames|
    ensures Loaded(frames)[i] == Pcm.Requantised(frames[i])
  {
    Pcm.DecodedEncoded(frames, i);
  }

  // Each channel of a saved pair comes back sample by sample, requantised, hence within
  // 1.5/32768 of the clipped sample.
  lemma StereoRoundTrip(a: seq<real>, b: seq<real>, i: nat)
    requires |a| == |b| && i < |a|
    ensures |a| * 2 <= |Loaded(Interleaved(a, b))|
    ensures var left, right := BufferOps.Channel(Loaded(Interleaved(a, b)), 2, 0, 0, |a|, |a|),
                               BufferOps.Channel(Loaded(Interleaved(a, b)), 2, 1, 0, |a|, |a|);
            && left[i] == Pcm.Requantised(a[i]) && right[i] == Pcm.Requantised(b[i])
            && Pcm.Close(left[i], a[i]) && Pcm.Close(right[i], b[i])
  {
    hide Pcm.Requantised, Pcm.Close, Loaded, BufferOps.Channel, Interleaved;
    InTurn(a, b, i);
    ChannelBack(Interleaved(a, b), |a|, 0, i);
    ChannelBack(Interleaved(a, b), |a|, 1, i);
  }

  lemma ChannelBack(frames: seq<real>, n: nat, col: nat, i: nat)
    requires |frames| == 2 * n && col < 2 && i < n
    ensures n * 2 <= |Loaded(frames)|
    ensures var x := BufferOps.Channel(Loaded(frames), 2, col, 0, n, n)[i];
            x == Pcm.Requantised(frames[2 * i + col]) && Pcm.Close(x, frames[2 * i + col])
  {
    hide Pcm.Requantised, Pcm.Close, Loaded, BufferOps.Channel;
    LoadedAt(frames, 2 * i + col);
    Pcm.RoundTripError(frames[2 * i + col]);
    PairedChannel(Loaded(frames), n, col, i);
  }

  lemma InTurn(a: seq<real>, b: seq<real>, i: nat)
    requires |a| == |b| && i < |a|
    ensures Interleaved(a, b)[2 * i] == a[i] && Interleaved(a, b)[2 * i + 1] == b[i]
  {
  }

  lemma AllInTurn(a: seq<real>, b: seq<real>)
    requires |a| == |b|
    ensures forall i :: 0 <= i < |a| ==> Interleaved(a, b)[2 * i] == a[i] && Interleaved(a, b)[2 * i + 1] == b[i]
  {
    forall i | 0 <= i < |a| ensures Interleaved(a, b)[2 * i] == a[i] && Interleaved(a, b)[2 * i + 1] == b[i] {
      InTurn(a, b, i);
    }
  }

  lemma Shorter(m: nat, n: nat)
    ensures 0 <= BufferOps.Min(m, n) <= m && BufferOps.Min(m, n) <= n
  {
  }

  lemma PairedChannel(data: seq<real>, n: nat, col: nat, i: nat)
    requires |data| == 2 * n && col < 2 && i < n
    ensures BufferOps.Channel(data, 2, col, 0, n, n)[i] == data[2 * i + col]
  {
    assert BufferOps.Channel(data, 2, col, 0, n, n)[i] == BufferOps.ChannelSample(data, 2, col, 0 + i, n);
    assert i * 2 + col == 2 * i + col;
  }

  // A plain write puts the source in place.
  lemma PlainWrite(buf: seq<real>, at: nat, src: seq<real>, p: nat)
    requires p < |buf|
    ensures Write(buf, at, src, 0.0, 1.0, 0)[p] == if at <= p < at + |src| then src[p - at] else buf[p]
  {
    if at <= p < at + |src| {
      BufferOps.FullEnvelope(buf[p], src[p - at], 0.0, 1.0);
    }
  }

  // A plain copy of `cnt` samples from ss to `at`: each sample in its place, in order or
  // from the last to the first.
  lemma CopiedAt(dst: seq<real>, s: seq<real>, at: nat, ss: nat, cnt: nat, reverse: bool, p: nat)
    requires ss + cnt <= |s| && p < |dst|
    ensures Write(dst, at, CopySource(s, ss, Some(cnt), reverse), 0.0, 1.0, 0)[p]
            == if at <= p < at + cnt then (if reverse then s[ss + cnt - 1 - (p - at)] else s[ss + (p - at)]) else dst[p]
  {
    assert Slice(s, ss, ss + cnt) == s[ss..ss + cnt];
    PlainWrite(dst, at, CopySource(s, ss, Some(cnt), reverse), p);
    hide Write;
  }

  // Saved whole and read back over itself, buffer b holds its own requantised samples.
  lemma SaveThenLoad(a: seq<real>, b: seq<real>, p: nat)
    requires |a| == |b| && p < |a|
    ensures |a| * 2 <= |Loaded(Interleaved(a, b))|
    ensures var data, n := Loaded(Interleaved(a, b)), |a|;
            && Write(a, 0, BufferOps.Channel(data, 2, 0, 0, n, n), 0.0, 1.0, 0)[p] == Pcm.Requantised(a[p])
            && Write(b, 0, BufferOps.Channel(data, 2, 1, 0, n, n), 0.0, 1.0, 0)[p] == Pcm.Requantised(b[p])
  {
    StereoRoundTrip(a, b, p);
    var data, n := Loaded(Interleaved(a, b)), |a|;
    hide Loaded, Pcm.Requantised, Pcm.Clip, Write, Interleaved, BufferOps.Channel;
    PlainWrite(a, 0, BufferOps.Channel(data, 2, 0, 0, n, n), p);
    PlainWrite(b, 0, BufferOps.Channel(data, 2, 1, 0, n, n), p);
  }

  // ---- reversing in place ----

  // A region copied onto itself backwards, without fade.
  function Flipped(s: seq<real>, ss: nat, cnt: nat): (r: seq<real>)
    ensures |r| == |s|
  {
    Write(s, ss, CopySource(s, ss, Some(cnt), true), 0.0, 1.0, 0)
  }

  lemma FlippedAt(s: seq<real>, ss: nat, cnt: nat, p: nat)
    requires ss + cnt <= |s| && p < |s|
    ensures Flipped(s, ss, cnt)[p] == if ss <= p < ss + cnt then s[ss + cnt - 1 - (p - ss)] else s[p]
  {
    var src := CopySource(s, ss, Some(cnt), true);
    assert Slice(s, ss, ss + cnt) == s[ss..ss + cnt];
    PlainWrite(s, ss, src, p);
    hide Write;
  }

  // Doing it twice changes nothing.
  lemma FlippedTwice(s: seq<real>, ss: nat, cnt: nat)
    requires ss + cnt <= |s|
    ensures Flipped(Flipped(s, ss, cnt), ss, cnt) == s
  {
    hide Flipped;
    var once := Flipped(s, ss, cnt);
    forall p | 0 <= p < |s| ensures Flipped(once, ss, cnt)[p] == s[p] {
      FlippedAt(once, ss, cnt, p);
      FlippedAt(s, ss, cnt, p);
      if ss <= p < ss + cnt { FlippedAt(s, ss, cnt, ss + cnt - 1 - (p - ss)); }
    }
  }
}
