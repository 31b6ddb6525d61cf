/**
 What the decoder reads of the standard encoder's blocks: the encoder's own predictions,
 near the samples it was given.
 */
module ImaRoundTrip {
  import opened Bytes
  import opened ImaAdpcm
  import opened ImaEncoder

  // ---- one word ----

  lemma NibblesOfWord(ns: seq<int>)
    requires |ns| == 8 && forall j :: 0 <= j < 8 ==> 0 <= ns[j] < 16
    ensures Nibbles(Word(ns)) == ns
  {
    var w, b := Word(ns), Nibbles(Word(ns));
    assert b[0] == w[0] % 16 && b[1] == w[0] / 16 && b[2] == w[1] % 16 && b[3] == w[1] / 16;
    assert b[4] == w[2] % 16 && b[5] == w[2] / 16 && b[6] == w[3] % 16 && b[7] == w[3] / 16;
  }

  // Where a group's sample q of channel c is decoded to.
  function At(st: Stream, q: nat, c: nat): (i: int)
    requires Playable(st) && q < 8 && c < st.channels
    ensures 0 <= i < CACHE
  {
    Slot(st.channels, 8, 0) + q * st.channels + c
  }

  // The decoder's channel c is where the encoder's is.
  predicate With(s: Dec, c: nat, k: Coder) {
    c < |s.pred| == |s.step| && Coder(s.pred[c], s.step[c]) == k
  }

  // The group's samples of channel c from j on are `ys`; its others are as they were.
  predicate Wrote(st: Stream, s: Dec, r: Dec, c: nat, j: nat, ys: seq<int>)
    requires Sound(st, s) && Sound(st, r)
  {
    forall q: nat, e: nat :: q < 8 && e < st.channels ==>
      r.cache[At(st, q, e)] == if e == c && j <= q < j + |ys| then ys[q - j] else s.cache[At(st, q, e)]
  }

  ghost predicate OthersStay(s: Dec, r: Dec, c: nat) {
    forall e: nat, k: Coder :: e != c && With(s, e, k) ==> With(r, e, k)
  }

  lemma AtDistinct(st: Stream, q: nat, c: nat, q': nat, c': nat)
    requires Playable(st) && q < 8 && c < st.channels && q' < 8 && c' < st.channels
    requires At(st, q, c) == At(st, q', c')
    ensures q == q' && c == c'
  {
  }

  lemma OneBack(st: Stream, s: Dec, c: nat, k: Coder, x: int, j: nat)
    requires Sound(st, s) && c < st.channels && Valid(k) && j < 8 && With(s, c, k)
    ensures var r := OneNibble(st, s, c, Code(k, x), j);
            With(r, c, Next(k, x)) && OthersStay(s, r, c) && Wrote(st, s, r, c, j, [Next(k, x).p])
  {
    Decodes(k, x);
    hide NextSample, NextIndex, Predicted, Adapted, Code;
    var r := OneNibble(st, s, c, Code(k, x), j);
    forall q: nat, e: nat | q < 8 && e < st.channels
      ensures r.cache[At(st, q, e)] == if e == c && q == j then Next(k, x).p else s.cache[At(st, q, e)]
    {
      if At(st, q, e) == At(st, j, c) { AtDistinct(st, q, e, j, c); }
    }
  }

  lemma WroteThen(st: Stream, s: Dec, m: Dec, r: Dec, c: nat, j: nat, y: int, ys: seq<int>)
    requires Sound(st, s) && Sound(st, m) && Sound(st, r)
    requires Wrote(st, s, m, c, j, [y]) && Wrote(st, m, r, c, j + 1, ys)
    ensures Wrote(st, s, r, c, j, [y] + ys)
  {
    hide Sound, At;
  }

  // A word of codes read back: the predictions in the cache.
  lemma {:induction false} NibblesBack(st: Stream, s: Dec, c: nat, k: Coder, xs: seq<int>, ns: seq<int>, j: nat)
    requires Sound(st, s) && c < st.channels && Valid(k) && j <= 8 && |xs| == 8 - j
    requires |ns| == 8 && (forall i :: 0 <= i < 8 ==> 0 <= ns[i] < 16) && ns[j..] == Codes(k, xs)
    requires With(s, c, k)
    ensures var r := DecodeNibbles(st, s, c, ns, j);
            With(r, c, After(k, xs)) && OthersStay(s, r, c) && Wrote(st, s, r, c, j, Tracked(k, xs))
    decreases 8 - j
  {
    hide Sound, OneNibble, Next, Code, At;
    if j < 8 {
      assert ns[j] == ns[j..][0] == Code(k, xs[0]);
      assert ns[j + 1..] == ns[j..][1..] == Codes(Next(k, xs[0]), xs[1..]);
      var s1 := OneNibble(st, s, c, ns[j], j);
      OneBack(st, s, c, k, xs[0], j);
      var r := DecodeNibbles(st, s1, c, ns, j + 1);
      NibblesBack(st, s1, c, Next(k, xs[0]), xs[1..], ns, j + 1);
      WroteThen(st, s, s1, r, c, j, Next(k, xs[0]).p, Tracked(Next(k, xs[0]), xs[1..]));
    }
  }

  // ---- one group ----

  function AfterWord(l: Line): Coder
    requires Index(l.k.i) && |l.xs| >= 8
  {
    After(l.k, l.xs[..8])
  }

  function Heard(l: Line): (ys: seq<int>)
    requires Index(l.k.i) && |l.xs| >= 8
    ensures |ys| == 8
  {
    Tracked(l.k, l.xs[..8])
  }

  // The decoder behind channel c's word.
  function Worded(st: Stream, s: Dec, c: nat): (r: Dec)
    requires Sound(st, s) && c < st.channels && s.pos + 4 <= |st.file|
    ensures Sound(st, r) && r.cursor == s.cursor && r.cached == s.cached && r.pos == s.pos + 4
    ensures r.bytes == Wrap32(s.bytes - 4)
  {
    var s1 := s.(pos := s.pos + 4, bytes := Wrap32(s.bytes - 4));
    DecodeNibbles(st, s1, c, Nibbles(st.file[s.pos..s.pos + 4]), 0)
  }

  lemma WordBack(st: Stream, s: Dec, c: nat, l: Line)
    requires Sound(st, s) && c < st.channels && Valid(l.k) && |l.xs| >= 8 && With(s, c, l.k)
    requires s.pos + 4 <= |st.file| && st.file[s.pos..s.pos + 4] == WordOf(l)
    ensures var r := Worded(st, s, c);
            && DecodeWords(st, s, c) == DecodeWords(st, r, c + 1)
            && With(r, c, AfterWord(l)) && OthersStay(s, r, c) && Wrote(st, s, r, c, 0, Heard(l))
  {
    hide DecodeNibbles, Nibbles, Word, Wrap32, At;
    var ns := Codes(l.k, l.xs[..8]);
    NibblesOfWord(ns);
    assert ns[0..] == ns;
    NibblesBack(st, s.(pos := s.pos + 4, bytes := Wrap32(s.bytes - 4)), c, l.k, l.xs[..8], ns, 0);
  }

  predicate Follows(st: Stream, s: Dec, ls: seq<Line>) {
    |ls| == st.channels && forall c: nat :: c < |ls| ==> With(s, c, ls[c].k)
  }

  // The cache holds the group the encoder predicted.
  predicate Holds(st: Stream, s: Dec, ls: seq<Line>, g: nat)
    requires Sound(st, s) && Lined(ls, g) && g > 0 && |ls| == st.channels
  {
    forall q: nat, c: nat :: q < 8 && c < st.channels ==> s.cache[At(st, q, c)] == Heard(ls[c])[q]
  }

  // Both channels' words stand where they are read.
  lemma WordsInPlace(file: seq<Byte>, at: nat, ls: seq<Line>, g: nat)
    requires Lined(ls, g) && g > 0 && at + 4 * |ls| <= |file| && file[at..at + 4 * |ls|] == Group(ls, g)
    ensures file[at..at + 4] == WordOf(ls[0])
    ensures |ls| == 2 ==> file[at + 4..at + 8] == WordOf(ls[1])
  {
    hide WordOf;
    var b := file[at..at + 4 * |ls|];
    assert file[at..at + 4] == b[..4];
    if |ls| == 2 { assert file[at + 4..at + 8] == b[4..]; }
  }

  lemma MonoBack(st: Stream, s: Dec, ls: seq<Line>, g: nat)
    requires Sound(st, s) && Lined(ls, g) && g > 0 && Follows(st, s, ls) && st.channels == 1
    requires s.pos + 4 <= |st.file| && st.file[s.pos..s.pos + 4] == WordOf(ls[0])
    ensures var r := Worded(st, s, 0);
            DecodeWords(st, s, 0) == Ready(r) && Follows(st, r, Rests(ls, g)) && Holds(st, r, ls, g)
  {
    hide Sound, WordOf, After, Tracked, Worded, At;
    WordBack(st, s, 0, ls[0]);
  }

  lemma StereoBack(st: Stream, s: Dec, ls: seq<Line>, g: nat)
    requires Sound(st, s) && Lined(ls, g) && g > 0 && Follows(st, s, ls) && st.channels == 2
    requires s.pos + 8 <= |st.file| && st.file[s.pos..s.pos + 4] == WordOf(ls[0])
    requires st.file[s.pos + 4..s.pos + 8] == WordOf(ls[1])
    ensures var r := Worded(st, Worded(st, s, 0), 1);
            DecodeWords(st, s, 0) == Ready(r) && Follows(st, r, Rests(ls, g)) && Holds(st, r, ls, g)
  {
    hide Sound, WordOf, After, Tracked, Worded, At, DecodeWords, Wrote;
    WordBack(st, s, 0, ls[0]);
    var m := Worded(st, s, 0);
    WordBack(st, m, 1, ls[1]);
    var r := Worded(st, m, 1);
    WordsEnd(st, r);
    BothHeld(st, s, m, r, ls, g);
  }

  lemma WordsEnd(st: Stream, s: Dec)
    requires Sound(st, s)
    ensures DecodeWords(st, s, st.channels) == Ready(s)
  {
  }

  lemma BothHeld(st: Stream, s: Dec, m: Dec, r: Dec, ls: seq<Line>, g: nat)
    requires Sound(st, s) && Sound(st, m) && Sound(st, r) && st.channels == |ls| == 2 && Lined(ls, g) && g > 0
    requires Wrote(st, s, m, 0, 0, Heard(ls[0])) && Wrote(st, m, r, 1, 0, Heard(ls[1]))
    ensures Holds(st, r, ls, g)
  {
    hide Sound, At, Lined, Heard;
    OneOrTwo(ls, g);
  }

  lemma GroupBack(st: Stream, s: Dec, ls: seq<Line>, g: nat)
    requires Sound(st, s) && Lined(ls, g) && g > 0 && Follows(st, s, ls)
    requires s.pos + 4 * st.channels <= |st.file| && st.file[s.pos..s.pos + 4 * st.channels] == Group(ls, g)
    ensures DecodeWords(st, s, 0).Ready?
    ensures var r := DecodeWords(st, s, 0).s; Follows(st, r, Rests(ls, g)) && Holds(st, r, ls, g)
  {
    hide WordOf, Group, Sound, Lined, DecodeWords, Holds, Rests, Worded;
    SoundPlayable(st, s);
    OneOrTwo(ls, g);
    WordsInPlace(st.file, s.pos, ls, g);
    if st.channels == 1 {
      MonoBack(st, s, ls, g);
    } else {
      StereoBack(st, s, ls, g);
    }
  }

  lemma OneOrTwo(ls: seq<Line>, g: nat)
    requires Lined(ls, g)
    ensures |ls| == 1 || |ls| == 2
    ensures forall c: nat :: c < |ls| ==> Valid(ls[c].k) && Index(ls[c].k.i) && |ls[c].xs| == 8 * g
  {
  }

  // The group's frames as the encoder predicted them.
  function HeardFrames(ls: seq<Line>, g: nat): (fs: seq<Frame>)
    requires Lined(ls, g) && g > 0
    ensures |fs| == 8
  {
    seq(8, q requires 0 <= q < 8 => seq(|ls|, c requires 0 <= c < |ls| => Heard(ls[c])[q]))
  }

  // Cached frames come out as they stand in the cache.
  lemma {:induction false} CachedFrames(st: Stream, s: Dec, m: nat, i: nat)
    requires Sound(st, s) && i < m <= s.cached && s.cursor + m <= st.total
    ensures Sound(st, s.(cached := s.cached - i))
    ensures i < |Read(st, s, m).0| && Read(st, s, m).0[i] == Front(st, s.(cached := s.cached - i))
    decreases m
  {
    hide Sound, Front, Refill;
    CachedSound(st, s, s.cached - i);
    CachedSound(st, s, s.cached);
    if i > 0 {
      CachedFrames(st, Pop(s), m - 1, i - 1);
      FrontOf(st, Pop(s).(cached := s.cached - i), s.(cached := s.cached - i));
    }
  }

  lemma FrontOf(st: Stream, s: Dec, r: Dec)
    requires Sound(st, s) && Sound(st, r) && s.cached == r.cached > 0 && s.cache == r.cache
    ensures Front(st, s) == Front(st, r)
  {
  }

  lemma FrontHeard(st: Stream, s: Dec, ls: seq<Line>, g: nat, q: nat)
    requires Sound(st, s) && Lined(ls, g) && g > 0 && |ls| == st.channels && Holds(st, s, ls, g)
    requires q < 8 && s.cached == 8 - q
    ensures Front(st, s) == HeardFrames(ls, g)[q]
  {
    hide Heard, Sound, Lined, Slot, At;
    OneOrTwo(ls, g);
    SoundPlayable(st, s);
    forall c: nat | c < st.channels ensures Slot(st.channels, s.cached, c) == At(st, q, c) {
      FromTheEnd(st, q, c);
    }
  }

  lemma FromTheEnd(st: Stream, q: nat, c: nat)
    requires Playable(st) && q < 8 && c < st.channels
    ensures Slot(st.channels, 8 - q, c) == At(st, q, c)
  {
  }

  lemma GroupHeard(st: Stream, s: Dec, ls: seq<Line>, g: nat)
    requires Sound(st, s) && Lined(ls, g) && |ls| == st.channels && g > 0 && Holds(st, s, ls, g)
    requires s.cached == 8 && s.cursor + 8 <= st.total
    ensures Read(st, s, 8).0 == HeardFrames(ls, g)
  {
    hide Read, Sound, Holds, HeardFrames, Front, Lined;
    TakeCached(st, s, 8);
    forall q: nat | q < 8
      ensures Read(st, s, 8).0[q] == HeardFrames(ls, g)[q]
    {
      CachedFrames(st, s, 8, q);
      assert Sound(st, s.(cached := 8 - q)) by { CachedSound(st, s, 8 - q); }
      HoldsCached(st, s, ls, g, 8 - q);
      FrontHeard(st, s.(cached := 8 - q), ls, g, q);
    }
  }

  lemma CachedSound(st: Stream, s: Dec, cached: nat)
    requires Sound(st, s) && cached <= s.cached
    ensures s.cached <= 8 && Sound(st, s.(cached := cached))
    ensures cached > 0 ==> Sound(st, Pop(s.(cached := cached)))
  {
  }

  lemma HoldsCached(st: Stream, s: Dec, ls: seq<Line>, g: nat, cached: nat)
    requires Sound(st, s) && Lined(ls, g) && |ls| == st.channels && g > 0 && Holds(st, s, ls, g) && cached <= 8
    ensures Sound(st, s.(cached := cached)) && Holds(st, s.(cached := cached), ls, g)
  {
    hide At, Heard;
  }

  // ---- a block's groups ----

  function DataFrames(ls: seq<Line>, g: nat): (fs: seq<Frame>)
    requires Lined(ls, g)
    ensures |fs| == 8 * g
    decreases g
  {
    if g == 0 then [] else HeardFrames(ls, g) + DataFrames(Rests(ls, g), g - 1)
  }

  // Bytes enough for the groups, and the groups in them.
  predicate DataAt(st: Stream, pos: nat, ls: seq<Line>, g: nat)
    requires Lined(ls, g)
  {
    var n := DataSize(st.channels, g);
    |ls| == st.channels && pos + n <= |st.file| && st.file[pos..pos + n] == Data(ls, g)
  }

  lemma FirstGroup(st: Stream, pos: nat, ls: seq<Line>, g: nat)
    requires Lined(ls, g) && g > 0 && DataAt(st, pos, ls, g)
    ensures var n := 4 * st.channels;
            && pos + n <= |st.file| && st.file[pos..pos + n] == Group(ls, g)
            && DataAt(st, pos + n, Rests(ls, g), g - 1)
  {
    hide Group, Rests, Lined;
    var n, m := 4 * st.channels, DataSize(st.channels, g - 1);
    var d := st.file[pos..pos + n + m];
    assert d == Group(ls, g) + Data(Rests(ls, g), g - 1);
    assert st.file[pos..pos + n] == d[..n];
    assert st.file[pos + n..pos + n + m] == d[n..];
  }

  // A decoder about to read g groups.
  predicate Before(st: Stream, s: Dec, ls: seq<Line>, g: nat) {
    && Sound(st, s) && s.cached == 0 && s.bytes == DataSize(st.channels, g) && s.bytes < 0x1_0000
    && Lined(ls, g) && Follows(st, s, ls) && DataAt(st, s.pos, ls, g) && s.cursor + 8 * g <= st.total
  }

  lemma OneGroupBack(st: Stream, s: Dec, ls: seq<Line>, g: nat)
    requires Before(st, s, ls, g) && g > 0
    ensures Sound(st, s) && Lined(ls, g)
    ensures Read(st, s, 8).0 == HeardFrames(ls, g) && Before(st, Read(st, s, 8).1, Rests(ls, g), g - 1)
  {
    hide Read, DecodeWords, Sound, Lined, Rests, HeardFrames, Holds, DataAt, Follows;
    assert Sound(st, s) && Lined(ls, g);
    FirstGroup(st, s.pos, ls, g);
    GroupDecoded(st, s, ls, g);
    var s1 := DecodeWords(st, s.(cached := 8), 0).s;
    FilledReads(st, s, 8);
    GroupHeard(st, s1, ls, g);
    TakeCached(st, s1, 8);
    FollowsOn(st, s1, Read(st, s1, 8).1, Rests(ls, g));
  }

  lemma FollowsOn(st: Stream, s: Dec, r: Dec, ls: seq<Line>)
    requires Follows(st, s, ls) && r.pred == s.pred && r.step == s.step
    ensures Follows(st, r, ls)
  {
  }

  // The groups's words, decoded.
  lemma GroupDecoded(st: Stream, s: Dec, ls: seq<Line>, g: nat)
    requires Before(st, s, ls, g) && g > 0
    ensures Sound(st, s) && Sound(st, s.(cached := 8)) && Filled(st, s) == DecodeWords(st, s.(cached := 8), 0)
    ensures Filled(st, s).Ready?
    ensures var s1 := Filled(st, s).s;
            && s1.cached == 8 && s1.bytes == DataSize(st.channels, g - 1) && s1.pos == s.pos + 4 * st.channels
            && Lined(ls, g) && |ls| == st.channels && Follows(st, s1, Rests(ls, g)) && Holds(st, s1, ls, g)
  {
    BeforeHas(st, s, ls, g);
    FirstGroup(st, s.pos, ls, g);
    hide DecodeWords, Sound, Lined, Group, Rests, Holds, Follows, DataAt, DataSize, Before;
    var s8 := s.(cached := 8);
    Emptied(st, s);
    FollowsOn(st, s, s8, ls);
    GroupBack(st, s8, ls, g);
    WordsDecoded(st, s8);
  }

  lemma Emptied(st: Stream, s: Dec)
    requires Sound(st, s)
    ensures Sound(st, s.(cached := 8))
  {
  }

  lemma {:induction false} DataBack(st: Stream, s: Dec, ls: seq<Line>, g: nat)
    requires Before(st, s, ls, g)
    ensures Sound(st, s) && Lined(ls, g) && Read(st, s, 8 * g).0 == DataFrames(ls, g)
    decreases g
  {
    hide *;
    BeforeHas(st, s, ls, g);
    if g == 0 {
      NoneBack(st, s, ls);
    } else {
      OneGroupBack(st, s, ls, g);
      var s1 := Read(st, s, 8).1;
      DataBack(st, s1, Rests(ls, g), g - 1);
      ReadOn(st, s, 8, 8 * (g - 1));
      assert 8 + 8 * (g - 1) == 8 * g;
      FramesOnward(ls, g);
    }
  }

  lemma NoneBack(st: Stream, s: Dec, ls: seq<Line>)
    requires Sound(st, s) && Lined(ls, 0)
    ensures Read(st, s, 0).0 == DataFrames(ls, 0)
  {
    hide Sound, Lined;
  }

  lemma FramesOnward(ls: seq<Line>, g: nat)
    requires Lined(ls, g) && g > 0
    ensures DataFrames(ls, g) == HeardFrames(ls, g) + DataFrames(Rests(ls, g), g - 1)
  {
    hide HeardFrames, Rests;
  }

  lemma BeforeHas(st: Stream, s: Dec, ls: seq<Line>, g: nat)
    requires Before(st, s, ls, g)
    ensures Sound(st, s) && Lined(ls, g) && |ls| == st.channels > 0 && Follows(st, s, ls) && DataAt(st, s.pos, ls, g)
    ensures g > 0 ==> 4 * st.channels + DataSize(st.channels, g - 1) == s.bytes < 0x1_0000
  {
    hide DataAt;
  }

  lemma ReadOn(st: Stream, s: Dec, n1: nat, n2: nat)
    requires Sound(st, s) && |Read(st, s, n1).0| == n1
    ensures Read(st, s, n1 + n2).0 == Read(st, s, n1).0 + Read(st, Read(st, s, n1).1, n2).0
    ensures Read(st, s, n1 + n2).1 == Read(st, Read(st, s, n1).1, n2).1
  {
    SplitRead(st, s, n1, n2);
    hide Read;
  }

  // A channel of those frames is what its coder predicted.
  lemma {:induction false} DataFrameAt(ls: seq<Line>, g: nat, t: nat, c: nat)
    requires Lined(ls, g) && t < 8 * g && c < |ls|
    ensures |DataFrames(ls, g)[t]| == |ls| && DataFrames(ls, g)[t][c] == Tracked(ls[c].k, ls[c].xs)[t]
    decreases g
  {
    var rest := Rests(ls, g);
    HeardThenRest(ls[c]);
    FramesOnward(ls, g);
    hide Rest, Heard, Tracked, Lined, DataFrames;
    if t >= 8 {
      DataFrameAt(rest, g - 1, t - 8, c);
    }
  }

  lemma HeardThenRest(l: Line)
    requires Index(l.k.i) && |l.xs| >= 8
    ensures Index(Rest(l).k.i) && Tracked(l.k, l.xs) == Heard(l) + Tracked(Rest(l).k, Rest(l).xs)
  {
    AfterSplits(l.k, l.xs, 8);
  }
}
