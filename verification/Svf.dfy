/**
 The state-variable filter (`Svf.cpp`) over the reals.

 `Tick` is one sample of the trapezoidal update.  The filter's stored energy obeys
 an exact balance, from which it is stable under any per-sample change of cutoff
 and resonance.
 */
module SvfMath {

  // The part of the filter an update reads and writes.
  datatype Memory = Memory(v1: real, v2: real, v0z: real)

  // What `calcCoeffs` derives from the warped cutoff g and the reciprocal of Q.
  datatype Coeffs = Coeffs(g: real, rq: real, g1: real, g2: real, g3: real, g4: real)

  datatype Mix = Mix(lp: real, hp: real, bp: real, br: real)

  function Denominator(g: real, rq: real): real {
    1.0 + g * (g + rq)
  }

  function MakeCoeffs(g: real, rq: real): Coeffs
    requires Denominator(g, rq) != 0.0
  {
    var g1 := g / Denominator(g, rq);
    Coeffs(g, rq, g1, 2.0 * (g + rq) * g1, g * g1, 2.0 * g1)
  }

  function Tick(c: Coeffs, m: Memory, x: real): Memory {
    var v3 := x + m.v0z - 2.0 * m.v2;
    Memory(m.v1 + c.g1 * v3 - c.g2 * m.v1, m.v2 + c.g3 * v3 + c.g4 * m.v1, x)
  }

  function Output(c: Coeffs, m: Memory, x: real, mix: Mix): real {
    m.v2 * mix.lp + (x - c.rq * m.v1 - m.v2) * mix.hp + m.v1 * mix.bp + (x - c.rq * m.v1) * mix.br
  }

  function Energy(m: Memory): real {
    m.v1 * m.v1 + m.v2 * m.v2
  }

  function Abs(x: real): (a: real)
    ensures a >= 0.0 && a >= x && a >= -x && a * a == x * x
  {
    if x < 0.0 then -x else x
  }

  lemma DenominatorPositive(g: real, rq: real)
    requires g >= 0.0 && rq >= 0.0
    ensures Denominator(g, rq) >= 1.0
  {
  }

  // The update is the trapezoidal rule for v2' = g v1, v1' = g (u - v2 - rq v1),
  // with u the sum of the last two inputs.
  lemma Trapezoid(g: real, rq: real, m: Memory, x: real)
    requires Denominator(g, rq) != 0.0
    ensures var m' := Tick(MakeCoeffs(g, rq), m, x);
            var a, b, u := m'.v1 + m.v1, m'.v2 + m.v2, x + m.v0z;
            m'.v2 - m.v2 == g * a && m'.v1 - m.v1 == g * (u - b - rq * a)
  {
    var d := Denominator(g, rq);
    var c := MakeCoeffs(g, rq);
    var g1 := c.g1;
    assert g1 * d == g;
    var k := g + rq;
    assert g1 + g1 * (g * k) == g by { assert g1 * d == g1 * 1.0 + g1 * (g * k); }
    var u := x + m.v0z;
    var v3 := u - 2.0 * m.v2;
    var m' := Tick(c, m, x);
    var a, b := m'.v1 + m.v1, m'.v2 + m.v2;
    assert a == 2.0 * m.v1 + g1 * v3 - 2.0 * (k * g1) * m.v1;
    GainTimesSum(g, g1, k, v3, m.v1);
    assert m'.v2 - m.v2 == g * a;
    // v1' - v1 = g (u - b - rq a), with b = 2 v2 + g a
    assert b == 2.0 * m.v2 + g * a;
    assert u - b - rq * a == v3 - k * a;
    GainTimesRest(g, g1, k, v3, m.v1);
  }

  lemma GainTimesSum(g: real, g1: real, k: real, v3: real, v1: real)
    requires g1 + g1 * (g * k) == g
    ensures g * (2.0 * v1 + g1 * v3 - 2.0 * (k * g1) * v1) == (g * g1) * v3 + 2.0 * g1 * v1
  {
    calc {
      g * (2.0 * v1 + g1 * v3 - 2.0 * (k * g1) * v1);
      2.0 * v1 * g + g * g1 * v3 - 2.0 * v1 * (g1 * (g * k));
      g * g1 * v3 + 2.0 * v1 * (g - g1 * (g * k));
    }
  }

  lemma GainTimesRest(g: real, g1: real, k: real, v3: real, v1: real)
    requires g1 + g1 * (g * k) == g
    ensures g * (v3 - k * (2.0 * v1 + g1 * v3 - 2.0 * (k * g1) * v1)) == g1 * v3 - 2.0 * k * g1 * v1
  {
    var p := g * k;
    calc {
      g * (v3 - k * (2.0 * v1 + g1 * v3 - 2.0 * (k * g1) * v1));
      g * v3 - p * (2.0 * v1 + g1 * v3 - 2.0 * (k * g1) * v1);
      g * v3 - 2.0 * v1 * p - (g1 * p) * v3 + 2.0 * k * v1 * (g1 * p);
      { assert g1 * p == g - g1; }
      g * v3 - 2.0 * v1 * p - (g - g1) * v3 + 2.0 * k * v1 * (g - g1);
      g1 * v3 - 2.0 * k * g1 * v1;
    }
  }

  // Each mix on its own.
  const LowPass := Mix(1.0, 0.0, 0.0, 0.0)
  const HighPass := Mix(0.0, 1.0, 0.0, 0.0)
  const BandPass := Mix(0.0, 0.0, 1.0, 0.0)
  const BandReject := Mix(0.0, 0.0, 0.0, 1.0)

  // What the four outputs are to each other: high, low and rq times band make up the input,
  // band reject is high and low; from one sample to the next the band output integrates the
  // high one and the low output the band one, at rate g, by the trapezoidal rule.
  lemma OutputsAre(g: real, rq: real, m: Memory, x: real)
    requires Denominator(g, rq) != 0.0
    ensures var c := MakeCoeffs(g, rq);
            var m' := Tick(c, m, x);
            var (lo, hi) := (Output(c, m', x, LowPass), Output(c, m', x, HighPass));
            var (band, rej) := (Output(c, m', x, BandPass), Output(c, m', x, BandReject));
            && hi + lo + rq * band == x && rej == hi + lo
            && band - Output(c, m, m.v0z, BandPass) == g * (hi + Output(c, m, m.v0z, HighPass))
            && lo - Output(c, m, m.v0z, LowPass) == g * (band + Output(c, m, m.v0z, BandPass))
  {
    hide Tick, Denominator, Output, MakeCoeffs;
    var c := MakeCoeffs(g, rq);
    var m' := Tick(c, m, x);
    CoeffsKeep(g, rq);
    Trapezoid(g, rq, m, x);
    EachAlone(c, m, m.v0z);
    EachAlone(c, m', x);
    BandIntegrates(g, rq, m', m, x, Output(c, m', x, HighPass), Output(c, m, m.v0z, HighPass));
  }

  lemma CoeffsKeep(g: real, rq: real)
    requires Denominator(g, rq) != 0.0
    ensures MakeCoeffs(g, rq).rq == rq
  {
  }

  lemma BandIntegrates(g: real, rq: real, m': Memory, m: Memory, x: real, hi: real, hi0: real)
    requires m'.v1 - m.v1 == g * (x + m.v0z - (m'.v2 + m.v2) - rq * (m'.v1 + m.v1))
    requires hi == x - rq * m'.v1 - m'.v2 && hi0 == m.v0z - rq * m.v1 - m.v2
    ensures m'.v1 - m.v1 == g * (hi + hi0)
  {
    assert hi + hi0 == x + m.v0z - (m'.v2 + m.v2) - rq * (m'.v1 + m.v1);
  }

  lemma EachAlone(c: Coeffs, m: Memory, x: real)
    ensures var (lo, hi) := (Output(c, m, x, LowPass), Output(c, m, x, HighPass));
            var (band, rej) := (Output(c, m, x, BandPass), Output(c, m, x, BandReject));
            lo == m.v2 && band == m.v1 && rej == x - c.rq * m.v1 && hi == rej - lo
  {
  }

  // A filter's output is the four by their mixes.
  lemma OutputIsMixed(c: Coeffs, m: Memory, x: real, mix: Mix)
    ensures Output(c, m, x, mix)
            == Output(c, m, x, LowPass) * mix.lp + Output(c, m, x, HighPass) * mix.hp
               + Output(c, m, x, BandPass) * mix.bp + Output(c, m, x, BandReject) * mix.br
  {
  }

  // The energy balance of one sample.
  lemma EnergyBalance(g: real, rq: real, m: Memory, x: real)
    requires Denominator(g, rq) != 0.0
    ensures var m' := Tick(MakeCoeffs(g, rq), m, x);
            var a, u := m'.v1 + m.v1, x + m.v0z;
            Energy(m') == Energy(m) + g * (a * u) - g * rq * (a * a)
  {
    Trapezoid(g, rq, m, x);
    var m' := Tick(MakeCoeffs(g, rq), m, x);
    var a, b, u := m'.v1 + m.v1, m'.v2 + m.v2, x + m.v0z;
    hide Tick, MakeCoeffs;
    Telescope(m'.v1, m.v1, m'.v2, m.v2);
    Work(g, rq, a, b, u);
  }

  lemma Telescope(p: real, q: real, r: real, s: real)
    ensures (p * p + r * r) - (q * q + s * s) == (p - q) * (p + q) + (r - s) * (r + s)
  {
  }

  lemma Work(g: real, rq: real, a: real, b: real, u: real)
    ensures (g * (u - b - rq * a)) * a + (g * a) * b == g * (a * u) - g * rq * (a * a)
  {
    assert (g * (u - b - rq * a)) * a == g * (a * u) - g * (a * b) - g * rq * (a * a);
  }

  // What a sample of silence takes from the energy, a the sum of the old and new v1.
  function Loss(k: real, a: real): real {
    k * (a * a)
  }

  // With silence in, energy is lost only through the resonance term.
  lemma SilentEnergyIdentity(g: real, rq: real, m: Memory)
    requires m.v0z == 0.0 && Denominator(g, rq) != 0.0
    ensures var m' := Tick(MakeCoeffs(g, rq), m, 0.0);
            && Energy(m') == Energy(m) - Loss(g * rq, m'.v1 + m.v1)
            && (g * rq >= 0.0 ==> Energy(m') <= Energy(m))
  {
    EnergyBalance(g, rq, m, 0.0);
    var m' := Tick(MakeCoeffs(g, rq), m, 0.0);
    var a := m'.v1 + m.v1;
    hide Tick, MakeCoeffs, Energy;
    LossSign(g * rq, a);
  }

  lemma LossSign(k: real, a: real)
    ensures k >= 0.0 ==> Loss(k, a) >= 0.0
    ensures k < 0.0 && a != 0.0 ==> Loss(k, a) < 0.0
  {
    if k < 0.0 {
      LossEven(k, a);
      if a > 0.0 { LossNegative(k, a); }
      if a < 0.0 { LossNegative(k, -a); }
    }
  }

  lemma LossNegative(k: real, a: real)
    requires k < 0.0 && a > 0.0
    ensures Loss(k, a) < 0.0
  {
    Product(k, a);
    Product(k * a, a);
    assert k * (a * a) < 0.0;
  }

  lemma LossEven(k: real, a: real)
    ensures Loss(k, a) == Loss(k, -a)
  {
  }

  // In silence this state's energy does not grow.
  predicate NoGain(g: real, rq: real, m: Memory)
    requires Denominator(g, rq) != 0.0
  {
    m.v0z == 0.0 ==> Energy(Tick(MakeCoeffs(g, rq), m, 0.0)) <= Energy(m)
  }

  // Silence lets no state's energy grow exactly while g and rq do not differ in sign.
  lemma QuietIff(g: real, rq: real)
    requires Denominator(g, rq) != 0.0
    ensures (forall m :: NoGain(g, rq, m)) <==> g * rq >= 0.0
  {
    if g * rq >= 0.0 {
      forall m: Memory ensures NoGain(g, rq, m) {
        if m.v0z == 0.0 { SilentEnergyIdentity(g, rq, m); }
      }
    } else {
      UnitMoves(g, rq);
      Gains(g, rq, Memory(1.0, 0.0, 0.0));
    }
  }

  lemma Gains(g: real, rq: real, m: Memory)
    requires Denominator(g, rq) != 0.0 && g * rq < 0.0 && m.v0z == 0.0
    requires Tick(MakeCoeffs(g, rq), m, 0.0).v1 + m.v1 != 0.0
    ensures !NoGain(g, rq, m)
  {
    hide Tick, MakeCoeffs, Energy, Loss;
    SilentEnergyIdentity(g, rq, m);
    LossSign(g * rq, Tick(MakeCoeffs(g, rq), m, 0.0).v1 + m.v1);
  }

  lemma UnitMoves(g: real, rq: real)
    requires Denominator(g, rq) != 0.0
    ensures Tick(MakeCoeffs(g, rq), Memory(1.0, 0.0, 0.0), 0.0).v1 + Memory(1.0, 0.0, 0.0).v1 != 0.0
  {
    var d, c := Denominator(g, rq), MakeCoeffs(g, rq);
    var v1 := Tick(c, Memory(1.0, 0.0, 0.0), 0.0).v1;
    assert c.g1 * d == g;
    assert v1 + 1.0 == 2.0 - c.g2;
    calc {
      (v1 + 1.0) * d;
      2.0 * d - 2.0 * (g + rq) * (c.g1 * d);
      2.0;
    }
  }

  // ---- bounds with input ----

  // The state's norm is at most n.
  predicate Within(m: Memory, n: real) {
    n >= 0.0 && Energy(m) <= n * n
  }

  lemma RootLe(x: real, y: real)
    requires y >= 0.0 && x * x <= y * y
    ensures x <= y
  {
    SquareGrows(x, y);
  }

  lemma SquareGrows(x: real, y: real)
    ensures x > y >= 0.0 ==> x * x > y * y
  {
    if x > y >= 0.0 {
      assert (x - y) * (x + y) == x * x - y * y;
      Product(x - y, x + y);
    }
  }

  lemma Product(x: real, y: real)
    ensures x > 0.0 && y > 0.0 ==> x * y > 0.0
    ensures x < 0.0 && y > 0.0 ==> x * y < 0.0
  {
  }

  lemma Scale(a: real, b: real, k: real)
    requires a <= b && k >= 0.0
    ensures a * k <= b * k
  {
  }

  lemma Lagrange(a: real, b: real, c: real, d: real)
    ensures (a * c + b * d) * (a * c + b * d) + (a * d - b * c) * (a * d - b * c)
            == (a * a + b * b) * (c * c + d * d)
    ensures (a * c + b * d) * (a * c + b * d) <= (a * a + b * b) * (c * c + d * d)
  {
    var x := a * d - b * c;
    assert x * x >= 0.0;
  }

  lemma CauchySchwarz(a: real, b: real, c: real, d: real, n: real, w: real)
    requires n >= 0.0 && w >= 0.0 && a * a + b * b <= n * n && c * c + d * d <= w * w
    ensures (a + c) * (a + c) + (b + d) * (b + d) <= (n + w) * (n + w)
  {
    var p, q := a * a + b * b, c * c + d * d;
    var dot := a * c + b * d;
    var cross := a * d - b * c;
    Lagrange(a, b, c, d);
    var nw := n * w;
    assert dot * dot <= nw * nw by {
      Scale(p, n * n, q);
      Scale(q, w * w, n * n);
      assert (n * n) * (w * w) == nw * nw;
    }
    RootLe(dot, nw);
    assert dot <= nw;
    assert (a + c) * (a + c) + (b + d) * (b + d) == p + q + 2.0 * dot;
    assert (n + w) * (n + w) == n * n + w * w + 2.0 * nw;
  }

  // The input's own contribution is no larger than the input.
  lemma ForcedPart(g: real, rq: real, u: real)
    requires g >= 0.0 && rq >= 0.0 && Denominator(g, rq) != 0.0
    ensures var c := MakeCoeffs(g, rq);
            (c.g1 * u) * (c.g1 * u) + (c.g3 * u) * (c.g3 * u) <= Abs(u) * Abs(u)
  {
    var d := Denominator(g, rq);
    var c := MakeCoeffs(g, rq);
    var g1, e := c.g1, 1.0 + g * g;
    assert g1 * d == g && g * rq >= 0.0 && d == e + g * rq;
    GainIsSmall(g, g1, e, d);
    assert (g1 * u) * (g1 * u) + (g * g1 * u) * (g * g1 * u) == ((g1 * g1) * e) * (u * u);
    Scale((g1 * g1) * e, 1.0, u * u);
  }

  lemma GainIsSmall(g: real, g1: real, e: real, d: real)
    requires g >= 0.0 && e == 1.0 + g * g && d >= e && g1 * d == g
    ensures (g1 * g1) * e <= 1.0
  {
    assert g1 >= 0.0 by { Product(g1, d); }
    Scale(e, d, g1);
    assert g1 * e <= g;
    Scale(g1 * e, g, g1);
    assert (g1 * g1) * e <= g * g1;
    // g * g1 * d == g * g <= d
    assert (g * g1) * d == g * g;
    Product(g * g1 - 1.0, d);
    assert (g * g1 - 1.0) * d == g * g - d;
  }

  lemma Superpose(c: Coeffs, m: Memory, x: real)
    ensures var m', quiet := Tick(c, m, x), Tick(c, m.(v0z := 0.0), 0.0);
            && m'.v1 == quiet.v1 + c.g1 * (x + m.v0z)
            && m'.v2 == quiet.v2 + c.g3 * (x + m.v0z)
  {
  }

  // One sample moves the state's norm by at most |x[n] + x[n-1]|.
  lemma GrowthBound(g: real, rq: real, m: Memory, x: real, n: real)
    requires g >= 0.0 && rq >= 0.0 && Within(m, n) && Denominator(g, rq) != 0.0
    ensures Within(Tick(MakeCoeffs(g, rq), m, x), n + Abs(x + m.v0z))
  {
    var c, u := MakeCoeffs(g, rq), x + m.v0z;
    var quiet := Tick(c, m.(v0z := 0.0), 0.0);
    QuietWithin(g, rq, m, n);
    ForcedPart(g, rq, u);
    hide MakeCoeffs;
    Superpose(c, m, x);
    hide Tick;
    CauchySchwarz(quiet.v1, quiet.v2, c.g1 * u, c.g3 * u, n, Abs(u));
  }

  lemma QuietWithin(g: real, rq: real, m: Memory, n: real)
    requires g >= 0.0 && rq >= 0.0 && Within(m, n) && Denominator(g, rq) != 0.0
    ensures var quiet := Tick(MakeCoeffs(g, rq), m.(v0z := 0.0), 0.0);
            quiet.v1 * quiet.v1 + quiet.v2 * quiet.v2 <= n * n
  {
    SilentEnergyIdentity(g, rq, m.(v0z := 0.0));
    hide Tick, MakeCoeffs;
  }

  // ---- whole runs, with cutoff and resonance changing at every sample ----

  datatype Sample = Sample(g: real, rq: real, x: real)

  predicate Usable(ss: seq<Sample>) {
    forall s | s in ss :: s.g >= 0.0 && s.rq >= 0.0
  }

  function Filter(m: Memory, ss: seq<Sample>): Memory
    requires Usable(ss)
    decreases |ss|
  {
    if ss == [] then m
    else
      DenominatorPositive(ss[0].g, ss[0].rq);
      Filter(Tick(MakeCoeffs(ss[0].g, ss[0].rq), m, ss[0].x), ss[1..])
  }

  // The inputs' pairwise sums, the first paired with the stored sample.
  function Drive(z: real, ss: seq<Sample>): real
    decreases |ss|
  {
    if ss == [] then 0.0 else Abs(ss[0].x + z) + Drive(ss[0].x, ss[1..])
  }

  lemma {:induction false} StableUnderModulation(m: Memory, ss: seq<Sample>, n: real)
    requires Usable(ss) && Within(m, n)
    ensures Within(Filter(m, ss), n + Drive(m.v0z, ss))
    decreases |ss|
  {
    if ss != [] {
      var s := ss[0];
      DenominatorPositive(s.g, s.rq);
      GrowthBound(s.g, s.rq, m, s.x, n);
      StableUnderModulation(Tick(MakeCoeffs(s.g, s.rq), m, s.x), ss[1..], n + Abs(s.x + m.v0z));
    }
  }

  // With silence in, the energy never grows, whatever the modulation.
  lemma {:induction false} SilenceNeverGrows(m: Memory, ss: seq<Sample>)
    requires Usable(ss) && m.v0z == 0.0 && forall s | s in ss :: s.x == 0.0
    ensures Energy(Filter(m, ss)) <= Energy(m)
    decreases |ss|
  {
    if ss != [] {
      var s := ss[0];
      DenominatorPositive(s.g, s.rq);
      assert s.x == 0.0;
      SilentEnergyIdentity(s.g, s.rq, m);
      SilenceNeverGrows(Tick(MakeCoeffs(s.g, s.rq), m, s.x), ss[1..]);
    }
  }
}

/**
 Which sample rate and corner a filter is tuned to, and when its gain g is not
 negative.  The corner is held between 10 Hz and 0.4 of the sample rate when it is
 set, but not again when the rate changes afterwards.
 */
module SvfTuning {
  import opened SvfMath

  datatype Tuning = Tuning(sr: real, fc: real, rq: real)

  datatype Control = ToRate(sr: real) | ToCorner(fc: real) | ToQ(rq: real)

  // `setFc`: the corner clamped from above, then from below.
  function Held(sr: real, fc: real): real {
    var low := if fc > sr * 0.4 then sr * 0.4 else fc;
    if low < 10.0 then 10.0 else low
  }

  function Turn(t: Tuning, c: Control): Tuning {
    match c
    case ToRate(sr) => t.(sr := sr)
    case ToCorner(fc) => t.(fc := Held(t.sr, fc))
    case ToQ(rq) => t.(rq := rq)
  }

  function Turned(t: Tuning, cs: seq<Control>): Tuning
    decreases |cs|
  {
    if cs == [] then t else Turned(Turn(t, cs[0]), cs[1..])
  }

  // A filter as it is made.
  const Fresh := Tuning(48000.0, 12000.0, 4.0)

  // The input filter of a voice as it is made.
  const FreshPre := Tuning(48000.0, 16000.0, 4.0)

  // `warp(x)` stands for tan(pi * x), x the corner as a fraction of the sample rate.
  function Gain(warp: real -> real, t: Tuning): real
    requires t.sr > 0.0
  {
    warp(t.fc / t.sr)
  }

  function Frac(x: real): real {
    x - x.Floor as real
  }

  // The sign of the tangent, which has its poles half-way between the whole numbers.
  ghost predicate LikeTan(warp: real -> real) {
    forall x: real :: Frac(x) != 0.5 ==> (warp(x) >= 0.0 <==> Frac(x) < 0.5)
  }

  predicate Under(fc: real, sr: real)
    requires sr > 0.0
  {
    Frac(fc / sr) < 0.5
  }

  predicate AtPole(t: Tuning)
    requires t.sr > 0.0
  {
    Frac(t.fc / t.sr) == 0.5
  }

  predicate Audio(c: Control) {
    c.ToRate? ==> c.sr > 20.0
  }

  lemma FracBelow(x: real)
    ensures 0.0 <= x < 1.0 ==> Frac(x) == x
  {
    if 0.0 <= x < 1.0 { assert x.Floor == 0; }
  }

  lemma QuotientLess(x: real, y: real, k: real)
    requires y > 0.0
    ensures (x < k * y <==> x / y < k) && (x == k * y <==> x / y == k)
  {
    var q := x / y;
    assert q * y == x;
    assert (q - k) * y == x - k * y;
    Product(q - k, y);
    Product(k - q, y);
  }

  lemma QuotientPositive(x: real, y: real)
    requires x > 0.0 && y > 0.0
    ensures x / y > 0.0
  {
    Product(x / y, y);
  }

  // A corner just set lies below half the rate.
  lemma HeldUnder(sr: real, fc: real)
    requires sr > 20.0
    ensures 10.0 <= Held(sr, fc) && Held(sr, fc) < 0.5 * sr && Under(Held(sr, fc), sr)
    ensures 10.0 <= fc <= sr * 0.4 ==> Held(sr, fc) == fc
  {
    QuotientLess(Held(sr, fc), sr, 0.5);
    QuotientPositive(Held(sr, fc), sr);
    FracBelow(Held(sr, fc) / sr);
  }

  // Every state on the way, the first one included, has a gain that is not negative.
  predicate AlwaysTame(warp: real -> real, t: Tuning, cs: seq<Control>)
    requires t.sr > 0.0 && forall c | c in cs :: Audio(c)
    decreases |cs|
  {
    && Gain(warp, t) >= 0.0
    && (cs != [] ==>
          assert Audio(cs[0]); assert forall c | c in cs[1..] :: c in cs;
          AlwaysTame(warp, Turn(t, cs[0]), cs[1..]))
  }

  // Whenever the rate is set, the corner in force lies in the lower half of it.
  predicate RatesSuit(t: Tuning, cs: seq<Control>)
    requires forall c | c in cs :: Audio(c)
    decreases |cs|
  {
    cs != [] ==>
      assert Audio(cs[0]); assert forall c | c in cs[1..] :: c in cs;
      && (cs[0].ToRate? ==> Under(t.fc, cs[0].sr))
      && RatesSuit(Turn(t, cs[0]), cs[1..])
  }

  // No state on the way sits on a pole of the tangent.
  predicate OffPoles(t: Tuning, cs: seq<Control>)
    requires t.sr > 0.0 && forall c | c in cs :: Audio(c)
    decreases |cs|
  {
    && !AtPole(t)
    && (cs != [] ==>
          assert Audio(cs[0]); assert forall c | c in cs[1..] :: c in cs;
          OffPoles(Turn(t, cs[0]), cs[1..]))
  }

  // Over any run of rate, corner and Q settings the gain stays nonnegative exactly when
  // every rate set suits the corner it finds.
  lemma {:induction false} TameIff(warp: real -> real, t: Tuning, cs: seq<Control>)
    requires LikeTan(warp) && t.sr > 20.0 && Under(t.fc, t.sr)
    requires (forall c | c in cs :: Audio(c)) && OffPoles(t, cs)
    ensures AlwaysTame(warp, t, cs) <==> RatesSuit(t, cs)
    decreases |cs|
  {
    assert Gain(warp, t) >= 0.0;
    if cs != [] {
      var t1 := Turn(t, cs[0]);
      assert Audio(cs[0]) && forall c | c in cs[1..] :: c in cs;
      if cs[0].ToCorner? { HeldUnder(t.sr, cs[0].fc); }
      hide Held;
      if Under(t1.fc, t1.sr) {
        TameIff(warp, t1, cs[1..]);
      } else {
        assert OffPoles(t1, cs[1..]);
        assert Gain(warp, t1) < 0.0;
      }
    }
  }

  // Setting the corner again repairs whatever a rate change did.
  lemma CornerRepairs(warp: real -> real, t: Tuning, cs: seq<Control>, fc: real)
    requires LikeTan(warp) && Turned(t, cs).sr > 20.0
    ensures Gain(warp, Turn(Turned(t, cs), ToCorner(fc))) >= 0.0
  {
    HeldUnder(Turned(t, cs).sr, fc);
  }

  // How far the rate may fall behind a corner set before: to no less than 0.8 of it, if
  // the corner can be any.
  lemma RateDropIff(warp: real -> real, t: Tuning, sr: real)
    requires LikeTan(warp) && t.sr > 25.0 && sr > 20.0 && sr != 0.8 * t.sr
    ensures (forall fc :: Gain(warp, Turn(Turn(t, ToCorner(fc)), ToRate(sr))) >= 0.0) <==> sr > 0.8 * t.sr
  {
    if sr > 0.8 * t.sr {
      forall fc ensures Gain(warp, Turn(Turn(t, ToCorner(fc)), ToRate(sr))) >= 0.0 {
        HeldUnder(t.sr, fc);
        var f := Held(t.sr, fc);
        assert f <= 0.4 * t.sr;
        QuotientLess(f, sr, 0.5);
        QuotientPositive(f, sr);
        FracBelow(f / sr);
      }
    } else {
      var fc := if 0.75 * sr <= 0.4 * t.sr then 0.75 * sr else 0.4 * t.sr;
      assert 0.5 * sr < fc < sr && Held(t.sr, fc) == fc;
      QuotientLess(fc, sr, 0.5);
      QuotientLess(fc, sr, 1.0);
      FracBelow(fc / sr);
      assert Gain(warp, Turn(Turn(t, ToCorner(fc)), ToRate(sr))) < 0.0;
    }
  }

  // A voice is made at 48000 Hz and then set to its rate.  Its input filter is tame
  // from just above 32000 Hz on and its output filter from just above 24000 Hz on.
  lemma FreshVoiceTameIff(warp: real -> real, sr: real)
    requires LikeTan(warp) && sr > 16000.0 && sr != 24000.0 && sr != 32000.0
    ensures Gain(warp, Turn(FreshPre, ToRate(sr))) >= 0.0 <==> sr > 32000.0
    ensures Gain(warp, Turn(Fresh, ToRate(sr))) >= 0.0 <==> sr > 24000.0
  {
    SplitAtHalf(16000.0, sr);
    SplitAtHalf(12000.0, sr);
  }

  lemma SplitAtHalf(fc: real, sr: real)
    requires 0.0 < fc < sr
    ensures Frac(fc / sr) == 0.5 <==> sr == 2.0 * fc
    ensures Frac(fc / sr) < 0.5 <==> sr > 2.0 * fc
  {
    QuotientPositive(fc, sr);
    QuotientLess(fc, sr, 0.5);
    QuotientLess(fc, sr, 1.0);
    FracBelow(fc / sr);
  }

  // A fresh filter set to 16000 Hz keeps its corner at 12000 Hz: its gain is the
  // tangent of three quarters of pi, and silence makes it louder.
  lemma LowRateGrows(warp: real -> real, m: Memory)
    requires warp(0.75) == -1.0 && m == Memory(1.0, 0.0, 0.0)
    ensures var t := Turn(Fresh, ToRate(16000.0));
            && Gain(warp, t) == -1.0 && Denominator(-1.0, t.rq) == -2.0
            && Tick(MakeCoeffs(-1.0, t.rq), m, 0.0) == Memory(-2.0, 1.0, 0.0)
            && Energy(m) == 1.0 && Energy(Tick(MakeCoeffs(-1.0, t.rq), m, 0.0)) == 5.0
  {
    var t := Turn(Fresh, ToRate(16000.0));
    assert t.fc / t.sr == 0.75;
    assert MakeCoeffs(-1.0, 4.0) == Coeffs(-1.0, 4.0, 0.5, 3.0, -0.5, 1.0);
  }
}

module Svf {
  import opened SvfMath
  import opened SvfTuning

  // The filter object.
  class Filter {
    const warp: real -> real
    var sr: real
    var minFc: real
    var maxFc: real
    var fc: real
    var rq: real
    var g: real
    var g1: real
    var g2: real
    var g3: real
    var g4: real
    var v1: real
    var v2: real
    var v0z: real
    var lpMix: real
    var hpMix: real
    var bpMix: real
    var brMix: real

    // The limits and the gain match the rate and the corner; where the coefficients'
    // divisor is not zero they match too.
    ghost predicate Valid()
      reads this
    {
      && sr > 0.0 && minFc == 10.0 && maxFc == sr * 0.4
      && g == Gain(warp, Tuning())
      && (Denominator(g, rq) != 0.0 ==> Coeffs() == MakeCoeffs(g, rq))
    }

    function Tuning(): Tuning
      reads this
    {
      SvfTuning.Tuning(sr, fc, rq)
    }

    function Coeffs(): Coeffs
      reads this
    {
      SvfMath.Coeffs(g, rq, g1, g2, g3, g4)
    }

    function Memory(): Memory
      reads this
    {
      SvfMath.Memory(v1, v2, v0z)
    }

    function Mix(): Mix
      reads this
    {
      SvfMath.Mix(lpMix, hpMix, bpMix, brMix)
    }

    constructor (warp: real -> real)
      ensures Valid() && this.warp == warp && Tuning() == Fresh && Memory() == SvfMath.Memory(0.0, 0.0, 0.0)
    {
      this.warp := warp;
      fc, rq := 12000.0, 4.0;
      v1, v2, v0z := 0.0, 0.0, 0.0;
      lpMix, hpMix, bpMix, brMix := 0.0, 0.0, 0.0, 0.0;
      new;
      SetSampleRate(48000.0);
    }

    // Moves the limits, but not the corner.
    method SetSampleRate(aSr: real)
      requires aSr > 0.0
      modifies this`sr, this`minFc, this`maxFc, this`g, this`g1, this`g2, this`g3, this`g4
      ensures Valid() && Tuning() == Turn(old(Tuning()), ToRate(aSr))
    {
      sr, minFc, maxFc := aSr, 10.0, aSr * 0.4;
      CalcWarp();
      CalcCoeffs();
    }

    method CalcWarp()
      requires sr > 0.0
      modifies this`g
      ensures g == Gain(warp, Tuning())
    {
      g := warp(fc / sr);
    }

    // Where the divisor is zero nothing is known of the quotient.
    method CalcCoeffs()
      modifies this`g1, this`g2, this`g3, this`g4
      ensures Denominator(g, rq) != 0.0 ==> Coeffs() == MakeCoeffs(g, rq)
    {
      g1 := *;
      if Denominator(g, rq) != 0.0 { g1 := g / (1.0 + g * (g + rq)); }
      g2 := 2.0 * (g + rq) * g1;
      g3 := g * g1;
      g4 := 2.0 * g1;
    }

    // Clamps the corner, then recomputes.
    method SetFc(aFc: real)
      requires Valid()
      modifies this`fc, this`g, this`g1, this`g2, this`g3, this`g4
      ensures Valid() && Tuning() == Turn(old(Tuning()), ToCorner(aFc))
    {
      fc := if aFc > maxFc then maxFc else aFc;
      fc := if fc < minFc then minFc else fc;
      CalcWarp();
      CalcCoeffs();
    }

    method SetRq(aRq: real)
      requires Valid()
      modifies this`rq, this`g1, this`g2, this`g3, this`g4
      ensures Valid() && Tuning() == Turn(old(Tuning()), ToQ(aRq))
    {
      rq := aRq;
      CalcCoeffs();
    }

    method ClearState()
      modifies this`v1, this`v2, this`v0z
      ensures Memory() == SvfMath.Memory(0.0, 0.0, 0.0)
    {
      v0z, v1, v2 := 0.0, 0.0, 0.0;
    }

    method GetNextSample(x: real) returns (y: real)
      modifies this`v1, this`v2, this`v0z
      ensures Memory() == Tick(Coeffs(), old(Memory()), x)
      ensures y == Output(Coeffs(), Memory(), x, Mix())
    {
      var v1z, v2z := v1, v2;
      var v3 := x + v0z - 2.0 * v2z;
      v1 := v1 + g1 * v3 - g2 * v1z;
      v2 := v2 + g3 * v3 + g4 * v1z;
      v0z := x;
      var lp, bp := v2, v1;
      var hp := x - rq * v1 - v2;
      var br := x - rq * v1;
      y := lp * lpMix + hp * hpMix + bp * bpMix + br * brMix;
    }
  }
}
