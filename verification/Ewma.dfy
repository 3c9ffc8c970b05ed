/** The exponentially weighted baseline of one metric: an online mean and variance, and the
    z-score that is measured against them. Arithmetic is exact (`real`). */
module Ewma {
  import opened Common

  const EWMA_ALPHA: real := 0.2
  const BASELINE_MIN_SAMPLES: nat := 5

  /** A baseline as a value. `Unseen` is the state before the first sample. */
  datatype Baseline = Unseen | Tracked(mean: real, variance: real, n: nat) {
    predicate Reliable() { Tracked? && n >= BASELINE_MIN_SAMPLES }
  }

  predicate Smoothing(a: real) { 0.0 < a < 1.0 }

  function Updated(a: real, b: Baseline, x: real): Baseline {
    match b
    case Unseen => Tracked(x, 0.0, 1)
    case Tracked(m, v, n) =>
      var d := x - m;
      Tracked(m + Mul(a, d), Mul(1.0 - a, v + Mul(a, Mul(d, d))), n + 1)
  }

  /** The baseline after absorbing `xs` from left to right, starting at `b`. */
  function AbsorbFrom(a: real, b: Baseline, xs: seq<real>): Baseline {
    if xs == [] then b else Updated(a, AbsorbFrom(a, b, xs[..|xs| - 1]), xs[|xs| - 1])
  }

  function Absorb(a: real, xs: seq<real>): Baseline { AbsorbFrom(a, Unseen, xs) }

  lemma {:induction false} AbsorbFromConcat(a: real, b: Baseline, xs: seq<real>, ys: seq<real>)
    ensures AbsorbFrom(a, AbsorbFrom(a, b, xs), ys) == AbsorbFrom(a, b, xs + ys)
  {
    if ys == [] {
      assert xs + ys == xs;
    } else {
      AbsorbFromConcat(a, b, xs, ys[..|ys| - 1]);
      assert (xs + ys)[..|xs + ys| - 1] == xs + ys[..|ys| - 1];
    }
  }

  lemma {:induction false} AbsorbCounts(a: real, xs: seq<real>)
    ensures xs == [] <==> Absorb(a, xs).Unseen?
    ensures xs != [] ==> Absorb(a, xs).n == |xs|
  {
    if xs != [] { AbsorbCounts(a, xs[..|xs| - 1]); }
  }

  /** The object of the source: optional mean and variance, updated in place. */
  class EWMABaseline {
    const alpha: real
    var mean: Option<real>
    var variance: Option<real>
    var n: nat

    ghost predicate Valid()
      reads this
    {
      && (n == 0 <==> mean.None?)
      && (mean.None? <==> variance.None?)
    }

    function View(): Baseline
      requires Valid()
      reads this
    {
      if mean.None? then Unseen else Tracked(mean.value, variance.value, n)
    }

    constructor (alpha: real)
      ensures Valid() && View() == Unseen && this.alpha == alpha
    {
      this.alpha := alpha;
      mean, variance, n := None, None, 0;
    }

    method Update(value: real)
      requires Valid()
      modifies this
      ensures Valid() && View() == Updated(alpha, old(View()), value)
    {
      if mean.None? {
        mean := Some(value);
        variance := Some(0.0);
      } else {
        var delta := value - mean.value;
        variance := Some((1.0 - alpha) * (variance.value + alpha * (delta * delta)));
        mean := Some(mean.value + alpha * delta);
      }
      n := n + 1;
    }

    /** The loop of `seed_baseline`. */
    method Seed(values: seq<real>)
      requires Valid()
      modifies this
      ensures Valid() && View() == AbsorbFrom(alpha, old(View()), values)
    {
      for i := 0 to |values|
        invariant Valid() && View() == AbsorbFrom(alpha, old(View()), values[..i])
      {
        assert values[..i + 1][..i] == values[..i];
        Update(values[i]);
      }
      assert values[..|values|] == values;
    }

    /** `zscore(value) >= t` for a positive `t`, decided without a square root. */
    method ZScoreReaches(value: real, t: real) returns (yes: bool)
      requires Valid() && t > 0.0
      ensures yes == ZAtLeast(View(), value, t)
    {
      if mean.None? || n < BASELINE_MIN_SAMPLES { return false; }
      var spread := if variance.value <= 0.0 then 1.0 else variance.value;
      var d := value - mean.value;
      return d >= 0.0 && d * d >= t * t * spread;
    }
  }

  // ---------------------------------------------------------------- real arithmetic
  // Products are passed in under a name, so that callers only meet linear facts about them.

  /** A product as a function symbol. */
  function Mul(x: real, y: real): real { x * y }

  lemma NonNegative(x: real, y: real, p: real)
    requires x >= 0.0 && y >= 0.0 && p == x * y
    ensures p >= 0.0
  {
  }

  lemma Positive(x: real, y: real, p: real)
    requires x > 0.0 && y > 0.0 && p == x * y
    ensures p > 0.0
  {
  }

  lemma Scale(k: real, x: real, y: real, p: real, q: real)
    requires k >= 0.0 && x <= y && p == k * x && q == k * y
    ensures p <= q
  {
  }

  lemma ScaleStrict(k: real, x: real, y: real, p: real, q: real)
    requires k > 0.0 && x < y && p == k * x && q == k * y
    ensures p < q
  {
  }

  lemma Squares(x: real, y: real, xx: real, yy: real)
    requires x >= 0.0 && y >= 0.0 && xx == x * x && yy == y * y
    ensures x >= y <==> xx >= yy
  {
    var xy := x * y;
    if x >= y {
      Scale(x, y, x, xy, xx);
      Scale(y, y, x, yy, xy);
    } else {
      Scale(x, x, y, xx, xy);
      ScaleStrict(y, x, y, xy, yy);
    }
  }

  // ---------------------------------------------------------------- closed form

  function Pow(q: real, k: nat): real {
    if k == 0 then 1.0 else q * Pow(q, k - 1)
  }

  /** Weight of sample `i` among `n`: the first keeps (1-a)^(n-1), sample i gets a(1-a)^(n-1-i). */
  function Weight(a: real, n: nat, i: nat): real
    requires i < n
  {
    if i == 0 then Pow(1.0 - a, n - 1) else a * Pow(1.0 - a, n - 1 - i)
  }

  /** Sum over the first `k` samples of weight(i) * (x_i - c)^p, with the weights for `n` samples. */
  function PartialMoment(a: real, n: nat, xs: seq<real>, c: real, p: nat, k: nat): real
    requires k <= n && k <= |xs|
  {
    if k == 0 then 0.0
    else PartialMoment(a, n, xs, c, p, k - 1) + Mul(Weight(a, n, k - 1), Pow(xs[k - 1] - c, p))
  }

  /** The p-th weighted moment of all samples about `c`. */
  function Moment(a: real, xs: seq<real>, c: real, p: nat): real {
    PartialMoment(a, |xs|, xs, c, p, |xs|)
  }

  lemma {:induction false} OneMoreSampleScales(a: real, n: nat, xs: seq<real>, x: real, c: real, p: nat, k: nat)
    requires k <= n == |xs|
    ensures PartialMoment(a, n + 1, xs + [x], c, p, k) == Mul(1.0 - a, PartialMoment(a, n, xs, c, p, k))
  {
    if k > 0 {
      OneMoreSampleScales(a, n, xs, x, c, p, k - 1);
      var w, w', y := Weight(a, n, k - 1), Weight(a, n + 1, k - 1), Pow(xs[k - 1] - c, p);
      WeightScales(a, n, k - 1);
      ScaledTerm(1.0 - a, PartialMoment(a, n, xs, c, p, k - 1), w, y,
                 PartialMoment(a, n + 1, xs + [x], c, p, k - 1), w',
                 PartialMoment(a, n, xs, c, p, k), PartialMoment(a, n + 1, xs + [x], c, p, k));
    }
  }

  lemma WeightScales(a: real, n: nat, i: nat)
    requires i < n
    ensures Weight(a, n + 1, i) == Mul(1.0 - a, Weight(a, n, i))
  {
    var q, p := 1.0 - a, Pow(1.0 - a, n - 1 - i);
    assert Pow(q, n - i) == q * p;
    if i > 0 { assert a * (q * p) == q * (a * p); }
  }

  lemma ScaledTerm(q: real, s: real, w: real, y: real, s': real, w': real, r: real, r': real)
    requires s' == Mul(q, s) && w' == Mul(q, w) && r == s + Mul(w, y) && r' == s' + Mul(w', y)
    ensures r' == Mul(q, r)
  {
    assert w' * y == q * (w * y);
  }

  lemma MomentStep(a: real, xs: seq<real>, x: real, c: real, p: nat)
    requires xs != []
    ensures Moment(a, xs + [x], c, p) == Mul(1.0 - a, Moment(a, xs, c, p)) + Mul(a, Pow(x - c, p))
  {
    OneMoreSampleScales(a, |xs|, xs, x, c, p, |xs|);
    assert Weight(a, |xs| + 1, |xs|) == a * Pow(1.0 - a, 0) == a;
  }

  lemma PowSmall(y: real)
    ensures Pow(y, 0) == 1.0 && Pow(y, 1) == y && Pow(y, 2) == y * y
  {
    assert Pow(y, 1) == y * Pow(y, 0);
    assert Pow(y, 2) == y * Pow(y, 1);
  }

  /** The second moment about `c` from the moments about zero. */
  lemma {:induction false} Recenter(a: real, n: nat, xs: seq<real>, c: real, k: nat)
    requires k <= n && k <= |xs|
    ensures PartialMoment(a, n, xs, c, 2, k) ==
            About(c, PartialMoment(a, n, xs, 0.0, 2, k), PartialMoment(a, n, xs, 0.0, 1, k),
                  PartialMoment(a, n, xs, 0.0, 0, k))
  {
    if k > 0 {
      Recenter(a, n, xs, c, k - 1);
      var w, x := Weight(a, n, k - 1), xs[k - 1];
      RecenterTerm(w, x, c,
                   PartialMoment(a, n, xs, c, 2, k - 1), PartialMoment(a, n, xs, 0.0, 2, k - 1),
                   PartialMoment(a, n, xs, 0.0, 1, k - 1), PartialMoment(a, n, xs, 0.0, 0, k - 1),
                   PartialMoment(a, n, xs, c, 2, k), PartialMoment(a, n, xs, 0.0, 2, k),
                   PartialMoment(a, n, xs, 0.0, 1, k), PartialMoment(a, n, xs, 0.0, 0, k));
    }
  }

  /** Second moment about `c`, from second, first and zeroth moments about zero. */
  function About(c: real, second: real, first: real, zeroth: real): real {
    second - 2.0 * c * first + c * c * zeroth
  }

  lemma RecenterTerm(w: real, x: real, c: real,
                     r: real, q: real, m: real, s: real, r': real, q': real, m': real, s': real)
    requires r == About(c, q, m, s)
    requires r' == r + Mul(w, Pow(x - c, 2)) && q' == q + Mul(w, Pow(x - 0.0, 2))
    requires m' == m + Mul(w, Pow(x - 0.0, 1)) && s' == s + Mul(w, Pow(x - 0.0, 0))
    ensures r' == About(c, q', m', s')
  {
    PowSmall(x - c);
    PowSmall(x - 0.0);
    ExpandAbout(w, x, c, r, q, m, s);
  }

  lemma ExpandAbout(w: real, x: real, c: real, r: real, q: real, m: real, s: real)
    requires r == About(c, q, m, s)
    ensures r + Mul(w, (x - c) * (x - c)) == About(c, q + Mul(w, x * x), m + Mul(w, x), s + Mul(w, 1.0))
  {
    var wx, wxx := w * x, w * (x * x);
    assert w * ((x - c) * (x - c)) == wxx - 2.0 * c * wx + c * c * w;
    assert c * c * (s + w) == c * c * s + c * c * w;
    assert 2.0 * c * (m + wx) == 2.0 * c * m + 2.0 * c * wx;
  }

  /** The recurrence of `update` computes exactly the weighted mean and the weighted variance
      about it, with weights that sum to one. */
  lemma {:induction false} ClosedForm(a: real, xs: seq<real>)
    requires Smoothing(a) && xs != []
    ensures Moment(a, xs, 0.0, 0) == 1.0
    ensures Absorb(a, xs) == Tracked(Moment(a, xs, 0.0, 1), Moment(a, xs, Moment(a, xs, 0.0, 1), 2), |xs|)
  {
    var n := |xs|;
    var ys, x := xs[..n - 1], xs[n - 1];
    assert xs == ys + [x];
    PowSmall(x - 0.0);
    if ys == [] {
      assert xs == [x];
      assert Absorb(a, xs) == Updated(a, Absorb(a, ys), x);
      SingleSample(a, x);
    } else {
      ClosedForm(a, ys);
      MomentStep(a, ys, x, 0.0, 0);
      MomentStep(a, ys, x, 0.0, 1);
      MomentStep(a, ys, x, 0.0, 2);
      var m' := Moment(a, xs, 0.0, 1);
      CentralSecond(a, ys);
      assert Absorb(a, xs) == Updated(a, Absorb(a, ys), x);
      VarianceStep(a, Absorb(a, ys), Moment(a, ys, 0.0, 2), x, Moment(a, xs, 0.0, 2), m');
      CentralSecond(a, xs);
    }
  }

  lemma SingleSample(a: real, x: real)
    ensures Moment(a, [x], 0.0, 0) == 1.0 && Moment(a, [x], 0.0, 1) == x && Moment(a, [x], x, 2) == 0.0
  {
    PowSmall(x - 0.0);
    PowSmall(x - x);
    assert Weight(a, 1, 0) == 1.0;
    assert PartialMoment(a, 1, [x], x, 2, 0) == 0.0;
    assert PartialMoment(a, 1, [x], 0.0, 1, 0) == 0.0;
    assert PartialMoment(a, 1, [x], 0.0, 0, 0) == 0.0;
  }

  lemma CentralSecond(a: real, xs: seq<real>)
    requires xs != [] && Moment(a, xs, 0.0, 0) == 1.0
    ensures var m := Moment(a, xs, 0.0, 1); Moment(a, xs, m, 2) == Moment(a, xs, 0.0, 2) - Mul(m, m)
  {
    Recenter(a, |xs|, xs, Moment(a, xs, 0.0, 1), |xs|);
  }

  lemma VarianceStep(a: real, b: Baseline, q: real, x: real, q': real, mm: real)
    requires b.Tracked? && b.variance == q - Mul(b.mean, b.mean)
    requires q' == Mul(1.0 - a, q) + Mul(a, Pow(x - 0.0, 2))
    requires mm == Mul(1.0 - a, b.mean) + Mul(a, Pow(x - 0.0, 1))
    ensures Updated(a, b, x).mean == mm && Updated(a, b, x).variance == q' - Mul(mm, mm)
  {
    PowSmall(x - 0.0);
    var d := x - b.mean;
    VarianceAlgebra(a, b.mean, q, x, b.variance, d, Mul(d, d), Pow(x - 0.0, 2), Updated(a, b, x).variance, q', mm);
  }

  lemma VarianceAlgebra(a: real, m: real, q: real, x: real, v: real, d: real, e: real, xx: real,
                        v': real, q': real, mm: real)
    requires v == q - Mul(m, m) && d == x - m && e == d * d && xx == x * x
    requires v' == Mul(1.0 - a, v + Mul(a, e))
    requires q' == Mul(1.0 - a, q) + Mul(a, xx) && mm == Mul(1.0 - a, m) + Mul(a, x)
    ensures mm == m + Mul(a, d) && v' == q' - Mul(mm, mm)
  {
    var ad, md, ae, p := Mul(a, d), Mul(m, d), Mul(a, e), Mul(m, m);
    var aq, ap, amd, aae := Mul(a, q), Mul(a, p), Mul(a, md), Mul(a, ae);
    MeanMoves(a, m, x, d, mm, ad);
    SquareOfSum(a, m, d, mm, ad, p, md, e, amd, ae, aae);
    SecondMoves(a, q, x, m, d, xx, q', aq, p, md, e, ap, amd, ae);
    VarianceMoves(a, q, p, ae, v, v', aq, ap, aae);
  }

  lemma MeanMoves(a: real, m: real, x: real, d: real, mm: real, ad: real)
    requires d == x - m && mm == Mul(1.0 - a, m) + Mul(a, x) && ad == Mul(a, d)
    ensures mm == m + ad
  {
  }

  lemma SquareOfSum(a: real, m: real, d: real, mm: real, ad: real,
                    p: real, md: real, e: real, amd: real, ae: real, aae: real)
    requires mm == m + ad && ad == Mul(a, d) && p == Mul(m, m) && md == Mul(m, d) && e == d * d
    requires amd == Mul(a, md) && ae == Mul(a, e) && aae == Mul(a, ae)
    ensures Mul(mm, mm) == p + 2.0 * amd + aae
  {
    assert m * ad == amd;
    assert ad * ad == aae;
    assert mm * mm == m * m + 2.0 * (m * ad) + ad * ad;
  }

  lemma SecondMoves(a: real, q: real, x: real, m: real, d: real, xx: real, q': real,
                    aq: real, p: real, md: real, e: real, ap: real, amd: real, ae: real)
    requires d == x - m && xx == x * x && q' == Mul(1.0 - a, q) + Mul(a, xx)
    requires aq == Mul(a, q) && p == Mul(m, m) && md == Mul(m, d) && e == d * d
    requires ap == Mul(a, p) && amd == Mul(a, md) && ae == Mul(a, e)
    ensures q' == q - aq + ap + 2.0 * amd + ae
  {
    assert xx == p + 2.0 * md + e;
    assert a * xx == a * p + 2.0 * (a * md) + a * e;
  }

  lemma VarianceMoves(a: real, q: real, p: real, ae: real, v: real, v': real, aq: real, ap: real, aae: real)
    requires v == q - p && v' == Mul(1.0 - a, v + ae)
    requires aq == Mul(a, q) && ap == Mul(a, p) && aae == Mul(a, ae)
    ensures v' == q - p + ae - aq + ap - aae
  {
  }

  /** The mean stays between any bounds on the samples, and the variance is never negative. */
  lemma {:induction false} MeanAndVarianceBounds(a: real, xs: seq<real>, lo: real, hi: real)
    requires Smoothing(a) && xs != []
    requires forall i :: 0 <= i < |xs| ==> lo <= xs[i] <= hi
    ensures lo <= Absorb(a, xs).mean <= hi
    ensures Absorb(a, xs).variance >= 0.0
  {
    var ys, x := xs[..|xs| - 1], xs[|xs| - 1];
    AbsorbCounts(a, ys);
    if ys != [] {
      MeanAndVarianceBounds(a, ys, lo, hi);
      StepBounds(a, Absorb(a, ys), x, lo, hi);
    }
  }

  lemma StepBounds(a: real, b: Baseline, x: real, lo: real, hi: real)
    requires Smoothing(a) && b.Tracked? && b.variance >= 0.0
    requires lo <= b.mean <= hi && lo <= x <= hi
    ensures lo <= Updated(a, b, x).mean <= hi && Updated(a, b, x).variance >= 0.0
  {
    var d := x - b.mean;
    var p, e := a * d, d * d;
    if d >= 0.0 {
      NonNegative(a, d, p);
      Scale(d, a, 1.0, p, d);
    } else {
      NonNegative(a, -d, -p);
      Scale(-d, a, 1.0, -p, -d);
    }
    NonNegative(a, e, a * e);
    NonNegative(1.0 - a, b.variance + a * e, Updated(a, b, x).variance);
  }

  // ---------------------------------------------------------------- z-score

  /** The square of `std`: one when the variance is unknown or zero. */
  function Spread(b: Baseline): (s: real)
    requires b.Tracked?
    ensures s > 0.0
  {
    if b.variance <= 0.0 then 1.0 else b.variance
  }

  predicate ZAtLeast(b: Baseline, v: real, t: real) {
    && b.Reliable()
    && v >= b.mean
    && (v - b.mean) * (v - b.mean) >= t * t * Spread(b)
  }

  /** `ZAtLeast` is the quotient test of the source, for the positive root `std` of the spread. */
  lemma ZScoreWithoutRoot(b: Baseline, v: real, t: real, std: real)
    requires b.Reliable() && t > 0.0
    requires std > 0.0 && std * std == Spread(b)
    ensures (v - b.mean) / std >= t <==> ZAtLeast(b, v, t)
  {
    var d := v - b.mean;
    var z, y := d / std, t * std;
    assert d == z * std;
    if z >= t { Scale(std, t, z, y, d); } else { ScaleStrict(std, z, t, d, y); }
    Positive(t, std, y);
    assert y * y == (t * t) * (std * std);
    if d >= 0.0 { Squares(d, y, d * d, t * t * Spread(b)); }
  }

  lemma ZMonotone(b: Baseline, v: real, w: real, t: real)
    requires v <= w && ZAtLeast(b, v, t)
    ensures ZAtLeast(b, w, t)
  {
    var x, y := w - b.mean, v - b.mean;
    Squares(x, y, x * x, y * y);
  }

  /** Having just absorbed `x`, no value up to `x` stands out by `t` deviations, for any `t`
      above sqrt((1-a)/a). */
  lemma AbsorbedValueIsOrdinary(a: real, xs: seq<real>, y: real, t: real)
    requires Smoothing(a) && xs != []
    requires t > 0.0 && a * (t * t) > 1.0 - a
    requires y <= xs[|xs| - 1]
    ensures !ZAtLeast(Absorb(a, xs), y, t)
  {
    var ys, x, b := xs[..|xs| - 1], xs[|xs| - 1], Absorb(a, xs);
    AbsorbCounts(a, ys);
    if ZAtLeast(b, y, t) {
      ZMonotone(b, y, x, t);
      if ys != [] {
        var lo, hi := Extent(ys);
        MeanAndVarianceBounds(a, ys, lo, hi);
        JumpBound(a, Absorb(a, ys), x, t);
      }
    }
  }

  /** Any finite sample list lies between two bounds. */
  lemma {:induction false} Extent(xs: seq<real>) returns (lo: real, hi: real)
    ensures forall i :: 0 <= i < |xs| ==> lo <= xs[i] <= hi
  {
    lo, hi := 0.0, 0.0;
    if xs != [] {
      var n := |xs| - 1;
      lo, hi := Extent(xs[..n]);
      forall i | 0 <= i < n ensures lo <= xs[i] <= hi { assert xs[i] == xs[..n][i]; }
      lo := if xs[n] < lo then xs[n] else lo;
      hi := if xs[n] > hi then xs[n] else hi;
    }
  }

  /** One update leaves the absorbed value itself within the bound. */
  lemma JumpBound(a: real, b: Baseline, x: real, t: real)
    requires Smoothing(a) && b.Tracked? && b.variance >= 0.0 && t > 0.0 && a * (t * t) > 1.0 - a
    ensures !ZAtLeast(Updated(a, b, x), x, t)
  {
    var c, d, tt := Updated(a, b, x), x - b.mean, t * t;
    var e := d * d;
    var ae, gap := a * e, x - c.mean;
    var core := (1.0 - a) * ae;
    var gg := gap * gap;
    GapSquared(a, d, e, gap, gg);
    Scale(1.0 - a, ae, b.variance + ae, core, c.variance);
    Positive(t, t, tt);
    if e > 0.0 {
      Positive(a, e, ae);
      Positive(1.0 - a, ae, core);
      SpreadDominates(a, e, ae, core, tt, gg, tt * core);
      Scale(tt, core, c.variance, tt * core, tt * c.variance);
    } else {
      Positive(tt, Spread(c), tt * Spread(c));
      assert e == 0.0;
      assert gg == 0.0;
    }
  }

  lemma GapSquared(a: real, d: real, e: real, gap: real, gg: real)
    requires gap == d - a * d && e == d * d && gg == gap * gap
    ensures gg == (1.0 - a) * ((1.0 - a) * e) && e >= 0.0
  {
    assert gap == (1.0 - a) * d;
  }

  lemma SpreadDominates(a: real, e: real, ae: real, core: real, tt: real, gg: real, p: real)
    requires Smoothing(a) && e > 0.0 && ae == a * e && core == (1.0 - a) * ae
    requires gg == (1.0 - a) * ((1.0 - a) * e) && p == tt * core
    ensures a * tt > 1.0 - a <==> gg < p
  {
    var k, u := (1.0 - a) * e, a * tt;
    Positive(1.0 - a, e, k);
    assert core == a * k;
    assert p == k * u;
    assert gg == k * (1.0 - a);
    if u > 1.0 - a { ScaleStrict(k, 1.0 - a, u, gg, p); } else { Scale(k, u, 1.0 - a, p, gg); }
  }

  /** The bound is sharp: after a perfectly steady history, the first larger sample ends up exactly
      sqrt((1-a)/a) deviations above the mean it has just moved. */
  lemma BoundIsAttained(a: real, b: Baseline, x: real, t: real)
    requires Smoothing(a) && b.Tracked? && b.n >= BASELINE_MIN_SAMPLES - 1
    requires b.variance == 0.0 && x > b.mean && t > 0.0
    ensures ZAtLeast(Updated(a, b, x), x, t) <==> a * (t * t) <= 1.0 - a
  {
    var c, d, tt := Updated(a, b, x), x - b.mean, t * t;
    var e := d * d;
    var ae, gap := a * e, x - c.mean;
    var gg := gap * gap;
    Positive(d, d, e);
    Positive(a, e, ae);
    Positive(1.0 - a, ae, c.variance);
    GapSquared(a, d, e, gap, gg);
    Positive(1.0 - a, d, gap);
    SpreadDominates(a, e, ae, c.variance, tt, gg, tt * c.variance);
  }

  /** Nor does an absorbed value stand out by three deviations once any one further sample has followed it. */
  lemma StillOrdinaryAfterOneMore(b: Baseline, x: real, y: real)
    requires b.Tracked? && b.variance >= 0.0
    ensures !ZAtLeast(Updated(EWMA_ALPHA, Updated(EWMA_ALPHA, b, x), y), x, 3.0)
  {
    var once := Updated(EWMA_ALPHA, b, x);
    var twice := Updated(EWMA_ALPHA, once, y);
    var d, f := x - b.mean, y - once.mean;
    var dd, ff, gap := d * d, f * f, x - twice.mean;
    assert once.variance == 0.8 * (b.variance + 0.2 * dd);
    assert twice.variance == 0.8 * (once.variance + 0.2 * ff);
    TwoStepGap(b.variance, d, f, dd, d * f, ff, twice.variance, gap, gap * gap);
  }

  lemma TwoStepGap(v: real, d: real, f: real, dd: real, df: real, ff: real, w: real, gap: real, gg: real)
    requires v >= 0.0 && dd == d * d && df == d * f && ff == f * f
    requires w == 0.64 * v + 0.128 * dd + 0.16 * ff && gap == 0.8 * d - 0.2 * f && gg == gap * gap
    ensures gg < 9.0 * (if w <= 0.0 then 1.0 else w)
  {
    assert gg == 0.64 * dd - 0.32 * df + 0.04 * ff;
    SumsOfSquares(d, f, dd, df, ff);
  }

  lemma SumsOfSquares(d: real, f: real, dd: real, df: real, ff: real)
    requires dd == d * d && df == d * f && ff == f * f
    ensures dd >= 0.0 && ff >= 0.0 && dd + 2.0 * df + ff >= 0.0 && dd - 2.0 * df + ff >= 0.0
  {
    SquareOfSumOf(d, f, d + f, dd + 2.0 * df + ff);
    SquareOfSumOf(d, -f, d - f, dd - 2.0 * df + ff);
  }

  lemma SquareOfSumOf(d: real, f: real, s: real, p: real)
    requires s == d + f && p == d * d + 2.0 * (d * f) + f * f
    ensures p >= 0.0
  {
    assert p == s * s;
  }
}
