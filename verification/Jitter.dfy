/** How much jitter the beacon check forgives: the exact share by which every interval of a group may differ from
    their mean, as a function of the number of intervals. */
module Jitter {
  import opened Beacon

  /** Every interval is within `w` of `mu`. */
  predicate Within(s: seq<real>, mu: real, w: real) { forall i :: 0 <= i < |s| ==> -w <= s[i] - mu <= w }

  // ---------------------------------------------------------------- real arithmetic

  lemma Split(w: real, x: real, y: real, z: real)
    requires z == x + y
    ensures w * z == w * x + w * y
  {
  }

  lemma Grows(w: real, x: real, y: real)
    requires w >= 0.0 && x <= y
    ensures w * x <= w * y
  {
  }

  lemma ProductSquare(x: real, y: real)
    ensures Sq(x * y) == Sq(x) * Sq(y)
  {
    assert (x * y) * (x * y) == (x * x) * (y * y);
  }

  lemma ScaledBound(j2: real, c2: real, m2: real, n: real, k: real)
    requires j2 * n <= c2 * k && m2 >= 0.0
    ensures (j2 * m2) * n <= (c2 * m2) * k
  {
    var p, q := j2 * n, c2 * k;
    assert p * m2 <= q * m2;
    assert (j2 * m2) * n == p * m2 && (c2 * m2) * k == q * m2;
  }

  lemma ScaledSquares(j: real, c: real, mu: real, n: real, k: real)
    requires Sq(j) * n <= Sq(c) * k
    ensures Sq(j * mu) * n <= Sq(c * mu) * k
  {
    ProductSquare(j, mu);
    ProductSquare(c, mu);
    ScaledBound(Sq(j), Sq(c), Sq(mu), n, k);
  }

  // ---------------------------------------------------------------- the upper bound

  function Positive(x: real): real { if x > 0.0 then x else 0.0 }

  /** By how much the intervals above `mu` exceed it, in all, and how many there are. */
  function Excess(s: seq<real>, mu: real): real {
    if s == [] then 0.0 else Excess(s[..|s| - 1], mu) + Positive(s[|s| - 1] - mu)
  }

  function Above(s: seq<real>, mu: real): nat {
    if s == [] then 0 else Above(s[..|s| - 1], mu) + (if s[|s| - 1] > mu then 1 else 0)
  }

  /** By how much the intervals below `mu` fall short of it, in all, and how many there are. */
  function Deficit(s: seq<real>, mu: real): real {
    if s == [] then 0.0 else Deficit(s[..|s| - 1], mu) + Positive(mu - s[|s| - 1])
  }

  function Below(s: seq<real>, mu: real): nat {
    if s == [] then 0 else Below(s[..|s| - 1], mu) + (if s[|s| - 1] < mu then 1 else 0)
  }

  lemma {:induction false} CountsFit(s: seq<real>, mu: real)
    ensures Above(s, mu) + Below(s, mu) <= |s|
  {
    if s != [] { CountsFit(s[..|s| - 1], mu); }
  }

  lemma {:induction false} Balance(s: seq<real>, mu: real)
    ensures Excess(s, mu) - Deficit(s, mu) == Sum(s) - mu * |s| as real
  {
    if s != [] {
      Balance(s[..|s| - 1], mu);
      Distribute(mu, (|s| - 1) as real, |s| as real);
    }
  }

  /** Excess and deficit are the same about the mean. */
  lemma {:induction false} BalanceAboutMean(s: seq<real>, mu: real)
    requires s != [] && mu == Mean(s)
    ensures Excess(s, mu) == Deficit(s, mu)
  {
    Balance(s, mu);
    assert mu * |s| as real == Sum(s);
  }

  lemma OneMore(sum: real, w: real, n: nat, x: real)
    requires sum <= w * n as real && x <= w
    ensures sum + x <= w * (n + 1) as real
  {
    Distribute(w, n as real, (n + 1) as real);
  }

  lemma {:induction false} ExcessFits(s: seq<real>, mu: real, w: real)
    requires Within(s, mu, w)
    ensures Excess(s, mu) <= w * Above(s, mu) as real
  {
    if s != [] {
      var init, x := s[..|s| - 1], s[|s| - 1];
      ExcessFits(init, mu, w);
      if x > mu { OneMore(Excess(init, mu), w, Above(init, mu), x - mu); }
    }
  }

  lemma {:induction false} DeficitFits(s: seq<real>, mu: real, w: real)
    requires Within(s, mu, w)
    ensures Deficit(s, mu) <= w * Below(s, mu) as real
  {
    if s != [] {
      var init, x := s[..|s| - 1], s[|s| - 1];
      DeficitFits(init, mu, w);
      if x < mu { OneMore(Deficit(init, mu), w, Below(init, mu), mu - x); }
    }
  }

  lemma SquareFits(d: real, w: real)
    requires -w <= d <= w
    ensures Sq(d) <= w * (Positive(d) + Positive(-d))
  {
    if d > 0.0 { Grows(d, d, w); } else { Grows(-d, -d, w); }
  }

  lemma OneMoreSquare(deviation: real, w: real, sum: real, d: real, sum': real)
    requires deviation <= w * sum && -w <= d <= w && sum' == sum + (Positive(d) + Positive(-d))
    ensures deviation + Sq(d) <= w * sum'
  {
    SquareFits(d, w);
    Split(w, sum, Positive(d) + Positive(-d), sum');
  }

  lemma {:induction false} DeviationFits(s: seq<real>, mu: real, w: real, sum: real)
    requires Within(s, mu, w) && sum == Excess(s, mu) + Deficit(s, mu)
    ensures Deviation(s, mu) <= w * sum
  {
    if s != [] {
      var init, d := s[..|s| - 1], s[|s| - 1] - mu;
      var before := Excess(init, mu) + Deficit(init, mu);
      DeviationFits(init, mu, w, before);
      OneMoreSquare(Deviation(init, mu), w, before, d, sum);
    }
  }

  /** As many as can be paired off. */
  function Paired(n: nat): nat { 2 * (n / 2) }

  /** Intervals within `w` of their mean deviate most if they lie at the ends, in pairs. */
  lemma {:induction false} DeviationBound(s: seq<real>, mu: real, w: real)
    requires s != [] && mu == Mean(s) && Within(s, mu, w)
    ensures Deviation(s, mu) <= Sq(w) * Paired(|s|) as real
  {
    BalanceAboutMean(s, mu);
    BalancedBound(s, mu, w);
  }

  lemma {:induction false} BalancedBound(s: seq<real>, mu: real, w: real)
    requires s != [] && Excess(s, mu) == Deficit(s, mu) && Within(s, mu, w)
    ensures Deviation(s, mu) <= Sq(w) * Paired(|s|) as real
  {
    var h := |s| / 2;
    HalfExcess(s, mu, w, h);
    DeviationFits(s, mu, w, Excess(s, mu) + Deficit(s, mu));
    PairBound(Deviation(s, mu), w, Excess(s, mu), Deficit(s, mu), h);
  }

  lemma {:induction false} HalfExcess(s: seq<real>, mu: real, w: real, h: nat)
    requires s != [] && Excess(s, mu) == Deficit(s, mu) && Within(s, mu, w) && h == |s| / 2
    ensures w >= 0.0 && Excess(s, mu) <= w * h as real
  {
    ExcessFits(s, mu, w);
    DeficitFits(s, mu, w);
    CountsFit(s, mu);
    assert -w <= s[0] - mu <= w;
    if Above(s, mu) <= Below(s, mu) {
      FewerFit(Excess(s, mu), w, Above(s, mu), h);
    } else {
      FewerFit(Deficit(s, mu), w, Below(s, mu), h);
    }
  }

  lemma FewerFit(x: real, w: real, n: nat, h: nat)
    requires w >= 0.0 && n <= h && x <= w * n as real
    ensures x <= w * h as real
  {
    Grows(w, n as real, h as real);
  }

  lemma PairBound(deviation: real, w: real, x: real, y: real, h: nat)
    requires w >= 0.0 && x == y && deviation <= w * (x + y) && x <= w * h as real
    ensures deviation <= Sq(w) * (2 * h) as real
  {
    var p := w * h as real;
    Grows(w, x + y, p + p);
    Twice(w, h, p);
  }

  lemma Twice(w: real, h: nat, p: real)
    requires p == w * h as real
    ensures w * (p + p) == Sq(w) * (2 * h) as real
  {
    assert (2 * h) as real == 2.0 * h as real;
    assert w * p == w * w * h as real;
  }

  // ---------------------------------------------------------------- the worst case

  /** Intervals that alternate between 1 - j and 1 + j; an odd one out is 1. */
  function Zigzag(n: nat, j: real): seq<real> {
    if n == 0 then [] else if n == 1 then [1.0] else Zigzag(n - 2, j) + [1.0 - j, 1.0 + j]
  }

  lemma {:induction false} SumTwo(s: seq<real>, x: real, y: real, mu: real)
    ensures Sum(s + [x, y]) == Sum(s) + x + y
    ensures Deviation(s + [x, y], mu) == Deviation(s, mu) + Sq(x - mu) + Sq(y - mu)
  {
    var one := s + [x];
    var two := one + [y];
    assert s + [x, y] == two && two[..|one|] == one && one[..|s|] == s;
  }

  lemma {:induction false} ZigzagSpread(n: nat, j: real)
    requires j >= 0.0
    ensures |Zigzag(n, j)| == n && Within(Zigzag(n, j), 1.0, j)
  {
    if n > 1 { ZigzagSpread(n - 2, j); }
  }

  lemma {:induction false} ZigzagSum(n: nat, j: real)
    ensures Sum(Zigzag(n, j)) == n as real
  {
    if n == 1 {
      assert [1.0][..0] == [];
    } else if n > 1 {
      ZigzagSum(n - 2, j);
      SumTwo(Zigzag(n - 2, j), 1.0 - j, 1.0 + j, 1.0);
    }
  }

  lemma {:induction false} ZigzagDeviates(n: nat, j: real, p: nat)
    requires p == Paired(n)
    ensures Deviation(Zigzag(n, j), 1.0) == Sq(j) * p as real
  {
    if n < 2 {
      LoneDeviates(n, j);
    } else {
      ZigzagDeviates(n - 2, j, p - 2);
      OnePairMore(Zigzag(n - 2, j), j);
      TwoMore(Sq(j), p - 2, p, Deviation(Zigzag(n - 2, j), 1.0), Deviation(Zigzag(n, j), 1.0));
    }
  }

  lemma LoneDeviates(n: nat, j: real)
    requires n < 2
    ensures Deviation(Zigzag(n, j), 1.0) == 0.0
  {
    assert [1.0][..0] == [];
    assert Sq(0.0) == 0.0;
  }

  lemma {:induction false} OnePairMore(s: seq<real>, j: real)
    ensures Deviation(s + [1.0 - j, 1.0 + j], 1.0) == Deviation(s, 1.0) + Sq(j) + Sq(j)
  {
    SumTwo(s, 1.0 - j, 1.0 + j, 1.0);
    SquareOfEither(1.0 - j - 1.0, j);
    SquareOfEither(1.0 + j - 1.0, j);
  }

  lemma SquareOfEither(x: real, y: real)
    requires x == y || x == -y
    ensures Sq(x) == Sq(y)
  {
  }

  lemma TwoMore(q: real, p: nat, p': nat, x: real, y: real)
    requires p' == p + 2 && x == q * p as real && y == x + q + q
    ensures y == q * p' as real
  {
    Split(q, p as real, 2.0, p' as real);
  }

  // ---------------------------------------------------------------- the tolerance

  /** All lists of `n` intervals within the share `j` of their mean pass the variation test `c`. */
  ghost predicate Forgives(n: nat, j: real, c: real)
    requires n >= 2
  {
    forall iv: seq<real> :: |iv| == n && Mean(iv) > 0.0 && Within(iv, Mean(iv), j * Mean(iv)) ==> CvAtMost(iv, c)
  }

  predicate Tolerable(n: nat, j: real, c: real) { Sq(j) * Paired(n) as real <= Sq(c) * (n - 1) as real }

  lemma TolerableScales(n: nat, j: real, c: real, mu: real, w: real, bound: real, cap: real)
    requires n >= 1 && Tolerable(n, j, c) && w == j * mu
    requires bound == Sq(w) * Paired(n) as real && cap == Sq(c * mu) * (n - 1) as real
    ensures bound <= cap
  {
    ScaledSquares(j, c, mu, Paired(n) as real, (n - 1) as real);
  }

  lemma {:induction false} TolerablePasses(iv: seq<real>, mu: real, j: real, c: real)
    requires |iv| >= 2 && mu == Mean(iv) && mu > 0.0 && Within(iv, mu, j * mu) && Tolerable(|iv|, j, c)
    ensures CvAtMost(iv, c)
  {
    var w := j * mu;
    var bound, cap := Sq(w) * Paired(|iv|) as real, Sq(c * mu) * (|iv| - 1) as real;
    TolerableScales(|iv|, j, c, mu, w, bound, cap);
    BoundedPasses(iv, mu, w, c, bound, cap);
  }

  lemma {:induction false} BoundedPasses(iv: seq<real>, mu: real, w: real, c: real, bound: real, cap: real)
    requires |iv| >= 2 && mu == Mean(iv) && mu > 0.0 && Within(iv, mu, w)
    requires bound == Sq(w) * Paired(|iv|) as real && cap == Sq(c * mu) * (|iv| - 1) as real && bound <= cap
    ensures CvAtMost(iv, c)
  {
    BalanceAboutMean(iv, mu);
    BalancedWithin(iv, mu, w, bound);
    SmallDeviationPasses(iv, mu, c, cap);
  }

  lemma {:induction false} BalancedWithin(s: seq<real>, mu: real, w: real, bound: real)
    requires s != [] && Excess(s, mu) == Deficit(s, mu) && Within(s, mu, w) && bound == Sq(w) * Paired(|s|) as real
    ensures Deviation(s, mu) <= bound
  {
    BalancedBound(s, mu, w);
  }

  lemma {:induction false} SmallDeviationPasses(iv: seq<real>, mu: real, c: real, cap: real)
    requires |iv| >= 2 && mu == Mean(iv) && mu > 0.0
    requires Deviation(iv, mu) <= cap == Sq(c * mu) * (|iv| - 1) as real
    ensures CvAtMost(iv, c)
  {
  }

  /** The alternating intervals have mean one, and pass exactly if the share is tolerable. */
  lemma {:induction false} ZigzagPasses(n: nat, j: real, c: real)
    requires n >= 2 && j >= 0.0
    ensures |Zigzag(n, j)| == n && Mean(Zigzag(n, j)) == 1.0 && Within(Zigzag(n, j), 1.0, j)
    ensures CvAtMost(Zigzag(n, j), c) <==> Tolerable(n, j, c)
  {
    ZigzagSpread(n, j);
    ZigzagSum(n, j);
    ZigzagDeviates(n, j, Paired(n));
    UnitMean(Zigzag(n, j), c);
  }

  lemma {:induction false} UnitMean(iv: seq<real>, c: real)
    requires |iv| >= 2 && Sum(iv) == |iv| as real
    ensures Mean(iv) == 1.0
    ensures CvAtMost(iv, c) <==> Deviation(iv, 1.0) <= Sq(c) * (|iv| - 1) as real
  {
    SelfQuotient(|iv| as real, Sum(iv), Mean(iv));
    assert c * 1.0 == c;
  }

  lemma SelfQuotient(n: real, x: real, q: real)
    requires n > 0.0 && x == n && q == x / n
    ensures q == 1.0
  {
    assert q * n == x;
  }

  /** The variation test `c` forgives exactly the shares with 2 * (n / 2) * j^2 <= c^2 * (n - 1). */
  lemma JitterTolerance(n: nat, j: real, c: real)
    requires n >= 2 && 0.0 <= j <= 1.0 && c >= 0.0
    ensures Forgives(n, j, c) <==> Sq(j) * (2 * (n / 2)) as real <= Sq(c) * (n - 1) as real
  {
    assert Tolerable(n, j, c) <==> Sq(j) * (2 * (n / 2)) as real <= Sq(c) * (n - 1) as real;
    if Tolerable(n, j, c) {
      TolerableIsForgiven(n, j, c);
    } else {
      ZigzagPasses(n, j, c);
      Unforgiven(Zigzag(n, j), j, c);
    }
  }

  lemma {:induction false} TolerableIsForgiven(n: nat, j: real, c: real)
    requires n >= 2 && Tolerable(n, j, c)
    ensures Forgives(n, j, c)
  {
    forall iv: seq<real> | |iv| == n && Mean(iv) > 0.0 && Within(iv, Mean(iv), j * Mean(iv)) ensures CvAtMost(iv, c) {
      TolerablePasses(iv, Mean(iv), j, c);
    }
  }

  lemma {:induction false} Unforgiven(iv: seq<real>, j: real, c: real)
    requires |iv| >= 2 && Mean(iv) == 1.0 && Within(iv, 1.0, j) && !CvAtMost(iv, c)
    ensures !Forgives(|iv|, j, c)
  {
    assert j * Mean(iv) == j;
  }

  // ---------------------------------------------------------------- what it means for a group of connections

  /** Timestamps with the given intervals between them. */
  function Stamps(iv: seq<real>): (ts: seq<real>)
    ensures |ts| == |iv| + 1
  {
    if iv == [] then [0.0]
    else
      var init := Stamps(iv[..|iv| - 1]);
      init + [init[|init| - 1] + iv[|iv| - 1]]
  }

  lemma {:induction false} StampsSorted(iv: seq<real>)
    requires forall i :: 0 <= i < |iv| ==> iv[i] >= 0.0
    ensures Sorted(Stamps(iv)) && forall t :: t in Stamps(iv) ==> t <= Stamps(iv)[|iv|]
  {
    if iv != [] {
      StampsSorted(iv[..|iv| - 1]);
      SortedAppend(Stamps(iv[..|iv| - 1]), Stamps(iv)[|iv|]);
    }
  }

  lemma {:induction false} StampsGaps(iv: seq<real>)
    ensures Gaps(Stamps(iv)) == iv
  {
    if iv != [] {
      var init, x := iv[..|iv| - 1], iv[|iv| - 1];
      StampsGaps(init);
      GapsAppend(Stamps(init), Stamps(init)[|init|] + x);
      assert iv == init + [x];
    }
  }

  /** Every list of non-negative intervals is the list of intervals of some group. */
  lemma {:induction false} StampsIntervals(iv: seq<real>)
    requires forall i :: 0 <= i < |iv| ==> iv[i] >= 0.0
    ensures Intervals(Stamps(iv)) == iv
  {
    var ts := Stamps(iv);
    StampsSorted(iv);
    SortSorts(ts);
    SortedIsUnique(Sort(ts), ts);
    StampsGaps(iv);
  }

  /** Connections at most 300 s apart on average, each interval within the share `j` of the mean. */
  predicate Regular(ts: seq<real>, j: real) {
    var iv := Intervals(ts);
    iv != [] && 0.0 < Mean(iv) <= BEACON_MAX_INTERVAL_S && Within(iv, Mean(iv), j * Mean(iv))
  }

  /** Every group of n + 1 connections with jitter up to `j` scores as a high-confidence beacon. */
  ghost predicate AlwaysBeacon(n: nat, j: real) {
    forall ts: seq<real> :: |ts| == n + 1 && Regular(ts, j) ==> GroupScore(ts) == SCORE_BEACON
  }

  lemma {:induction false} IntervalCount(ts: seq<real>)
    requires ts != []
    ensures |Intervals(ts)| == |ts| - 1
  {
    SortSorts(ts);
    SameLength(Sort(ts), ts);
    GapsTelescope(Sort(ts));
  }

  lemma {:induction false} TolerableScores(ts: seq<real>, j: real)
    requires |ts| >= BEACON_MIN_SAMPLES && Regular(ts, j) && Tolerable(|ts| - 1, j, BEACON_JITTER_CV_THRESHOLD)
    ensures GroupScore(ts) == SCORE_BEACON
  {
    IntervalCount(ts);
    TolerableIntervals(Intervals(ts), j);
  }

  lemma {:induction false} TolerableIntervals(iv: seq<real>, j: real)
    requires |iv| >= 2 && 0.0 < Mean(iv) <= BEACON_MAX_INTERVAL_S && Within(iv, Mean(iv), j * Mean(iv))
    requires Tolerable(|iv|, j, BEACON_JITTER_CV_THRESHOLD)
    ensures IntervalScore(iv) == SCORE_BEACON
  {
    TolerablePasses(iv, Mean(iv), j, BEACON_JITTER_CV_THRESHOLD);
  }

  lemma {:induction false} ZigzagStamps(n: nat, j: real)
    requires n >= 3 && 0.0 <= j <= 1.0
    ensures |Stamps(Zigzag(n, j))| == n + 1 && Regular(Stamps(Zigzag(n, j)), j)
    ensures GroupScore(Stamps(Zigzag(n, j))) == SCORE_BEACON <==> Tolerable(n, j, BEACON_JITTER_CV_THRESHOLD)
  {
    var iv := Zigzag(n, j);
    ZigzagPasses(n, j, BEACON_JITTER_CV_THRESHOLD);
    assert forall i :: 0 <= i < |iv| ==> iv[i] - 1.0 >= -j;
    StampsIntervals(iv);
    RegularUnit(Stamps(iv), j);
  }

  lemma {:induction false} RegularUnit(ts: seq<real>, j: real)
    requires |Intervals(ts)| >= 2 && Mean(Intervals(ts)) == 1.0 && Within(Intervals(ts), 1.0, j)
    ensures Regular(ts, j)
    ensures |ts| >= BEACON_MIN_SAMPLES ==>
            (GroupScore(ts) == SCORE_BEACON <==> CvAtMost(Intervals(ts), BEACON_JITTER_CV_THRESHOLD))
  {
    assert j * Mean(Intervals(ts)) == j;
  }

  lemma TolerableMeans(n: nat, j: real)
    requires n >= 1
    ensures Tolerable(n, j, BEACON_JITTER_CV_THRESHOLD) <==>
            Sq(j) * (2 * (n / 2)) as real <= 0.0225 * (n - 1) as real
  {
    assert Sq(BEACON_JITTER_CV_THRESHOLD) == 0.0225;
  }

  lemma TolerableIsAlways(n: nat, j: real)
    requires n >= 3 && Tolerable(n, j, BEACON_JITTER_CV_THRESHOLD)
    ensures AlwaysBeacon(n, j)
  {
    forall ts: seq<real> | |ts| == n + 1 && Regular(ts, j) ensures GroupScore(ts) == SCORE_BEACON {
      TolerableScores(ts, j);
    }
  }

  /** The jitter that the check tolerates, for every number of intervals. */
  lemma BeaconTolerance(n: nat, j: real)
    requires n >= 3 && 0.0 <= j <= 1.0
    ensures AlwaysBeacon(n, j) <==> Sq(j) * (2 * (n / 2)) as real <= 0.0225 * (n - 1) as real
  {
    TolerableMeans(n, j);
    if Tolerable(n, j, BEACON_JITTER_CV_THRESHOLD) {
      TolerableIsAlways(n, j);
    } else {
      ZigzagStamps(n, j);
    }
  }

  /** The documented tolerance of 15 % holds exactly for odd numbers of intervals. */
  lemma FifteenPercentNeedsOddCount(n: nat)
    requires n >= 3
    ensures AlwaysBeacon(n, 0.15) <==> n % 2 == 1
  {
    BeaconTolerance(n, 0.15);
    assert Sq(0.15) == 0.0225;
  }

  /** A share is safe for all groups exactly up to the limit for four intervals, 4 * j^2 <= 3 * 0.0225, which is
      just below 13 %. */
  lemma SafeShare(j: real)
    requires 0.0 <= j <= 1.0
    ensures (forall n: nat :: n >= 3 ==> AlwaysBeacon(n, j)) <==> 4.0 * Sq(j) <= 0.0675
  {
    FourIntervals(j);
    if 4.0 * Sq(j) <= 0.0675 {
      forall n: nat | n >= 3 ensures AlwaysBeacon(n, j) { SafeForEvery(j, n); }
    }
  }

  lemma FourIntervals(j: real)
    requires 0.0 <= j <= 1.0
    ensures AlwaysBeacon(4, j) <==> 4.0 * Sq(j) <= 0.0675
  {
    BeaconTolerance(4, j);
  }

  lemma SafeForEvery(j: real, n: nat)
    requires n >= 3 && 0.0 <= j <= 1.0 && 4.0 * Sq(j) <= 0.0675
    ensures AlwaysBeacon(n, j)
  {
    SafeIsTolerable(j, n);
    TolerableIsAlways(n, j);
  }

  lemma SafeIsTolerable(j: real, n: nat)
    requires n >= 3 && 4.0 * Sq(j) <= 0.0675
    ensures Tolerable(n, j, BEACON_JITTER_CV_THRESHOLD)
  {
    SafeForAll(Sq(j), n, Paired(n));
    TolerableMeans(n, j);
  }

  lemma SafeForAll(q: real, n: nat, p: nat)
    requires n >= 3 && p == 2 * (n / 2) && q >= 0.0 && 4.0 * q <= 0.0675
    ensures q * p as real <= 0.0225 * (n - 1) as real
  {
    if n % 2 == 1 {
      Grows(p as real, q, 0.0225);
    } else {
      Grows(p as real, q, 0.016875);
    }
  }
}
