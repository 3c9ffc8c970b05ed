/** Beacon detection: connections grouped by source, destination and port, whose inter-arrival times are
    judged by their mean and their coefficient of variation. Timestamps are seconds. */
module Beacon {
  import opened Common

  const BEACON_MIN_SAMPLES: nat := 4
  const BEACON_MAX_INTERVAL_S: real := 300.0
  const BEACON_JITTER_CV_THRESHOLD: real := 0.15
  const SCORE_BEACON: nat := 60
  const SCORE_BEACON_HIGH_JITTER: nat := 35

  /** A flow; `time` is absent when the timestamp is missing or does not parse. */
  datatype Flow = Flow(source: string, destination: string, port: int, time: Option<real>)

  datatype Connection = Connection(source: string, destination: string, port: int)

  /** The code's own notion of a public address, coarser than section 3 of RFC 1918. */
  predicate External(ip: string) {
    && ip != "" && !("10." <= ip) && !("192.168." <= ip) && !("172." <= ip) && !("127." <= ip)
    && ip != "0.0.0.0" && ip != "::" && ip != "::1"
  }

  function KeyOf(f: Flow): Connection { Connection(f.source, f.destination, f.port) }

  predicate Grouped(f: Flow) { External(f.destination) && f.time.Some? }

  function KeysOf(fs: seq<Flow>): seq<Connection> {
    if fs == [] then []
    else
      var init, f := KeysOf(fs[..|fs| - 1]), fs[|fs| - 1];
      if Grouped(f) then init + [KeyOf(f)] else init
  }

  function Connections(fs: seq<Flow>): seq<Connection> { FirstSeen(KeysOf(fs)) }

  /** The timestamps of one group, in the order of the flows. */
  function Times(fs: seq<Flow>, c: Connection): seq<real> {
    if fs == [] then []
    else
      var init, f := Times(fs[..|fs| - 1], c), fs[|fs| - 1];
      if Grouped(f) && KeyOf(f) == c then init + [f.time.value] else init
  }

  /** The flow is a timed connection from this source to this port of this address, which is not a private, local or
      unspecified one by its text. */
  predicate Joins(f: Flow, c: Connection) {
    && f.source == c.source && f.destination == c.destination && f.port == c.port && f.time != None
    && c.destination !in {"", "0.0.0.0", "::", "::1"}
    && !("10." <= c.destination) && !("192.168." <= c.destination)
    && !("172." <= c.destination) && !("127." <= c.destination)
  }

  /** A group holds the timestamps of exactly the flows that join it, in order. */
  lemma {:induction false} GroupPositions(fs: seq<Flow>, c: Connection) returns (at: seq<nat>)
    ensures Rising(at) && forall i :: i in at <==> 0 <= i < |fs| && Joins(fs[i], c)
    ensures |Times(fs, c)| == |at|
    ensures forall k :: 0 <= k < |at| ==> at[k] < |fs| && fs[at[k]].time == Some(Times(fs, c)[k])
  {
    at := [];
    if fs != [] {
      var n := |fs| - 1;
      at := GroupPositions(fs[..n], c);
      assert forall k :: 0 <= k < |at| ==> at[k] in at;
      if Joins(fs[n], c) {
        RisingAppend(at, n);
        at := at + [n];
      }
    }
  }

  // ---------------------------------------------------------------- sorting

  predicate Sorted(s: seq<real>) { forall i, j :: 0 <= i < j < |s| ==> s[i] <= s[j] }

  function Insert(s: seq<real>, x: real): seq<real> {
    if s == [] || s[|s| - 1] <= x then s + [x] else Insert(s[..|s| - 1], x) + [s[|s| - 1]]
  }

  function Sort(s: seq<real>): seq<real> {
    if s == [] then [] else Insert(Sort(s[..|s| - 1]), s[|s| - 1])
  }

  lemma {:induction false} InsertPermutes(s: seq<real>, x: real)
    ensures multiset(Insert(s, x)) == multiset(s) + multiset{x}
  {
    if !(s == [] || s[|s| - 1] <= x) {
      InsertPermutes(s[..|s| - 1], x);
      assert s == s[..|s| - 1] + [s[|s| - 1]];
    }
  }

  lemma SortedAppend(s: seq<real>, y: real)
    requires Sorted(s) && forall z :: z in s ==> z <= y
    ensures Sorted(s + [y])
  {
    forall i | 0 <= i < |s| ensures s[i] <= y { assert s[i] in s; }
  }

  lemma {:induction false} InsertSorts(s: seq<real>, x: real)
    requires Sorted(s)
    ensures Sorted(Insert(s, x))
  {
    if s != [] && s[|s| - 1] > x {
      var init, y := s[..|s| - 1], s[|s| - 1];
      InsertSorts(init, x);
      InsertPermutes(init, x);
      forall z | z in Insert(init, x) ensures z <= y {
        assert z in multiset(init) + multiset{x};
      }
      SortedAppend(Insert(init, x), y);
    } else {
      SortedAppend(s, x);
    }
  }

  /** Sorting gives an ordered permutation. */
  lemma {:induction false} SortSorts(s: seq<real>)
    ensures Sorted(Sort(s)) && multiset(Sort(s)) == multiset(s)
  {
    if s != [] {
      SortSorts(s[..|s| - 1]);
      InsertSorts(Sort(s[..|s| - 1]), s[|s| - 1]);
      InsertPermutes(Sort(s[..|s| - 1]), s[|s| - 1]);
      assert s == s[..|s| - 1] + [s[|s| - 1]];
    }
  }

  lemma LastIsLargest(a: seq<real>, b: seq<real>)
    requires Sorted(a) && Sorted(b) && multiset(a) == multiset(b) && a != [] && b != []
    ensures a[|a| - 1] <= b[|b| - 1]
  {
    assert a[|a| - 1] in multiset(b);
  }

  lemma WithoutLast(s: seq<real>)
    requires s != []
    ensures multiset(s[..|s| - 1]) == multiset(s) - multiset{s[|s| - 1]}
  {
    assert s == s[..|s| - 1] + [s[|s| - 1]];
  }

  lemma SameLength(a: seq<real>, b: seq<real>)
    requires multiset(a) == multiset(b)
    ensures |a| == |b|
  {
    assert |multiset(a)| == |a| && |multiset(b)| == |b|;
  }

  /** There is only one ordered permutation. */
  lemma {:induction false} SortedIsUnique(a: seq<real>, b: seq<real>)
    requires Sorted(a) && Sorted(b) && multiset(a) == multiset(b)
    ensures a == b
  {
    SameLength(a, b);
    if a != [] {
      LastIsLargest(a, b);
      LastIsLargest(b, a);
      WithoutLast(a);
      WithoutLast(b);
      SortedIsUnique(a[..|a| - 1], b[..|b| - 1]);
      assert a == a[..|a| - 1] + [a[|a| - 1]] && b == b[..|b| - 1] + [b[|b| - 1]];
    }
  }

  lemma SortPermutes(a: seq<real>, b: seq<real>)
    requires multiset(a) == multiset(b)
    ensures Sort(a) == Sort(b)
  {
    SortSorts(a);
    SortSorts(b);
    SortedIsUnique(Sort(a), Sort(b));
  }

  // ---------------------------------------------------------------- intervals

  function Gaps(s: seq<real>): seq<real> {
    if |s| < 2 then [] else Gaps(s[..|s| - 1]) + [s[|s| - 1] - s[|s| - 2]]
  }

  function Intervals(ts: seq<real>): seq<real> { Gaps(Sort(ts)) }

  function Sum(s: seq<real>): real { if s == [] then 0.0 else Sum(s[..|s| - 1]) + s[|s| - 1] }

  function Mean(s: seq<real>): real
    requires s != []
  {
    Sum(s) / |s| as real
  }

  function Sq(x: real): real { x * x }

  /** The sum of the squared distances from `mu`. */
  function Deviation(s: seq<real>, mu: real): real {
    if s == [] then 0.0 else Deviation(s[..|s| - 1], mu) + Sq(s[|s| - 1] - mu)
  }

  lemma {:induction false} GapsTelescope(s: seq<real>)
    requires s != []
    ensures |Gaps(s)| == |s| - 1 && Sum(Gaps(s)) == s[|s| - 1] - s[0]
  {
    if |s| >= 2 { GapsTelescope(s[..|s| - 1]); }
  }

  lemma SortedEnds(ts: seq<real>, earliest: real, latest: real)
    requires earliest in ts && latest in ts
    requires forall t :: t in ts ==> earliest <= t <= latest
    ensures |Sort(ts)| == |ts| && Sort(ts)[0] == earliest && Sort(ts)[|ts| - 1] == latest
  {
    SortSorts(ts);
    var s := Sort(ts);
    SameLength(s, ts);
    assert s[0] in multiset(ts) && s[|s| - 1] in multiset(ts);
    assert earliest in multiset(s) && latest in multiset(s);
    assert s[0] in ts && s[|s| - 1] in ts && earliest in s && latest in s;
    var i :| 0 <= i < |s| && s[i] == earliest;
    var j :| 0 <= j < |s| && s[j] == latest;
    assert s[0] <= s[i] && s[j] <= s[|s| - 1];
  }

  /** The mean interval is the span of the group over the number of gaps. */
  lemma MeanInterval(ts: seq<real>, earliest: real, latest: real)
    requires |ts| >= 2 && earliest in ts && latest in ts
    requires forall t :: t in ts ==> earliest <= t <= latest
    ensures |Intervals(ts)| == |ts| - 1
    ensures Mean(Intervals(ts)) == (latest - earliest) / (|ts| - 1) as real
  {
    SortedEnds(ts, earliest, latest);
    GapsTelescope(Sort(ts));
  }

  /** The coefficient of variation is at most `c`, for `c` below the 1.0 of a zero mean. */
  predicate CvAtMost(iv: seq<real>, c: real)
    requires |iv| >= 2
  {
    var mu := Mean(iv);
    mu > 0.0 && Deviation(iv, mu) <= Sq(c * mu) * (|iv| - 1) as real
  }

  lemma SquareOrder(x: real, y: real)
    requires x >= 0.0 && y >= 0.0
    ensures x <= y <==> Sq(x) <= Sq(y)
  {
    var d := y - x;
    assert Sq(y) - Sq(x) == (x + y) * d;
  }

  lemma ScaleOrder(x: real, y: real, k: real)
    requires k > 0.0
    ensures x <= y <==> x * k <= y * k
  {
  }

  lemma QuotientOrder(x: real, y: real, c: real)
    requires y > 0.0
    ensures x / y <= c <==> x <= c * y
  {
    assert x == (x / y) * y;
    ScaleOrder(x / y, c, y);
  }

  /** `CvAtMost` is the test of the source, for the sample standard deviation `sd`. */
  lemma {:induction false} CvWithoutRoot(iv: seq<real>, c: real, sd: real)
    requires |iv| >= 2 && 0.0 <= c < 1.0 && Mean(iv) >= 0.0
    requires sd >= 0.0 && Sq(sd) == Deviation(iv, Mean(iv)) / (|iv| - 1) as real
    ensures (if Mean(iv) == 0.0 then 1.0 else sd / Mean(iv)) <= c <==> CvAtMost(iv, c)
  {
    var mu, deviation := Mean(iv), Deviation(iv, Mean(iv));
    CvMeans(iv, c, mu, deviation);
    if mu > 0.0 { RootOrder(sd, mu, c, deviation, (|iv| - 1) as real); }
  }

  lemma {:induction false} CvMeans(iv: seq<real>, c: real, mu: real, deviation: real)
    requires |iv| >= 2 && mu == Mean(iv) && deviation == Deviation(iv, mu)
    ensures CvAtMost(iv, c) <==> mu > 0.0 && deviation <= Sq(c * mu) * (|iv| - 1) as real
  {
  }

  lemma RootOrder(sd: real, mu: real, c: real, deviation: real, k: real)
    requires sd >= 0.0 && mu > 0.0 && c >= 0.0 && k > 0.0 && Sq(sd) == deviation / k
    ensures sd / mu <= c <==> deviation <= Sq(c * mu) * k
  {
    QuotientOrder(sd, mu, c);
    assert c * mu >= 0.0;
    SquareOrder(sd, c * mu);
    QuotientOrder(deviation, k, Sq(c * mu));
  }

  // ---------------------------------------------------------------- the score

  function GroupScore(ts: seq<real>): nat {
    if |ts| < BEACON_MIN_SAMPLES then 0
    else IntervalScore(Intervals(ts))
  }

  function IntervalScore(iv: seq<real>): nat {
    if |iv| < 2 || Mean(iv) > BEACON_MAX_INTERVAL_S then 0
    else if CvAtMost(iv, BEACON_JITTER_CV_THRESHOLD) then SCORE_BEACON
    else if CvAtMost(iv, BEACON_JITTER_CV_THRESHOLD * 2.0) then SCORE_BEACON_HIGH_JITTER
    else 0
  }

  /** The score of four or more timestamps in the terms of the source: `avg` is their mean spacing and `sd` the
      sample standard deviation of the intervals. */
  lemma ScoreMeans(ts: seq<real>, earliest: real, latest: real, avg: real, sd: real)
    requires |ts| >= BEACON_MIN_SAMPLES && earliest in ts && latest in ts
    requires forall t :: t in ts ==> earliest <= t <= latest
    requires avg == (latest - earliest) / (|ts| - 1) as real
    requires sd >= 0.0 && Sq(sd) == Deviation(Intervals(ts), avg) / (|ts| - 2) as real
    ensures GroupScore(ts) == if avg <= 0.0 || avg > 300.0 then 0
                              else if sd <= 0.15 * avg then 60
                              else if sd <= 0.30 * avg then 35
                              else 0
  {
    MeanInterval(ts, earliest, latest);
    IntervalScoreMeans(Intervals(ts), avg, sd);
  }

  lemma IntervalScoreMeans(iv: seq<real>, avg: real, sd: real)
    requires |iv| >= 2 && avg == Mean(iv)
    requires sd >= 0.0 && Sq(sd) == Deviation(iv, avg) / (|iv| - 1) as real
    ensures IntervalScore(iv) == if avg <= 0.0 || avg > 300.0 then 0
                                 else if sd <= 0.15 * avg then 60
                                 else if sd <= 0.30 * avg then 35
                                 else 0
  {
    if avg > 0.0 {
      CvWithoutRoot(iv, 0.15, sd);
      CvWithoutRoot(iv, 0.30, sd);
      QuotientOrder(sd, avg, 0.15);
      QuotientOrder(sd, avg, 0.30);
    }
  }

  function ScoreOf(fs: seq<Flow>, c: Connection): nat { GroupScore(Times(fs, c)) }

  /** `best` is the largest score of any connection; zero when there is none. */
  ghost predicate IsBest(fs: seq<Flow>, best: nat) {
    && (forall c :: ScoreOf(fs, c) <= best)
    && (exists c :: ScoreOf(fs, c) == best)
  }

  /** The largest score of any connection. */
  ghost function Best(fs: seq<Flow>): (best: nat)
    ensures IsBest(fs, best)
  {
    assert ScoreOf(fs, Connection("", "", 0)) in {0, SCORE_BEACON_HIGH_JITTER, SCORE_BEACON};
    if exists c :: ScoreOf(fs, c) == SCORE_BEACON then SCORE_BEACON
    else if exists c :: ScoreOf(fs, c) == SCORE_BEACON_HIGH_JITTER then SCORE_BEACON_HIGH_JITTER
    else 0
  }

  lemma BestIsUnique(fs: seq<Flow>, best: nat)
    requires IsBest(fs, best)
    ensures best == Best(fs)
  {
  }

  lemma {:induction false} KeysAreTimed(fs: seq<Flow>, c: Connection)
    ensures c in KeysOf(fs) <==> Times(fs, c) != []
  {
    if fs != [] { KeysAreTimed(fs[..|fs| - 1], c); }
  }

  /** The grouping loop. */
  method GroupFlows(flows: seq<Flow>) returns (order: seq<Connection>, groups: map<Connection, seq<real>>)
    ensures order == Connections(flows)
    ensures forall c :: c in order <==> c in groups
    ensures forall c :: Times(flows, c) == if c in groups then groups[c] else []
  {
    order, groups := [], map[];
    for i := 0 to |flows|
      invariant order == Connections(flows[..i])
      invariant forall c :: c in order <==> c in groups
      invariant forall c :: Times(flows[..i], c) == if c in groups then groups[c] else []
    {
      assert flows[..i + 1][..i] == flows[..i];
      var f := flows[i];
      if !External(f.destination) || f.time.None? { continue; }
      var key := KeyOf(f);
      assert KeysOf(flows[..i + 1])[..|KeysOf(flows[..i])|] == KeysOf(flows[..i]);
      if key !in groups {
        order, groups := order + [key], groups[key := []];
      }
      groups := groups[key := groups[key] + [f.time.value]];
    }
    assert flows[..|flows|] == flows;
  }

  datatype Sighting = Sighting(connection: Connection, sampleCount: nat, highConfidence: bool)

  /** The check with its early return gives the largest score of any group, and names the first group
      that attains it. */
  method CheckBeaconPattern(flows: seq<Flow>) returns (score: nat, evidence: Option<Sighting>)
    ensures score == Best(flows) && score in {0, SCORE_BEACON_HIGH_JITTER, SCORE_BEACON}
    ensures evidence.Some? <==> score > 0
    ensures evidence.Some? ==> IsFirst(flows, score, evidence.value)
  {
    var order, groups := GroupFlows(flows);
    score, evidence := 0, None;
    for i := 0 to |order|
      invariant score in {0, SCORE_BEACON_HIGH_JITTER} && (evidence.Some? <==> score > 0)
      invariant NoneAbove(flows, i, score)
      invariant evidence.Some? ==> IsFirst(flows, score, evidence.value)
    {
      var ts := groups[order[i]];
      var g := JudgeGroup(ts);
      TurnOfGroup(flows, i, score, g);
      if g == SCORE_BEACON {
        BestIsUnique(flows, g);
        return g, Some(Sighting(order[i], |ts|, true));
      } else if g > score {
        score, evidence := g, Some(Sighting(order[i], |ts|, false));
      }
    }
    BestOfGroups(flows, score, if evidence.Some? then evidence.value.connection else Connection("", "", 0));
    BestIsUnique(flows, score);
  }

  /** The verdict on one group. */
  method JudgeGroup(ts: seq<real>) returns (score: nat)
    ensures score == GroupScore(ts) && score in {0, SCORE_BEACON_HIGH_JITTER, SCORE_BEACON}
  {
    if |ts| < BEACON_MIN_SAMPLES { return 0; }
    var intervals := Intervals(ts);
    if |intervals| < 2 || Mean(intervals) > BEACON_MAX_INTERVAL_S { return 0; }
    if CvAtMost(intervals, BEACON_JITTER_CV_THRESHOLD) { return SCORE_BEACON; }
    if CvAtMost(intervals, BEACON_JITTER_CV_THRESHOLD * 2.0) { return SCORE_BEACON_HIGH_JITTER; }
    return 0;
  }

  predicate NoneAbove(fs: seq<Flow>, i: nat, score: nat) {
    i <= |Connections(fs)| && forall j :: 0 <= j < i ==> ScoreOf(fs, Connections(fs)[j]) <= score
  }

  lemma TurnOfGroup(fs: seq<Flow>, i: nat, score: nat, g: nat)
    requires NoneAbove(fs, i, score) && i < |Connections(fs)| && g == ScoreOf(fs, Connections(fs)[i])
    ensures NoneAbove(fs, i + 1, if g > score then g else score)
    ensures g > score ==>
            IsFirst(fs, g, Sighting(Connections(fs)[i], |Times(fs, Connections(fs)[i])|, g == SCORE_BEACON))
    ensures g == SCORE_BEACON ==> IsBest(fs, g)
  {
    if g > score { assert FirstAt(fs, g, Connections(fs)[i], i); }
    if g == SCORE_BEACON { BestOfAll(fs, g, Connections(fs)[i]); }
  }

  /** The i-th group is the first one with this score. */
  predicate FirstAt(fs: seq<Flow>, score: nat, c: Connection, i: nat) {
    && i < |Connections(fs)| && Connections(fs)[i] == c && ScoreOf(fs, c) == score
    && forall j :: 0 <= j < i ==> ScoreOf(fs, Connections(fs)[j]) < score
  }

  ghost predicate IsFirst(fs: seq<Flow>, score: nat, s: Sighting) {
    && s.sampleCount == |Times(fs, s.connection)| && (s.highConfidence <==> score == SCORE_BEACON)
    && exists i: nat :: FirstAt(fs, score, s.connection, i)
  }

  lemma BestOfAll(fs: seq<Flow>, best: nat, c: Connection)
    requires best == SCORE_BEACON && ScoreOf(fs, c) == best
    ensures IsBest(fs, best)
  {
  }

  lemma BestOfGroups(fs: seq<Flow>, best: nat, c: Connection)
    requires NoneAbove(fs, |Connections(fs)|, best)
    requires ScoreOf(fs, c) == best || best == 0
    ensures IsBest(fs, best)
  {
    FirstSeenIsNames(KeysOf(fs));
    forall x ensures ScoreOf(fs, x) <= best {
      KeysAreTimed(fs, x);
      if x in KeysOf(fs) { assert x in Connections(fs); }
    }
    if best == 0 { assert ScoreOf(fs, c) == best; }
  }

  // ---------------------------------------------------------------- order and origin of time do not matter

  lemma {:induction false} TimesConcat(a: seq<Flow>, b: seq<Flow>, c: Connection)
    ensures Times(a + b, c) == Times(a, c) + Times(b, c)
  {
    if b == [] {
      assert a + b == a;
    } else {
      TimesConcat(a, b[..|b| - 1], c);
      assert (a + b)[..|a + b| - 1] == a + b[..|b| - 1];
    }
  }

  lemma TimesSplit(p: seq<Flow>, f: Flow, q: seq<Flow>, c: Connection)
    ensures multiset(Times(p + [f] + q, c)) == multiset(Times([f], c)) + multiset(Times(p + q, c))
  {
    TimesConcat(p + [f], q, c);
    TimesConcat(p, [f], c);
    TimesConcat(p, q, c);
  }

  lemma {:induction false} TimesPermute(a: seq<Flow>, b: seq<Flow>, c: Connection)
    requires multiset(a) == multiset(b)
    ensures multiset(Times(a, c)) == multiset(Times(b, c))
  {
    if a == [] {
      assert |multiset(b)| == |b|;
    } else {
      var i := PermutationHead(a, b);
      TimesPermute(a[1..], Without(b, i), c);
      TimesSplit([], a[0], a[1..], c);
      TimesSplit(b[..i], a[0], b[i + 1..], c);
      assert [] + [a[0]] + a[1..] == a && [] + a[1..] == a[1..];
    }
  }

  /** The score does not depend on the order of the flows. */
  lemma FlowOrderIsIrrelevant(a: seq<Flow>, b: seq<Flow>)
    requires multiset(a) == multiset(b)
    ensures Best(a) == Best(b)
  {
    forall c ensures ScoreOf(a, c) == ScoreOf(b, c) {
      TimesPermute(a, b, c);
      SameLength(Times(a, c), Times(b, c));
      SortPermutes(Times(a, c), Times(b, c));
    }
    SameScoresSameBest(a, b);
  }

  lemma SameScoresSameBest(a: seq<Flow>, b: seq<Flow>)
    requires forall c :: ScoreOf(a, c) == ScoreOf(b, c)
    ensures Best(a) == Best(b)
  {
    assert IsBest(a, Best(a));
    assert IsBest(b, Best(a));
    BestIsUnique(b, Best(a));
  }

  function Later(s: seq<real>, d: real): seq<real> { seq(|s|, i requires 0 <= i < |s| => s[i] + d) }

  function Delayed(fs: seq<Flow>, d: real): seq<Flow> {
    seq(|fs|, i requires 0 <= i < |fs| =>
      fs[i].(time := if fs[i].time.Some? then Some(fs[i].time.value + d) else None))
  }

  lemma LaterAppend(s: seq<real>, x: real, d: real)
    ensures Later(s + [x], d) == Later(s, d) + [x + d]
  {
  }

  lemma LaterLast(s: seq<real>, d: real)
    requires s != []
    ensures Later(s, d)[..|s| - 1] == Later(s[..|s| - 1], d) && Later(s, d)[|s| - 1] == s[|s| - 1] + d
  {
  }

  lemma {:induction false} InsertLater(s: seq<real>, x: real, d: real)
    ensures Insert(Later(s, d), x + d) == Later(Insert(s, x), d)
  {
    if s == [] || s[|s| - 1] <= x {
      LaterAppend(s, x, d);
    } else {
      LaterLast(s, d);
      InsertLater(s[..|s| - 1], x, d);
      LaterAppend(Insert(s[..|s| - 1], x), s[|s| - 1], d);
    }
  }

  lemma {:induction false} SortLater(s: seq<real>, d: real)
    ensures Sort(Later(s, d)) == Later(Sort(s), d)
  {
    if s != [] {
      LaterLast(s, d);
      SortLater(s[..|s| - 1], d);
      InsertLater(Sort(s[..|s| - 1]), s[|s| - 1], d);
    }
  }

  lemma {:induction false} GapsLater(s: seq<real>, d: real)
    ensures Gaps(Later(s, d)) == Gaps(s)
  {
    if |s| >= 2 {
      LaterLast(s, d);
      GapsLater(s[..|s| - 1], d);
    }
  }

  lemma {:induction false} TimesDelayed(fs: seq<Flow>, d: real, c: Connection)
    ensures Times(Delayed(fs, d), c) == Later(Times(fs, c), d)
  {
    if fs != [] {
      var init, f := fs[..|fs| - 1], fs[|fs| - 1];
      TimesDelayed(init, d, c);
      assert Delayed(fs, d)[..|fs| - 1] == Delayed(init, d);
      if f.time.Some? { LaterAppend(Times(init, c), f.time.value, d); }
    }
  }

  lemma {:induction false} KeysDelayed(fs: seq<Flow>, d: real)
    ensures KeysOf(Delayed(fs, d)) == KeysOf(fs)
  {
    if fs != [] {
      KeysDelayed(fs[..|fs| - 1], d);
      assert Delayed(fs, d)[..|fs| - 1] == Delayed(fs[..|fs| - 1], d);
    }
  }

  lemma ScoreDelayed(fs: seq<Flow>, d: real, c: Connection)
    ensures ScoreOf(Delayed(fs, d), c) == ScoreOf(fs, c) && |Times(Delayed(fs, d), c)| == |Times(fs, c)|
  {
    TimesDelayed(fs, d, c);
    SortLater(Times(fs, c), d);
    GapsLater(Sort(Times(fs, c)), d);
  }

  lemma SameScoresSameVerdict(a: seq<Flow>, b: seq<Flow>, best: nat, s: Sighting)
    requires forall c :: ScoreOf(a, c) == ScoreOf(b, c)
    requires KeysOf(a) == KeysOf(b) && |Times(a, s.connection)| == |Times(b, s.connection)|
    requires IsFirst(a, best, s)
    ensures IsFirst(b, best, s)
  {
    var i: nat :| FirstAt(a, best, s.connection, i);
    assert FirstAt(b, best, s.connection, i);
  }

  /** Moving all timestamps by the same amount changes nothing: not the score, not the group reported. */
  lemma OriginIsIrrelevant(fs: seq<Flow>, d: real, best: nat, s: Sighting)
    ensures Best(Delayed(fs, d)) == Best(fs)
    ensures IsFirst(Delayed(fs, d), best, s) <==> IsFirst(fs, best, s)
  {
    forall c ensures ScoreOf(Delayed(fs, d), c) == ScoreOf(fs, c) {
      ScoreDelayed(fs, d, c);
    }
    SameScoresSameBest(Delayed(fs, d), fs);
    ScoreDelayed(fs, d, s.connection);
    KeysDelayed(fs, d);
    if IsFirst(fs, best, s) { SameScoresSameVerdict(fs, Delayed(fs, d), best, s); }
    if IsFirst(Delayed(fs, d), best, s) { SameScoresSameVerdict(Delayed(fs, d), fs, best, s); }
  }

  // ---------------------------------------------------------------- regular beacons are found

  function Tick(t0: real, p: real, i: nat): real { t0 + p * i as real }

  lemma TickStep(t0: real, p: real, i: nat)
    ensures Tick(t0, p, i + 1) == Tick(t0, p, i) + p
  {
    Distribute(p, i as real, (i + 1) as real);
  }

  /** `n` timestamps, `p` seconds apart, from `t0` on. */
  function Ticks(t0: real, p: real, n: nat): seq<real> {
    if n == 0 then [] else Ticks(t0, p, n - 1) + [Tick(t0, p, n - 1)]
  }

  predicate All(s: seq<real>, x: real) { forall i :: 0 <= i < |s| ==> s[i] == x }

  lemma {:induction false} TicksSorted(t0: real, p: real, n: nat)
    requires p > 0.0
    ensures |Ticks(t0, p, n)| == n && Sorted(Ticks(t0, p, n))
    ensures forall t :: t in Ticks(t0, p, n) ==> t <= Tick(t0, p, n)
  {
    if n > 0 {
      TicksSorted(t0, p, n - 1);
      TickStep(t0, p, n - 1);
      SortedAppend(Ticks(t0, p, n - 1), Tick(t0, p, n - 1));
    }
  }

  lemma {:induction false} GapsAppend(s: seq<real>, x: real)
    requires s != []
    ensures Gaps(s + [x]) == Gaps(s) + [x - s[|s| - 1]]
  {
    var t := s + [x];
    assert t[..|t| - 1] == s && t[|t| - 1] == x && t[|t| - 2] == s[|s| - 1];
  }

  lemma AppendTick(ticks: seq<real>, last: real, next: real, p: real)
    requires ticks != [] && ticks[|ticks| - 1] == last && next == last + p && All(Gaps(ticks), p)
    ensures All(Gaps(ticks + [next]), p)
  {
    GapsAppend(ticks, next);
  }

  lemma {:induction false} TicksGaps(t0: real, p: real, n: nat)
    requires p > 0.0
    ensures All(Gaps(Ticks(t0, p, n)), p)
  {
    if n > 1 {
      TicksGaps(t0, p, n - 1);
      TickStep(t0, p, n - 2);
      AppendTick(Ticks(t0, p, n - 1), Tick(t0, p, n - 2), Tick(t0, p, n - 1), p);
    }
  }

  lemma {:induction false} ConstantSum(s: seq<real>, x: real)
    requires All(s, x)
    ensures Sum(s) == x * |s| as real && Deviation(s, x) == 0.0
  {
    if s != [] {
      ConstantSum(s[..|s| - 1], x);
      Distribute(x, (|s| - 1) as real, |s| as real);
    }
  }

  lemma Distribute(x: real, m: real, n: real)
    requires n == m + 1.0
    ensures x * n == x * m + x
  {
  }

  lemma ConstantScores(iv: seq<real>, p: real)
    requires |iv| >= 2 && All(iv, p) && 0.0 < p <= BEACON_MAX_INTERVAL_S
    ensures IntervalScore(iv) == SCORE_BEACON
  {
    ConstantSum(iv, p);
    assert Mean(iv) == p;
    assert Sq(BEACON_JITTER_CV_THRESHOLD * p) * (|iv| - 1) as real >= 0.0;
  }

  lemma {:induction false} TimesAreFlows(fs: seq<Flow>, c: Connection)
    ensures |Times(fs, c)| <= |fs|
  {
    if fs != [] { TimesAreFlows(fs[..|fs| - 1], c); }
  }

  /** Triage hands the detector at most one flow, and fewer than four never make a beacon. */
  lemma FewFlowsNeverBeacon(fs: seq<Flow>)
    requires |fs| < 4
    ensures Best(fs) == 0
  {
    forall c ensures ScoreOf(fs, c) == 0 { TimesAreFlows(fs, c); }
    assert IsBest(fs, Best(fs));
  }

  // ---------------------------------------------------------------- the analysis

  datatype Finding = Finding(score: int, beacon: Option<Sighting>)

  /** The detector: `others` is what the remaining checks add. */
  method Analyze(flows: seq<Flow>, others: nat, threshold: int) returns (finding: Option<Finding>)
    ensures flows == [] ==> finding.None?
    ensures flows != [] ==> (finding.Some? <==> Best(flows) + others >= threshold)
    ensures finding.Some? ==>
      && finding.value.score == Min(Best(flows) + others, 100)
      && (finding.value.beacon.Some? <==> Best(flows) > 0)
      && (finding.value.beacon.Some? ==> IsFirst(flows, Best(flows), finding.value.beacon.value))
  {
    if flows == [] { return None; }
    var score, evidence := CheckBeaconPattern(flows);
    if score + others < threshold { return None; }
    return Some(Finding(Min(score + others, 100), evidence));
  }

  /** Four or more external connections at one exact period of at most 300 s, in any order and among any
      other traffic, score 60, which by itself reaches the threshold of the deployed detector. */
  lemma ExactPeriodIsFound(fs: seq<Flow>, c: Connection, t0: real, p: real, n: nat)
    requires multiset(Times(fs, c)) == multiset(Ticks(t0, p, n))
    requires n >= 4 && 0.0 < p <= 300.0
    ensures Best(fs) == 60 && Best(fs) >= 55
  {
    var ts, ticks := Times(fs, c), Ticks(t0, p, n);
    TicksSorted(t0, p, n);
    TicksGaps(t0, p, n);
    SameLength(ts, ticks);
    SortSorts(ts);
    SortedIsUnique(Sort(ts), ticks);
    GapsTelescope(ticks);
    ConstantScores(Intervals(ts), p);
    BestOfAll(fs, SCORE_BEACON, c);
    BestIsUnique(fs, SCORE_BEACON);
  }
}
