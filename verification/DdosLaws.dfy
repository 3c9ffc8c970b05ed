/** What the detector's scoring means: order independence, monotonicity, the shared name space of
    hosts and containers, and when a z-score trigger can fire over a whole run. */
module DdosLaws {
  import opened Common
  import opened Ewma
  import opened Ddos

  // ---------------------------------------------------------------- evidence

  lemma {:induction false} WeightlessIsEmpty(ts: seq<Trigger>)
    ensures TotalWeight(ts) == 0 <==> ts == []
  {
  }

  /** The evidence of a finding accounts for the whole score exactly when flows or containers triggered nothing. */
  lemma EvidenceAccountsForScore(bl: Baselines, fs: seq<Flow>, ms: seq<Sample>)
    ensures var flowTs, sampleTs := FlowTriggers(bl, fs), SampleTriggers(FlowBaselines(bl, fs), ms);
            TotalWeight(Evidence(flowTs, sampleTs)) == Score(bl, fs, ms) <==> flowTs == [] || sampleTs == []
  {
    WeightlessIsEmpty(FlowTriggers(bl, fs));
    WeightlessIsEmpty(SampleTriggers(FlowBaselines(bl, fs), ms));
  }

  /** For example, from empty baselines: one flow at 5000 packets per second and five restarts of a container score
      105, of which the evidence of the finding shows 35. */
  lemma EvidenceMayHideTheFlood(host: string, container: string)
    ensures var fs, ms := [Flow(Some(host), "", 0, 5000.0)], Repeat(Sample(Some(container), Restart, 0.0, 0), 5);
            var flowTs, sampleTs := FlowTriggers(map[], fs), SampleTriggers(FlowBaselines(map[], fs), ms);
            Score(map[], fs, ms) == 105 && TotalWeight(Evidence(flowTs, sampleTs)) == 35
  {
    var f, m := Flow(Some(host), "", 0, 5000.0), Sample(Some(container), Restart, 0.0, 0);
    var bl := FlowBaselines(map[], [f]);
    SingleFlow(f);
    OneName(host, FlowJudge(map[], [f]));
    HostWeight(Unseen, Unseen, Aggregate(0, 5000.0, {}, 1));
    RepeatedSample(bl, m, 5);
    FirstSeenIsNames([host]);
    LearnHostsByKey(map[], [f], [host], (container, PpsTx));
    AbsorbOne(Unseen, 5000.0);
    ContainerWeight(Look(bl, (container, PpsTx)), Usage(5, 0, 0.0, 0), true, false, false);
  }

  // ---------------------------------------------------------------- order independence

  lemma PlusLaws(x: Aggregate, y: Aggregate, z: Aggregate)
    ensures Plus(Plus(x, y), z) == Plus(x, Plus(y, z)) && Plus(x, y) == Plus(y, x) && Plus(x, NOTHING) == x
  {
  }

  lemma {:induction false} AggregateConcat(a: seq<Flow>, b: seq<Flow>, h: string)
    ensures AggregateOf(a + b, h) == Plus(AggregateOf(a, h), AggregateOf(b, h))
  {
    if b == [] {
      assert a + b == a;
      PlusLaws(AggregateOf(a, h), NOTHING, NOTHING);
    } else {
      var init, f := b[..|b| - 1], b[|b| - 1];
      AggregateConcat(a, init, h);
      assert (a + b)[..|a + b| - 1] == a + init && (a + b)[|a + b| - 1] == f;
      AggregateStep(a + b, h);
      AggregateStep(b, h);
      PlusLaws(AggregateOf(a, h), AggregateOf(init, h), Contribution(f));
    }
  }

  lemma AggregateStep(fs: seq<Flow>, h: string)
    requires fs != []
    ensures var f, rest := fs[|fs| - 1], AggregateOf(fs[..|fs| - 1], h);
            AggregateOf(fs, h) == if NameOr(f.source) == h then Plus(rest, Contribution(f)) else rest
  {
  }

  lemma {:induction false} AggregatePermutes(a: seq<Flow>, b: seq<Flow>, h: string)
    requires multiset(a) == multiset(b)
    ensures AggregateOf(a, h) == AggregateOf(b, h)
  {
    if a == [] {
      assert |multiset(b)| == 0;
    } else {
      var i := PermutationHead(a, b);
      var x, p, q := a[0], b[..i], b[i + 1..];
      AggregatePermutes(a[1..], p + q, h);
      assert a == [x] + a[1..];
      AggregateConcat([x], a[1..], h);
      AggregateConcat(p, q, h);
      AggregateConcat(p + [x], q, h);
      AggregateConcat(p, [x], h);
      PlusLaws(AggregateOf(p, h), AggregateOf([x], h), AggregateOf(q, h));
      PlusLaws(AggregateOf([x], h), AggregateOf(p, h), AggregateOf(q, h));
    }
  }

  lemma {:induction false} SourcesPermute(a: seq<Flow>, b: seq<Flow>)
    requires multiset(a) == multiset(b)
    ensures multiset(Sources(a)) == multiset(Sources(b))
  {
    if a == [] {
      assert |multiset(b)| == 0;
    } else {
      var i := PermutationHead(a, b);
      SourcesPermute(a[1..], Without(b, i));
      var s := Sources(b);
      assert Sources(a) == [s[i]] + Sources(a[1..]);
      assert Sources(Without(b, i)) == s[..i] + s[i + 1..];
      assert s == s[..i] + [s[i]] + s[i + 1..];
    }
  }

  lemma {:induction false} GatherSameJudgement(f: string -> seq<Trigger>, g: string -> seq<Trigger>, names: seq<string>)
    requires forall h :: h in names ==> f(h) == g(h)
    ensures Gather(f, names) == Gather(g, names)
  {
    if names != [] { GatherSameJudgement(f, g, names[..|names| - 1]); }
  }

  lemma {:induction false} GatherConcat(f: string -> seq<Trigger>, hs: seq<string>, gs: seq<string>)
    ensures Gather(f, hs + gs) == Gather(f, hs) + Gather(f, gs)
  {
    if gs == [] {
      assert hs + gs == hs;
    } else {
      var init, last, all := gs[..|gs| - 1], gs[|gs| - 1], hs + gs;
      GatherConcat(f, hs, init);
      assert all[..|all| - 1] == hs + init && all[|all| - 1] == last;
      assert Gather(f, all) == Gather(f, hs + init) + f(last);
    }
  }

  lemma {:induction false} GatherPermutes(f: string -> seq<Trigger>, hs: seq<string>, gs: seq<string>)
    requires multiset(hs) == multiset(gs)
    ensures multiset(Gather(f, hs)) == multiset(Gather(f, gs))
  {
    if hs == [] {
      assert |multiset(gs)| == 0;
    } else {
      var i := PermutationHead(hs, gs);
      var h, p, q := hs[0], gs[..i], gs[i + 1..];
      GatherPermutes(f, hs[1..], p + q);
      assert hs == [h] + hs[1..];
      GatherConcat(f, [h], hs[1..]);
      GatherConcat(f, p, q);
      GatherConcat(f, p + [h], q);
      GatherConcat(f, p, [h]);
    }
  }

  lemma {:induction false} GatherMonotone(f: string -> seq<Trigger>, g: string -> seq<Trigger>, names: seq<string>)
    requires forall h :: TotalWeight(f(h)) <= TotalWeight(g(h))
    ensures TotalWeight(Gather(f, names)) <= TotalWeight(Gather(g, names))
  {
    if names != [] {
      var init, h := names[..|names| - 1], names[|names| - 1];
      GatherMonotone(f, g, init);
      TotalWeightConcat(Gather(f, init), f(h));
      TotalWeightConcat(Gather(g, init), g(h));
    }
  }

  lemma {:induction false} WeightPermutes(a: seq<Trigger>, b: seq<Trigger>)
    requires multiset(a) == multiset(b)
    ensures TotalWeight(a) == TotalWeight(b)
  {
    if a == [] {
      assert |multiset(b)| == 0;
    } else {
      var i := PermutationHead(a, b);
      var x, p, q := a[0], b[..i], b[i + 1..];
      WeightPermutes(a[1..], p + q);
      assert a == [x] + a[1..];
      TotalWeightConcat([x], a[1..]);
      TotalWeightConcat(p, q);
      TotalWeightConcat(p + [x], q);
      TotalWeightConcat(p, [x]);
    }
  }

  /** The flow analysis reads its input as a multiset: any reordering gives the same score, the same
      triggers up to order, and the same baselines afterwards. */
  lemma FlowOrderIsIrrelevant(bl: Baselines, a: seq<Flow>, b: seq<Flow>)
    requires multiset(a) == multiset(b)
    ensures multiset(FlowTriggers(bl, a)) == multiset(FlowTriggers(bl, b))
    ensures TotalWeight(FlowTriggers(bl, a)) == TotalWeight(FlowTriggers(bl, b))
    ensures FlowBaselines(bl, a) == FlowBaselines(bl, b)
  {
    forall h ensures AggregateOf(a, h) == AggregateOf(b, h) { AggregatePermutes(a, b, h); }
    SourcesPermute(a, b);
    FirstSeenPermutes(Sources(a), Sources(b));
    SameAggregatesSameTriggers(bl, a, b, Hosts(a));
    GatherPermutes(FlowJudge(bl, b), Hosts(a), Hosts(b));
    WeightPermutes(FlowTriggers(bl, a), FlowTriggers(bl, b));
    SameAggregatesSameBaselines(bl, a, b);
  }

  lemma SameAggregatesSameTriggers(bl: Baselines, a: seq<Flow>, b: seq<Flow>, hs: seq<string>)
    requires forall h :: AggregateOf(a, h) == AggregateOf(b, h)
    ensures Gather(FlowJudge(bl, a), hs) == Gather(FlowJudge(bl, b), hs)
  {
    forall h | h in hs ensures FlowJudge(bl, a)(h) == FlowJudge(bl, b)(h) {
      assert AggregateOf(a, h) == AggregateOf(b, h);
    }
    GatherSameJudgement(FlowJudge(bl, a), FlowJudge(bl, b), hs);
  }

  lemma SameAggregatesSameBaselines(bl: Baselines, a: seq<Flow>, b: seq<Flow>)
    requires forall h :: AggregateOf(a, h) == AggregateOf(b, h)
    requires multiset(Hosts(a)) == multiset(Hosts(b))
    ensures FlowBaselines(bl, a) == FlowBaselines(bl, b)
  {
    FirstSeenIsNames(Sources(a));
    FirstSeenIsNames(Sources(b));
    var x, y := FlowBaselines(bl, a), FlowBaselines(bl, b);
    forall k: Key ensures (k in x <==> k in y) && Look(x, k) == Look(y, k) {
      LearnHostsByKey(bl, a, Hosts(a), k);
      LearnHostsByKey(bl, b, Hosts(b), k);
      assert k.0 in multiset(Hosts(a)) <==> k.0 in multiset(Hosts(b));
      assert AggregateOf(a, k.0) == AggregateOf(b, k.0);
    }
    forall k | k in x ensures k in y && x[k] == y[k] { assert Look(x, k) == Look(y, k); }
    assert x.Keys == y.Keys;
  }

  // ---------------------------------------------------------------- monotonicity

  predicate Counters(f: Flow) { f.bytesOut >= 0 && f.pps >= 0.0 }

  predicate Below(g: Aggregate, g': Aggregate) {
    g.bytesOut <= g'.bytesOut && g.pps <= g'.pps && g.destinations <= g'.destinations
  }

  lemma HostWeightMonotone(pps: Baseline, bytes: Baseline, g: Aggregate, g': Aggregate)
    requires Below(g, g')
    ensures TotalWeight(HostTriggers(pps, bytes, g)) <= TotalWeight(HostTriggers(pps, bytes, g'))
  {
    SubsetSize(g.destinations, g'.destinations);
    if Stands(pps, g.pps) { ZMonotone(pps, g.pps, g'.pps, ZSCORE_THRESHOLD); }
    if Stands(bytes, g.bytesOut as real) {
      ZMonotone(bytes, g.bytesOut as real, g'.bytesOut as real, ZSCORE_THRESHOLD);
    }
    HostWeight(pps, bytes, g);
    HostWeight(pps, bytes, g');
  }

  lemma HostWeight(pps: Baseline, bytes: Baseline, g: Aggregate)
    ensures TotalWeight(HostTriggers(pps, bytes, g)) ==
            AlarmScore(g.pps >= PPS_HARD_THRESHOLD, Stands(pps, g.pps),
                       Stands(bytes, g.bytesOut as real), OverMultiplier(bytes, g.bytesOut as real),
                       |g.destinations| >= UNIQUE_DST_EXTREME_THRESHOLD, |g.destinations| >= UNIQUE_DST_SCAN_THRESHOLD)
  {
    AlarmsWeight(g.pps >= PPS_HARD_THRESHOLD, Stands(pps, g.pps),
                 Stands(bytes, g.bytesOut as real), OverMultiplier(bytes, g.bytesOut as real),
                 |g.destinations| >= UNIQUE_DST_EXTREME_THRESHOLD, |g.destinations| >= UNIQUE_DST_SCAN_THRESHOLD);
  }

  lemma SubsetSize<T>(a: set<T>, b: set<T>)
    requires a <= b
    ensures |a| <= |b|
  {
    assert b == a + (b - a);
  }

  /** A host's score, check by check. */
  function AlarmScore(hard: bool, z: bool, burst: bool, mult: bool, extreme: bool, scan: bool): nat {
    (if hard then 70 else 0) + (if z then 50 else 0) + (if burst then 45 else if mult then 22 else 0)
    + (if extreme then 75 else if scan then 40 else 0)
  }

  lemma AlarmsWeight(hard: bool, z: bool, burst: bool, mult: bool, extreme: bool, scan: bool)
    ensures TotalWeight(Alarms(hard, z, burst, mult, extreme, scan)) == AlarmScore(hard, z, burst, mult, extreme, scan)
  {
    FourWeights(Flag(hard, PpsHard), Flag(z, PpsZScore),
                Flag(burst || mult, if burst then ByteBurst else ByteBurstMultiplier),
                Flag(extreme || scan, if extreme then DstExtreme else DstScan),
                if hard then 70 else 0, if z then 50 else 0,
                if burst then 45 else if mult then 22 else 0, if extreme then 75 else if scan then 40 else 0)
    by {
      FlagWeight(hard, PpsHard);
      FlagWeight(z, PpsZScore);
      FlagWeight(burst || mult, if burst then ByteBurst else ByteBurstMultiplier);
      FlagWeight(extreme || scan, if extreme then DstExtreme else DstScan);
    }
  }

  lemma FourWeights(a: seq<Trigger>, b: seq<Trigger>, c: seq<Trigger>, d: seq<Trigger>, i: nat, j: nat, k: nat, l: nat)
    requires TotalWeight(a) == i && TotalWeight(b) == j && TotalWeight(c) == k && TotalWeight(d) == l
    ensures TotalWeight(a + b + c + d) == i + j + k + l
  {
    TotalWeightConcat(a, b);
    TotalWeightConcat(a + b, c);
    TotalWeightConcat(a + b + c, d);
  }

  lemma FlagWeight(on: bool, t: Trigger)
    ensures TotalWeight(Flag(on, t)) == if on then t.Weight() else 0
  {
    SingleWeight(t);
  }

  lemma SingleWeight(t: Trigger)
    ensures TotalWeight([t]) == t.Weight()
  {
    assert [t][..0] == [];
  }

  /** One more flow, inserted anywhere, never lowers the flow score. */
  lemma MoreFlowNeverScoresLess(bl: Baselines, fs: seq<Flow>, f: Flow, gs: seq<Flow>)
    requires Counters(f) && multiset(gs) == multiset(fs + [f])
    ensures TotalWeight(FlowTriggers(bl, fs)) <= TotalWeight(FlowTriggers(bl, gs))
  {
    var more, hs, src := fs + [f], Hosts(fs), NameOr(f.source);
    FlowOrderIsIrrelevant(bl, gs, more);
    AppendedFlow(fs, f);
    var before, after := FlowJudge(bl, fs), FlowJudge(bl, more);
    forall h ensures TotalWeight(before(h)) <= TotalWeight(after(h)) {
      HostWeightMonotone(Look(bl, (h, PpsTx)), Look(bl, (h, BytesOut)), AggregateOf(fs, h), AggregateOf(more, h));
    }
    GatherMonotone(before, after, hs);
    GatherConcat(after, hs, [src]);
    TotalWeightConcat(Gather(after, hs), Gather(after, [src]));
  }

  lemma AppendedFlow(fs: seq<Flow>, f: Flow)
    ensures var src := NameOr(f.source);
            Hosts(fs + [f]) == if src in Hosts(fs) then Hosts(fs) else Hosts(fs) + [src]
    ensures Counters(f) ==> forall h :: Below(AggregateOf(fs, h), AggregateOf(fs + [f], h))
    ensures forall h :: h != NameOr(f.source) ==> AggregateOf(fs + [f], h) == AggregateOf(fs, h)
  {
    var more := fs + [f];
    assert more[..|fs|] == fs;
    assert Sources(more)[..|fs|] == Sources(fs);
  }

  // ---------------------------------------------------------------- a run of the detector

  datatype Op =
    | Seed(host: string, metric: Metric, values: seq<real>)
    | Feed(host: string, sample: map<Metric, real>)
    | Window(flows: seq<Flow>, samples: seq<Sample>)

  function FeedAll(bl: Baselines, k: Key, xs: seq<real>): Baselines {
    if xs == [] then bl else Learn(FeedAll(bl, k, xs[..|xs| - 1]), k, xs[|xs| - 1])
  }

  function Apply(bl: Baselines, op: Op): Baselines {
    match op
    case Seed(h, m, xs) => FeedAll(bl, (h, m), xs)
    case Feed(h, sample) => FeedSample(bl, h, sample)
    case Window(fs, ms) => Settled(bl, fs, ms)
  }

  /** The baselines after a whole history of seeding, learning and analysing. */
  function Run(ops: seq<Op>): Baselines {
    if ops == [] then map[] else Apply(Run(ops[..|ops| - 1]), ops[|ops| - 1])
  }

  function FedByOp(op: Op, k: Key): seq<real> {
    match op
    case Seed(h, m, xs) => if k == (h, m) then xs else []
    case Feed(h, sample) => if k.0 == h && k.1 in sample then [sample[k.1]] else []
    case Window(fs, ms) => FedByFlows(fs, Hosts(fs), k) + FedBySamples(ms, Containers(ms), k)
  }

  /** Every sample absorbed under key `k` in a history, in order. */
  function Absorbed(ops: seq<Op>, k: Key): seq<real> {
    if ops == [] then [] else Absorbed(ops[..|ops| - 1], k) + FedByOp(ops[|ops| - 1], k)
  }

  lemma {:induction false} FeedAllByKey(bl: Baselines, k: Key, xs: seq<real>, j: Key)
    ensures Look(FeedAll(bl, k, xs), j) == AbsorbFrom(EWMA_ALPHA, Look(bl, j), if j == k then xs else [])
  {
    if xs != [] { FeedAllByKey(bl, k, xs[..|xs| - 1], j); }
  }

  lemma FeedSampleByKey(bl: Baselines, h: string, sample: map<Metric, real>, k: Key)
    ensures Look(FeedSample(bl, h, sample), k) ==
            AbsorbFrom(EWMA_ALPHA, Look(bl, k), if k.0 == h && k.1 in sample then [sample[k.1]] else [])
  {
    assert k == (k.0, k.1);
    AbsorbOne(Look(bl, k), if k.1 in sample then sample[k.1] else 0.0);
    match k.1 {
      case PpsTx =>
      case BytesOut =>
    }
  }

  lemma ApplyByKey(bl: Baselines, op: Op, k: Key)
    ensures Look(Apply(bl, op), k) == AbsorbFrom(EWMA_ALPHA, Look(bl, k), FedByOp(op, k))
  {
    match op
    case Seed(h, m, xs) => FeedAllByKey(bl, (h, m), xs, k);
    case Feed(h, sample) => FeedSampleByKey(bl, h, sample, k);
    case Window(fs, ms) =>
      FirstSeenIsNames(Sources(fs));
      FirstSeenIsNames(Labels(ms));
      LearnHostsByKey(bl, fs, Hosts(fs), k);
      LearnContainersByKey(FlowBaselines(bl, fs), ms, Containers(ms), k);
      AbsorbFromConcat(EWMA_ALPHA, Look(bl, k), FedByFlows(fs, Hosts(fs), k), FedBySamples(ms, Containers(ms), k));
  }

  /** Every baseline the detector holds is the closed-form summary of exactly the samples that were
      absorbed under its key, whatever happened to other keys in between. */
  lemma {:induction false} RunByKey(ops: seq<Op>, k: Key)
    ensures Look(Run(ops), k) == Absorb(EWMA_ALPHA, Absorbed(ops, k))
  {
    if ops != [] {
      var init, op := ops[..|ops| - 1], ops[|ops| - 1];
      RunByKey(init, k);
      ApplyByKey(Run(init), op, k);
      AbsorbFromConcat(EWMA_ALPHA, Unseen, Absorbed(init, k), FedByOp(op, k));
    }
  }

  /** What does not exceed the last value absorbed does not stand out. */
  lemma NoRiseNoZScore(ops: seq<Op>, k: Key, x: real)
    ensures Stands(Look(Run(ops), k), x) ==> Rises(ops, k, x)
  {
    var past := Absorbed(ops, k);
    RunByKey(ops, k);
    AbsorbCounts(EWMA_ALPHA, past);
    if past != [] && x <= past[|past| - 1] {
      AbsorbedValueIsOrdinary(EWMA_ALPHA, past, x, ZSCORE_THRESHOLD);
    }
  }

  lemma AlarmsMembers(hard: bool, z: bool, burst: bool, mult: bool, extreme: bool, scan: bool)
    ensures var ts := Alarms(hard, z, burst, mult, extreme, scan);
            && (PpsHard in ts <==> hard) && (PpsZScore in ts <==> z)
            && (ByteBurst in ts <==> burst) && (ByteBurstMultiplier in ts <==> mult && !burst)
            && (DstExtreme in ts <==> extreme) && (DstScan in ts <==> scan && !extreme)
  {
  }

  lemma ZTriggers(bl: Baselines, fs: seq<Flow>, h: string)
    ensures PpsZScore in TriggersOf(bl, fs, h) <==> Stands(Look(bl, (h, PpsTx)), AggregateOf(fs, h).pps)
    ensures ByteBurst in TriggersOf(bl, fs, h) <==> Stands(Look(bl, (h, BytesOut)), AggregateOf(fs, h).bytesOut as real)
  {
    var pps, bytes, g := Look(bl, (h, PpsTx)), Look(bl, (h, BytesOut)), AggregateOf(fs, h);
    AlarmsMembers(g.pps >= PPS_HARD_THRESHOLD, Stands(pps, g.pps),
                  Stands(bytes, g.bytesOut as real), OverMultiplier(bytes, g.bytesOut as real),
                  |g.destinations| >= UNIQUE_DST_EXTREME_THRESHOLD, |g.destinations| >= UNIQUE_DST_SCAN_THRESHOLD);
  }

  /** `x` is a strict rise above the value last absorbed under `k`, once enough were absorbed. */
  predicate Rises(ops: seq<Op>, k: Key, x: real) {
    var past := Absorbed(ops, k);
    |past| >= BASELINE_MIN_SAMPLES && x > past[|past| - 1]
  }

  /** Over any run, a host's z-score triggers fire only on a strict rise above the value last
      absorbed for that host and metric. */
  lemma ZScoreFiresOnlyOnRise(ops: seq<Op>, fs: seq<Flow>, h: string)
    ensures PpsZScore in TriggersOf(Run(ops), fs, h) ==> Rises(ops, (h, PpsTx), AggregateOf(fs, h).pps)
    ensures ByteBurst in TriggersOf(Run(ops), fs, h) ==> Rises(ops, (h, BytesOut), AggregateOf(fs, h).bytesOut as real)
  {
    ZTriggers(Run(ops), fs, h);
    NoRiseNoZScore(ops, (h, PpsTx), AggregateOf(fs, h).pps);
    NoRiseNoZScore(ops, (h, BytesOut), AggregateOf(fs, h).bytesOut as real);
  }

  /** The same for a container, whose baseline this window's flows of a host of the same name move first. */
  lemma ContainerZScoreFiresOnlyOnRise(ops: seq<Op>, fs: seq<Flow>, ms: seq<Sample>, c: string)
    ensures ContainerPpsZScore in SampleJudge(FlowBaselines(Run(ops), fs), ms)(c) ==>
            Rises(ops + [Window(fs, [])], (c, PpsTx), UsageOf(ms, c).pps)
  {
    var all, bl, u := ops + [Window(fs, [])], FlowBaselines(Run(ops), fs), UsageOf(ms, c);
    assert all[..|ops|] == ops;
    assert Containers([]) == [] && Settled(Run(ops), fs, []) == bl;
    ContainerAlarmsMembers(u.restarts >= CONTAINER_RESTART_STORM, u.ooms >= CONTAINER_OOM_THRESHOLD,
                           u.pps >= PPS_HARD_THRESHOLD, Stands(Look(bl, (c, PpsTx)), u.pps),
                           u.uniqueDsts >= UNIQUE_DST_SCAN_THRESHOLD);
    NoRiseNoZScore(all, (c, PpsTx), u.pps);
  }

  lemma ContainerAlarmsMembers(storm: bool, oom: bool, hard: bool, z: bool, scan: bool)
    ensures var ts := ContainerAlarms(storm, oom, hard, z, scan);
            && (RestartStorm in ts <==> storm) && (OomKill in ts <==> oom) && (ContainerPpsFlood in ts <==> hard)
            && (ContainerPpsZScore in ts <==> z) && (ContainerDstScan in ts <==> scan)
  {
  }

  /** A flood that does not grow between two windows is not flagged by a z-score a second time, neither for its
      packets nor for its bytes, even if a container of the same name moved the packet baseline in between. */
  lemma ConstantFloodTripsOnce(ops: seq<Op>, first: seq<Flow>, ms: seq<Sample>, second: seq<Flow>, h: string)
    requires h in Hosts(first)
    ensures AggregateOf(second, h).pps <= AggregateOf(first, h).pps ==>
            PpsZScore !in TriggersOf(Run(ops + [Window(first, ms)]), second, h)
    ensures AggregateOf(second, h).bytesOut <= AggregateOf(first, h).bytesOut ==>
            ByteBurst !in TriggersOf(Run(ops + [Window(first, ms)]), second, h)
  {
    if AggregateOf(second, h).pps <= AggregateOf(first, h).pps { PacketFloodTripsOnce(ops, first, ms, second, h); }
    if AggregateOf(second, h).bytesOut <= AggregateOf(first, h).bytesOut {
      ByteFloodTripsOnce(ops, first, ms, second, h);
    }
  }

  /** What one window adds under the keys of one of its hosts. */
  lemma AbsorbedByWindow(ops: seq<Op>, fs: seq<Flow>, ms: seq<Sample>, h: string)
    requires h in Hosts(fs)
    ensures var all, g := ops + [Window(fs, ms)], AggregateOf(fs, h);
            && Absorbed(all, (h, BytesOut)) == Absorbed(ops, (h, BytesOut)) + [g.bytesOut as real]
            && Absorbed(all, (h, PpsTx)) ==
               Absorbed(ops, (h, PpsTx)) + [g.pps] + FedBySamples(ms, Containers(ms), (h, PpsTx))
  {
    assert (ops + [Window(fs, ms)])[..|ops|] == ops;
  }

  lemma ByteFloodTripsOnce(ops: seq<Op>, first: seq<Flow>, ms: seq<Sample>, second: seq<Flow>, h: string)
    requires h in Hosts(first) && AggregateOf(second, h).bytesOut <= AggregateOf(first, h).bytesOut
    ensures ByteBurst !in TriggersOf(Run(ops + [Window(first, ms)]), second, h)
  {
    AbsorbedByWindow(ops, first, ms, h);
    ZScoreFiresOnlyOnRise(ops + [Window(first, ms)], second, h);
  }

  lemma PacketFloodTripsOnce(ops: seq<Op>, first: seq<Flow>, ms: seq<Sample>, second: seq<Flow>, h: string)
    requires h in Hosts(first) && AggregateOf(second, h).pps <= AggregateOf(first, h).pps
    ensures PpsZScore !in TriggersOf(Run(ops + [Window(first, ms)]), second, h)
  {
    var all, past := ops + [Window(first, ms)], Absorbed(ops, (h, PpsTx));
    AbsorbedByWindow(ops, first, ms, h);
    RunByKey(all, (h, PpsTx));
    FollowedIsOrdinary(past, AggregateOf(first, h).pps, FedBySamples(ms, Containers(ms), (h, PpsTx)),
                       AggregateOf(second, h).pps);
    ZTriggers(Run(all), second, h);
  }

  /** A value that was absorbed last or last but one does not stand out. */
  lemma FollowedIsOrdinary(past: seq<real>, x: real, more: seq<real>, y: real)
    requires |more| <= 1 && y <= x
    ensures !Stands(Absorb(EWMA_ALPHA, past + [x] + more), y)
  {
    if more == [] {
      assert past + [x] + more == past + [x];
      AbsorbedValueIsOrdinary(EWMA_ALPHA, past + [x], y, ZSCORE_THRESHOLD);
    } else {
      assert more == [more[0]];
      AbsorbTwice(past, x, more[0]);
      AbsorbCounts(EWMA_ALPHA, past);
      AfterTwo(past, x, more[0], y);
    }
  }

  lemma AbsorbTwice(past: seq<real>, x: real, c: real)
    ensures Absorb(EWMA_ALPHA, past + [x] + [c]) ==
            Updated(EWMA_ALPHA, Updated(EWMA_ALPHA, Absorb(EWMA_ALPHA, past), x), c)
  {
    AbsorbNext(past, x);
    AbsorbNext(past + [x], c);
  }

  lemma AbsorbNext(past: seq<real>, x: real)
    ensures Absorb(EWMA_ALPHA, past + [x]) == Updated(EWMA_ALPHA, Absorb(EWMA_ALPHA, past), x)
  {
    assert (past + [x])[..|past|] == past;
  }

  lemma AfterTwo(past: seq<real>, x: real, c: real, y: real)
    requires y <= x
    ensures !Stands(Updated(EWMA_ALPHA, Updated(EWMA_ALPHA, Absorb(EWMA_ALPHA, past), x), c), y)
  {
    AbsorbCounts(EWMA_ALPHA, past);
    var b := Absorb(EWMA_ALPHA, past);
    if past != [] {
      var lo, hi := Extent(past);
      MeanAndVarianceBounds(EWMA_ALPHA, past, lo, hi);
      StillOrdinaryAfterOneMore(b, x, c);
      var after := Updated(EWMA_ALPHA, Updated(EWMA_ALPHA, b, x), c);
      if Stands(after, y) { ZMonotone(after, y, x, ZSCORE_THRESHOLD); }
    }
  }

  // ---------------------------------------------------------------- suppression

  /** Flow `f` of host `s` would hide a finding about container `c`. */
  ghost predicate Hides(s: string, c: string, ops: seq<Op>, fs: seq<Flow>, f: Flow, ms: seq<Sample>, threshold: int) {
    && NameOr(f.source) == s && Counters(f)
    && (forall m :: m in ms ==> NameOr(m.container) == c)
    && Score(Run(ops), fs + [f], ms) < threshold <= Score(Run(ops), fs, ms)
  }

  /** No further flow of host `s` can hide a finding about container `c`. */
  ghost predicate NeverSuppresses(s: string, c: string) {
    forall ops: seq<Op>, fs: seq<Flow>, f: Flow, ms: seq<Sample>, threshold: int ::
      !Hides(s, c, ops, fs, f, ms, threshold)
  }

  /** A flow whose source is not also a container name never lowers the total score. */
  lemma ForeignFlowNeverScoresLess(bl: Baselines, fs: seq<Flow>, f: Flow, ms: seq<Sample>)
    requires Counters(f) && NameOr(f.source) !in Containers(ms)
    ensures Score(bl, fs, ms) <= Score(bl, fs + [f], ms)
  {
    MoreFlowNeverScoresLess(bl, fs, f, fs + [f]);
    var before, after := SampleJudge(FlowBaselines(bl, fs), ms), SampleJudge(FlowBaselines(bl, fs + [f]), ms);
    forall c | c in Containers(ms) ensures before(c) == after(c) { OtherHostsUntouched(bl, fs, f, (c, PpsTx)); }
    GatherSameJudgement(before, after, Containers(ms));
  }

  lemma OtherHostsUntouched(bl: Baselines, fs: seq<Flow>, f: Flow, k: Key)
    requires k.0 != NameOr(f.source)
    ensures Look(FlowBaselines(bl, fs), k) == Look(FlowBaselines(bl, fs + [f]), k)
  {
    var more := fs + [f];
    AppendedFlow(fs, f);
    FirstSeenIsNames(Sources(fs));
    FirstSeenIsNames(Sources(more));
    LearnHostsByKey(bl, fs, Hosts(fs), k);
    LearnHostsByKey(bl, more, Hosts(more), k);
  }

  /** A steady history leaves its value as mean, with no variance. */
  lemma {:induction false} SteadyHistory(xs: seq<real>, x: real)
    requires xs != [] && forall i :: 0 <= i < |xs| ==> xs[i] == x
    ensures Absorb(EWMA_ALPHA, xs) == Tracked(x, 0.0, |xs|)
  {
    var ys := xs[..|xs| - 1];
    if ys != [] { SteadyHistory(ys, x); }
    SteadyStep(x, |ys|);
    assert Absorb(EWMA_ALPHA, xs) == Updated(EWMA_ALPHA, Absorb(EWMA_ALPHA, ys), x);
  }

  lemma SteadyStep(x: real, n: nat)
    ensures Updated(EWMA_ALPHA, Tracked(x, 0.0, n), x) == Tracked(x, 0.0, n + 1)
  {
  }

  const IDLE_HISTORY: seq<real> := [0.0, 0.0, 0.0, 0.0, 0.0]

  lemma Numbers()
    ensures Stands(Tracked(0.0, 0.0, 5), 3.0) && !Stands(Tracked(0.0, 0.0, 5), 2.9)
    ensures Updated(EWMA_ALPHA, Tracked(0.0, 0.0, 5), 2.9) == Tracked(0.58, 1.3456, 6)
    ensures !Stands(Tracked(0.58, 1.3456, 6), 3.0)
  {
  }

  lemma AfterIdling(name: string)
    ensures Look(Run([Seed(name, PpsTx, IDLE_HISTORY)]), (name, PpsTx)) == Tracked(0.0, 0.0, 5)
    ensures Look(Run([Seed(name, PpsTx, IDLE_HISTORY)]), (name, BytesOut)) == Unseen
  {
    var ops := [Seed(name, PpsTx, IDLE_HISTORY)];
    assert ops[..0] == [];
    assert Absorbed(ops, (name, PpsTx)) == IDLE_HISTORY && Absorbed(ops, (name, BytesOut)) == [];
    RunByKey(ops, (name, PpsTx));
    RunByKey(ops, (name, BytesOut));
    SteadyHistory(IDLE_HISTORY, 0.0);
  }

  /** A host and a container of the same name share a baseline: a flow at 2.9 packets per second hides the jump
      to 3 of a container that ran out of memory twice, which alone scores 90. */
  lemma SharedNameSuppresses(name: string)
    ensures var bl := Run([Seed(name, PpsTx, IDLE_HISTORY)]);
            var f, ms := Flow(Some(name), "", 0, 2.9), Repeat(Sample(Some(name), Oom, 3.0, 0), 2);
            Score(bl, [], ms) == 90 && Score(bl, [f], ms) == 40
  {
    var bl := Run([Seed(name, PpsTx, IDLE_HISTORY)]);
    var f := Flow(Some(name), "", 0, 2.9);
    Numbers();
    AfterIdling(name);
    OneContainer(bl, name, true);
    assert Hosts([]) == [] && FlowBaselines(bl, []) == bl && FlowTriggers(bl, []) == [];
    OneHost(bl, f, name);
    OneContainer(FlowBaselines(bl, [f]), name, false);
    assert TotalWeight([]) == 0;
  }

  lemma OneContainer(bl: Baselines, name: string, z: bool)
    requires z == Stands(Look(bl, (name, PpsTx)), 3.0)
    ensures TotalWeight(SampleTriggers(bl, Repeat(Sample(Some(name), Oom, 3.0, 0), 2))) == if z then 90 else 40
  {
    RepeatedSample(bl, Sample(Some(name), Oom, 3.0, 0), 2);
    ContainerWeight(Look(bl, (name, PpsTx)), Usage(0, 2, 3.0, 0), false, true, z);
  }

  /** The same sample `n` times. */
  function Repeat(m: Sample, n: nat): seq<Sample> { if n == 0 then [] else Repeat(m, n - 1) + [m] }

  lemma {:induction false} Repeats(m: Sample, n: nat)
    ensures |Repeat(m, n)| == n && forall i :: 0 <= i < n ==> Repeat(m, n)[i] == m
  {
    if n > 0 { Repeats(m, n - 1); }
  }

  lemma {:induction false} RepeatedUsage(m: Sample, n: nat)
    requires n > 0 && m.pps >= 0.0 && m.uniqueDsts >= 0
    ensures UsageOf(Repeat(m, n), NameOr(m.container)) ==
            Usage(if m.event == Restart then n else 0, if m.event == Oom then n else 0, m.pps, m.uniqueDsts)
  {
    UsageStep(Repeat(m, n - 1), m);
    if n > 1 {
      RepeatedUsage(m, n - 1);
    } else {
      assert Repeat(m, 0) == [];
    }
  }

  lemma UsageStep(ms: seq<Sample>, m: Sample)
    ensures UsageOf(ms + [m], NameOr(m.container)) == Observe(UsageOf(ms, NameOr(m.container)), m)
  {
    assert (ms + [m])[..|ms|] == ms;
  }

  lemma {:induction false} RepeatedName(names: seq<string>, name: string)
    requires names != [] && forall i :: 0 <= i < |names| ==> names[i] == name
    ensures FirstSeen(names) == [name]
  {
    var init := names[..|names| - 1];
    if init != [] { RepeatedName(init, name); }
  }

  lemma RepeatedSample(bl: Baselines, m: Sample, n: nat)
    requires n > 0 && m.pps >= 0.0 && m.uniqueDsts >= 0
    ensures SampleTriggers(bl, Repeat(m, n)) ==
            ContainerTriggers(Look(bl, (NameOr(m.container), PpsTx)),
                              Usage(if m.event == Restart then n else 0, if m.event == Oom then n else 0,
                                    m.pps, m.uniqueDsts))
  {
    var ms, name := Repeat(m, n), NameOr(m.container);
    Repeats(m, n);
    RepeatedUsage(m, n);
    RepeatedName(Labels(ms), name);
    OneName(name, SampleJudge(bl, ms));
  }

  /** The weight of a container below the packet and destination thresholds. */
  lemma ContainerWeight(b: Baseline, u: Usage, storm: bool, oom: bool, z: bool)
    requires u.pps < PPS_HARD_THRESHOLD && u.uniqueDsts < UNIQUE_DST_SCAN_THRESHOLD && z == Stands(b, u.pps)
    requires storm == (u.restarts >= CONTAINER_RESTART_STORM) && oom == (u.ooms >= CONTAINER_OOM_THRESHOLD)
    ensures TotalWeight(ContainerTriggers(b, u)) ==
            (if storm then 35 else 0) + (if oom then 40 else 0) + (if z then 50 else 0)
  {
    assert ContainerTriggers(b, u) == ContainerAlarms(storm, oom, false, z, false);
    QuietTraffic(storm, oom, z);
  }

  lemma QuietTraffic(storm: bool, oom: bool, z: bool)
    ensures TotalWeight(ContainerAlarms(storm, oom, false, z, false)) ==
            (if storm then 35 else 0) + (if oom then 40 else 0) + (if z then 50 else 0)
  {
    var a, b, c := Flag(storm, RestartStorm), Flag(oom, OomKill), Flag(z, ContainerPpsZScore);
    FlagWeight(storm, RestartStorm);
    FlagWeight(oom, OomKill);
    FlagWeight(z, ContainerPpsZScore);
    assert TrafficAlarms(false, z, false) == c;
    TotalWeightConcat(a, b);
    TotalWeightConcat(a + b, c);
  }

  lemma OneName(name: string, judge: string -> seq<Trigger>)
    ensures FirstSeen([name]) == [name] && Gather(judge, [name]) == judge(name)
  {
    assert [name][..0] == [];
    assert FirstSeen([name][..0]) == [];
    assert Gather(judge, [name][..0]) == [];
  }

  lemma OneHost(bl: Baselines, f: Flow, name: string)
    requires f == Flow(Some(name), "", 0, 2.9)
    requires Look(bl, (name, PpsTx)) == Tracked(0.0, 0.0, 5) && Look(bl, (name, BytesOut)) == Unseen
    ensures FlowTriggers(bl, [f]) == []
    ensures Look(FlowBaselines(bl, [f]), (name, PpsTx)) == Updated(EWMA_ALPHA, Tracked(0.0, 0.0, 5), 2.9)
  {
    SingleFlow(f);
    assert Contribution(f) == Aggregate(0, 2.9, {}, 1);
    OneName(name, FlowJudge(bl, [f]));
    QuietHost(Aggregate(0, 2.9, {}, 1));
    LearnHostsByKey(bl, [f], [name], (name, PpsTx));
    AbsorbOne(Look(bl, (name, PpsTx)), 2.9);
  }

  lemma SingleFlow(f: Flow)
    ensures AggregateOf([f], NameOr(f.source)) == Contribution(f) && Sources([f]) == [NameOr(f.source)]
  {
    assert Sources([f]) == [NameOr(f.source)];
    AggregateStep([f], NameOr(f.source));
    NoFlows([f][..0], NameOr(f.source));
    NothingFirst(Contribution(f));
  }

  lemma NoFlows(fs: seq<Flow>, h: string)
    requires |fs| == 0
    ensures AggregateOf(fs, h) == NOTHING
  {
  }

  lemma NothingFirst(g: Aggregate)
    ensures Plus(NOTHING, g) == g
  {
  }

  lemma QuietHost(g: Aggregate)
    requires g == Aggregate(0, 2.9, {}, 1)
    ensures HostTriggers(Tracked(0.0, 0.0, 5), Unseen, g) == []
  {
    Numbers();
  }

  lemma SharedNameHides(name: string)
    ensures Hides(name, name, [Seed(name, PpsTx, IDLE_HISTORY)], [], Flow(Some(name), "", 0, 2.9),
                  Repeat(Sample(Some(name), Oom, 3.0, 0), 2), 60)
  {
    SharedNameSuppresses(name);
    Repeats(Sample(Some(name), Oom, 3.0, 0), 2);
    var f: Flow := Flow(Some(name), "", 0, 2.9);
    assert [] + [f] == [f];
  }

  lemma ForeignNameNeverHides(s: string, c: string, ops: seq<Op>, fs: seq<Flow>, f: Flow, ms: seq<Sample>,
                              threshold: int)
    requires s != c
    ensures !Hides(s, c, ops, fs, f, ms, threshold)
  {
    if Hides(s, c, ops, fs, f, ms, threshold) {
      OneLabel(ms, c, s);
      ForeignFlowNeverScoresLess(Run(ops), fs, f, ms);
    }
  }

  lemma OneLabel(ms: seq<Sample>, c: string, s: string)
    requires (forall m :: m in ms ==> NameOr(m.container) == c) && s != c
    ensures s !in Containers(ms)
  {
    FirstSeenIsNames(Labels(ms));
    forall i | 0 <= i < |ms| ensures Labels(ms)[i] == c { assert ms[i] in ms; }
  }

  /** A further flow of a host can hide a finding about a container exactly when the two share a name. */
  lemma SuppressionNeedsSharedName(s: string, c: string)
    ensures NeverSuppresses(s, c) <==> s != c
  {
    if s == c {
      SharedNameHides(s);
    } else {
      forall ops: seq<Op>, fs: seq<Flow>, f: Flow, ms: seq<Sample>, threshold: int
        ensures !Hides(s, c, ops, fs, f, ms, threshold)
      {
        ForeignNameNeverHides(s, c, ops, fs, f, ms, threshold);
      }
    }
  }
}
