/** The DDoS and container-abuse detector: per-host aggregation of flows, trigger scoring against
    the rolling baselines, and the baseline updates each analysed window leaves behind. */
module Ddos {
  import opened Common
  import opened Ewma

  const PPS_HARD_THRESHOLD: real := 5000.0
  const ZSCORE_THRESHOLD: real := 3.0
  const UNIQUE_DST_SCAN_THRESHOLD: nat := 50
  const UNIQUE_DST_EXTREME_THRESHOLD: nat := 200
  const CONTAINER_RESTART_STORM: nat := 5
  const CONTAINER_OOM_THRESHOLD: nat := 2
  const BYTE_BURST_MULTIPLIER: real := 10.0

  const SCORE_PPS_HARD: nat := 70
  const SCORE_ZSCORE_ANOMALY: nat := 50
  const SCORE_BYTE_BURST: nat := 45
  const SCORE_UNIQUE_DST_EXTREME: nat := 75
  const SCORE_UNIQUE_DST_SCAN: nat := 40
  const SCORE_CONTAINER_RESTART: nat := 35
  const SCORE_CONTAINER_OOM: nat := 40

  datatype Flow = Flow(source: Option<string>, destination: string, bytesOut: int, pps: real)

  datatype Lifecycle = Restart | Oom | OtherEvent

  datatype Sample = Sample(container: Option<string>, event: Lifecycle, pps: real, uniqueDsts: int)

  function NameOr(name: Option<string>): string {
    if name.Some? then name.value else "unknown"
  }

  datatype Trigger =
    | PpsHard | PpsZScore | ByteBurst | ByteBurstMultiplier | DstExtreme | DstScan
    | RestartStorm | OomKill | ContainerPpsFlood | ContainerPpsZScore | ContainerDstScan
  {
    function Weight(): nat {
      match this
      case PpsHard => 70
      case PpsZScore => 50
      case ByteBurst => 45
      case ByteBurstMultiplier => 45 / 2
      case DstExtreme => 75
      case DstScan => 40
      case RestartStorm => 35
      case OomKill => 40
      case ContainerPpsFlood => 70
      case ContainerPpsZScore => 50
      case ContainerDstScan => 40
    }
  }

  function TotalWeight(ts: seq<Trigger>): nat {
    if ts == [] then 0 else TotalWeight(ts[..|ts| - 1]) + ts[|ts| - 1].Weight()
  }

  lemma {:induction false} TotalWeightConcat(a: seq<Trigger>, b: seq<Trigger>)
    ensures TotalWeight(a + b) == TotalWeight(a) + TotalWeight(b)
  {
    if b == [] {
      assert a + b == a;
    } else {
      TotalWeightConcat(a, b[..|b| - 1]);
      assert (a + b)[..|a + b| - 1] == a + b[..|b| - 1];
    }
  }

  /** What a judge says of several names, one after the other. */
  function Gather(judge: string -> seq<Trigger>, names: seq<string>): seq<Trigger> {
    if names == [] then [] else Gather(judge, names[..|names| - 1]) + judge(names[|names| - 1])
  }

  // ---------------------------------------------------------------- baselines

  datatype Metric = PpsTx | BytesOut

  type Key = (string, Metric)

  type Baselines = map<Key, Baseline>

  /** A lookup in the nested default dictionaries. */
  function Look(bl: Baselines, k: Key): Baseline {
    if k in bl then bl[k] else Unseen
  }

  function Learn(bl: Baselines, k: Key, x: real): Baselines {
    bl[k := Updated(EWMA_ALPHA, Look(bl, k), x)]
  }

  predicate Stands(b: Baseline, x: real) { ZAtLeast(b, x, ZSCORE_THRESHOLD) }

  // ---------------------------------------------------------------- flows of one host

  datatype Aggregate = Aggregate(bytesOut: int, pps: real, destinations: set<string>, flowCount: nat)

  const NOTHING := Aggregate(0, 0.0, {}, 0)

  function Plus(a: Aggregate, b: Aggregate): Aggregate {
    Aggregate(a.bytesOut + b.bytesOut, a.pps + b.pps, a.destinations + b.destinations, a.flowCount + b.flowCount)
  }

  function Contribution(f: Flow): Aggregate {
    Aggregate(f.bytesOut, f.pps, if f.destination == "" then {} else {f.destination}, 1)
  }

  /** What host `h` sent in all of `fs`. */
  function AggregateOf(fs: seq<Flow>, h: string): Aggregate {
    if fs == [] then NOTHING
    else
      var f, rest := fs[|fs| - 1], AggregateOf(fs[..|fs| - 1], h);
      if NameOr(f.source) == h then Plus(rest, Contribution(f)) else rest
  }

  function Sources(fs: seq<Flow>): seq<string> {
    seq(|fs|, i requires 0 <= i < |fs| => NameOr(fs[i].source))
  }

  function Hosts(fs: seq<Flow>): seq<string> { FirstSeen(Sources(fs)) }

  function Flag(on: bool, t: Trigger): seq<Trigger> { if on then [t] else [] }

  /** The triggers of one host, in the order of its four checks. */
  function Alarms(hard: bool, z: bool, burst: bool, multiplier: bool, extreme: bool, scan: bool): seq<Trigger> {
    Flag(hard, PpsHard) + Flag(z, PpsZScore)
    + Flag(burst || multiplier, if burst then ByteBurst else ByteBurstMultiplier)
    + Flag(extreme || scan, if extreme then DstExtreme else DstScan)
  }

  /** The hard multiplier stands in for the byte z-score while the baseline is not yet reliable. */
  predicate OverMultiplier(bytes: Baseline, x: real) {
    bytes.Tracked? && !bytes.Reliable() && bytes.mean != 0.0 && x >= bytes.mean * BYTE_BURST_MULTIPLIER
  }

  function HostTriggers(pps: Baseline, bytes: Baseline, g: Aggregate): seq<Trigger> {
    Alarms(g.pps >= PPS_HARD_THRESHOLD,
           Stands(pps, g.pps),
           Stands(bytes, g.bytesOut as real), OverMultiplier(bytes, g.bytesOut as real),
           |g.destinations| >= UNIQUE_DST_EXTREME_THRESHOLD, |g.destinations| >= UNIQUE_DST_SCAN_THRESHOLD)
  }

  function TriggersOf(bl: Baselines, fs: seq<Flow>, h: string): seq<Trigger> {
    HostTriggers(Look(bl, (h, PpsTx)), Look(bl, (h, BytesOut)), AggregateOf(fs, h))
  }

  /** Every host judged against the baselines `bl`. */
  function FlowJudge(bl: Baselines, fs: seq<Flow>): string -> seq<Trigger> { h => TriggersOf(bl, fs, h) }

  function LearnHost(bl: Baselines, fs: seq<Flow>, h: string): Baselines {
    var g := AggregateOf(fs, h);
    Learn(Learn(bl, (h, PpsTx), g.pps), (h, BytesOut), g.bytesOut as real)
  }

  function LearnHosts(bl: Baselines, fs: seq<Flow>, hs: seq<string>): Baselines {
    if hs == [] then bl
    else LearnHost(LearnHosts(bl, fs, hs[..|hs| - 1]), fs, hs[|hs| - 1])
  }

  function FlowTriggers(bl: Baselines, fs: seq<Flow>): seq<Trigger> { Gather(FlowJudge(bl, fs), Hosts(fs)) }

  function FlowBaselines(bl: Baselines, fs: seq<Flow>): Baselines { LearnHosts(bl, fs, Hosts(fs)) }

  /** What a window of flows adds to the samples absorbed under key `k`. */
  function FedByFlows(fs: seq<Flow>, hs: seq<string>, k: Key): seq<real> {
    if k.0 !in hs then []
    else if k.1 == PpsTx then [AggregateOf(fs, k.0).pps]
    else [AggregateOf(fs, k.0).bytesOut as real]
  }

  lemma {:induction false} LearnHostsByKey(bl: Baselines, fs: seq<Flow>, hs: seq<string>, k: Key)
    requires Distinct(hs)
    ensures Look(LearnHosts(bl, fs, hs), k) == AbsorbFrom(EWMA_ALPHA, Look(bl, k), FedByFlows(fs, hs, k))
    ensures k in LearnHosts(bl, fs, hs) <==> k in bl || k.0 in hs
  {
    if hs == [] {
      assert AbsorbFrom(EWMA_ALPHA, Look(bl, k), []) == Look(bl, k);
    } else {
      var init, h := hs[..|hs| - 1], hs[|hs| - 1];
      assert hs == init + [h];
      LearnHostsByKey(bl, fs, init, k);
      if k.0 == h {
        assert h !in init;
        AbsorbOne(Look(bl, k), FedByFlows(fs, hs, k)[0]);
      } else {
        assert FedByFlows(fs, hs, k) == FedByFlows(fs, init, k);
      }
    }
  }

  lemma AbsorbOne(b: Baseline, x: real)
    ensures AbsorbFrom(EWMA_ALPHA, b, [x]) == Updated(EWMA_ALPHA, b, x)
    ensures AbsorbFrom(EWMA_ALPHA, b, []) == b
  {
    assert [x][..0] == [];
    assert AbsorbFrom(EWMA_ALPHA, b, [x][..0]) == b;
  }

  // ---------------------------------------------------------------- containers

  datatype Usage = Usage(restarts: nat, ooms: nat, pps: real, uniqueDsts: int)

  const IDLE := Usage(0, 0, 0.0, 0)

  function Observe(u: Usage, m: Sample): Usage {
    Usage(if m.event == Restart then u.restarts + 1 else u.restarts,
          if m.event == Oom then u.ooms + 1 else u.ooms,
          if m.pps > u.pps then m.pps else u.pps,
          if m.uniqueDsts > u.uniqueDsts then m.uniqueDsts else u.uniqueDsts)
  }

  function UsageOf(ms: seq<Sample>, c: string): Usage {
    if ms == [] then IDLE
    else
      var m, rest := ms[|ms| - 1], UsageOf(ms[..|ms| - 1], c);
      if NameOr(m.container) == c then Observe(rest, m) else rest
  }

  function Labels(ms: seq<Sample>): seq<string> {
    seq(|ms|, i requires 0 <= i < |ms| => NameOr(ms[i].container))
  }

  function Containers(ms: seq<Sample>): seq<string> { FirstSeen(Labels(ms)) }

  function ContainerAlarms(storm: bool, oom: bool, hard: bool, z: bool, scan: bool): seq<Trigger> {
    LifecycleAlarms(storm, oom) + TrafficAlarms(hard, z, scan)
  }

  function LifecycleAlarms(storm: bool, oom: bool): seq<Trigger> { Flag(storm, RestartStorm) + Flag(oom, OomKill) }

  function TrafficAlarms(hard: bool, z: bool, scan: bool): seq<Trigger> {
    Flag(hard, ContainerPpsFlood) + Flag(z, ContainerPpsZScore) + Flag(scan, ContainerDstScan)
  }

  function ContainerTriggers(pps: Baseline, u: Usage): seq<Trigger> {
    ContainerAlarms(u.restarts >= CONTAINER_RESTART_STORM, u.ooms >= CONTAINER_OOM_THRESHOLD,
                    u.pps >= PPS_HARD_THRESHOLD, Stands(pps, u.pps),
                    u.uniqueDsts >= UNIQUE_DST_SCAN_THRESHOLD)
  }

  function SampleJudge(bl: Baselines, ms: seq<Sample>): string -> seq<Trigger> {
    c => ContainerTriggers(Look(bl, (c, PpsTx)), UsageOf(ms, c))
  }

  function LearnContainers(bl: Baselines, ms: seq<Sample>, cs: seq<string>): Baselines {
    if cs == [] then bl
    else
      var c := cs[|cs| - 1];
      Learn(LearnContainers(bl, ms, cs[..|cs| - 1]), (c, PpsTx), UsageOf(ms, c).pps)
  }

  function SampleTriggers(bl: Baselines, ms: seq<Sample>): seq<Trigger> {
    Gather(SampleJudge(bl, ms), Containers(ms))
  }

  function SampleBaselines(bl: Baselines, ms: seq<Sample>): Baselines {
    LearnContainers(bl, ms, Containers(ms))
  }

  function FedBySamples(ms: seq<Sample>, cs: seq<string>, k: Key): seq<real> {
    if k.0 in cs && k.1 == PpsTx then [UsageOf(ms, k.0).pps] else []
  }

  lemma {:induction false} LearnContainersByKey(bl: Baselines, ms: seq<Sample>, cs: seq<string>, k: Key)
    requires Distinct(cs)
    ensures Look(LearnContainers(bl, ms, cs), k) == AbsorbFrom(EWMA_ALPHA, Look(bl, k), FedBySamples(ms, cs, k))
  {
    AbsorbOne(Look(bl, k), UsageOf(ms, k.0).pps);
    if cs != [] {
      var init, c := cs[..|cs| - 1], cs[|cs| - 1];
      assert cs == init + [c];
      LearnContainersByKey(bl, ms, init, k);
      if k.0 == c {
        assert c !in init;
      } else {
        assert FedBySamples(ms, cs, k) == FedBySamples(ms, init, k);
      }
    }
  }

  /** A container sub-analysis is abuse exactly when restarts or out-of-memory kills triggered. */
  predicate Abuse(ts: seq<Trigger>) { RestartStorm in ts || OomKill in ts }

  // ---------------------------------------------------------------- one analysis

  function Score(bl: Baselines, fs: seq<Flow>, ms: seq<Sample>): nat {
    TotalWeight(FlowTriggers(bl, fs)) + TotalWeight(SampleTriggers(FlowBaselines(bl, fs), ms))
  }

  function Settled(bl: Baselines, fs: seq<Flow>, ms: seq<Sample>): Baselines {
    SampleBaselines(FlowBaselines(bl, fs), ms)
  }

  /** The trigger list of the merged evidence: a scoring sub-analysis overwrites the earlier list. */
  function Evidence(flowTs: seq<Trigger>, sampleTs: seq<Trigger>): seq<Trigger> {
    if TotalWeight(sampleTs) > 0 then sampleTs
    else if TotalWeight(flowTs) > 0 then flowTs
    else []
  }

  // ---------------------------------------------------------------- the source of a finding

  /** The source addresses that are given, in order. */
  function Given(fs: seq<Flow>): seq<string> {
    if fs == [] then []
    else
      var init, f := Given(fs[..|fs| - 1]), fs[|fs| - 1];
      if f.source.Some? && f.source.value != "" then init + [f.source.value] else init
  }

  /** They are the sources of exactly the flows that name one, in order. */
  lemma {:induction false} GivenPositions(fs: seq<Flow>) returns (at: seq<nat>)
    ensures Rising(at) && forall i :: i in at <==> 0 <= i < |fs| && fs[i].source != None && fs[i].source != Some("")
    ensures |Given(fs)| == |at|
    ensures forall k :: 0 <= k < |at| ==> at[k] < |fs| && fs[at[k]].source == Some(Given(fs)[k])
  {
    at := [];
    if fs != [] {
      var n := |fs| - 1;
      at := GivenPositions(fs[..n]);
      assert forall k :: 0 <= k < |at| ==> at[k] in at;
      if fs[n].source != None && fs[n].source != Some("") {
        RisingAppend(at, n);
        at := at + [n];
      }
    }
  }

  /** The i-th address in first-seen order occurs most often, and more often than any before it. */
  predicate MostFrequent(names: seq<string>, i: nat) {
    var order, counts := FirstSeen(names), multiset(names);
    && i < |order|
    && (forall j :: 0 <= j < |order| ==> counts[order[j]] <= counts[order[i]])
    && (forall j :: 0 <= j < i ==> counts[order[j]] < counts[order[i]])
  }

  /** The most frequent source of the flows, the first of them on a tie; failing that, the first container. */
  ghost predicate IsPrimarySource(fs: seq<Flow>, ms: seq<Sample>, source: string) {
    if Given(fs) != [] then exists i: nat :: MostFrequent(Given(fs), i) && FirstSeen(Given(fs))[i] == source
    else if ms != [] then source == (if ms[0].container.Some? then ms[0].container.value else "unknown-container")
    else source == "unknown"
  }

  method CountSources(flows: seq<Flow>) returns (order: seq<string>, counts: map<string, nat>)
    ensures order == FirstSeen(Given(flows))
    ensures forall h :: h in order <==> h in counts
    ensures forall h :: multiset(Given(flows))[h] == if h in counts then counts[h] else 0
  {
    order, counts := [], map[];
    for i := 0 to |flows|
      invariant order == FirstSeen(Given(flows[..i]))
      invariant forall h :: h in order <==> h in counts
      invariant forall h :: multiset(Given(flows[..i]))[h] == if h in counts then counts[h] else 0
    {
      assert flows[..i + 1][..i] == flows[..i];
      if flows[i].source.None? || flows[i].source.value == "" { continue; }
      var ip := flows[i].source.value;
      assert Given(flows[..i + 1])[..|Given(flows[..i])|] == Given(flows[..i]);
      if ip !in counts { order := order + [ip]; }
      counts := counts[ip := (if ip in counts then counts[ip] else 0) + 1];
    }
    assert flows[..|flows|] == flows;
  }

  /** The first of the largest. */
  method Busiest(order: seq<string>, counts: map<string, nat>) returns (best: nat)
    requires order != [] && forall i :: 0 <= i < |order| ==> order[i] in counts
    ensures best < |order|
    ensures forall i :: 0 <= i < |order| ==> counts[order[i]] <= counts[order[best]]
    ensures forall i :: 0 <= i < best ==> counts[order[i]] < counts[order[best]]
  {
    best := 0;
    for j := 1 to |order|
      invariant best < j
      invariant forall i :: 0 <= i < j ==> counts[order[i]] <= counts[order[best]]
      invariant forall i :: 0 <= i < best ==> counts[order[i]] < counts[order[best]]
    {
      if counts[order[j]] > counts[order[best]] { best := j; }
    }
  }

  lemma NoneGiven(names: seq<string>)
    ensures FirstSeen(names) == [] <==> names == []
  {
  }

  method PrimarySource(flows: seq<Flow>, metrics: seq<Sample>) returns (source: string)
    ensures IsPrimarySource(flows, metrics, source)
  {
    var order, counts := CountSources(flows);
    NoneGiven(Given(flows));
    if order != [] {
      forall i | 0 <= i < |order| ensures order[i] in counts { assert order[i] in order; }
      var best := Busiest(order, counts);
      assert MostFrequent(Given(flows), best);
      return order[best];
    }
    if metrics != [] {
      return if metrics[0].container.Some? then metrics[0].container.value else "unknown-container";
    }
    return "unknown";
  }

  datatype Remedy = ThrottleContainer | IsolateLanClient | NoRemedy

  datatype Finding = Finding(containerAbuse: bool, score: int, triggers: seq<Trigger>, source: string, remedy: Remedy)

  function Recommended(containerAbuse: bool, score: int): Remedy {
    if containerAbuse then ThrottleContainer else if score >= 70 then IsolateLanClient else NoRemedy
  }

  // ---------------------------------------------------------------- the detector

  function FeedSample(bl: Baselines, host: string, sample: map<Metric, real>): Baselines {
    var bl1 := if PpsTx in sample then Learn(bl, (host, PpsTx), sample[PpsTx]) else bl;
    if BytesOut in sample then Learn(bl1, (host, BytesOut), sample[BytesOut]) else bl1
  }

  lemma LearnedOne(bl: Baselines, k: Key, x: real, alpha: real, before: Baseline, after: Baseline)
    requires alpha == EWMA_ALPHA && before == Look(bl, k) && after == Updated(alpha, before, x)
    ensures bl[k := before][k := after] == Learn(bl, k, x)
  {
  }

  class DDoSDetector {
    const scoreThreshold: int
    /** One object for each host and metric. */
    var baselines: map<Key, EWMABaseline>
    /** All these objects, and what they hold. */
    ghost var repr: set<EWMABaseline>
    ghost var learned: Baselines

    ghost predicate Valid()
      reads this, repr
    {
      && baselines.Keys == learned.Keys
      && (forall k :: k in baselines ==>
            && baselines[k] in repr && baselines[k].alpha == EWMA_ALPHA
            && baselines[k].Valid() && baselines[k].View() == learned[k])
      && (forall j, k :: j in baselines && k in baselines && j != k ==> baselines[j] != baselines[k])
    }

    constructor (scoreThreshold: int)
      ensures Valid() && this.scoreThreshold == scoreThreshold && learned == map[] && fresh(repr)
    {
      this.scoreThreshold := scoreThreshold;
      baselines, learned, repr := map[], map[], {};
    }

    function Peek(k: Key): (b: Baseline)
      requires Valid()
      reads this, repr
      ensures b == Look(learned, k)
    {
      if k in baselines then baselines[k].View() else Unseen
    }

    /** The lookup in the nested default dictionaries: creates the object if there is none yet. */
    method Open(k: Key) returns (b: EWMABaseline)
      requires Valid()
      modifies this
      ensures Valid() && k in baselines && b == baselines[k] && b in repr
      ensures learned == old(learned)[k := Look(old(learned), k)]
      ensures fresh(repr - old(repr))
    {
      if k !in baselines {
        b := new EWMABaseline(EWMA_ALPHA);
        baselines, repr, learned := baselines[k := b], repr + {b}, learned[k := Unseen];
      }
      b := baselines[k];
    }

    /** Updates the object under the key; no other object changes. */
    method Feed(k: Key, x: real)
      requires Valid()
      modifies this, repr
      ensures Valid() && learned == Learn(old(learned), k, x)
      ensures fresh(repr - old(repr))
    {
      var b := Open(k);
      ghost var before := b.View();
      b.Update(x);
      Store(k, b, b.View());
      LearnedOne(old(learned), k, x, b.alpha, before, b.View());
    }

    /** Records that the object under the key now holds `b`, the only one to have changed. */
    ghost method Store(k: Key, held: EWMABaseline, b: Baseline)
      requires k in baselines && held == baselines[k] && held.Valid() && held.View() == b
      requires baselines.Keys == learned.Keys
      requires forall j :: j in baselines ==> baselines[j] in repr && baselines[j].alpha == EWMA_ALPHA
      requires forall j :: j in baselines && j != k ==>
                 baselines[j] != held && baselines[j].Valid() && baselines[j].View() == learned[j]
      requires forall i, j :: i in baselines && j in baselines && i != j ==> baselines[i] != baselines[j]
      modifies this`learned
      ensures Valid() && learned == old(learned)[k := b]
    {
      learned := learned[k := b];
    }

    method SeedBaseline(host: string, metric: Metric, values: seq<real>)
      requires Valid()
      modifies this, repr
      ensures Valid() && fresh(repr - old(repr))
      ensures forall k: Key :: Look(learned, k) ==
                AbsorbFrom(EWMA_ALPHA, Look(old(learned), k), if k == (host, metric) then values else [])
    {
      var b := Open((host, metric));
      b.Seed(values);
      Store((host, metric), b, AbsorbFrom(EWMA_ALPHA, Look(old(learned), (host, metric)), values));
    }

    /** The z-score of a value against the baseline under the key reaches the threshold. */
    method Reaches(k: Key, x: real) returns (yes: bool)
      requires Valid()
      ensures yes == Stands(Look(learned, k), x)
    {
      if k !in baselines { return false; }
      yes := baselines[k].ZScoreReaches(x, ZSCORE_THRESHOLD);
    }

    method UpdateBaseline(host: string, sample: map<Metric, real>)
      requires Valid()
      modifies this, repr
      ensures Valid() && learned == FeedSample(old(learned), host, sample)
      ensures fresh(repr - old(repr))
    {
      if PpsTx in sample { Feed((host, PpsTx), sample[PpsTx]); }
      if BytesOut in sample { Feed((host, BytesOut), sample[BytesOut]); }
    }

    method AnalyzeFlows(flows: seq<Flow>) returns (score: nat, triggers: seq<Trigger>)
      requires Valid()
      modifies this, repr
      ensures Valid() && fresh(repr - old(repr))
      ensures triggers == FlowTriggers(old(learned), flows)
      ensures score == TotalWeight(triggers)
      ensures learned == FlowBaselines(old(learned), flows)
    {
      var order, perHost := GatherFlows(flows);
      score, triggers := 0, [];
      FirstSeenIsNames(Sources(flows));
      for i := 0 to |order|
        invariant Valid() && fresh(repr - old(repr))
        invariant score == TotalWeight(triggers)
        invariant HostsJudged(old(learned), flows, order[..i], triggers, learned)
      {
        ghost var past, known := triggers, learned;
        assert order[i] in perHost;
        score, triggers := TurnOfHost(order[i], perHost[order[i]], score, triggers);
        HostStep(old(learned), flows, order, i, past, known);
      }
      assert order[..|order|] == order;
    }

    /** The four checks of one host. */
    method JudgeHost(src: string, g: Aggregate, score: nat, triggers: seq<Trigger>)
      returns (score': nat, triggers': seq<Trigger>)
      requires Valid() && score == TotalWeight(triggers)
      ensures triggers' == triggers
                + HostTriggers(Look(learned, (src, PpsTx)), Look(learned, (src, BytesOut)), g)
      ensures score' == TotalWeight(triggers')
    {
      var bytesOut, dsts, bytes := g.bytesOut as real, |g.destinations|, Peek((src, BytesOut));
      var z := Reaches((src, PpsTx), g.pps);
      var burst := Reaches((src, BytesOut), bytesOut);
      score', triggers' := TallyHost(g.pps >= PPS_HARD_THRESHOLD, z, bytes.Reliable(), burst,
        OverMultiplier(bytes, bytesOut), dsts >= UNIQUE_DST_EXTREME_THRESHOLD, dsts >= UNIQUE_DST_SCAN_THRESHOLD,
        score, triggers);
    }

    /** The five checks of one container. */
    method JudgeContainer(cid: string, u: Usage, score: nat, triggers: seq<Trigger>, abuse: bool)
      returns (score': nat, triggers': seq<Trigger>, abuse': bool)
      requires Valid() && score == TotalWeight(triggers) && abuse == Abuse(triggers)
      ensures triggers' == triggers + ContainerTriggers(Look(learned, (cid, PpsTx)), u)
      ensures score' == TotalWeight(triggers') && abuse' == Abuse(triggers')
    {
      var z := Reaches((cid, PpsTx), u.pps);
      score', triggers', abuse' := TallyContainer(
        u.restarts >= CONTAINER_RESTART_STORM, u.ooms >= CONTAINER_OOM_THRESHOLD, u.pps >= PPS_HARD_THRESHOLD,
        z, u.uniqueDsts >= UNIQUE_DST_SCAN_THRESHOLD, score, triggers, abuse);
    }

    /** One turn of the host loop. */
    method TurnOfHost(src: string, g: Aggregate, score: nat, triggers: seq<Trigger>)
      returns (score': nat, triggers': seq<Trigger>)
      requires Valid() && score == TotalWeight(triggers)
      modifies this, repr
      ensures Valid() && fresh(repr - old(repr))
      ensures triggers' == triggers
                + HostTriggers(Look(old(learned), (src, PpsTx)), Look(old(learned), (src, BytesOut)), g)
      ensures score' == TotalWeight(triggers')
      ensures learned == Learn(Learn(old(learned), (src, PpsTx), g.pps), (src, BytesOut), g.bytesOut as real)
    {
      score', triggers' := JudgeHost(src, g, score, triggers);
      UpdateBaseline(src, map[PpsTx := g.pps, BytesOut := g.bytesOut as real]);
    }

    method AnalyzeContainerMetrics(metrics: seq<Sample>) returns (score: nat, triggers: seq<Trigger>, abuse: bool)
      requires Valid()
      modifies this, repr
      ensures Valid() && fresh(repr - old(repr))
      ensures triggers == SampleTriggers(old(learned), metrics)
      ensures score == TotalWeight(triggers)
      ensures abuse == Abuse(triggers)
      ensures learned == SampleBaselines(old(learned), metrics)
    {
      var order, perContainer := GatherSamples(metrics);
      score, triggers, abuse := 0, [], false;
      FirstSeenIsNames(Labels(metrics));
      for i := 0 to |order|
        invariant Valid() && fresh(repr - old(repr))
        invariant score == TotalWeight(triggers) && abuse == Abuse(triggers)
        invariant ContainersJudged(old(learned), metrics, order[..i], triggers, learned)
      {
        ghost var past, known := triggers, learned;
        assert order[i] in perContainer;
        score, triggers, abuse := TurnOfContainer(order[i], perContainer[order[i]], score, triggers, abuse);
        ContainerStep(old(learned), metrics, order, i, past, known);
      }
      assert order[..|order|] == order;
    }

    /** One turn of the container loop. */
    method TurnOfContainer(cid: string, u: Usage, score: nat, triggers: seq<Trigger>, abuse: bool)
      returns (score': nat, triggers': seq<Trigger>, abuse': bool)
      requires Valid() && score == TotalWeight(triggers) && abuse == Abuse(triggers)
      modifies this, repr
      ensures Valid() && fresh(repr - old(repr))
      ensures triggers' == triggers + ContainerTriggers(Look(old(learned), (cid, PpsTx)), u)
      ensures score' == TotalWeight(triggers') && abuse' == Abuse(triggers')
      ensures learned == Learn(old(learned), (cid, PpsTx), u.pps)
    {
      score', triggers', abuse' := JudgeContainer(cid, u, score, triggers, abuse);
      UpdateBaseline(cid, map[PpsTx := u.pps]);
    }

    /** Reports a finding exactly when both sub-scores together reach the threshold. */
    method Analyze(flows: seq<Flow>, metrics: seq<Sample>) returns (finding: Option<Finding>)
      requires Valid()
      modifies this, repr
      ensures Valid() && fresh(repr - old(repr))
      ensures finding.Some? <==> Score(old(learned), flows, metrics) >= scoreThreshold
      ensures finding.Some? ==>
        && finding.value.score == Min(Score(old(learned), flows, metrics), 100)
        && (scoreThreshold <= 100 ==> scoreThreshold <= finding.value.score <= 100)
        && finding.value.triggers == Evidence(FlowTriggers(old(learned), flows),
                                              SampleTriggers(FlowBaselines(old(learned), flows), metrics))
        && finding.value.containerAbuse == Abuse(SampleTriggers(FlowBaselines(old(learned), flows), metrics))
        && IsPrimarySource(flows, metrics, finding.value.source)
        && finding.value.remedy == (if finding.value.containerAbuse then ThrottleContainer
                                    else if finding.value.score >= 70 then IsolateLanClient else NoRemedy)
      ensures learned == Settled(old(learned), flows, metrics)
    {
      var score, evidence, category := Collect(flows, metrics);
      if score < scoreThreshold { return None; }
      var source := PrimarySource(flows, metrics);
      return Some(Finding(category, Min(score, 100), evidence, source, Recommended(category, Min(score, 100))));
    }

    /** Both sub-analyses, each skipped when it has no input; the later evidence overwrites the earlier. */
    method Collect(flows: seq<Flow>, metrics: seq<Sample>) returns (score: nat, evidence: seq<Trigger>, abuse: bool)
      requires Valid()
      modifies this, repr
      ensures Valid() && fresh(repr - old(repr))
      ensures score == Score(old(learned), flows, metrics)
      ensures evidence == Evidence(FlowTriggers(old(learned), flows),
                                   SampleTriggers(FlowBaselines(old(learned), flows), metrics))
      ensures abuse == Abuse(SampleTriggers(FlowBaselines(old(learned), flows), metrics))
      ensures learned == Settled(old(learned), flows, metrics)
    {
      score, evidence, abuse := 0, [], false;
      EmptyWindow(learned);
      if flows != [] {
        var flowScore, flowTs := AnalyzeFlows(flows);
        score := score + flowScore;
        if flowScore > 0 { evidence := flowTs; }
      }
      EmptyWindow(learned);
      if metrics != [] {
        var cmScore, cmTs, found := AnalyzeContainerMetrics(metrics);
        score := score + cmScore;
        if cmScore > 0 { evidence := cmTs; }
        if found { abuse := true; }
      }
    }
  }

  lemma EmptyWindow(bl: Baselines)
    ensures FlowTriggers(bl, []) == [] && FlowBaselines(bl, []) == bl
    ensures SampleTriggers(bl, []) == [] && SampleBaselines(bl, []) == bl
    ensures TotalWeight([]) == 0
  {
  }

  /** After the hosts `hs`: the triggers found so far, and the baselines left so far. */
  ghost predicate HostsJudged(bl: Baselines, fs: seq<Flow>, hs: seq<string>, triggers: seq<Trigger>, now: Baselines) {
    triggers == Gather(FlowJudge(bl, fs), hs) && now == LearnHosts(bl, fs, hs)
  }

  /** The i-th turn of the host loop: earlier hosts have not touched this host's baselines. */
  lemma HostStep(bl: Baselines, fs: seq<Flow>, order: seq<string>, i: nat, triggers: seq<Trigger>, now: Baselines)
    requires Distinct(order) && i < |order| && HostsJudged(bl, fs, order[..i], triggers, now)
    ensures var h, g := order[i], AggregateOf(fs, order[i]);
            HostsJudged(bl, fs, order[..i + 1],
                        triggers + HostTriggers(Look(now, (h, PpsTx)), Look(now, (h, BytesOut)), g),
                        Learn(Learn(now, (h, PpsTx), g.pps), (h, BytesOut), g.bytesOut as real))
  {
    assert order[..i + 1] == order[..i] + [order[i]];
    LearnHostsByKey(bl, fs, order[..i], (order[i], PpsTx));
    LearnHostsByKey(bl, fs, order[..i], (order[i], BytesOut));
    OneMoreHost(bl, fs, order[..i], order[i]);
  }

  lemma OneMoreHost(bl: Baselines, fs: seq<Flow>, hs: seq<string>, h: string)
    ensures Gather(FlowJudge(bl, fs), hs + [h]) == Gather(FlowJudge(bl, fs), hs) + TriggersOf(bl, fs, h)
    ensures LearnHosts(bl, fs, hs + [h]) == LearnHost(LearnHosts(bl, fs, hs), fs, h)
  {
    assert (hs + [h])[..|hs|] == hs;
  }

  ghost predicate ContainersJudged(bl: Baselines, ms: seq<Sample>, cs: seq<string>, triggers: seq<Trigger>,
                                   now: Baselines)
  {
    triggers == Gather(SampleJudge(bl, ms), cs) && now == LearnContainers(bl, ms, cs)
  }

  lemma ContainerStep(bl: Baselines, ms: seq<Sample>, order: seq<string>, i: nat, triggers: seq<Trigger>,
                      now: Baselines)
    requires Distinct(order) && i < |order| && ContainersJudged(bl, ms, order[..i], triggers, now)
    ensures var c, u := order[i], UsageOf(ms, order[i]);
            ContainersJudged(bl, ms, order[..i + 1], triggers + ContainerTriggers(Look(now, (c, PpsTx)), u),
                             Learn(now, (c, PpsTx), u.pps))
  {
    assert order[..i + 1] == order[..i] + [order[i]];
    OthersUntouched(bl, ms, order[..i], order[i]);
    OneMoreContainer(bl, ms, order[..i], order[i]);
  }

  lemma OthersUntouched(bl: Baselines, ms: seq<Sample>, cs: seq<string>, c: string)
    requires Distinct(cs) && c !in cs
    ensures Look(LearnContainers(bl, ms, cs), (c, PpsTx)) == Look(bl, (c, PpsTx))
  {
    LearnContainersByKey(bl, ms, cs, (c, PpsTx));
    AbsorbOne(Look(bl, (c, PpsTx)), 0.0);
  }

  lemma OneMoreContainer(bl: Baselines, ms: seq<Sample>, cs: seq<string>, c: string)
    ensures Gather(SampleJudge(bl, ms), cs + [c]) ==
            Gather(SampleJudge(bl, ms), cs) + ContainerTriggers(Look(bl, (c, PpsTx)), UsageOf(ms, c))
    ensures LearnContainers(bl, ms, cs + [c]) == Learn(LearnContainers(bl, ms, cs), (c, PpsTx), UsageOf(ms, c).pps)
  {
    assert (cs + [c])[..|cs|] == cs;
  }

  lemma AbuseAppend(ts: seq<Trigger>, t: Trigger)
    ensures Abuse(ts + [t]) <==> Abuse(ts) || t == RestartStorm || t == OomKill
  {
  }

  /** One check: when it holds, `points` join the score and `t` the triggers. */
  method Check(holds: bool, points: nat, t: Trigger, score: nat, triggers: seq<Trigger>)
    returns (score': nat, triggers': seq<Trigger>)
    requires points == t.Weight() && score == TotalWeight(triggers)
    ensures triggers' == triggers + Flag(holds, t)
    ensures score' == TotalWeight(triggers')
    ensures Abuse(triggers') <==> Abuse(triggers) || (holds && (t == RestartStorm || t == OomKill))
  {
    score', triggers' := score, triggers;
    if holds {
      assert (triggers + [t])[..|triggers|] == triggers;
      AbuseAppend(triggers, t);
      score', triggers' := score + points, triggers + [t];
    }
  }

  lemma Regroup(a: seq<Trigger>, b: seq<Trigger>, c: seq<Trigger>, d: seq<Trigger>, e: seq<Trigger>)
    ensures a + b + c + d + e == a + (b + c + d + e)
  {
  }

  lemma Regroup2(a: seq<Trigger>, b: seq<Trigger>, c: seq<Trigger>)
    ensures a + b + c == a + (b + c)
  {
  }

  /** The four checks of one host, each with a score and a trigger of its own. */
  method TallyHost(hard: bool, z: bool, reliable: bool, burst: bool, multiplier: bool, extreme: bool, scan: bool,
                   score: nat, triggers: seq<Trigger>)
    returns (score': nat, triggers': seq<Trigger>)
    requires score == TotalWeight(triggers)
    requires (burst ==> reliable) && (multiplier ==> !reliable)
    ensures triggers' == triggers + Alarms(hard, z, burst, multiplier, extreme, scan)
    ensures score' == TotalWeight(triggers')
  {
    score', triggers' := Check(hard, SCORE_PPS_HARD, PpsHard, score, triggers);
    score', triggers' := Check(z, SCORE_ZSCORE_ANOMALY, PpsZScore, score', triggers');
    if reliable {
      score', triggers' := Check(burst, SCORE_BYTE_BURST, ByteBurst, score', triggers');
    } else {
      score', triggers' := Check(multiplier, SCORE_BYTE_BURST / 2, ByteBurstMultiplier, score', triggers');
    }
    if extreme {
      score', triggers' := Check(true, SCORE_UNIQUE_DST_EXTREME, DstExtreme, score', triggers');
    } else {
      score', triggers' := Check(scan, SCORE_UNIQUE_DST_SCAN, DstScan, score', triggers');
    }
    Regroup(triggers, Flag(hard, PpsHard), Flag(z, PpsZScore),
            Flag(burst || multiplier, if burst then ByteBurst else ByteBurstMultiplier),
            Flag(extreme || scan, if extreme then DstExtreme else DstScan));
  }

  /** The five checks of one container. */
  method TallyContainer(storm: bool, oom: bool, hard: bool, z: bool, scan: bool,
                        score: nat, triggers: seq<Trigger>, abuse: bool)
    returns (score': nat, triggers': seq<Trigger>, abuse': bool)
    requires score == TotalWeight(triggers) && abuse == Abuse(triggers)
    ensures triggers' == triggers + ContainerAlarms(storm, oom, hard, z, scan)
    ensures score' == TotalWeight(triggers') && abuse' == Abuse(triggers')
  {
    score', triggers', abuse' := TallyLifecycle(storm, oom, score, triggers, abuse);
    score', triggers' := TallyTraffic(hard, z, scan, score', triggers');
    Regroup2(triggers, LifecycleAlarms(storm, oom), TrafficAlarms(hard, z, scan));
  }

  method TallyLifecycle(storm: bool, oom: bool, score: nat, triggers: seq<Trigger>, abuse: bool)
    returns (score': nat, triggers': seq<Trigger>, abuse': bool)
    requires score == TotalWeight(triggers) && abuse == Abuse(triggers)
    ensures triggers' == triggers + LifecycleAlarms(storm, oom)
    ensures score' == TotalWeight(triggers') && abuse' == Abuse(triggers')
  {
    abuse' := abuse;
    score', triggers' := Check(storm, SCORE_CONTAINER_RESTART, RestartStorm, score, triggers);
    if storm { abuse' := true; }
    score', triggers' := Check(oom, SCORE_CONTAINER_OOM, OomKill, score', triggers');
    if oom { abuse' := true; }
  }

  method TallyTraffic(hard: bool, z: bool, scan: bool, score: nat, triggers: seq<Trigger>)
    returns (score': nat, triggers': seq<Trigger>)
    requires score == TotalWeight(triggers)
    ensures triggers' == triggers + TrafficAlarms(hard, z, scan)
    ensures score' == TotalWeight(triggers') && (Abuse(triggers') <==> Abuse(triggers))
  {
    score', triggers' := Check(hard, SCORE_PPS_HARD, ContainerPpsFlood, score, triggers);
    score', triggers' := Check(z, SCORE_ZSCORE_ANOMALY, ContainerPpsZScore, score', triggers');
    score', triggers' := Check(scan, SCORE_UNIQUE_DST_SCAN, ContainerDstScan, score', triggers');
    Regroup(triggers, Flag(hard, ContainerPpsFlood), Flag(z, ContainerPpsZScore), Flag(scan, ContainerDstScan), []);
  }

  /** The aggregation loop over the flows: first-seen order of the hosts, and their totals. */
  method GatherFlows(flows: seq<Flow>) returns (order: seq<string>, perHost: map<string, Aggregate>)
    ensures order == Hosts(flows)
    ensures forall h :: h in order <==> h in perHost
    ensures forall h :: h in perHost ==> perHost[h] == AggregateOf(flows, h)
  {
    order, perHost := [], map[];
    for i := 0 to |flows|
      invariant order == Hosts(flows[..i])
      invariant forall h :: h in order <==> h in perHost
      invariant forall h :: if h in perHost then perHost[h] == AggregateOf(flows[..i], h)
                            else AggregateOf(flows[..i], h) == NOTHING
    {
      var src := NameOr(flows[i].source);
      assert flows[..i + 1][..i] == flows[..i];
      assert Sources(flows[..i + 1])[..i] == Sources(flows[..i]);
      if src !in perHost {
        order := order + [src];
        perHost := perHost[src := NOTHING];
      }
      perHost := perHost[src := Plus(perHost[src], Contribution(flows[i]))];
    }
    assert flows[..|flows|] == flows;
  }

  method GatherSamples(metrics: seq<Sample>) returns (order: seq<string>, perContainer: map<string, Usage>)
    ensures order == Containers(metrics)
    ensures forall c :: c in order <==> c in perContainer
    ensures forall c :: c in perContainer ==> perContainer[c] == UsageOf(metrics, c)
  {
    order, perContainer := [], map[];
    for i := 0 to |metrics|
      invariant order == Containers(metrics[..i])
      invariant forall c :: c in order <==> c in perContainer
      invariant forall c :: if c in perContainer then perContainer[c] == UsageOf(metrics[..i], c)
                            else UsageOf(metrics[..i], c) == IDLE
    {
      var cid := NameOr(metrics[i].container);
      assert metrics[..i + 1][..i] == metrics[..i];
      assert Labels(metrics[..i + 1])[..i] == Labels(metrics[..i]);
      if cid !in perContainer {
        order := order + [cid];
        perContainer := perContainer[cid := IDLE];
      }
      perContainer := perContainer[cid := Observe(perContainer[cid], metrics[i])];
    }
    assert metrics[..|metrics|] == metrics;
  }
}
