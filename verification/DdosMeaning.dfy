/** What the detector's totals, triggers and scores are, said of the flows and samples themselves. */
module DdosMeaning {
  import opened Common
  import opened Ewma
  import opened Ddos
  import DdosLaws

  // ---------------------------------------------------------------- the totals of a host

  /** A flow belongs to the host that it names, or to `unknown` if it names none. */
  predicate Sent(f: Flow, h: string) { f.source == Some(h) || (f.source == None && h == "unknown") }

  function Bytes(fs: seq<Flow>, h: string): int {
    if fs == [] then 0
    else Bytes(fs[..|fs| - 1], h) + if Sent(fs[|fs| - 1], h) then fs[|fs| - 1].bytesOut else 0
  }

  function Packets(fs: seq<Flow>, h: string): real {
    if fs == [] then 0.0
    else Packets(fs[..|fs| - 1], h) + if Sent(fs[|fs| - 1], h) then fs[|fs| - 1].pps else 0.0
  }

  /** The different addresses that the host sent to. */
  function Reached(fs: seq<Flow>, h: string): set<string> {
    set i | 0 <= i < |fs| && Sent(fs[i], h) && fs[i].destination != "" :: fs[i].destination
  }

  lemma {:induction false} ReachedStep(fs: seq<Flow>, h: string)
    requires fs != []
    ensures var f := fs[|fs| - 1];
            Reached(fs, h) ==
            Reached(fs[..|fs| - 1], h) + if Sent(f, h) && f.destination != "" then {f.destination} else {}
  {
    var init, f := fs[..|fs| - 1], fs[|fs| - 1];
    var all := Reached(init, h) + if Sent(f, h) && f.destination != "" then {f.destination} else {};
    forall d | d in Reached(fs, h) ensures d in all {
      var i :| 0 <= i < |fs| && Sent(fs[i], h) && fs[i].destination != "" && fs[i].destination == d;
      if i < |init| { assert init[i] == fs[i]; }
    }
    forall d | d in all ensures d in Reached(fs, h) {
      if d in Reached(init, h) {
        var i :| 0 <= i < |init| && Sent(init[i], h) && init[i].destination != "" && init[i].destination == d;
        assert fs[i] == init[i];
      }
    }
  }

  /** The aggregation loop computes exactly these totals. */
  lemma {:induction false} TotalsAreSums(fs: seq<Flow>, h: string)
    ensures var g := AggregateOf(fs, h);
            g.bytesOut == Bytes(fs, h) && g.pps == Packets(fs, h) && g.destinations == Reached(fs, h)
  {
    if fs != [] {
      TotalsAreSums(fs[..|fs| - 1], h);
      ReachedStep(fs, h);
      DdosLaws.AggregateStep(fs, h);
    }
  }

  // ---------------------------------------------------------------- the triggers of a host

  lemma {:induction false} HostMembers(pps: Baseline, bytes: Baseline, g: Aggregate)
    ensures var ts := HostTriggers(pps, bytes, g);
            && (PpsHard in ts <==> g.pps >= 5000.0) && (PpsZScore in ts <==> Stands(pps, g.pps))
            && (ByteBurst in ts <==> Stands(bytes, g.bytesOut as real))
            && (ByteBurstMultiplier in ts <==>
                  OverMultiplier(bytes, g.bytesOut as real) && !Stands(bytes, g.bytesOut as real))
            && (DstExtreme in ts <==> |g.destinations| >= 200)
            && (DstScan in ts <==> 50 <= |g.destinations| < 200)
  {
    DdosLaws.AlarmsMembers(
      g.pps >= PPS_HARD_THRESHOLD, Stands(pps, g.pps),
      Stands(bytes, g.bytesOut as real), OverMultiplier(bytes, g.bytesOut as real),
      |g.destinations| >= UNIQUE_DST_EXTREME_THRESHOLD, |g.destinations| >= UNIQUE_DST_SCAN_THRESHOLD);
  }

  /** The checks that need no baseline, said of the flows. */
  lemma {:induction false} HardTriggers(bl: Baselines, fs: seq<Flow>, h: string)
    ensures var ts := TriggersOf(bl, fs, h);
            && (PpsHard in ts <==> Packets(fs, h) >= 5000.0)
            && (DstExtreme in ts <==> |Reached(fs, h)| >= 200)
            && (DstScan in ts <==> 50 <= |Reached(fs, h)| < 200)
  {
    TotalsAreSums(fs, h);
    HostMembers(Look(bl, (h, PpsTx)), Look(bl, (h, BytesOut)), AggregateOf(fs, h));
  }

  // ---------------------------------------------------------------- the checks against baselines

  /** The exponentially weighted mean of the samples absorbed so far, and their variance about it. */
  function MeanOf(past: seq<real>): real { Moment(0.2, past, 0.0, 1) }

  function VarianceOf(past: seq<real>): real { Moment(0.2, past, MeanOf(past), 2) }

  /** `std` is the positive standard deviation, one if there is no variance. */
  predicate IsDeviation(past: seq<real>, std: real) {
    std > 0.0 && std * std == if VarianceOf(past) <= 0.0 then 1.0 else VarianceOf(past)
  }

  /** Five samples were absorbed, and the value lies three standard deviations above their weighted mean. */
  predicate StandsOut(past: seq<real>, x: real, std: real)
    requires std > 0.0
  {
    |past| >= 5 && (x - MeanOf(past)) / std >= 3.0
  }

  /** Some but fewer than five samples were absorbed, and the value is ten times their weighted mean. */
  predicate Multiplied(past: seq<real>, x: real) { 1 <= |past| < 5 && MeanOf(past) != 0.0 && x >= MeanOf(past) * 10.0 }

  lemma {:induction false} HeldBaseline(ops: seq<DdosLaws.Op>, k: Key)
    ensures var past := DdosLaws.Absorbed(ops, k);
            Look(DdosLaws.Run(ops), k) ==
            if past == [] then Unseen else Tracked(MeanOf(past), VarianceOf(past), |past|)
  {
    var past := DdosLaws.Absorbed(ops, k);
    DdosLaws.RunByKey(ops, k);
    AbsorbCounts(EWMA_ALPHA, past);
    if past != [] { ClosedForm(EWMA_ALPHA, past); }
  }

  /** Over any run, a value stands out exactly if five samples were absorbed and it lies three standard deviations
      above their weighted mean. */
  lemma {:induction false} StandsMeans(ops: seq<DdosLaws.Op>, k: Key, x: real, std: real)
    requires IsDeviation(DdosLaws.Absorbed(ops, k), std)
    ensures Stands(Look(DdosLaws.Run(ops), k), x) <==> StandsOut(DdosLaws.Absorbed(ops, k), x, std)
  {
    var past := DdosLaws.Absorbed(ops, k);
    HeldBaseline(ops, k);
    if past != [] { StandsAgainst(past, Look(DdosLaws.Run(ops), k), x, std); }
  }

  lemma {:induction false} StandsAgainst(past: seq<real>, b: Baseline, x: real, std: real)
    requires b == Tracked(MeanOf(past), VarianceOf(past), |past|) && IsDeviation(past, std)
    ensures Stands(b, x) <==> StandsOut(past, x, std)
  {
    StandsTracked(b.mean, b.variance, b.n, x, std);
  }

  lemma {:induction false} StandsTracked(mean: real, variance: real, n: nat, x: real, std: real)
    requires std > 0.0 && std * std == if variance <= 0.0 then 1.0 else variance
    ensures Stands(Tracked(mean, variance, n), x) <==> n >= 5 && (x - mean) / std >= 3.0
  {
    if n >= 5 { ZScoreWithoutRoot(Tracked(mean, variance, n), x, ZSCORE_THRESHOLD, std); }
  }

  lemma {:induction false} MultiplierMeans(ops: seq<DdosLaws.Op>, k: Key, x: real)
    ensures OverMultiplier(Look(DdosLaws.Run(ops), k), x) <==> Multiplied(DdosLaws.Absorbed(ops, k), x)
  {
    HeldBaseline(ops, k);
  }

  /** The checks against baselines, over any run and said of the flows: `p` and `b` are the standard deviations of
      the packet rates and the byte counts absorbed for the host. */
  lemma {:induction false} BaselineTriggers(ops: seq<DdosLaws.Op>, fs: seq<Flow>, h: string, p: real, b: real)
    requires IsDeviation(DdosLaws.Absorbed(ops, (h, PpsTx)), p) && IsDeviation(DdosLaws.Absorbed(ops, (h, BytesOut)), b)
    ensures var ts := TriggersOf(DdosLaws.Run(ops), fs, h);
            var packets, bytes := DdosLaws.Absorbed(ops, (h, PpsTx)), DdosLaws.Absorbed(ops, (h, BytesOut));
            && (PpsZScore in ts <==> StandsOut(packets, Packets(fs, h), p))
            && (ByteBurst in ts <==> StandsOut(bytes, Bytes(fs, h) as real, b))
            && (ByteBurstMultiplier in ts <==> Multiplied(bytes, Bytes(fs, h) as real))
  {
    PacketTrigger(ops, fs, h, p);
    ByteTrigger(ops, fs, h, b);
    MultiplierTrigger(ops, fs, h);
  }

  lemma {:induction false} PacketTrigger(ops: seq<DdosLaws.Op>, fs: seq<Flow>, h: string, p: real)
    requires IsDeviation(DdosLaws.Absorbed(ops, (h, PpsTx)), p)
    ensures PpsZScore in TriggersOf(DdosLaws.Run(ops), fs, h) <==>
            StandsOut(DdosLaws.Absorbed(ops, (h, PpsTx)), Packets(fs, h), p)
  {
    HeldTriggers(DdosLaws.Run(ops), fs, h);
    StandsMeans(ops, (h, PpsTx), Packets(fs, h), p);
  }

  lemma {:induction false} ByteTrigger(ops: seq<DdosLaws.Op>, fs: seq<Flow>, h: string, b: real)
    requires IsDeviation(DdosLaws.Absorbed(ops, (h, BytesOut)), b)
    ensures ByteBurst in TriggersOf(DdosLaws.Run(ops), fs, h) <==>
            StandsOut(DdosLaws.Absorbed(ops, (h, BytesOut)), Bytes(fs, h) as real, b)
  {
    HeldTriggers(DdosLaws.Run(ops), fs, h);
    StandsMeans(ops, (h, BytesOut), Bytes(fs, h) as real, b);
  }

  lemma {:induction false} MultiplierTrigger(ops: seq<DdosLaws.Op>, fs: seq<Flow>, h: string)
    ensures ByteBurstMultiplier in TriggersOf(DdosLaws.Run(ops), fs, h) <==>
            Multiplied(DdosLaws.Absorbed(ops, (h, BytesOut)), Bytes(fs, h) as real)
  {
    HeldTriggers(DdosLaws.Run(ops), fs, h);
    MultiplierMeans(ops, (h, BytesOut), Bytes(fs, h) as real);
  }

  lemma {:induction false} HeldTriggers(bl: Baselines, fs: seq<Flow>, h: string)
    ensures var ts, pps, bytes := TriggersOf(bl, fs, h), Look(bl, (h, PpsTx)), Look(bl, (h, BytesOut));
            && (PpsZScore in ts <==> Stands(pps, Packets(fs, h)))
            && (ByteBurst in ts <==> Stands(bytes, Bytes(fs, h) as real))
            && (ByteBurstMultiplier in ts <==> OverMultiplier(bytes, Bytes(fs, h) as real))
  {
    TotalsAreSums(fs, h);
    HostMembers(Look(bl, (h, PpsTx)), Look(bl, (h, BytesOut)), AggregateOf(fs, h));
  }

  // ---------------------------------------------------------------- all hosts

  lemma {:induction false} GatherMembers(judge: string -> seq<Trigger>, names: seq<string>, t: Trigger)
    ensures t in Gather(judge, names) <==> exists i :: 0 <= i < |names| && t in judge(names[i])
  {
    if names != [] {
      var init, last := names[..|names| - 1], names[|names| - 1];
      GatherMembers(judge, init, t);
      if t in Gather(judge, names) && t !in judge(last) {
        var i :| 0 <= i < |init| && t in judge(init[i]);
        assert names[i] == init[i];
      }
      if i :| 0 <= i < |names| && t in judge(names[i]) {
        if i < |init| { assert init[i] == names[i]; }
      }
    }
  }

  lemma {:induction false} GatherFirstSeen(judge: string -> seq<Trigger>, names: seq<string>, t: Trigger)
    ensures t in Gather(judge, FirstSeen(names)) <==> exists i :: 0 <= i < |names| && t in judge(names[i])
  {
    var order := FirstSeen(names);
    GatherMembers(judge, order, t);
    FirstSeenIsNames(names);
    if j :| 0 <= j < |order| && t in judge(order[j]) {
      assert order[j] in names;
      var i :| 0 <= i < |names| && names[i] == order[j];
    }
    if i :| 0 <= i < |names| && t in judge(names[i]) {
      assert names[i] in order;
      var j :| 0 <= j < |order| && order[j] == names[i];
    }
  }

  /** An analysis has a trigger exactly if some host that sent a flow has it. */
  lemma {:induction false} FlowTriggersMean(bl: Baselines, fs: seq<Flow>, t: Trigger)
    ensures t in FlowTriggers(bl, fs) <==>
            exists h, i :: 0 <= i < |fs| && Sent(fs[i], h) && t in FlowJudge(bl, fs)(h)
  {
    GatherHosts(FlowJudge(bl, fs), fs, t);
  }

  lemma {:induction false} GatherHosts(judge: string -> seq<Trigger>, fs: seq<Flow>, t: Trigger)
    ensures t in Gather(judge, Hosts(fs)) <==> exists h, i :: 0 <= i < |fs| && Sent(fs[i], h) && t in judge(h)
  {
    GatherFirstSeen(judge, Sources(fs), t);
    forall i, h | 0 <= i < |fs| ensures Sent(fs[i], h) <==> Sources(fs)[i] == h { }
  }

  /** A host that reaches 200 addresses in one window is reported by the deployed detector, whatever it did before. */
  lemma {:induction false} ScanIsReported(bl: Baselines, fs: seq<Flow>, ms: seq<Sample>, h: string)
    requires |Reached(fs, h)| >= 200
    ensures Score(bl, fs, ms) >= 75 > 60
  {
    ExtremeMeans(bl, fs);
    ExtremeScores(bl, fs, ms);
  }

  lemma {:induction false} ExtremeScores(bl: Baselines, fs: seq<Flow>, ms: seq<Sample>)
    requires DstExtreme in FlowTriggers(bl, fs)
    ensures Score(bl, fs, ms) >= 75
  {
    ExtremeWeight(FlowTriggers(bl, fs));
  }

  lemma {:induction false} ExtremeWeight(ts: seq<Trigger>)
    requires DstExtreme in ts
    ensures TotalWeight(ts) >= 75
  {
    WeightOfMember(ts, DstExtreme);
  }

  /** An analysis finds an extreme spread exactly if some host reaches 200 addresses. */
  lemma {:induction false} ExtremeMeans(bl: Baselines, fs: seq<Flow>)
    ensures DstExtreme in FlowTriggers(bl, fs) <==> exists h :: |Reached(fs, h)| >= 200
  {
    FlowTriggersMean(bl, fs, DstExtreme);
    forall h ensures DstExtreme in FlowJudge(bl, fs)(h) <==> |Reached(fs, h)| >= 200 { HardTriggers(bl, fs, h); }
    if h :| |Reached(fs, h)| >= 200 {
      SomeFlow(fs, h);
      var i :| 0 <= i < |fs| && Sent(fs[i], h);
    }
  }

  lemma {:induction false} SomeFlow(fs: seq<Flow>, h: string)
    requires |Reached(fs, h)| > 0
    ensures exists i :: 0 <= i < |fs| && Sent(fs[i], h)
  {
    var d :| d in Reached(fs, h);
  }

  lemma {:induction false} WeightOfMember(ts: seq<Trigger>, t: Trigger)
    requires t in ts
    ensures TotalWeight(ts) >= t.Weight()
  {
    var init, last := ts[..|ts| - 1], ts[|ts| - 1];
    assert ts == init + [last];
    if t != last { WeightOfMember(init, t); }
  }

  // ---------------------------------------------------------------- containers

  predicate Reports(m: Sample, c: string) { m.container == Some(c) || (m.container == None && c == "unknown") }

  predicate Shows(m: Sample, c: string, e: Lifecycle) { Reports(m, c) && m.event == e }

  /** The samples of the container with this lifecycle event. */
  function Occurrences(ms: seq<Sample>, c: string, e: Lifecycle): set<nat> {
    set i | 0 <= i < |ms| && Shows(ms[i], c, e)
  }

  lemma {:induction false} OccurrencesStep(ms: seq<Sample>, c: string, e: Lifecycle)
    requires ms != []
    ensures var n := |ms| - 1;
            |Occurrences(ms, c, e)| == |Occurrences(ms[..n], c, e)| + if Shows(ms[n], c, e) then 1 else 0
  {
    OccurrencesNow(ms, c, e);
    var n := |ms| - 1;
    assert n !in Occurrences(ms[..n], c, e);
  }

  lemma {:induction false} OccurrencesNow(ms: seq<Sample>, c: string, e: Lifecycle)
    requires ms != []
    ensures var n := |ms| - 1;
            Occurrences(ms, c, e) == Occurrences(ms[..n], c, e) + if Shows(ms[n], c, e) then {n} else {}
  {
    var n := |ms| - 1;
    forall i | 0 <= i < n ensures ms[..n][i] == ms[i] { }
  }

  /** The container loop counts restarts and kills, and keeps the largest rate and destination count, from zero. */
  lemma {:induction false} UsageMeans(ms: seq<Sample>, c: string)
    ensures var u := UsageOf(ms, c);
            && u.restarts == |Occurrences(ms, c, Restart)| && u.ooms == |Occurrences(ms, c, Oom)|
            && u.pps >= 0.0 && u.uniqueDsts >= 0
            && (forall i :: 0 <= i < |ms| && Reports(ms[i], c) ==>
                  ms[i].pps <= u.pps && ms[i].uniqueDsts <= u.uniqueDsts)
            && (u.pps == 0.0 || exists i :: 0 <= i < |ms| && Reports(ms[i], c) && ms[i].pps == u.pps)
            && (u.uniqueDsts == 0 || exists i :: 0 <= i < |ms| && Reports(ms[i], c) && ms[i].uniqueDsts == u.uniqueDsts)
  {
    if ms != [] {
      var n := |ms| - 1;
      UsageMeans(ms[..n], c);
      OccurrencesStep(ms, c, Restart);
      OccurrencesStep(ms, c, Oom);
      assert forall i :: 0 <= i < n ==> ms[..n][i] == ms[i];
    }
  }

  lemma {:induction false} ContainerMembers(b: Baseline, u: Usage)
    ensures var ts := ContainerTriggers(b, u);
            && (RestartStorm in ts <==> u.restarts >= 5) && (OomKill in ts <==> u.ooms >= 2)
            && (ContainerPpsFlood in ts <==> u.pps >= 5000.0) && (ContainerPpsZScore in ts <==> Stands(b, u.pps))
            && (ContainerDstScan in ts <==> u.uniqueDsts >= 50)
  {
    DdosLaws.ContainerAlarmsMembers(
      u.restarts >= CONTAINER_RESTART_STORM, u.ooms >= CONTAINER_OOM_THRESHOLD,
      u.pps >= PPS_HARD_THRESHOLD, Stands(b, u.pps), u.uniqueDsts >= UNIQUE_DST_SCAN_THRESHOLD);
  }

  lemma {:induction false} SampleTriggersMean(bl: Baselines, ms: seq<Sample>, t: Trigger)
    ensures t in SampleTriggers(bl, ms) <==>
            exists c, i :: 0 <= i < |ms| && Reports(ms[i], c) && t in SampleJudge(bl, ms)(c)
  {
    GatherContainers(SampleJudge(bl, ms), ms, t);
  }

  lemma {:induction false} GatherContainers(judge: string -> seq<Trigger>, ms: seq<Sample>, t: Trigger)
    ensures t in Gather(judge, Containers(ms)) <==>
            exists c, i :: 0 <= i < |ms| && Reports(ms[i], c) && t in judge(c)
  {
    GatherFirstSeen(judge, Labels(ms), t);
    forall i, c | 0 <= i < |ms| ensures Reports(ms[i], c) <==> Labels(ms)[i] == c { }
  }

  /** Containers are found abusive exactly if one of them restarted five times or was killed twice for memory. */
  lemma {:induction false} AbuseMeans(bl: Baselines, ms: seq<Sample>)
    ensures Abuse(SampleTriggers(bl, ms)) <==>
            exists c :: |Occurrences(ms, c, Restart)| >= 5 || |Occurrences(ms, c, Oom)| >= 2
  {
    SampleTriggersMean(bl, ms, RestartStorm);
    SampleTriggersMean(bl, ms, OomKill);
    forall c
      ensures RestartStorm in SampleJudge(bl, ms)(c) <==> |Occurrences(ms, c, Restart)| >= 5
      ensures OomKill in SampleJudge(bl, ms)(c) <==> |Occurrences(ms, c, Oom)| >= 2
    {
      UsageMeans(ms, c);
      ContainerMembers(Look(bl, (c, PpsTx)), UsageOf(ms, c));
    }
    if c :| |Occurrences(ms, c, Restart)| >= 5 || |Occurrences(ms, c, Oom)| >= 2 {
      var e := if |Occurrences(ms, c, Restart)| >= 5 then Restart else Oom;
      var i :| i in Occurrences(ms, c, e);
      assert Reports(ms[i], c);
    }
  }

  // ---------------------------------------------------------------- what a window teaches

  predicate Seen(fs: seq<Flow>, h: string) { exists i :: 0 <= i < |fs| && Sent(fs[i], h) }

  predicate Sampled(ms: seq<Sample>, c: string) { exists i :: 0 <= i < |ms| && Reports(ms[i], c) }

  lemma {:induction false} NamesMean(fs: seq<Flow>, ms: seq<Sample>, name: string)
    ensures name in Hosts(fs) <==> Seen(fs, name)
    ensures name in Containers(ms) <==> Sampled(ms, name)
  {
    FirstSeenIsNames(Sources(fs));
    FirstSeenIsNames(Labels(ms));
    if name in Sources(fs) {
      var i :| 0 <= i < |fs| && Sources(fs)[i] == name;
      assert Sent(fs[i], name);
    }
    if i :| 0 <= i < |fs| && Sent(fs[i], name) { assert Sources(fs)[i] == name; }
    if name in Labels(ms) {
      var i :| 0 <= i < |ms| && Labels(ms)[i] == name;
      assert Reports(ms[i], name);
    }
    if i :| 0 <= i < |ms| && Reports(ms[i], name) { assert Labels(ms)[i] == name; }
  }

  /** An analysed window adds one sample under the packet key of a name for its flows, its packet sum, and then one for
      its container samples, their peak; and one under the byte key for its flows, its byte sum. */
  lemma {:induction false} WindowTeaches(ops: seq<DdosLaws.Op>, fs: seq<Flow>, ms: seq<Sample>, name: string)
    ensures var all := ops + [DdosLaws.Window(fs, ms)];
            && DdosLaws.Absorbed(all, (name, PpsTx)) ==
               DdosLaws.Absorbed(ops, (name, PpsTx)) + (if Seen(fs, name) then [Packets(fs, name)] else [])
               + (if Sampled(ms, name) then [UsageOf(ms, name).pps] else [])
            && DdosLaws.Absorbed(all, (name, BytesOut)) ==
               DdosLaws.Absorbed(ops, (name, BytesOut)) + if Seen(fs, name) then [Bytes(fs, name) as real] else []
  {
    assert (ops + [DdosLaws.Window(fs, ms)])[..|ops|] == ops;
    NamesMean(fs, ms, name);
    TotalsAreSums(fs, name);
  }
}
