/** Containment governance: what the triage coordinator may propose, and what the audit ledger says of it. */
module Containment {
  import opened Common
  import Ddos
  import DdosLaws
  import Ewma

  const CRITICAL_INFRASTRUCTURE_IPS: set<string> := {"192.168.1.1", "127.0.0.1", "192.168.1.50"}
  const DEFAULT_TARGET: string := "192.168.1.105"

  datatype Risk = ReadOnly | LowImpactWrite | HighImpactWrite | Destructive | Blocked

  datatype Decision = Allowed | PendingHumanApproval

  datatype Safety = Safety(permitted: bool, risk: Risk)

  predicate RouterAction(action: string) {
    action in {"modify_router_firmware", "modify_router_config", "modify_dns_server", "flash_router", "reboot_router"}
  }

  function EvaluateContainmentSafety(action: string, target: string): Safety {
    if target in CRITICAL_INFRASTRUCTURE_IPS then Safety(false, Blocked)
    else if RouterAction(action) then Safety(false, Blocked)
    else if action in {"isolate_host", "isolate_lan_client"} then Safety(true, Destructive)
    else if action in {"throttle_container_network", "pause_container", "resume_container"} then
      if target in CRITICAL_INFRASTRUCTURE_IPS then Safety(false, Blocked) else Safety(true, Destructive)
    else Safety(true, LowImpactWrite)
  }

  /** The policy decision recorded in the ledger. */
  function PolicyDecision(risk: Risk): Decision {
    if risk in {ReadOnly, LowImpactWrite} then Allowed else PendingHumanApproval
  }

  /** Governance and audit together: what may be proposed at all, and what the ledger lets through unapproved. */
  lemma OnlyHarmlessActionsPassUnapproved(action: string, target: string)
    ensures var s := EvaluateContainmentSafety(action, target);
            && (s.permitted <==>
                  && target !in {"192.168.1.1", "127.0.0.1", "192.168.1.50"}
                  && action !in {"modify_router_firmware", "modify_router_config", "modify_dns_server",
                                 "flash_router", "reboot_router"})
            && (PolicyDecision(s.risk) == Allowed <==>
                  && s.permitted
                  && action !in {"isolate_host", "isolate_lan_client",
                                 "throttle_container_network", "pause_container", "resume_container"})
  {
  }

  // ---------------------------------------------------------------- forensics

  datatype Category = KnownC2 | MalwareHost | OtherCategory

  datatype Telemetry = Telemetry(source: string, destination: string, application: string,
                                 bytesOut: int, bytesIn: int, category: Category)

  predicate Contains(s: string, word: string) { exists i :: 0 <= i <= |s| && word <= s[i..] }

  /** `application` is in lower case. */
  predicate RouterDrop(t: Telemetry) { Contains(t.application, "drop") || Contains(t.application, "block") }

  function Asymmetry(bytesOut: int, bytesIn: int): real {
    if bytesOut > 0 && bytesIn > 0 then bytesOut as real / bytesIn as real
    else if bytesOut > 50000 && bytesIn == 0 then 100.0
    else 1.0
  }

  predicate ExfiltrationRisk(t: Telemetry) {
    var ratio := Asymmetry(t.bytesOut, t.bytesIn);
    || ratio >= 50.0
    || (ratio >= 10.0 && (t.category in {KnownC2, MalwareHost} || t.bytesOut >= 100000))
    || t.category in {KnownC2, MalwareHost}
  }

  lemma RatioReaches(a: int, b: int, k: int)
    requires b > 0
    ensures a as real / b as real >= k as real <==> a >= k * b
  {
    var q := a as real / b as real;
    assert q * b as real == a as real;
    assert (k * b) as real == k as real * b as real;
    if q >= k as real {
      assert q * b as real >= k as real * b as real;
    } else {
      assert q * b as real < k as real * b as real;
    }
  }

  /** The risk in whole bytes: a bad domain, or an outflow that is one-sided enough for its size. */
  lemma ExfiltrationInBytes(t: Telemetry)
    ensures ExfiltrationRisk(t) <==>
            || t.category in {KnownC2, MalwareHost}
            || (t.bytesIn == 0 && t.bytesOut > 50000)
            || (t.bytesIn > 0 && t.bytesOut >= 50 * t.bytesIn)
            || (t.bytesIn > 0 && t.bytesOut >= 10 * t.bytesIn && t.bytesOut >= 100000)
  {
    if t.bytesIn > 0 {
      RatioReaches(t.bytesOut, t.bytesIn, 50);
      RatioReaches(t.bytesOut, t.bytesIn, 10);
    }
  }

  // ---------------------------------------------------------------- the ledger

  datatype Action = Action(action: string, target: string, risk: Risk)

  datatype Entry = Entry(context: Action, decision: Decision)

  class AuditLedger {
    var entries: seq<Entry>

    constructor ()
      ensures entries == []
    {
      entries := [];
    }

    method Append(context: Action, risk: Risk)
      modifies this
      ensures entries == old(entries) + [Entry(context, PolicyDecision(risk))]
    {
      entries := entries + [Entry(context, PolicyDecision(risk))];
    }
  }

  /** One entry for each action, in the same order, all awaiting a human. */
  function Pending(actions: seq<Action>): seq<Entry> {
    seq(|actions|, i requires 0 <= i < |actions| => Entry(actions[i], PendingHumanApproval))
  }

  // ---------------------------------------------------------------- triage

  /** A detector finding; `throttle` is a container-abuse category with the matching recommendation. */
  datatype Finding = Finding(source: string, throttle: bool)

  datatype Triage = Triage(truePositive: bool, confidence: int, target: string, proposed: seq<Action>)

  predicate Threat(t: Telemetry, rat: Option<Finding>, ddos: Option<Finding>) {
    RouterDrop(t) || ExfiltrationRisk(t) || rat.Some? || ddos.Some?
  }

  function TargetOf(t: Telemetry): string {
    var ip := if RouterDrop(t) then t.destination else t.source;
    if ip == "" then DEFAULT_TARGET else ip
  }

  predicate MentionsAt(t: Telemetry, word: string, i: nat) {
    i + |word| <= |t.application| && t.application[i..i + |word|] == word
  }

  /** The application mentions the word. */
  ghost predicate Mentions(t: Telemetry, word: string) { exists i: nat :: MentionsAt(t, word, i) }

  lemma ContainsMeans(t: Telemetry, word: string)
    ensures Contains(t.application, word) <==> Mentions(t, word)
  {
    var s := t.application;
    if Contains(s, word) {
      var i :| 0 <= i <= |s| && word <= s[i..];
      assert s[i..i + |word|] == s[i..][..|word|];
      assert MentionsAt(t, word, i);
    }
    if i: nat :| MentionsAt(t, word, i) {
      assert s[i..][..|word|] == s[i..i + |word|];
      assert word <= s[i..];
    }
  }

  /** Whom triage is about, said of the telemetry alone: the destination of a flow that the router dropped or blocked,
      and otherwise its source; 192.168.1.105 if that address is missing. */
  ghost predicate IsTarget(t: Telemetry, target: string) {
    var address := if Mentions(t, "drop") || Mentions(t, "block") then t.destination else t.source;
    target == if address == "" then "192.168.1.105" else address
  }

  lemma TargetMeans(t: Telemetry)
    ensures IsTarget(t, TargetOf(t))
  {
    ContainsMeans(t, "drop");
    ContainsMeans(t, "block");
  }

  predicate MayTouch(a: Action) { a.target !in CRITICAL_INFRASTRUCTURE_IPS && a.risk == Destructive }

  /** The throttles that findings call for, protected addresses left out. */
  function Throttles(findings: seq<Finding>): seq<Action> {
    if findings == [] then []
    else
      var init, f := Throttles(findings[..|findings| - 1]), findings[|findings| - 1];
      if f.throttle && f.source !in CRITICAL_INFRASTRUCTURE_IPS
      then init + [Action("throttle_container_network", f.source, Destructive)]
      else init
  }

  function Isolation(target: string): seq<Action> {
    if target in CRITICAL_INFRASTRUCTURE_IPS then [] else [Action("isolate_lan_client", target, Destructive)]
  }

  function FindingsOf(rat: Option<Finding>, ddos: Option<Finding>): seq<Finding> {
    (if rat.Some? then [rat.value] else []) + (if ddos.Some? then [ddos.value] else [])
  }

  lemma {:induction false} ThrottlesMayTouch(findings: seq<Finding>)
    ensures forall a :: a in Throttles(findings) ==> MayTouch(a)
  {
    if findings != [] { ThrottlesMayTouch(findings[..|findings| - 1]); }
  }

  /** Proposes one action if governance permits it, and files it. */
  method Propose(ledger: AuditLedger, action: string, target: string, proposed: seq<Action>)
    returns (proposed': seq<Action>)
    requires action == "isolate_lan_client" || action == "throttle_container_network"
    modifies ledger
    ensures proposed' == (if target in CRITICAL_INFRASTRUCTURE_IPS then proposed
                          else proposed + [Action(action, target, Destructive)])
    ensures ledger.entries == old(ledger.entries) + Pending(proposed'[|proposed|..])
  {
    var safety := EvaluateContainmentSafety(action, target);
    proposed' := proposed;
    if safety.permitted {
      var record := Action(action, target, safety.risk);
      proposed' := proposed + [record];
      ledger.Append(record, safety.risk);
    }
  }

  /** The decision part of triage, for every telemetry and every outcome of the two detectors. */
  method ExecuteTriage(ledger: AuditLedger, t: Telemetry, rat: Option<Finding>, ddos: Option<Finding>)
    returns (r: Triage)
    modifies ledger
    ensures r.truePositive <==> Threat(t, rat, ddos)
    ensures r.confidence ==
            if RouterDrop(t) || ExfiltrationRisk(t) then 94 else if rat.Some? then 90 else if ddos.Some? then 88 else 72
    ensures forall a :: a in r.proposed ==>
              a.target !in {"192.168.1.1", "127.0.0.1", "192.168.1.50"} && a.risk == Destructive
    ensures r.target == TargetOf(t) && IsTarget(t, r.target) && IsolatesOnly(r)
    ensures r.proposed == if Threat(t, rat, ddos) then Isolation(TargetOf(t)) + Throttles(FindingsOf(rat, ddos)) else []
    ensures ledger.entries == old(ledger.entries) + Pending(r.proposed)
  {
    var drop, exfiltration := RouterDrop(t), ExfiltrationRisk(t);
    var threat, confidence, findings := Escalate(drop || exfiltration, rat, ddos);
    var target := if drop then t.destination else t.source;
    if target == "" { target := DEFAULT_TARGET; }
    var proposed: seq<Action> := [];
    if threat {
      proposed := Contain(ledger, target, findings);
    }
    r := Triage(threat, confidence, target, proposed);
    TargetMeans(t);
    if threat { OnlyThrottles(findings); }
  }

  /** A true positive on an unprotected target isolates it, first and once; nothing else is ever isolated. */
  predicate IsolatesOnly(r: Triage) {
    var due := r.truePositive && r.target !in {"192.168.1.1", "127.0.0.1", "192.168.1.50"};
    && (due ==> r.proposed != [] && r.proposed[0].action == "isolate_lan_client" && r.proposed[0].target == r.target)
    && (forall k :: 0 <= k < |r.proposed| && r.proposed[k].action == "isolate_lan_client" ==> due && k == 0)
  }

  lemma {:induction false} OnlyThrottles(findings: seq<Finding>)
    ensures forall a :: a in Throttles(findings) ==> a.action == "throttle_container_network"
    ensures forall k :: 0 <= k < |Throttles(findings)| ==> Throttles(findings)[k].action == "throttle_container_network"
  {
    if findings != [] { OnlyThrottles(findings[..|findings| - 1]); }
  }

  /** The verdict of the flow itself, escalated by each detector. */
  method Escalate(suspicious: bool, rat: Option<Finding>, ddos: Option<Finding>)
    returns (threat: bool, confidence: int, findings: seq<Finding>)
    ensures threat <==> suspicious || rat.Some? || ddos.Some?
    ensures confidence == if suspicious then 94 else if rat.Some? then 90 else if ddos.Some? then 88 else 72
    ensures findings == FindingsOf(rat, ddos)
  {
    threat, findings := suspicious, [];
    confidence := if threat then 94 else 72;
    if rat.Some? {
      findings, threat := findings + [rat.value], true;
      if confidence < 90 { confidence := 90; }
    }
    if ddos.Some? {
      findings, threat := findings + [ddos.value], true;
      if confidence < 88 { confidence := 88; }
    }
  }

  method Contain(ledger: AuditLedger, target: string, findings: seq<Finding>) returns (proposed: seq<Action>)
    modifies ledger
    ensures proposed == Isolation(target) + Throttles(findings)
    ensures ledger.entries == old(ledger.entries) + Pending(proposed)
    ensures forall a :: a in proposed ==> MayTouch(a)
  {
    proposed := Propose(ledger, "isolate_lan_client", target, []);
    assert proposed == Isolation(target);
    proposed := ProposeThrottles(ledger, findings, proposed);
    PendingConcat(Isolation(target), Throttles(findings));
    ThrottlesMayTouch(findings);
  }

  lemma PendingConcat(a: seq<Action>, b: seq<Action>)
    ensures Pending(a + b) == Pending(a) + Pending(b)
  {
  }

  /** The loop over the detector findings. */
  method ProposeThrottles(ledger: AuditLedger, findings: seq<Finding>, proposed: seq<Action>)
    returns (proposed': seq<Action>)
    modifies ledger
    ensures proposed' == proposed + Throttles(findings)
    ensures ledger.entries == old(ledger.entries) + Pending(Throttles(findings))
  {
    proposed' := proposed;
    for i := 0 to |findings|
      invariant proposed' == proposed + Throttles(findings[..i])
      invariant ledger.entries == old(ledger.entries) + Pending(Throttles(findings[..i]))
    {
      assert findings[..i + 1][..i] == findings[..i];
      if findings[i].throttle {
        proposed' := Propose(ledger, "throttle_container_network", findings[i].source, proposed');
      }
    }
    assert findings[..|findings|] == findings;
  }

  // ---------------------------------------------------------------- whom a throttle names

  /** The flows that triage hands to the detectors: its own telemetry, if that names a source. */
  function DetectorFlows(t: Telemetry, pps: real): seq<Ddos.Flow> {
    if t.source == "" then [] else [Ddos.Flow(Some(t.source), t.destination, t.bytesOut, pps)]
  }

  function AsFinding(f: Option<Ddos.Finding>): Option<Finding> {
    if f.None? then None
    else Some(Finding(f.value.source, f.value.containerAbuse && f.value.remedy.ThrottleContainer?))
  }

  /** The source of the telemetry; if it names none, the first container sampled. */
  function Blamed(t: Telemetry, ms: seq<Ddos.Sample>): string {
    if t.source != "" then t.source
    else if ms == [] then "unknown"
    else if ms[0].container.Some? then ms[0].container.value
    else "unknown-container"
  }

  lemma SourceIsBlamed(t: Telemetry, pps: real, ms: seq<Ddos.Sample>, source: string)
    requires Ddos.IsPrimarySource(DetectorFlows(t, pps), ms, source)
    ensures source == Blamed(t, ms)
  {
    if t.source != "" { OnlySource(DetectorFlows(t, pps)[0], ms, source); }
  }

  lemma OnlySource(f: Ddos.Flow, ms: seq<Ddos.Sample>, source: string)
    requires f.source.Some? && f.source.value != "" && Ddos.IsPrimarySource([f], ms, source)
    ensures source == f.source.value
  {
    assert [f][..0] == [];
    assert Ddos.Given([f][..0]) == [];
    assert Ddos.Given([f]) == [f.source.value];
    FirstSeenIsNames([f.source.value]);
    assert source in FirstSeen([f.source.value]);
  }

  /** A container whose samples show restarts or out-of-memory kills makes the detector report abuse. */
  ghost predicate AbuseFound(bl: Ddos.Baselines, t: Telemetry, pps: real, ms: seq<Ddos.Sample>, threshold: int) {
    var fs := DetectorFlows(t, pps);
    && Ddos.Score(bl, fs, ms) >= threshold
    && Ddos.Abuse(Ddos.SampleTriggers(Ddos.FlowBaselines(bl, fs), ms))
  }

  /** What triage proposes to throttle. */
  function ThrottleOf(target: string): seq<Action> {
    if target in CRITICAL_INFRASTRUCTURE_IPS then []
    else [Action("throttle_container_network", target, Destructive)]
  }

  lemma OneThrottle(rat: Option<Finding>, f: Finding)
    requires rat.Some? ==> !rat.value.throttle
    ensures Throttles(FindingsOf(rat, None)) == []
    ensures Throttles(FindingsOf(rat, Some(f))) == if f.throttle then ThrottleOf(f.source) else []
  {
    var before, all := FindingsOf(rat, None), FindingsOf(rat, Some(f));
    assert before[..0] == [] && all == before + [f] && all[..|before|] == before;
    assert Throttles(before) == [];
  }

  /** Triage with the DDoS detector in it, on the telemetry at hand. A container throttle is proposed exactly if the
      detector finds abuse, and it names the source of the telemetry rather than the container, unless there is none.
      A finding of the RAT detector never asks for a throttle. */
  method TriageWithDetector(ledger: AuditLedger, detector: Ddos.DDoSDetector, t: Telemetry, pps: real,
                            ms: seq<Ddos.Sample>, rat: Option<Finding>)
    returns (r: Triage)
    requires detector.Valid() && (rat.Some? ==> !rat.value.throttle)
    modifies ledger, detector, detector.repr
    ensures detector.Valid()
    ensures var abuse := AbuseFound(old(detector.learned), t, pps, ms, detector.scoreThreshold);
            var found := Ddos.Score(old(detector.learned), DetectorFlows(t, pps), ms) >= detector.scoreThreshold;
            && r.truePositive == (RouterDrop(t) || ExfiltrationRisk(t) || rat.Some? || found)
            && IsTarget(t, r.target) && IsolatesOnly(r)
            && (r.truePositive ==>
                  r.proposed == Isolation(r.target) + if abuse then ThrottleOf(Blamed(t, ms)) else [])
    ensures !r.truePositive ==> r.proposed == []
    ensures ledger.entries == old(ledger.entries) + Pending(r.proposed)
  {
    var ddos := RunDetector(detector, t, pps, ms);
    r := ExecuteTriage(ledger, t, rat, ddos);
    OneThrottle(rat, if ddos.Some? then ddos.value else Finding("", false));
  }

  /** The DDoS detector on the telemetry at hand. */
  method RunDetector(detector: Ddos.DDoSDetector, t: Telemetry, pps: real, ms: seq<Ddos.Sample>)
    returns (ddos: Option<Finding>)
    requires detector.Valid()
    modifies detector, detector.repr
    ensures detector.Valid()
    ensures ddos.Some? <==>
            Ddos.Score(old(detector.learned), DetectorFlows(t, pps), ms) >= detector.scoreThreshold
    ensures ddos.Some? ==>
      && ddos.value.source == Blamed(t, ms)
      && ddos.value.throttle == AbuseFound(old(detector.learned), t, pps, ms, detector.scoreThreshold)
  {
    var finding := detector.Analyze(DetectorFlows(t, pps), ms);
    ddos := AsFinding(finding);
    if finding.Some? { SourceIsBlamed(t, pps, ms, finding.value.source); }
  }

  /** For example, five restarts of a container while the host it runs on sends 5000 packets per second: the deployed
      detector finds abuse by the container, and triage proposes to throttle the host. */
  lemma HostIsThrottledForContainer(host: string, container: string, application: string, bytesIn: int, c: Category)
    requires host != "" && host !in CRITICAL_INFRASTRUCTURE_IPS
    ensures var t := Telemetry(host, "", application, 0, bytesIn, c);
            var ms := DdosLaws.Repeat(Ddos.Sample(Some(container), Ddos.Restart, 0.0, 0), 5);
            && AbuseFound(map[], t, 5000.0, ms, 60)
            && ThrottleOf(Blamed(t, ms)) == [Action("throttle_container_network", host, Destructive)]
  {
    DdosLaws.EvidenceMayHideTheFlood(host, container);
    var fs, m := [Ddos.Flow(Some(host), "", 0, 5000.0)], Ddos.Sample(Some(container), Ddos.Restart, 0.0, 0);
    var bl := Ddos.FlowBaselines(map[], fs);
    DdosLaws.RepeatedSample(bl, m, 5);
    RestartsAreAbuse(Ddos.Look(bl, (container, Ddos.PpsTx)), Ddos.Usage(5, 0, 0.0, 0));
  }

  lemma RestartsAreAbuse(b: Ewma.Baseline, u: Ddos.Usage)
    requires u.restarts >= Ddos.CONTAINER_RESTART_STORM
    ensures Ddos.Abuse(Ddos.ContainerTriggers(b, u))
  {
    var z, scan := Ddos.Stands(b, u.pps), u.uniqueDsts >= Ddos.UNIQUE_DST_SCAN_THRESHOLD;
    StormIsAbuse(u.ooms >= Ddos.CONTAINER_OOM_THRESHOLD, u.pps >= Ddos.PPS_HARD_THRESHOLD, z, scan);
  }

  lemma StormIsAbuse(oom: bool, hard: bool, z: bool, scan: bool)
    ensures Ddos.Abuse(Ddos.ContainerAlarms(true, oom, hard, z, scan))
  {
    assert Ddos.ContainerAlarms(true, oom, hard, z, scan)[0] == Ddos.RestartStorm;
  }
}
