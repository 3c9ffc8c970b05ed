/** When the intelligence loop triages a tenant, and on what, said of the tenant's consumed events alone. */
module IntelligenceLaws {
  import opened Common
  import opened IntelligenceLoop

  // ---------------------------------------------------------------- whose events

  /** An event concerns the tenant that it names, or `unknown` if it names none. */
  predicate Concerns(e: Event, t: Tenant) { e.tenant == Some(t) || (e.tenant == None && t == "unknown") }

  /** The events of a tenant are exactly those that concern it, in the order in which they were consumed. */
  lemma {:induction false} TenantPositions(cs: seq<Consumed>, t: Tenant) returns (at: seq<nat>)
    ensures Rising(at) && forall i :: i in at <==> 0 <= i < |cs| && Concerns(cs[i].event, t)
    ensures |OfTenant(cs, t)| == |at| && forall k :: 0 <= k < |at| ==> at[k] < |cs| && OfTenant(cs, t)[k] == cs[at[k]]
  {
    at := [];
    if cs != [] {
      var n := |cs| - 1;
      at := TenantPositions(cs[..n], t);
      assert forall k :: 0 <= k < |at| ==> at[k] in at;
      if Concerns(cs[n].event, t) {
        RisingAppend(at, n);
        at := at + [n];
      }
    }
  }

  // ---------------------------------------------------------------- what alarms

  /** The positions among the last 1000 events up to the i-th whose severity is one of these. */
  function Severe(cs: seq<Consumed>, i: nat, severities: set<string>): set<int> {
    set j | i - 1000 < j <= i && 0 <= j < |cs| && cs[j].event.severity in severities
  }

  predicate Alarming(cs: seq<Consumed>, i: nat) {
    |Severe(cs, i, {"WARNING", "WARN"})| >= 5 || |Severe(cs, i, {"CRITICAL", "ERROR"})| >= 2
  }

  /** The last 1000 events up to the i-th. */
  function Snapshot(cs: seq<Consumed>, i: nat): seq<Event>
    requires i < |cs|
  {
    Events(cs[if i < 1000 then 0 else i - 999..i + 1])
  }

  function Between(cs: seq<Consumed>, from: nat, to: nat, severities: set<string>): set<int>
    requires to <= |cs|
  {
    set j | from <= j < to && cs[j].event.severity in severities
  }

  lemma {:induction false} CountBetween(p: Event -> bool, cs: seq<Consumed>, from: nat, to: nat,
                                        severities: set<string>)
    requires from <= to <= |cs| && forall e :: p(e) <==> e.severity in severities
    ensures Count(p, Events(cs[from..to])) == |Between(cs, from, to, severities)|
  {
    if from < to {
      CountBetween(p, cs, from, to - 1, severities);
      EventsStep(cs, from, to - 1);
      CountAppend(p, Events(cs[from..to - 1]), cs[to - 1].event);
      BetweenStep(cs, from, to - 1, severities);
    } else {
      assert Events(cs[from..to]) == [];
      assert Between(cs, from, to, severities) == {};
    }
  }

  lemma {:induction false} EventsStep(cs: seq<Consumed>, from: nat, to: nat)
    requires from <= to < |cs|
    ensures Events(cs[from..to + 1]) == Events(cs[from..to]) + [cs[to].event]
  {
  }

  lemma {:induction false} BetweenStep(cs: seq<Consumed>, from: nat, to: nat, severities: set<string>)
    requires from <= to < |cs|
    ensures |Between(cs, from, to + 1, severities)| ==
            |Between(cs, from, to, severities)| + if cs[to].event.severity in severities then 1 else 0
  {
    assert Between(cs, from, to + 1, severities) ==
           Between(cs, from, to, severities) + if cs[to].event.severity in severities then {to} else {};
  }

  lemma {:induction false} CountAppend(p: Event -> bool, w: seq<Event>, e: Event)
    ensures Count(p, w + [e]) == Count(p, w) + if p(e) then 1 else 0
  {
    assert (w + [e])[..|w|] == w;
  }

  lemma {:induction false} CountSevere(p: Event -> bool, cs: seq<Consumed>, i: nat, severities: set<string>)
    requires i < |cs| && forall e :: p(e) <==> e.severity in severities
    ensures Count(p, Snapshot(cs, i)) == |Severe(cs, i, severities)|
  {
    var from := if i < 1000 then 0 else i - 999;
    CountBetween(p, cs, from, i + 1, severities);
    assert Between(cs, from, i + 1, severities) == Severe(cs, i, severities);
  }

  lemma {:induction false} AnomalousMeans(cs: seq<Consumed>, i: nat)
    requires i < |cs|
    ensures Anomalous(Snapshot(cs, i)) <==> Alarming(cs, i)
  {
    CountSevere(IsWarning, cs, i, {"WARNING", "WARN"});
    CountSevere(IsCritical, cs, i, {"CRITICAL", "ERROR"});
  }

  lemma {:induction false} WindowIsSnapshot(cs: seq<Consumed>)
    requires cs != []
    ensures SingleLoop(cs).window == Snapshot(cs, |cs| - 1)
  {
    WindowIsLastEvents(cs);
  }

  // ---------------------------------------------------------------- when it is triaged

  /** The clock reading of the last triage before the i-th event; zero if there was none. */
  function Previous(cs: seq<Consumed>, at: seq<nat>, i: nat): real
    requires forall k :: 0 <= k < |at| ==> at[k] < |cs|
  {
    if at == [] then 0.0
    else if at[|at| - 1] < i then cs[at[|at| - 1]].now
    else Previous(cs, at[..|at| - 1], i)
  }

  /** The triages of a tenant with the consumed events `cs`: at the positions `at`, on the window there. A position is
      triaged exactly if its window alarms and a minute has passed since the previous triage. */
  ghost predicate Lawful(cs: seq<Consumed>, at: seq<nat>, triages: seq<Triage>) {
    && Rising(at) && |at| == |triages| && (forall k :: 0 <= k < |at| ==> at[k] < |cs|)
    && (forall k :: 0 <= k < |at| ==> triages[k] == Triage(cs[at[k]].now, Snapshot(cs, at[k])))
    && (forall i :: 0 <= i < |cs| ==> (i in at <==> Due(cs, at, i)))
  }

  predicate Due(cs: seq<Consumed>, at: seq<nat>, i: nat)
    requires i < |cs| && forall k :: 0 <= k < |at| ==> at[k] < |cs|
  {
    Alarming(cs, i) && cs[i].now - Previous(cs, at, i) >= 60.0
  }

  lemma {:induction false} PreviousSame(cs: seq<Consumed>, more: seq<Consumed>, at: seq<nat>, i: nat)
    requires cs <= more && forall k :: 0 <= k < |at| ==> at[k] < |cs|
    ensures Previous(cs, at, i) == Previous(more, at, i)
  {
    if at != [] { PreviousSame(cs, more, at[..|at| - 1], i); }
  }

  lemma {:induction false} SameBefore(cs: seq<Consumed>, more: seq<Consumed>, i: nat)
    requires cs <= more && i < |cs|
    ensures Alarming(cs, i) <==> Alarming(more, i)
    ensures Snapshot(cs, i) == Snapshot(more, i)
  {
    assert Severe(cs, i, {"WARNING", "WARN"}) == Severe(more, i, {"WARNING", "WARN"});
    assert Severe(cs, i, {"CRITICAL", "ERROR"}) == Severe(more, i, {"CRITICAL", "ERROR"});
    var from := if i < 1000 then 0 else i - 999;
    assert cs[from..i + 1] == more[from..i + 1];
  }

  /** Later triages do not change whether an earlier one was due. */
  lemma {:induction false} DueBefore(cs: seq<Consumed>, c: Consumed, at: seq<nat>, i: nat)
    requires i <= |cs| && forall k :: 0 <= k < |at| ==> at[k] < |cs|
    ensures i < |cs| ==> (Due(cs + [c], at, i) <==> Due(cs, at, i))
    ensures Due(cs + [c], at + [|cs|], i) <==> Due(cs + [c], at, i)
  {
    var all := cs + [c];
    assert (at + [|cs|])[..|at|] == at;
    if i < |cs| {
      PreviousSame(cs, all, at, i);
      SameBefore(cs, all, i);
    }
  }

  lemma {:induction false} LawfulStep(cs: seq<Consumed>, at: seq<nat>, triages: seq<Triage>, c: Consumed)
    requires Lawful(cs, at, triages)
    ensures Due(cs + [c], at, |cs|) ==>
              Lawful(cs + [c], at + [|cs|], triages + [Triage(c.now, Snapshot(cs + [c], |cs|))])
    ensures !Due(cs + [c], at, |cs|) ==> Lawful(cs + [c], at, triages)
  {
    var n, all := |cs|, cs + [c];
    assert forall k :: 0 <= k < |at| ==> at[k] in at;
    RisingAppend(at, n);
    forall k | 0 <= k < |at| ensures triages[k] == Triage(all[at[k]].now, Snapshot(all, at[k])) {
      SameBefore(cs, all, at[k]);
    }
    forall i | 0 <= i <= n
      ensures i < n ==> (Due(all, at, i) <==> Due(cs, at, i))
      ensures Due(all, at + [n], i) <==> Due(all, at, i)
    {
      DueBefore(cs, c, at, i);
    }
  }

  lemma {:induction false} SingleLoopLaw(cs: seq<Consumed>) returns (at: seq<nat>)
    ensures Lawful(cs, at, SingleLoop(cs).triages) && SingleLoop(cs).last == Previous(cs, at, |cs|)
  {
    at := [];
    if cs != [] {
      var n := |cs| - 1;
      var init, c := cs[..n], cs[n];
      var before := SingleLoopLaw(init);
      assert cs == init + [c];
      WindowIsSnapshot(cs);
      AnomalousMeans(cs, n);
      PreviousSame(init, cs, before, n);
      at := if Due(cs, before, n) then before + [n] else before;
      LawfulStep(init, before, SingleLoop(init).triages, c);
      LastTriage(init, c, before, Due(cs, before, n));
    }
  }

  lemma {:induction false} LastTriage(cs: seq<Consumed>, c: Consumed, at: seq<nat>, due: bool)
    requires forall k :: 0 <= k < |at| ==> at[k] < |cs|
    ensures var all := cs + [c];
            if due then Previous(all, at + [|cs|], |all|) == c.now
            else Previous(all, at, |all|) == Previous(cs, at, |cs|)
  {
    if !due && at != [] { assert (cs + [c])[at[|at| - 1]] == cs[at[|at| - 1]]; }
  }

  /** Over every run and for every tenant: which of its consumed events are triaged, and on which window. */
  lemma {:induction false} TriageLaw(ops: seq<Op>, t: Tenant) returns (at: seq<nat>)
    ensures Lawful(OfTenant(Run(ops).1, t), at, Run(ops).0.At(t).triages)
  {
    ProjectionOntoTenant(ops, t);
    at := SingleLoopLaw(OfTenant(Run(ops).1, t));
  }
}
