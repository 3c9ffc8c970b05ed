/** The task protocol between the hub and its agents: assignment, the optional webhook push, polling,
    execution and result submission, with every message free to be lost or overtaken. */
module TaskDispatch {
  import opened Common

  type Eid = nat
  type TaskId = nat

  const MAX_TASKS: nat := 10

  datatype Status = Pending | Done(success: bool)

  datatype Task = Task(endpoint: Eid, requestedAt: int, status: Status)

  // ---------------------------------------------------------------- the hub's queries

  function PendingOf(tasks: seq<Task>, e: Eid): set<TaskId> {
    set t | 0 <= t < |tasks| && tasks[t].endpoint == e && tasks[t].status == Pending
  }

  /** `r` is an answer to the poll query: the oldest pending tasks of `e`, in order, up to the limit. */
  ghost predicate OldestPending(tasks: seq<Task>, e: Eid, limit: nat, r: seq<TaskId>) {
    && Distinct(r)
    && (forall t :: t in r ==> t in PendingOf(tasks, e))
    && |r| == Min(limit, |PendingOf(tasks, e)|)
    && (forall i, j :: 0 <= i < j < |r| ==>
          r[i] < |tasks| && r[j] < |tasks| && tasks[r[i]].requestedAt <= tasks[r[j]].requestedAt)
    && (forall t, u :: t in r && u in PendingOf(tasks, e) && u !in r ==> tasks[t].requestedAt <= tasks[u].requestedAt)
  }

  /** `r` lists the tasks of `ids`, each once, from the oldest to the newest. */
  ghost predicate Lists(tasks: seq<Task>, ids: set<TaskId>, r: seq<TaskId>) {
    && Distinct(r)
    && (forall t :: t in r <==> t in ids)
    && (forall i :: 0 <= i < |r| ==> r[i] < |tasks|)
    && (forall i, j :: 0 <= i < j < |r| ==> tasks[r[i]].requestedAt <= tasks[r[j]].requestedAt)
  }

  /** Puts task `t` behind everything that is not newer. */
  function Place(tasks: seq<Task>, r: seq<TaskId>, t: TaskId): seq<TaskId>
    requires t < |tasks| && forall i :: 0 <= i < |r| ==> r[i] < |tasks|
  {
    if r == [] || tasks[r[|r| - 1]].requestedAt <= tasks[t].requestedAt then r + [t]
    else Place(tasks, r[..|r| - 1], t) + [r[|r| - 1]]
  }

  lemma ListsInit(tasks: seq<Task>, ids: set<TaskId>, r: seq<TaskId>)
    requires Lists(tasks, ids, r) && r != []
    ensures Lists(tasks, ids - {r[|r| - 1]}, r[..|r| - 1])
  {
    assert r == r[..|r| - 1] + [r[|r| - 1]];
  }

  lemma ListsAppend(tasks: seq<Task>, ids: set<TaskId>, r: seq<TaskId>, t: TaskId)
    requires Lists(tasks, ids, r) && t !in ids && t < |tasks|
    requires forall u :: u in r ==> u < |tasks| && tasks[u].requestedAt <= tasks[t].requestedAt
    ensures Lists(tasks, ids + {t}, r + [t])
  {
    forall i | 0 <= i < |r| ensures r[i] != t && tasks[r[i]].requestedAt <= tasks[t].requestedAt { assert r[i] in r; }
  }

  lemma {:induction false} PlaceLists(tasks: seq<Task>, ids: set<TaskId>, r: seq<TaskId>, t: TaskId)
    requires Lists(tasks, ids, r) && t !in ids && t < |tasks|
    ensures Lists(tasks, ids + {t}, Place(tasks, r, t))
  {
    if r == [] || tasks[r[|r| - 1]].requestedAt <= tasks[t].requestedAt {
      ListsAppend(tasks, ids, r, t);
    } else {
      var last := r[|r| - 1];
      ListsInit(tasks, ids, r);
      PlaceLists(tasks, ids - {last}, r[..|r| - 1], t);
      assert last in r;
      var front := Place(tasks, r[..|r| - 1], t);
      forall u | u in front ensures u < |tasks| && tasks[u].requestedAt <= tasks[last].requestedAt {
        if u != t { assert u in r[..|r| - 1]; }
      }
      ListsAppend(tasks, ids - {last} + {t}, front, last);
      assert ids - {last} + {t} + {last} == ids + {t};
    }
  }

  /** The poll query: pending rows of the endpoint, ordered by request time, cut at the limit. */
  method SelectPending(tasks: seq<Task>, e: Eid, limit: nat) returns (r: seq<TaskId>)
    ensures OldestPending(tasks, e, limit, r)
  {
    r := [];
    ghost var ids: set<TaskId> := {};
    for i := 0 to |tasks|
      invariant Lists(tasks, ids, r)
      invariant ids == set t | t in PendingOf(tasks, e) && t < i
    {
      if tasks[i].endpoint == e && tasks[i].status == Pending {
        PlaceLists(tasks, ids, r, i);
        r, ids := Place(tasks, r, i), ids + {i};
      }
    }
    assert ids == PendingOf(tasks, e);
    CutIsOldest(tasks, e, limit, r);
    r := r[..Min(limit, |r|)];
  }

  lemma CutIsOldest(tasks: seq<Task>, e: Eid, limit: nat, r: seq<TaskId>)
    requires Lists(tasks, PendingOf(tasks, e), r)
    ensures OldestPending(tasks, e, limit, r[..Min(limit, |r|)])
  {
    var cut := r[..Min(limit, |r|)];
    SizeOf(r);
    assert Elements(r) == PendingOf(tasks, e);
    forall t | t in cut ensures t in r { }
    forall t, u | t in cut && u in PendingOf(tasks, e) && u !in cut
      ensures tasks[t].requestedAt <= tasks[u].requestedAt
    {
      assert u in r;
      var i :| 0 <= i < |cut| && cut[i] == t;
      var j :| 0 <= j < |r| && r[j] == u;
    }
  }

  function Elements(r: seq<TaskId>): set<TaskId> { set t | t in r }

  lemma {:induction false} SizeOf(r: seq<TaskId>)
    requires Distinct(r)
    ensures |Elements(r)| == |r|
  {
    if r != [] {
      var init, last := r[..|r| - 1], r[|r| - 1];
      SizeOf(init);
      assert r == init + [last];
      assert Elements(r) == Elements(init) + {last};
    }
  }

  /** The update of a result submission: it writes whatever status it is given, but touches the row only if that
      belongs to the caller. */
  function Submitted(tasks: seq<Task>, e: Eid, t: TaskId, status: Status): seq<Task> {
    if t < |tasks| && tasks[t].endpoint == e then tasks[t := tasks[t].(status := status)] else tasks
  }

  /** No request made with another endpoint's credentials changes a task. */
  lemma OnlyOwnTasksChange(tasks: seq<Task>, e: Eid, t: TaskId, status: Status, u: TaskId)
    requires u < |tasks| && tasks[u].endpoint != e
    ensures |Submitted(tasks, e, t, status)| == |tasks| && Submitted(tasks, e, t, status)[u] == tasks[u]
  {
  }

  // ---------------------------------------------------------------- the composed system

  /** `todo` is what the last poll returned and is still to be executed, `result` an outcome that is
      still to be submitted. */
  datatype Agent = Agent(todo: seq<TaskId>, result: Option<(TaskId, bool)>)

  /** `pushed` holds the webhook calls under way, with the agent's answer once it has executed. Two histories:
      `executed`, who executed what with which outcome, and `word`, the status last reported out of turn by the owner
      of a task. */
  datatype State = State(tasks: seq<Task>, pushed: map<TaskId, Option<bool>>, agents: map<Eid, Agent>,
                         executed: seq<(Eid, TaskId, bool)>, word: map<TaskId, Status>)
  {
    /** The endpoint executed the task, with this outcome, or with any. */
    predicate RanWith(e: Eid, t: TaskId, ok: bool) { (e, t, ok) in executed }

    predicate Ran(e: Eid, t: TaskId) { RanWith(e, t, true) || RanWith(e, t, false) }

    function Word(t: TaskId): Status { if t in word then word[t] else Pending }

    function AgentOf(e: Eid): Agent { if e in agents then agents[e] else Agent([], None) }
  }

  datatype Action =
    | Assign(e: Eid, now: int, tunnel: bool)
    | PushExecute(t: TaskId, ok: bool)
    | PushAnswer(t: TaskId)
    | PushFail(t: TaskId)
    | Poll(e: Eid, r: seq<TaskId>)
    | Execute(e: Eid, ok: bool)
    | Submit(e: Eid, delivered: bool)
    | Claim(e: Eid, t: TaskId, status: Status)

  ghost predicate Enabled(st: State, a: Action) {
    match a
    case Assign(e, now, tunnel) => true
    case PushExecute(t, ok) => t < |st.tasks| && t in st.pushed && st.pushed[t].None?
    case PushAnswer(t) => t < |st.tasks| && t in st.pushed && st.pushed[t].Some?
    case PushFail(t) => t in st.pushed
    case Poll(e, r) => st.AgentOf(e) == Agent([], None) && OldestPending(st.tasks, e, MAX_TASKS, r)
    case Execute(e, ok) => st.AgentOf(e).todo != [] && st.AgentOf(e).result.None?
    case Submit(e, delivered) => st.AgentOf(e).result.Some?
    case Claim(e, t, status) => true
  }

  /** The webhook reaches the endpoint the task was assigned to. A submission that is not delivered
      is only logged by the agent, which goes on with the next task. A claim is any authenticated endpoint posting
      any status for any task; what it changes is up to the hub. */
  ghost function Step(st: State, a: Action): State
    requires Enabled(st, a)
  {
    match a
    case Assign(e, now, tunnel) =>
      st.(tasks := st.tasks + [Task(e, now, Pending)],
          pushed := if tunnel then st.pushed[|st.tasks| := None] else st.pushed)
    case PushExecute(t, ok) =>
      st.(pushed := st.pushed[t := Some(ok)], executed := st.executed + [(st.tasks[t].endpoint, t, ok)])
    case PushAnswer(t) =>
      st.(tasks := st.tasks[t := st.tasks[t].(status := Done(st.pushed[t].value))], pushed := st.pushed - {t})
    case PushFail(t) => st.(pushed := st.pushed - {t})
    case Poll(e, r) => st.(agents := st.agents[e := Agent(r, None)])
    case Execute(e, ok) =>
      var g := st.AgentOf(e);
      st.(agents := st.agents[e := Agent(g.todo[1..], Some((g.todo[0], ok)))],
          executed := st.executed + [(e, g.todo[0], ok)])
    case Submit(e, delivered) =>
      var g := st.AgentOf(e);
      st.(agents := st.agents[e := g.(result := None)],
          tasks := if delivered then Submitted(st.tasks, e, g.result.value.0, Done(g.result.value.1)) else st.tasks)
    case Claim(e, t, status) =>
      st.(tasks := Submitted(st.tasks, e, t, status),
          word := if Mine(st.tasks, e, t) then st.word[t := status] else st.word)
  }

  ghost function Try(st: State, a: Action): State { if Enabled(st, a) then Step(st, a) else st }

  ghost function RunFrom(st: State, acts: seq<Action>): State
    decreases acts
  {
    if acts == [] then st else RunFrom(Try(st, acts[0]), acts[1..])
  }

  const EMPTY := State([], map[], map[], [], map[])

  lemma {:induction false} RunFromConcat(st: State, a: seq<Action>, b: seq<Action>)
    ensures RunFrom(st, a + b) == RunFrom(RunFrom(st, a), b)
    decreases a
  {
    if a == [] {
      assert a + b == b;
    } else {
      RunFromConcat(Try(st, a[0]), a[1..], b);
      assert (a + b)[0] == a[0] && (a + b)[1..] == a[1..] + b;
    }
  }

  // ---------------------------------------------------------------- execution before completion

  predicate Mine(tasks: seq<Task>, e: Eid, t: TaskId) { t < |tasks| && tasks[t].endpoint == e }

  /** A task shows its owner's last word, or the outcome of an execution by its owner. */
  predicate Shows(st: State, t: TaskId)
    requires t < |st.tasks|
  {
    var task := st.tasks[t];
    task.status == st.Word(t) || (task.status.Done? && st.RanWith(task.endpoint, t, task.status.success))
  }

  ghost predicate ShowsWord(st: State) {
    && (forall t :: 0 <= t < |st.tasks| ==> Shows(st, t))
    && (forall t :: t in st.word ==> t < |st.tasks|)
  }

  /** A webhook answers only after execution. */
  ghost predicate PushesExecuted(st: State) {
    forall t :: t in st.pushed ==>
      t < |st.tasks| && (st.pushed[t].Some? ==> st.RanWith(st.tasks[t].endpoint, t, st.pushed[t].value))
  }

  /** Agents hold only tasks of their own, and results only of what they executed. */
  ghost predicate AgentsHonest(st: State) {
    && (forall e, t :: t in st.AgentOf(e).todo ==> Mine(st.tasks, e, t))
    && (forall e: Eid :: st.AgentOf(e).result.Some? ==>
          var (t, ok) := st.AgentOf(e).result.value; Mine(st.tasks, e, t) && st.RanWith(e, t, ok))
  }

  ghost predicate Inv(st: State) {
    && ShowsWord(st) && PushesExecuted(st) && AgentsHonest(st)
    && (forall x :: x in st.executed ==> Mine(st.tasks, x.0, x.1))
  }

  lemma StepShowsWord(st: State, a: Action)
    requires Inv(st) && Enabled(st, a)
    ensures ShowsWord(Step(st, a)) && PushesExecuted(Step(st, a))
  {
    var st' := Step(st, a);
    forall t | 0 <= t < |st'.tasks| ensures Shows(st', t) {
      if t < |st.tasks| { assert Shows(st, t); }
    }
  }

  lemma StepAgentsHonest(st: State, a: Action)
    requires Inv(st) && Enabled(st, a)
    ensures AgentsHonest(Step(st, a))
  {
    var st' := Step(st, a);
    forall e, t | t in st'.AgentOf(e).todo ensures Mine(st'.tasks, e, t) {
      if !(a.Poll? && a.e == e) { assert t in st.AgentOf(e).todo; }
    }
    forall e: Eid | st'.AgentOf(e).result.Some?
      ensures var (t, ok) := st'.AgentOf(e).result.value; Mine(st'.tasks, e, t) && st'.RanWith(e, t, ok)
    {
      if a.Execute? && a.e == e {
        assert st.AgentOf(e).todo[0] in st.AgentOf(e).todo;
      } else {
        assert st.AgentOf(e).result.Some?;
      }
    }
  }

  lemma StepExecutesOwn(st: State, a: Action)
    requires Inv(st) && Enabled(st, a)
    ensures forall x :: x in Step(st, a).executed ==> Mine(Step(st, a).tasks, x.0, x.1)
  {
    var st' := Step(st, a);
    forall x | x in st'.executed ensures Mine(st'.tasks, x.0, x.1) {
      assert x in st.executed || Mine(st.tasks, x.0, x.1);
    }
  }

  lemma StepKeepsInv(st: State, a: Action)
    requires Inv(st) && Enabled(st, a)
    ensures Inv(Step(st, a))
  {
    StepShowsWord(st, a);
    StepAgentsHonest(st, a);
    StepExecutesOwn(st, a);
  }

  lemma {:induction false} RunKeepsInv(st: State, acts: seq<Action>)
    requires Inv(st)
    ensures Inv(RunFrom(st, acts))
    decreases acts
  {
    if acts != [] {
      if Enabled(st, acts[0]) { StepKeepsInv(st, acts[0]); }
      RunKeepsInv(Try(st, acts[0]), acts[1..]);
    }
  }

  /** Over every run, whatever messages are lost and whatever other endpoints claim: a task shows the outcome with which
      its own endpoint executed it, or what that endpoint last claimed of it out of turn, and is pending without
      either; and no other endpoint ever executed it. */
  lemma CompletedMeansExecuted(acts: seq<Action>, t: TaskId)
    requires t < |RunFrom(EMPTY, acts).tasks|
    ensures var st := RunFrom(EMPTY, acts); var owner, status := st.tasks[t].endpoint, st.tasks[t].status;
            && (status == st.Word(t) || (status.Done? && st.RanWith(owner, t, status.success)))
            && (forall e, ok :: st.RanWith(e, t, ok) ==> e == owner)
  {
    RunKeepsInv(EMPTY, acts);
    var st := RunFrom(EMPTY, acts);
    assert Shows(st, t);
    forall e, ok | st.RanWith(e, t, ok) ensures e == st.tasks[t].endpoint {
      assert Mine(st.tasks, (e, t, ok).0, (e, t, ok).1);
    }
  }

  /** In every run, a task is completed without having been executed exactly if it was not executed and the last
      word of its own endpoint is a completion. */
  lemma OnlyOwnWordIsTaken(acts: seq<Action>, t: TaskId)
    requires t < |RunFrom(EMPTY, acts).tasks|
    ensures var st := RunFrom(EMPTY, acts); var owner := st.tasks[t].endpoint;
            st.tasks[t].status != Pending && !st.Ran(owner, t) <==> st.Word(t) != Pending && !st.Ran(owner, t)
  {
    CompletedMeansExecuted(acts, t);
  }

  /** For example, after one claim. */
  lemma UnexecutedClaimCompletes(e: Eid, now: int, ok: bool)
    ensures var st := RunFrom(EMPTY, [Assign(e, now, false), Claim(e, 0, Done(ok))]);
            |st.tasks| == 1 && st.tasks[0].status == Done(ok) && st.executed == []
  {
    TwoSteps(EMPTY, Assign(e, now, false), Claim(e, 0, Done(ok)), []);
    assert [Assign(e, now, false), Claim(e, 0, Done(ok))] + [] == [Assign(e, now, false), Claim(e, 0, Done(ok))];
    assert Try(EMPTY, Assign(e, now, false)).tasks == [Task(e, now, Pending)];
  }

  /** At step `i` of the run, the owner of task `t` reports it completed out of turn. */
  ghost predicate OwnClaimAt(acts: seq<Action>, i: nat, t: TaskId)
    requires i < |acts|
  {
    var a := acts[i];
    a.Claim? && a.t == t && a.status.Done? && Mine(RunFrom(EMPTY, acts[..i]).tasks, a.e, t)
  }

  /** Whenever its owner claims the task completed, it has executed it before with that outcome. */
  ghost predicate ClaimsFollowExecution(acts: seq<Action>, t: TaskId) {
    forall i :: 0 <= i < |acts| && OwnClaimAt(acts, i, t) ==>
      RunFrom(EMPTY, acts[..i]).RanWith(acts[i].e, t, acts[i].status.success)
  }

  /** The last word of the owner is true. */
  ghost predicate WordHolds(st: State, t: TaskId) {
    st.Word(t).Done? ==> t < |st.tasks| && st.RanWith(st.tasks[t].endpoint, t, st.Word(t).success)
  }

  lemma WordStep(st: State, a: Action, t: TaskId)
    requires Enabled(st, a) && WordHolds(st, t)
    requires a.Claim? && a.t == t && a.status.Done? && Mine(st.tasks, a.e, t) ==> st.RanWith(a.e, t, a.status.success)
    ensures WordHolds(Step(st, a), t)
  {
  }

  lemma {:induction false} HonestWord(acts: seq<Action>, t: TaskId)
    requires ClaimsFollowExecution(acts, t)
    ensures WordHolds(RunFrom(EMPTY, acts), t)
  {
    if acts != [] {
      var n := |acts| - 1;
      var init, a := acts[..n], acts[n];
      forall i | 0 <= i < n && OwnClaimAt(init, i, t)
        ensures RunFrom(EMPTY, init[..i]).RanWith(init[i].e, t, init[i].status.success)
      {
        assert init[..i] == acts[..i];
        assert OwnClaimAt(acts, i, t);
      }
      HonestWord(init, t);
      assert acts == init + [a];
      RunFromConcat(EMPTY, init, [a]);
      LastStep(RunFrom(EMPTY, init), a);
      assert OwnClaimAt(acts, n, t) ==> RunFrom(EMPTY, init).RanWith(a.e, t, a.status.success);
      if Enabled(RunFrom(EMPTY, init), a) { WordStep(RunFrom(EMPTY, init), a, t); }
    }
  }

  lemma LastStep(st: State, a: Action)
    ensures RunFrom(st, [a]) == Try(st, a)
  {
    assert [a][1..] == [];
  }

  /** If owners claim only what they have executed, a completed task was executed with the outcome it shows. */
  lemma HonestClaimsProveExecution(acts: seq<Action>, t: TaskId)
    requires t < |RunFrom(EMPTY, acts).tasks| && ClaimsFollowExecution(acts, t)
    ensures var st := RunFrom(EMPTY, acts); var task := st.tasks[t];
            task.status.Done? ==> st.RanWith(task.endpoint, t, task.status.success)
  {
    CompletedMeansExecuted(acts, t);
    HonestWord(acts, t);
  }

  /** Endpoint `e` itself reports on task `t` out of turn. */
  predicate OwnClaim(a: Action, e: Eid, t: TaskId) { a.Claim? && a.e == e && a.t == t }

  /** What can change a task: its owner submits a result or claims one, or its webhook answers. */
  predicate MayChange(a: Action, owner: Eid, t: TaskId) {
    (a.Submit? && a.e == owner) || (a.PushAnswer? && a.t == t) || OwnClaim(a, owner, t)
  }

  lemma ForeignStep(st: State, a: Action, t: TaskId)
    requires Enabled(st, a) && t < |st.tasks| && !MayChange(a, st.tasks[t].endpoint, t)
    ensures t < |Step(st, a).tasks| && Step(st, a).tasks[t] == st.tasks[t]
  {
    if a.Submit? && a.delivered {
      OnlyOwnTasksChange(st.tasks, a.e, st.AgentOf(a.e).result.value.0, Done(st.AgentOf(a.e).result.value.1), t);
    }
  }

  /** However long the run, nothing that other endpoints post, for this task or any other, and no new assignment or
      failed webhook changes a task. */
  lemma {:induction false} ForeignRequestsChangeNothing(st: State, acts: seq<Action>, t: TaskId)
    requires t < |st.tasks|
    requires forall i :: 0 <= i < |acts| ==> !MayChange(acts[i], st.tasks[t].endpoint, t)
    ensures t < |RunFrom(st, acts).tasks| && RunFrom(st, acts).tasks[t] == st.tasks[t]
    decreases acts
  {
    if acts != [] {
      if Enabled(st, acts[0]) { ForeignStep(st, acts[0], t); }
      ForeignRequestsChangeNothing(Try(st, acts[0]), acts[1..], t);
    }
  }

  // ---------------------------------------------------------------- draining

  /** Executing and submitting one task after the other. */
  function Work(e: Eid, oks: seq<bool>): seq<Action> {
    if oks == [] then [] else [Execute(e, oks[0]), Submit(e, true)] + Work(e, oks[1..])
  }

  predicate Within(tasks: seq<Task>, r: seq<TaskId>) { forall i :: 0 <= i < |r| ==> r[i] < |tasks| }

  function MarkAll(tasks: seq<Task>, r: seq<TaskId>, oks: seq<bool>): seq<Task>
    requires |r| == |oks| && Within(tasks, r)
    decreases r
  {
    if r == [] then tasks else MarkAll(tasks[r[0] := tasks[r[0]].(status := Done(oks[0]))], r[1..], oks[1..])
  }

  lemma {:induction false} WorkMarks(st: State, e: Eid, oks: seq<bool>)
    requires Inv(st) && st.AgentOf(e).result.None? && |st.AgentOf(e).todo| == |oks|
    ensures Within(st.tasks, st.AgentOf(e).todo)
    ensures var st' := RunFrom(st, Work(e, oks));
            st'.tasks == MarkAll(st.tasks, st.AgentOf(e).todo, oks) && st'.AgentOf(e) == Agent([], None)
    decreases oks
  {
    var r := st.AgentOf(e).todo;
    assert forall i :: 0 <= i < |r| ==> r[i] in r && Mine(st.tasks, e, r[i]);
    if oks != [] {
      var mid := Step(st, Execute(e, oks[0]));
      StepKeepsInv(st, Execute(e, oks[0]));
      var next := Step(mid, Submit(e, true));
      StepKeepsInv(mid, Submit(e, true));
      assert r[0] in r;
      assert next.tasks == st.tasks[r[0] := st.tasks[r[0]].(status := Done(oks[0]))];
      WorkMarks(next, e, oks[1..]);
      TwoSteps(st, Execute(e, oks[0]), Submit(e, true), Work(e, oks[1..]));
    }
  }

  lemma TwoSteps(st: State, a: Action, b: Action, rest: seq<Action>)
    ensures RunFrom(st, [a, b] + rest) == RunFrom(Try(Try(st, a), b), rest)
  {
    var all := [a, b] + rest;
    assert all[0] == a && all[1..] == [b] + rest;
    assert ([b] + rest)[0] == b && ([b] + rest)[1..] == rest;
  }

  lemma {:induction false} MarkAllPending(tasks: seq<Task>, r: seq<TaskId>, oks: seq<bool>, e: Eid)
    requires |r| == |oks| && Distinct(r) && forall i :: 0 <= i < |r| ==> r[i] in PendingOf(tasks, e)
    ensures Within(tasks, r)
    ensures PendingOf(MarkAll(tasks, r, oks), e) == PendingOf(tasks, e) - Elements(r)
    decreases r
  {
    if r != [] {
      assert r[0] in PendingOf(tasks, e);
      var next := tasks[r[0] := tasks[r[0]].(status := Done(oks[0]))];
      assert r == [r[0]] + r[1..];
      assert PendingOf(next, e) == PendingOf(tasks, e) - {r[0]};
      MarkAllPending(next, r[1..], oks[1..], e);
      assert Elements(r) == {r[0]} + Elements(r[1..]);
    }
  }

  /** A complete round of agent `e`: one poll, and every returned task executed and submitted. */
  datatype Round = Round(r: seq<TaskId>, oks: seq<bool>)

  function RoundActions(e: Eid, round: Round): seq<Action> { [Poll(e, round.r)] + Work(e, round.oks) }

  ghost function AfterRounds(st: State, e: Eid, rounds: seq<Round>): State {
    if rounds == [] then st
    else RunFrom(AfterRounds(st, e, rounds[..|rounds| - 1]), RoundActions(e, rounds[|rounds| - 1]))
  }

  ghost predicate Complete(st: State, e: Eid, rounds: seq<Round>) {
    rounds != [] ==>
      var init, last := rounds[..|rounds| - 1], rounds[|rounds| - 1];
      && Complete(st, e, init)
      && |last.r| == |last.oks| && OldestPending(AfterRounds(st, e, init).tasks, e, MAX_TASKS, last.r)
  }

  lemma RoundDrains(st: State, e: Eid, round: Round)
    requires Inv(st) && st.AgentOf(e) == Agent([], None)
    requires |round.r| == |round.oks| && OldestPending(st.tasks, e, MAX_TASKS, round.r)
    ensures var st', n := RunFrom(st, RoundActions(e, round)), |PendingOf(st.tasks, e)|;
            && Inv(st') && st'.AgentOf(e) == Agent([], None)
            && |PendingOf(st'.tasks, e)| == n - Min(MAX_TASKS, n)
  {
    var polled := Step(st, Poll(e, round.r));
    StepKeepsInv(st, Poll(e, round.r));
    assert RoundActions(e, round)[0] == Poll(e, round.r) && RoundActions(e, round)[1..] == Work(e, round.oks);
    RunKeepsInv(st, RoundActions(e, round));
    WorkMarks(polled, e, round.oks);
    MarkedLeave(st.tasks, e, round);
  }

  lemma MarkedLeave(tasks: seq<Task>, e: Eid, round: Round)
    requires |round.r| == |round.oks| && OldestPending(tasks, e, MAX_TASKS, round.r)
    ensures Within(tasks, round.r)
    ensures var n := |PendingOf(tasks, e)|;
            |PendingOf(MarkAll(tasks, round.r, round.oks), e)| == n - Min(MAX_TASKS, n)
  {
    var all, got := PendingOf(tasks, e), Elements(round.r);
    forall i | 0 <= i < |round.r| ensures round.r[i] in all { assert round.r[i] in round.r; }
    MarkAllPending(tasks, round.r, round.oks, e);
    SizeOf(round.r);
    Remainder(all, got);
  }

  lemma {:induction false} RoundsLeave(st: State, e: Eid, rounds: seq<Round>)
    requires Inv(st) && st.AgentOf(e) == Agent([], None) && Complete(st, e, rounds)
    ensures var st', n := AfterRounds(st, e, rounds), |PendingOf(st.tasks, e)|;
            && Inv(st') && st'.AgentOf(e) == Agent([], None)
            && |PendingOf(st'.tasks, e)| == n - Min(MAX_TASKS * |rounds|, n)
  {
    if rounds != [] {
      var init := rounds[..|rounds| - 1];
      RoundsLeave(st, e, init);
      RoundDrains(AfterRounds(st, e, init), e, rounds[|rounds| - 1]);
    }
  }

  /** With no new work, complete rounds empty the queue exactly from the ceil(n/10)-th on. */
  lemma DrainsInCeilRounds(st: State, e: Eid, rounds: seq<Round>)
    requires Inv(st) && st.AgentOf(e) == Agent([], None) && Complete(st, e, rounds)
    ensures PendingOf(AfterRounds(st, e, rounds).tasks, e) == {} <==>
            |rounds| >= (|PendingOf(st.tasks, e)| + MAX_TASKS - 1) / MAX_TASKS
  {
    RoundsLeave(st, e, rounds);
  }

  /** The tasks of `e` in `served` have been completed with their outcomes; every other row is as it was. */
  predicate Served(tasks: seq<Task>, after: seq<Task>, served: set<TaskId>, outcome: TaskId -> bool) {
    && |after| == |tasks|
    && forall t :: 0 <= t < |tasks| ==>
         after[t] == if t in served then tasks[t].(status := Done(outcome(t))) else tasks[t]
  }

  /** No pending task of `e` was completed before an older one that is still waiting. */
  ghost predicate OldestFirst(tasks: seq<Task>, after: seq<Task>, e: Eid) {
    forall t, u :: t in PendingOf(tasks, e) - PendingOf(after, e) && u in PendingOf(after, e) && u < |tasks| ==>
      tasks[t].requestedAt <= tasks[u].requestedAt
  }

  /** The agent's polling round: fetch, then execute and submit each task, all messages delivered. The tasks that stop
      being pending show the outcomes of their executions; no other row changes. */
  method PollForTasks(tasks: seq<Task>, e: Eid, outcome: TaskId -> bool) returns (after: seq<Task>)
    ensures |after| == |tasks| && OldestFirst(tasks, after, e)
    ensures forall t :: t in PendingOf(tasks, e) - PendingOf(after, e) ==>
              after[t] == tasks[t].(status := Done(outcome(t)))
    ensures forall t :: 0 <= t < |tasks| && t !in PendingOf(tasks, e) - PendingOf(after, e) ==> after[t] == tasks[t]
    ensures var n := |PendingOf(tasks, e)|; |PendingOf(after, e)| == n - Min(10, n)
  {
    var r := SelectPending(tasks, e, MAX_TASKS);
    assert forall i :: 0 <= i < |r| ==> r[i] in r;
    after := ServeAll(tasks, e, r, outcome);
    ServedLeaves(tasks, after, e, r, outcome);
    RoundLeaves(tasks, e, r, after);
    RoundServesOldest(tasks, e, r, after);
  }

  /** The loop over the polled tasks. */
  method ServeAll(tasks: seq<Task>, e: Eid, r: seq<TaskId>, outcome: TaskId -> bool) returns (after: seq<Task>)
    requires forall i :: 0 <= i < |r| ==> Mine(tasks, e, r[i])
    ensures Served(tasks, after, Elements(r), outcome)
  {
    after := tasks;
    for i := 0 to |r|
      invariant Served(tasks, after, Elements(r[..i]), outcome)
    {
      assert Mine(after, e, r[i]);
      after := Submitted(after, e, r[i], Done(outcome(r[i])));
      assert r[..i + 1] == r[..i] + [r[i]];
      assert Elements(r[..i + 1]) == Elements(r[..i]) + {r[i]};
    }
    assert r[..|r|] == r;
  }

  lemma ServedLeaves(tasks: seq<Task>, after: seq<Task>, e: Eid, r: seq<TaskId>, outcome: TaskId -> bool)
    requires Served(tasks, after, Elements(r), outcome) && forall t :: t in r ==> t in PendingOf(tasks, e)
    ensures PendingOf(after, e) == PendingOf(tasks, e) - Elements(r)
    ensures PendingOf(tasks, e) - PendingOf(after, e) == Elements(r)
  {
  }

  lemma RoundLeaves(tasks: seq<Task>, e: Eid, r: seq<TaskId>, after: seq<Task>)
    requires OldestPending(tasks, e, MAX_TASKS, r) && PendingOf(after, e) == PendingOf(tasks, e) - Elements(r)
    ensures var n := |PendingOf(tasks, e)|; |PendingOf(after, e)| == n - Min(MAX_TASKS, n)
  {
    SizeOf(r);
    Remainder(PendingOf(tasks, e), Elements(r));
  }

  lemma Remainder(all: set<TaskId>, got: set<TaskId>)
    requires got <= all
    ensures |all - got| == |all| - |got|
  {
    assert all == got + (all - got);
  }

  lemma RoundServesOldest(tasks: seq<Task>, e: Eid, r: seq<TaskId>, after: seq<Task>)
    requires OldestPending(tasks, e, MAX_TASKS, r) && PendingOf(after, e) == PendingOf(tasks, e) - Elements(r)
    ensures OldestFirst(tasks, after, e)
  {
    forall t, u | t in PendingOf(tasks, e) - PendingOf(after, e) && u in PendingOf(after, e) && u < |tasks|
      ensures tasks[t].requestedAt <= tasks[u].requestedAt
    {
      assert t in r && u in PendingOf(tasks, e) && u !in r;
    }
  }
}
