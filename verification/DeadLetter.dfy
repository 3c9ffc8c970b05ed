/** The dead-letter queue of the ingestion core: failed commits hand their payloads to a bounded channel
    without blocking, and one consumer files them in a disk log keyed by time and client. */
module DeadLetter {
  import opened Common

  const CAPACITY: nat := 100000

  datatype Payload = Payload(clientId: string, body: string)

  type Key = (nat, string)

  /** Steps of the interleaving. `Offer` is one turn of a hand-off loop, whichever writer runs it; `Take` is one
      turn of the consumer, whose disk write may fail unnoticed; `Stop` ends the consumer. */
  datatype Step = Offer(payload: Payload) | Take(now: nat, written: bool) | Stop

  /** `fate[i]` says whether the i-th payload handed over entered the channel. */
  datatype State = State(buffer: seq<Payload>, running: bool, wal: map<Key, Payload>,
                         handed: seq<Payload>, fate: seq<bool>, consumed: seq<Payload>, filed: seq<Option<Key>>)

  const START := State([], true, map[], [], [], [], [])

  function Apply(s: State, step: Step): State {
    match step
    case Offer(p) =>
      var room := |s.buffer| < CAPACITY;
      s.(buffer := if room then s.buffer + [p] else s.buffer, handed := s.handed + [p], fate := s.fate + [room])
    case Take(now, written) =>
      if !s.running || s.buffer == [] then s
      else
        var p := s.buffer[0];
        var key := (now, p.clientId);
        s.(buffer := s.buffer[1..], consumed := s.consumed + [p],
           wal := if written then s.wal[key := p] else s.wal,
           filed := s.filed + [if written then Some(key) else None])
    case Stop => s.(running := false)
  }

  function Run(steps: seq<Step>): State {
    if steps == [] then START else Apply(Run(steps[..|steps| - 1]), steps[|steps| - 1])
  }

  lemma RunAppend(steps: seq<Step>, step: Step)
    ensures Run(steps + [step]) == Apply(Run(steps), step)
  {
    assert (steps + [step])[..|steps|] == steps;
  }

  /** The elements of `s` whose mark is `mark`, in order. */
  function Select<T>(s: seq<T>, marks: seq<bool>, mark: bool): seq<T>
    requires |s| == |marks|
  {
    if s == [] then []
    else
      var init := Select(s[..|s| - 1], marks[..|s| - 1], mark);
      if marks[|s| - 1] == mark then init + [s[|s| - 1]] else init
  }

  lemma SelectAppend<T>(s: seq<T>, marks: seq<bool>, mark: bool, x: T, m: bool)
    requires |s| == |marks|
    ensures Select(s + [x], marks + [m], mark) == Select(s, marks, mark) + if m == mark then [x] else []
  {
    assert (s + [x])[..|s|] == s && (marks + [m])[..|s|] == marks;
  }

  lemma {:induction false} SelectCounts<T>(s: seq<T>, marks: seq<bool>)
    requires |s| == |marks|
    ensures |Select(s, marks, true)| + |Select(s, marks, false)| == |s|
  {
    if s != [] { SelectCounts(s[..|s| - 1], marks[..|s| - 1]); }
  }

  function Dropped(s: State): seq<Payload>
    requires |s.handed| == |s.fate|
  {
    Select(s.handed, s.fate, false)
  }

  /** Every payload handed over is exactly one of consumed, buffered or dropped. Those that entered the channel
      leave it in the order in which they were handed over. */
  predicate Accounted(s: State) {
    && |s.buffer| <= 100000 && |s.handed| == |s.fate| && |s.consumed| == |s.filed|
    && Select(s.handed, s.fate, true) == s.consumed + s.buffer
  }

  lemma ApplyKeepsAccounts(s: State, step: Step)
    requires Accounted(s)
    ensures Accounted(Apply(s, step))
  {
    match step
    case Offer(p) =>
      SelectAppend(s.handed, s.fate, true, p, |s.buffer| < CAPACITY);
    case Take(_, _) =>
      if s.buffer != [] { assert s.consumed + s.buffer == s.consumed + [s.buffer[0]] + s.buffer[1..]; }
    case Stop =>
  }

  lemma {:induction false} EveryPayloadIsAccounted(steps: seq<Step>)
    ensures var s := Run(steps);
            && Accounted(s)
            && |s.handed| == |s.consumed| + |s.buffer| + |Dropped(s)|
  {
    if steps != [] {
      EveryPayloadIsAccounted(steps[..|steps| - 1]);
      ApplyKeepsAccounts(Run(steps[..|steps| - 1]), steps[|steps| - 1]);
    }
    SelectCounts(Run(steps).handed, Run(steps).fate);
  }

  // ---------------------------------------------------------------- when nothing is dropped

  /** The length an unbounded queue would have. */
  function Backlog(steps: seq<Step>): nat {
    if steps == [] then 0
    else
      var init, step := steps[..|steps| - 1], steps[|steps| - 1];
      match step
      case Offer(_) => Backlog(init) + 1
      case Take(_, _) => if Stop !in init && Backlog(init) > 0 then Backlog(init) - 1 else Backlog(init)
      case Stop => Backlog(init)
  }

  predicate NeverBehind(steps: seq<Step>) {
    forall n :: 0 <= n <= |steps| ==> Backlog(steps[..n]) <= 100000
  }

  lemma NeverBehindAppend(steps: seq<Step>)
    requires steps != []
    ensures NeverBehind(steps) <==> NeverBehind(steps[..|steps| - 1]) && Backlog(steps) <= CAPACITY
  {
    var init := steps[..|steps| - 1];
    assert steps[..|steps|] == steps;
    assert forall n {:trigger steps[..n]} :: 0 <= n <= |init| ==> init[..n] == steps[..n];
    if NeverBehind(init) && Backlog(steps) <= CAPACITY {
      forall n | 0 <= n <= |steps| ensures Backlog(steps[..n]) <= CAPACITY {
        if n < |steps| { assert init[..n] == steps[..n]; }
      }
    }
    if NeverBehind(steps) {
      forall n | 0 <= n <= |init| ensures Backlog(init[..n]) <= CAPACITY {
        assert init[..n] == steps[..n];
      }
    }
  }

  lemma {:induction false} RunsUntilStop(steps: seq<Step>)
    ensures Run(steps).running <==> Stop !in steps
  {
    if steps != [] {
      RunsUntilStop(steps[..|steps| - 1]);
      assert steps == steps[..|steps| - 1] + [steps[|steps| - 1]];
    }
  }

  /** Nothing is dropped exactly when the arrivals never outrun the consumer by more than the capacity, at any
      point of the run; the channel then holds the whole backlog. */
  lemma {:induction false} DropsOnlyWhenBehind(steps: seq<Step>)
    ensures Accounted(Run(steps)) && (Dropped(Run(steps)) == [] <==> NeverBehind(steps))
    ensures NeverBehind(steps) ==> |Run(steps).buffer| == Backlog(steps)
  {
    EveryPayloadIsAccounted(steps);
    if steps == [] {
      assert forall n :: 0 <= n <= |steps| ==> steps[..n] == [];
    } else {
      var init, step := steps[..|steps| - 1], steps[|steps| - 1];
      DropsOnlyWhenBehind(init);
      RunsUntilStop(init);
      NeverBehindAppend(steps);
      if step.Offer? {
        var s := Run(init);
        SelectAppend(s.handed, s.fate, false, step.payload, |s.buffer| < CAPACITY);
      }
    }
  }

  // ---------------------------------------------------------------- what reaches the disk

  predicate AllWritten(filed: seq<Option<Key>>) { forall i :: 0 <= i < |filed| ==> filed[i].Some? }

  /** Every consumed payload has an entry of its own exactly when no write failed and no two consumed payloads
      share both the instant and the client. */
  lemma {:induction false} DiskKeepsAllOrKeysClash(steps: seq<Step>)
    ensures var s := Run(steps);
            && |s.wal| <= |s.consumed|
            && (|s.wal| == |s.consumed| <==> AllWritten(s.filed) && Distinct(s.filed))
            && (forall k :: k in s.wal <==> Some(k) in s.filed)
  {
    EveryPayloadIsAccounted(steps);
    if steps != [] {
      var init, step := steps[..|steps| - 1], steps[|steps| - 1];
      DiskKeepsAllOrKeysClash(init);
      EveryPayloadIsAccounted(init);
      var s := Run(init);
      if step.Take? && s.running && s.buffer != [] {
        Filing(s, (step.now, s.buffer[0].clientId), s.buffer[0], step.written);
      }
    }
  }

  /** The clock readings of the turns that consumed something. */
  function Instants(steps: seq<Step>): seq<nat> {
    if steps == [] then []
    else
      var init, step := steps[..|steps| - 1], steps[|steps| - 1];
      if step.Take? && Stop !in init && Run(init).buffer != [] then Instants(init) + [step.now] else Instants(init)
  }

  /** Whatever is filed is filed under the instant of its consumption and its own client. */
  lemma {:induction false} FiledUnderOwnKey(steps: seq<Step>)
    ensures var s := Run(steps);
            && |s.filed| == |s.consumed| == |Instants(steps)|
            && forall i :: 0 <= i < |s.filed| && s.filed[i].Some? ==>
                 s.filed[i].value == (Instants(steps)[i], s.consumed[i].clientId)
  {
    if steps != [] {
      FiledUnderOwnKey(steps[..|steps| - 1]);
      RunsUntilStop(steps[..|steps| - 1]);
    }
  }

  /** For example, two payloads of one client consumed at the same instant leave one entry. */
  lemma SameInstantOverwrites(p: Payload, q: Payload, now: nat)
    requires p.clientId == q.clientId
    ensures var s := Run([Offer(p), Offer(q), Take(now, true), Take(now, true)]);
            s.consumed == [p, q] && s.wal == map[(now, p.clientId) := q]
  {
    var a, b, c := Offer(p), Offer(q), Take(now, true);
    assert [] + [a] == [a] && [a] + [b] == [a, b] && [a, b] + [c] == [a, b, c] && [a, b, c] + [c] == [a, b, c, c];
    RunAppend([], a);
    RunAppend([a], b);
    RunAppend([a, b], c);
    RunAppend([a, b, c], c);
    assert Run([a, b]).buffer == [p, q];
    assert Run([a, b, c]).buffer == [q];
  }

  /** No later payload was filed under the i-th one's key. */
  predicate Lasting(filed: seq<Option<Key>>, i: nat) {
    i < |filed| && filed[i].Some? && forall j :: i < j < |filed| ==> filed[j] != filed[i]
  }

  /** Whatever was filed and not overwritten can be read back from the disk. */
  lemma {:induction false} DiskHoldsWhatWasFiled(steps: seq<Step>, i: nat)
    requires Lasting(Run(steps).filed, i)
    ensures var s := Run(steps);
            i < |s.consumed| && s.filed[i].value in s.wal && s.wal[s.filed[i].value] == s.consumed[i]
  {
    EveryPayloadIsAccounted(steps);
    var init, step := steps[..|steps| - 1], steps[|steps| - 1];
    EveryPayloadIsAccounted(init);
    var s, t := Run(init), Run(steps);
    if i < |s.filed| {
      assert t.filed[i] == s.filed[i];
      forall j | i < j < |s.filed| ensures s.filed[j] != s.filed[i] { assert t.filed[j] == s.filed[j]; }
      DiskHoldsWhatWasFiled(init, i);
      if |t.filed| > |s.filed| { assert t.filed[|s.filed|] != t.filed[i]; }
    }
  }

  lemma Filing(s: State, key: Key, p: Payload, written: bool)
    requires forall k :: k in s.wal <==> Some(k) in s.filed
    ensures var filed := s.filed + [if written then Some(key) else None];
            var wal := if written then s.wal[key := p] else s.wal;
            && |wal| == |s.wal| + (if written && key !in s.wal then 1 else 0)
            && (AllWritten(filed) && Distinct(filed) <==>
                AllWritten(s.filed) && Distinct(s.filed) && written && key !in s.wal)
            && (forall k :: k in wal <==> Some(k) in filed)
  {
    var x := if written then Some(key) else None;
    var filed := s.filed + [x];
    var wal := if written then s.wal[key := p] else s.wal;
    if written {
      assert wal.Keys == s.wal.Keys + {key};
      assert |wal| == |wal.Keys| && |s.wal| == |s.wal.Keys|;
    }
    AllWrittenAppend(s.filed, x);
    DistinctAppend(s.filed, x);
  }

  lemma AllWrittenAppend(filed: seq<Option<Key>>, x: Option<Key>)
    ensures AllWritten(filed + [x]) <==> AllWritten(filed) && x.Some?
  {
    var t := filed + [x];
    assert t[|filed|] == x;
    if AllWritten(t) {
      forall i | 0 <= i < |filed| ensures filed[i].Some? { assert t[i].Some?; }
    }
  }

  lemma DistinctAppend<T>(s: seq<T>, x: T)
    ensures Distinct(s + [x]) <==> Distinct(s) && x !in s
  {
    var t := s + [x];
    if Distinct(t) {
      forall i, j | 0 <= i < j < |s| ensures s[i] != s[j] { assert t[i] != t[j]; }
      forall i | 0 <= i < |s| ensures s[i] != x { assert t[i] != t[|s|]; }
    }
  }

  // ---------------------------------------------------------------- the program

  /** What a hand-off loop leaves when nothing interrupts it: the head of the batch, as far as there is room. */
  function Filled(buffer: seq<Payload>, logs: seq<Payload>): seq<Payload>
    requires |buffer| <= CAPACITY
  {
    buffer + logs[..Min(|logs|, CAPACITY - |buffer|)]
  }

  lemma FilledStep(buffer: seq<Payload>, logs: seq<Payload>, i: nat)
    requires |buffer| <= CAPACITY && i < |logs|
    ensures var now := Filled(buffer, logs[..i]);
            Filled(buffer, logs[..i + 1]) == if |now| < CAPACITY then now + [logs[i]] else now
  {
  }

  lemma OffersStep(trace: seq<Step>, logs: seq<Payload>, i: nat)
    requires i < |logs|
    ensures trace + Offers(logs[..i]) + [Offer(logs[i])] == trace + Offers(logs[..i + 1])
  {
  }

  class Queue {
    var buffer: seq<Payload>
    var running: bool
    var wal: map<Key, Payload>
    /** The steps taken so far, by all writers and the consumer. */
    ghost var trace: seq<Step>

    ghost predicate Valid()
      reads this
    {
      var s := Run(trace);
      |buffer| <= CAPACITY && buffer == s.buffer && running == s.running && wal == s.wal
    }

    constructor ()
      ensures Valid() && trace == []
    {
      buffer, running, wal, trace := [], true, map[], [];
    }

    /** The non-blocking send. */
    method TrySend(p: Payload) returns (ok: bool)
      requires Valid()
      modifies this`buffer, this`trace
      ensures Valid() && trace == old(trace) + [Offer(p)]
      ensures ok <==> |old(buffer)| < CAPACITY
      ensures buffer == if ok then old(buffer) + [p] else old(buffer)
    {
      RunAppend(trace, Offer(p));
      trace := trace + [Offer(p)];
      ok := |buffer| < CAPACITY;
      if ok { buffer := buffer + [p]; }
    }

    /** The fallback path of a failed commit; the result counts the events dropped. */
    method HandOff(logs: seq<Payload>) returns (dropped: nat)
      requires Valid()
      modifies this`buffer, this`trace
      ensures Valid() && trace == old(trace) + Offers(logs)
      ensures buffer == Filled(old(buffer), logs)
      ensures dropped == |logs| - (|buffer| - |old(buffer)|)
      ensures dropped > 0 ==> |buffer| == CAPACITY
    {
      dropped := 0;
      for i := 0 to |logs|
        invariant Valid() && trace == old(trace) + Offers(logs[..i])
        invariant buffer == Filled(old(buffer), logs[..i])
        invariant dropped == i - (|buffer| - |old(buffer)|)
      {
        OffersStep(old(trace), logs, i);
        FilledStep(old(buffer), logs, i);
        var ok := TrySend(logs[i]);
        if !ok { dropped := dropped + 1; }
      }
      assert logs[..|logs|] == logs;
    }

    /** One turn of the consumer. */
    method Consume(now: nat, written: bool) returns (taken: Option<Payload>)
      requires Valid()
      modifies this`buffer, this`wal, this`trace
      ensures Valid() && trace == old(trace) + [Take(now, written)]
      ensures taken.Some? <==> running && old(buffer) != []
      ensures old(buffer) == if taken.Some? then [taken.value] + buffer else buffer
      ensures wal == if taken.Some? && written then old(wal)[(now, taken.value.clientId) := taken.value] else old(wal)
    {
      RunAppend(trace, Take(now, written));
      trace := trace + [Take(now, written)];
      if !running || buffer == [] { return None; }
      taken := Some(buffer[0]);
      buffer := buffer[1..];
      if written { wal := wal[(now, taken.value.clientId) := taken.value]; }
    }
  }

  function Offers(logs: seq<Payload>): seq<Step> { seq(|logs|, i requires 0 <= i < |logs| => Offer(logs[i])) }
}
