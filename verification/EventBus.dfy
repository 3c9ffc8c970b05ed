/** The agent event bus: a bounded history, one bounded queue per subscriber that drops its oldest event
    when a slow client falls behind, and the replay that a stream client gets before it subscribes. */
module EventBus {
  import opened Common

  const MAX_HISTORY: nat := 500
  const QUEUE_SIZE: nat := 100

  type QueueId = nat

  datatype Event = Event(correlationId: Option<string>, body: string)

  datatype Bus = Bus(history: seq<Event>, subscribers: seq<QueueId>, queues: map<QueueId, seq<Event>>) {
    ghost predicate Valid() {
      && |history| <= MAX_HISTORY
      && Distinct(subscribers) && (forall q :: q in subscribers ==> q in queues)
      && (forall q :: q in queues ==> |queues[q]| <= QUEUE_SIZE)
    }
  }

  function Emit(b: Bus, e: Event): Bus
    requires b.Valid()
  {
    Bus(DequeAppend(b.history, MAX_HISTORY, e), b.subscribers,
        map q | q in b.queues :: if q in b.subscribers then DequeAppend(b.queues[q], QUEUE_SIZE, e) else b.queues[q])
  }

  function Subscribe(b: Bus, q: QueueId): Bus {
    b.(subscribers := b.subscribers + [q], queues := b.queues[q := []])
  }

  function Remove(s: seq<QueueId>, q: QueueId): seq<QueueId> {
    if s == [] then [] else if s[0] == q then s[1..] else [s[0]] + Remove(s[1..], q)
  }

  function Unsubscribe(b: Bus, q: QueueId): Bus { b.(subscribers := Remove(b.subscribers, q)) }

  function Get(b: Bus, q: QueueId): Bus
    requires q in b.queues && b.queues[q] != []
  {
    b.(queues := b.queues[q := b.queues[q][1..]])
  }

  lemma {:induction false} RemoveMeans(s: seq<QueueId>, q: QueueId)
    requires Distinct(s)
    ensures Distinct(Remove(s, q)) && forall x :: x in Remove(s, q) <==> x in s && x != q
  {
    if s != [] {
      RemoveMeans(s[1..], q);
      assert s == [s[0]] + s[1..];
      assert s[0] !in s[1..];
      if s[0] != q {
        var r := Remove(s, q);
        assert r == [s[0]] + Remove(s[1..], q) && s[0] !in Remove(s[1..], q);
        forall i, j | 0 <= i < j < |r| ensures r[i] != r[j] { assert r[j] in Remove(s[1..], q); }
      }
    }
  }

  /** The event has been delivered to the queues `to`, and to no other. */
  predicate Reached(before: map<QueueId, seq<Event>>, to: seq<QueueId>, e: Event, now: map<QueueId, seq<Event>>) {
    forall q :: q in before && q in now && |before[q]| <= QUEUE_SIZE ==>
      now[q] == if q in to then DequeAppend(before[q], QUEUE_SIZE, e) else before[q]
  }

  lemma NotYetReached(first: map<QueueId, seq<Event>>, to: seq<QueueId>, i: nat, e: Event,
                      now: map<QueueId, seq<Event>>)
    requires i < |to| && Distinct(to) && (forall q :: q in to ==> q in first) && now.Keys == first.Keys
    requires (forall q :: q in first ==> |first[q]| <= QUEUE_SIZE) && Reached(first, to[..i], e, now)
    ensures to[i] in first && to[i] in now && now[to[i]] == first[to[i]] && |first[to[i]]| <= QUEUE_SIZE
  {
    assert to[i] in to && to[i] !in to[..i];
  }

  lemma ReachedOneMore(first: map<QueueId, seq<Event>>, to: seq<QueueId>, i: nat, e: Event,
                       before: map<QueueId, seq<Event>>, now: map<QueueId, seq<Event>>)
    requires i < |to| && Distinct(to) && Reached(first, to[..i], e, before)
    requires to[i] in first && to[i] in before && before.Keys == first.Keys && |first[to[i]]| <= QUEUE_SIZE
    requires |before[to[i]]| <= QUEUE_SIZE && now == before[to[i] := DequeAppend(before[to[i]], QUEUE_SIZE, e)]
    ensures Reached(first, to[..i + 1], e, now)
  {
    assert to[..i + 1] == to[..i] + [to[i]];
  }

  lemma ReachedAll(b: Bus, e: Event, now: map<QueueId, seq<Event>>)
    requires b.Valid() && now.Keys == b.queues.Keys && Reached(b.queues, b.subscribers, e, now)
    ensures now == Emit(b, e).queues
  {
  }

  class AgentEventBus {
    var history: seq<Event>
    var subscribers: seq<QueueId>
    var queues: map<QueueId, seq<Event>>

    function View(): Bus reads this { Bus(history, subscribers, queues) }

    constructor ()
      ensures View() == Bus([], [], map[])
    {
      history, subscribers, queues := [], [], map[];
    }

    /** `put_nowait`, after `get_nowait` if the queue is full. */
    method Put(q: QueueId, event: Event)
      requires q in queues && |queues[q]| <= QUEUE_SIZE
      modifies this`queues
      ensures queues == old(queues)[q := DequeAppend(old(queues)[q], QUEUE_SIZE, event)]
    {
      var items := queues[q];
      if |items| == QUEUE_SIZE { items := items[1..]; }
      queues := queues[q := items + [event]];
    }

    /** The broadcast loop: a full queue gives up its oldest event first. */
    method Broadcast(event: Event)
      requires View().Valid()
      modifies this
      ensures View() == Emit(old(View()), event)
    {
      history := DequeAppend(history, MAX_HISTORY, event);
      Deliver(event);
      ReachedAll(old(View()), event, queues);
    }

    method Deliver(event: Event)
      requires Distinct(subscribers) && (forall q :: q in subscribers ==> q in queues)
      requires forall q :: q in queues ==> |queues[q]| <= QUEUE_SIZE
      modifies this`queues
      ensures queues.Keys == old(queues).Keys && Reached(old(queues), subscribers, event, queues)
    {
      for i := 0 to |subscribers|
        invariant queues.Keys == old(queues).Keys
        invariant Reached(old(queues), subscribers[..i], event, queues)
      {
        var q := subscribers[i];
        ghost var before := queues;
        NotYetReached(old(queues), subscribers, i, event, queues);
        Put(q, event);
        ReachedOneMore(old(queues), subscribers, i, event, before, queues);
      }
      assert subscribers[..|subscribers|] == subscribers;
    }

    method NewSubscriber(q: QueueId)
      requires q !in queues
      modifies this
      ensures View() == Subscribe(old(View()), q)
    {
      queues := queues[q := []];
      subscribers := subscribers + [q];
    }

    /** Takes the queue off the list; what it still holds can be read. */
    method Leave(q: QueueId)
      requires View().Valid()
      modifies this
      ensures View() == Unsubscribe(old(View()), q) && q !in subscribers
    {
      RemoveMeans(subscribers, q);
      subscribers := Remove(subscribers, q);
    }

    /** The stream's `get`, when something is waiting. */
    method Next(q: QueueId) returns (event: Event)
      requires q in queues && queues[q] != []
      modifies this
      ensures View() == Get(old(View()), q) && [event] + queues[q] == old(queues)[q]
    {
      event := queues[q][0];
      queues := queues[q := queues[q][1..]];
    }
  }

  /** What a client that last saw `lastEventId` is sent from the history. */
  function Replay(history: seq<Event>, lastEventId: string): seq<Event> {
    if lastEventId == "" then history else AfterFirst(history, lastEventId)
  }

  /** Everything after the first event with this identifier; nothing if there is none. */
  function AfterFirst(history: seq<Event>, id: string): seq<Event> {
    if history == [] then []
    else if history[0].correlationId == Some(id) then history[1..]
    else AfterFirst(history[1..], id)
  }

  /** The replay loop with its `found` flag. */
  method CollectReplay(history: seq<Event>, lastEventId: string) returns (replay: seq<Event>)
    ensures replay == Replay(history, lastEventId)
  {
    if lastEventId == "" { return history; }
    replay := [];
    var found := false;
    for i := 0 to |history|
      invariant if found then replay + history[i..] == AfterFirst(history, lastEventId)
                else replay == [] && AfterFirst(history[i..], lastEventId) == AfterFirst(history, lastEventId)
    {
      assert history[i..] == [history[i]] + history[i + 1..];
      if found { replay := replay + [history[i]]; }
      if history[i].correlationId == Some(lastEventId) { found := true; }
    }
  }

  lemma {:induction false} ReplayIsSuffix(history: seq<Event>, id: string)
    ensures var after := AfterFirst(history, id);
            |after| <= |history| && after == history[|history| - |after|..]
  {
    if history != [] { ReplayIsSuffix(history[1..], id); }
  }

  // ---------------------------------------------------------------- runs

  datatype Op = DoEmit(e: Event) | DoSubscribe(q: QueueId) | DoUnsubscribe(q: QueueId) | DoGet(q: QueueId)

  /** What happened to one queue: emissions before it subscribed, the position of its oldest waiting event and of
      the end of its contents, and what it delivered: `out`, which were emitted at the positions `got`. */
  datatype Track = Track(since: nat, next: nat, end: nat, got: seq<nat>, out: seq<Event>)

  datatype State = State(bus: Bus, emitted: seq<Event>, tracks: map<QueueId, Track>)

  function Joining(n: nat): Track { Track(n, n, n, [], []) }

  /** How an emission moves the track of a subscribed queue. */
  function Tracked(t: Track, size: nat): Track {
    if size == QUEUE_SIZE then t.(next := t.next + 1, end := t.end + 1) else t.(end := t.end + 1)
  }

  /** How a delivery moves it. */
  function Delivered(t: Track, e: Event): Track {
    t.(next := t.next + 1, got := t.got + [t.next], out := t.out + [e])
  }

  function Apply(s: State, op: Op): State
    requires s.bus.Valid() && s.tracks.Keys == s.bus.queues.Keys
  {
    match op
    case DoEmit(e) =>
      State(Emit(s.bus, e), s.emitted + [e],
            map q | q in s.tracks ::
              if q in s.bus.subscribers then Tracked(s.tracks[q], |s.bus.queues[q]|) else s.tracks[q])
    case DoSubscribe(q) =>
      if q in s.bus.queues then s
      else State(Subscribe(s.bus, q), s.emitted, s.tracks[q := Joining(|s.emitted|)])
    case DoUnsubscribe(q) => s.(bus := Unsubscribe(s.bus, q))
    case DoGet(q) =>
      if q in s.bus.queues && s.bus.queues[q] != [] then
        s.(bus := Get(s.bus, q), tracks := s.tracks[q := Delivered(s.tracks[q], s.bus.queues[q][0])])
      else s
  }

  /** The queue is a contiguous stretch of the emissions since its subscription, up to the latest one while
      subscribed; what it delivered are emissions at rising positions since then. */
  predicate Faithful(emitted: seq<Event>, items: seq<Event>, t: Track, subscribed: bool) {
    && t.since <= t.next <= t.end <= |emitted|
    && items == emitted[t.next..t.end] && |items| <= QUEUE_SIZE
    && (subscribed ==> t.end == |emitted|)
    && Rising(t.got) && (forall i :: 0 <= i < |t.got| ==> t.since <= t.got[i] < t.next)
    && |t.got| <= t.next - t.since
    && |t.out| == |t.got| && (forall i :: 0 <= i < |t.got| ==> t.out[i] == emitted[t.got[i]])
  }

  ghost predicate Inv(s: State) {
    && s.bus.Valid()
    && s.bus.history == LastN(s.emitted, MAX_HISTORY)
    && s.tracks.Keys == s.bus.queues.Keys
    && (forall q :: q in s.tracks ==> Faithful(s.emitted, s.bus.queues[q], s.tracks[q], q in s.bus.subscribers))
  }

  lemma EmitFaithful(emitted: seq<Event>, e: Event, items: seq<Event>, t: Track)
    requires Faithful(emitted, items, t, true)
    ensures Faithful(emitted + [e], DequeAppend(items, QUEUE_SIZE, e), Tracked(t, |items|), true)
  {
  }

  lemma IdleFaithful(emitted: seq<Event>, e: Event, items: seq<Event>, t: Track)
    requires Faithful(emitted, items, t, false)
    ensures Faithful(emitted + [e], items, t, false)
  {
  }

  lemma GetFaithful(emitted: seq<Event>, items: seq<Event>, t: Track, subscribed: bool)
    requires Faithful(emitted, items, t, subscribed) && items != []
    ensures Faithful(emitted, items[1..], Delivered(t, items[0]), subscribed)
  {
  }

  lemma EmitKeepsInv(s: State, e: Event)
    requires Inv(s)
    ensures Inv(Apply(s, DoEmit(e)))
  {
    var s' := Apply(s, DoEmit(e));
    DequeAppendIsLastN(s.emitted, MAX_HISTORY, e);
    forall q | q in s'.tracks ensures Faithful(s'.emitted, s'.bus.queues[q], s'.tracks[q], q in s'.bus.subscribers) {
      if q in s.bus.subscribers {
        EmitFaithful(s.emitted, e, s.bus.queues[q], s.tracks[q]);
      } else {
        IdleFaithful(s.emitted, e, s.bus.queues[q], s.tracks[q]);
      }
    }
  }

  lemma ApplyKeepsInv(s: State, op: Op)
    requires Inv(s)
    ensures Inv(Apply(s, op))
  {
    match op
    case DoEmit(e) => EmitKeepsInv(s, e);
    case DoSubscribe(q) => SubscribeKeepsInv(s, q);
    case DoUnsubscribe(q) => UnsubscribeKeepsInv(s, q);
    case DoGet(q) => GetKeepsInv(s, q);
  }

  lemma SubscribeKeepsInv(s: State, q: QueueId)
    requires Inv(s)
    ensures Inv(Apply(s, DoSubscribe(q)))
  {
    var s' := Apply(s, DoSubscribe(q));
    forall p | p in s'.tracks ensures Faithful(s'.emitted, s'.bus.queues[p], s'.tracks[p], p in s'.bus.subscribers) {
      if p in s.tracks { assert Faithful(s.emitted, s.bus.queues[p], s.tracks[p], p in s.bus.subscribers); }
    }
  }

  lemma UnsubscribeKeepsInv(s: State, q: QueueId)
    requires Inv(s)
    ensures Inv(Apply(s, DoUnsubscribe(q)))
  {
    RemoveMeans(s.bus.subscribers, q);
    var s' := Apply(s, DoUnsubscribe(q));
    forall p | p in s'.tracks ensures Faithful(s'.emitted, s'.bus.queues[p], s'.tracks[p], p in s'.bus.subscribers) {
      assert Faithful(s.emitted, s.bus.queues[p], s.tracks[p], p in s.bus.subscribers);
    }
  }

  lemma GetKeepsValid(b: Bus, q: QueueId)
    requires b.Valid() && q in b.queues && b.queues[q] != []
    ensures Get(b, q).Valid() && Get(b, q).queues.Keys == b.queues.Keys
  {
  }

  lemma GetKeepsInv(s: State, q: QueueId)
    requires Inv(s)
    ensures Inv(Apply(s, DoGet(q)))
  {
    if q in s.bus.queues && s.bus.queues[q] != [] {
      var s' := Apply(s, DoGet(q));
      GetKeepsValid(s.bus, q);
      assert Faithful(s.emitted, s.bus.queues[q], s.tracks[q], q in s.bus.subscribers);
      GetFaithful(s.emitted, s.bus.queues[q], s.tracks[q], q in s.bus.subscribers);
      forall p | p in s'.tracks ensures Faithful(s'.emitted, s'.bus.queues[p], s'.tracks[p], p in s'.bus.subscribers) {
        if p != q {
          assert Faithful(s.emitted, s.bus.queues[p], s.tracks[p], p in s.bus.subscribers);
          assert s'.bus.queues[p] == s.bus.queues[p] && s'.tracks[p] == s.tracks[p];
        }
      }
    }
  }

  const EMPTY := State(Bus([], [], map[]), [], map[])

  /** One operation on a state that satisfies the invariant. */
  ghost function Do(s: State, op: Op): (s': State)
    requires Inv(s)
    ensures Inv(s')
  {
    ApplyKeepsInv(s, op);
    Apply(s, op)
  }

  /** Any interleaving of emissions, subscriptions and deliveries. */
  ghost function RunFrom(s: State, ops: seq<Op>): (s': State)
    requires Inv(s)
    ensures Inv(s')
    decreases ops
  {
    if ops == [] then s else RunFrom(Do(s, ops[0]), ops[1..])
  }

  // ---------------------------------------------------------------- positions

  function Range(a: nat, b: nat): seq<nat>
    requires a <= b
  {
    seq(b - a, i requires 0 <= i < b - a => a + i)
  }

  /** Emissions only accumulate, and a queue keeps the position it subscribed at. */
  ghost predicate Grown(s: State, s': State) {
    s.emitted <= s'.emitted && forall q :: q in s.tracks ==> q in s'.tracks && s'.tracks[q].since == s.tracks[q].since
  }

  lemma ApplyGrows(s: State, op: Op)
    requires Inv(s)
    ensures Grown(s, Apply(s, op))
  {
  }

  lemma {:induction false} RunGrows(s: State, ops: seq<Op>)
    requires Inv(s)
    ensures Grown(s, RunFrom(s, ops))
    decreases ops
  {
    if ops != [] {
      ApplyGrows(s, ops[0]);
      RunGrows(Do(s, ops[0]), ops[1..]);
      GrownTwice(s, Do(s, ops[0]), RunFrom(s, ops));
    }
  }

  lemma GrownTwice(a: State, b: State, c: State)
    requires Grown(a, b) && Grown(b, c)
    ensures Grown(a, c)
  {
  }

  /** Deliveries that rise and miss nothing are exactly the positions since the subscription. */
  lemma {:induction false} NothingMissed(got: seq<nat>, since: nat, next: nat)
    requires since <= next && Rising(got) && forall i :: 0 <= i < |got| ==> since <= got[i] < next
    requires |got| == next - since
    ensures got == Range(since, next)
  {
    if got != [] {
      var n := |got| - 1;
      var init := got[..n];
      AtLeast(got, since, n);
      assert got[n] == next - 1;
      forall i | 0 <= i < n ensures since <= init[i] < next - 1 { assert got[i] < got[n]; }
      NothingMissed(init, since, next - 1);
      assert got == init + [next - 1];
    }
  }

  lemma {:induction false} AtLeast(got: seq<nat>, since: nat, i: nat)
    requires Rising(got) && i < |got| && since <= got[0]
    ensures got[i] >= since + i
  {
    if i > 0 {
      AtLeast(got, since, i - 1);
      assert got[i - 1] < got[i];
    }
  }

  // ---------------------------------------------------------------- falling behind

  /** How many events a queue without bound, subscribed before `ops`, would hold after them. */
  function Backlog(ops: seq<Op>, q: QueueId): nat {
    if ops == [] then 0
    else
      var init, op := ops[..|ops| - 1], ops[|ops| - 1];
      var n := Backlog(init, q);
      match op
      case DoEmit(_) => if DoUnsubscribe(q) in init then n else n + 1
      case DoGet(p) => if p == q && n > 0 then n - 1 else n
      case _ => n
  }

  /** The client is never more than 100 events behind. */
  predicate KeepsUp(ops: seq<Op>, q: QueueId) {
    forall n :: 0 <= n <= |ops| ==> Backlog(ops[..n], q) <= 100
  }

  lemma KeepsUpAppend(ops: seq<Op>, q: QueueId)
    requires ops != []
    ensures KeepsUp(ops, q) <==> KeepsUp(ops[..|ops| - 1], q) && Backlog(ops, q) <= QUEUE_SIZE
  {
    var init := ops[..|ops| - 1];
    assert ops[..|ops|] == ops;
    if KeepsUp(init, q) && Backlog(ops, q) <= QUEUE_SIZE {
      forall n | 0 <= n <= |ops| ensures Backlog(ops[..n], q) <= QUEUE_SIZE {
        if n < |ops| { assert init[..n] == ops[..n]; }
      }
    }
    if KeepsUp(ops, q) {
      forall n | 0 <= n <= |init| ensures Backlog(init[..n], q) <= QUEUE_SIZE { assert init[..n] == ops[..n]; }
    }
  }

  lemma {:induction false} RunFromLast(s: State, ops: seq<Op>)
    requires Inv(s) && ops != []
    ensures RunFrom(s, ops) == Do(RunFrom(s, ops[..|ops| - 1]), ops[|ops| - 1])
    decreases ops
  {
    if |ops| > 1 {
      RunFromLast(Do(s, ops[0]), ops[1..]);
      assert ops[1..][..|ops| - 2] == ops[..|ops| - 1][1..];
    } else {
      assert ops[1..] == [] && ops[..0] == [];
    }
  }

  /** What one operation does to one queue of `n` events and its track. */
  predicate Moves(op: Op, q: QueueId, t: Track, n: nat, on: bool, t': Track, n': nat, on': bool) {
    && (on' <==> on && op != DoUnsubscribe(q))
    && t'.since == t.since
    && (if op.DoEmit? && on then
          && n' == Min(n + 1, QUEUE_SIZE) && |t'.got| == |t.got|
          && t'.next == (if n == QUEUE_SIZE then t.next + 1 else t.next)
        else if op == DoGet(q) && n > 0 then
          n' == n - 1 && |t'.got| == |t.got| + 1 && t'.next == t.next + 1
        else n' == n && t' == t)
  }

  lemma QueueMoves(s: State, op: Op, q: QueueId)
    requires s.bus.Valid() && s.tracks.Keys == s.bus.queues.Keys && q in s.tracks
    ensures var s' := Apply(s, op);
            && q in s'.tracks && q in s'.bus.queues
            && Moves(op, q, s.tracks[q], |s.bus.queues[q]|, q in s.bus.subscribers,
                     s'.tracks[q], |s'.bus.queues[q]|, q in s'.bus.subscribers)
  {
    match op
    case DoEmit(e) => EmitMoves(s, e, q);
    case DoSubscribe(p) =>
    case DoUnsubscribe(p) => RemoveMeans(s.bus.subscribers, p);
    case DoGet(p) => GetMoves(s, p, q);
  }

  lemma EmitMoves(s: State, e: Event, q: QueueId)
    requires s.bus.Valid() && s.tracks.Keys == s.bus.queues.Keys && q in s.tracks
    ensures var s' := Apply(s, DoEmit(e));
            && q in s'.tracks && q in s'.bus.queues
            && Moves(DoEmit(e), q, s.tracks[q], |s.bus.queues[q]|, q in s.bus.subscribers,
                     s'.tracks[q], |s'.bus.queues[q]|, q in s'.bus.subscribers)
  {
  }

  lemma GetMoves(s: State, p: QueueId, q: QueueId)
    requires s.bus.Valid() && s.tracks.Keys == s.bus.queues.Keys && q in s.tracks
    ensures var s' := Apply(s, DoGet(p));
            && q in s'.tracks && q in s'.bus.queues
            && Moves(DoGet(p), q, s.tracks[q], |s.bus.queues[q]|, q in s.bus.subscribers,
                     s'.tracks[q], |s'.bus.queues[q]|, q in s'.bus.subscribers)
  {
  }

  /** Everything that left the queue was delivered. */
  predicate Lossless(t: Track) { |t.got| == t.next - t.since }

  /** After `ops` since its subscription, the queue has lost nothing exactly if its reader kept up, and it then
      holds the whole backlog. */
  predicate Abreast(ops: seq<Op>, q: QueueId, t: Track, n: nat, on: bool) {
    && (on <==> DoUnsubscribe(q) !in ops)
    && (Lossless(t) <==> KeepsUp(ops, q))
    && (KeepsUp(ops, q) ==> n == Backlog(ops, q))
  }

  lemma StaysAbreast(ops: seq<Op>, q: QueueId, t: Track, n: nat, on: bool, t': Track, n': nat, on': bool)
    requires ops != [] && n <= QUEUE_SIZE && |t.got| <= t.next - t.since
    requires Abreast(ops[..|ops| - 1], q, t, n, on) && Moves(ops[|ops| - 1], q, t, n, on, t', n', on')
    ensures Abreast(ops, q, t', n', on')
  {
    KeepsUpAppend(ops, q);
    assert ops == ops[..|ops| - 1] + [ops[|ops| - 1]];
  }

  lemma {:induction false} LosslessIfKeepsUp(s: State, ops: seq<Op>, q: QueueId)
    requires Inv(s) && q in s.tracks && s.tracks[q] == Joining(|s.emitted|) && q in s.bus.subscribers
    requires s.bus.queues[q] == []
    ensures var end := RunFrom(s, ops);
            && q in end.tracks
            && Abreast(ops, q, end.tracks[q], |end.bus.queues[q]|, q in end.bus.subscribers)
    decreases |ops|
  {
    if ops == [] {
      assert forall n :: 0 <= n <= |ops| ==> ops[..n] == [];
    } else {
      var init, op := ops[..|ops| - 1], ops[|ops| - 1];
      LosslessIfKeepsUp(s, init, q);
      RunFromLast(s, ops);
      var mid, end := RunFrom(s, init), RunFrom(s, ops);
      QueueMoves(mid, op, q);
      assert Faithful(mid.emitted, mid.bus.queues[q], mid.tracks[q], q in mid.bus.subscribers);
      StaysAbreast(ops, q, mid.tracks[q], |mid.bus.queues[q]|, q in mid.bus.subscribers,
                   end.tracks[q], |end.bus.queues[q]|, q in end.bus.subscribers);
    }
  }

  // ---------------------------------------------------------------- a stream client

  /** The events `sent` were emitted at the positions `at`, one after the other. */
  predicate Received(emitted: seq<Event>, at: seq<nat>, sent: seq<Event>) {
    && |sent| == |at| && Rising(at)
    && forall i :: 0 <= i < |at| ==> at[i] < |emitted| && sent[i] == emitted[at[i]]
  }

  /** What a client is sent that connects after `before`, gets the replay, subscribes as `q` after `during` and stays
      for `after`: events at strictly rising positions. It misses nothing from the start of the replay on exactly
      when nothing was emitted before it subscribed and it kept up ever since. */
  lemma StreamClient(before: seq<Op>, during: seq<Op>, q: QueueId, after: seq<Op>, lastEventId: string)
    requires q !in RunFrom(RunFrom(EMPTY, before), during).bus.queues
    ensures var atConnect := RunFrom(EMPTY, before);
            var atSubscribe := RunFrom(atConnect, during);
            var end := RunFrom(Do(atSubscribe, DoSubscribe(q)), after);
            var replay, h := Replay(atConnect.bus.history, lastEventId), |atConnect.emitted|;
            && |replay| <= h && q in end.tracks && h <= end.tracks[q].next <= |end.emitted|
            && var t, from := end.tracks[q], h - |replay|;
               var at := Range(from, h) + t.got;
            && Received(end.emitted, at, replay + t.out)
            && (at == Range(from, t.next) <==> |atSubscribe.emitted| == h && KeepsUp(after, q))
            && (at == Range(from, t.next) ==> replay + t.out == end.emitted[from..t.next])
  {
    var atConnect := RunFrom(EMPTY, before);
    var atSubscribe := RunFrom(atConnect, during);
    ClientJoins(atConnect, during, q, after);
    var end := RunFrom(Do(atSubscribe, DoSubscribe(q)), after);
    SentToClient(atConnect, |atSubscribe.emitted|, end, q, after, lastEventId);
  }

  lemma ClientJoins(atConnect: State, during: seq<Op>, q: QueueId, after: seq<Op>)
    requires Inv(atConnect) && q !in RunFrom(atConnect, during).bus.queues
    ensures var atSubscribe := RunFrom(atConnect, during);
            var end := RunFrom(Do(atSubscribe, DoSubscribe(q)), after);
            && atConnect.emitted <= end.emitted && q in end.tracks
            && |atConnect.emitted| <= |atSubscribe.emitted| == end.tracks[q].since
            && Abreast(after, q, end.tracks[q], |end.bus.queues[q]|, q in end.bus.subscribers)
  {
    var joined := Do(RunFrom(atConnect, during), DoSubscribe(q));
    RunGrows(atConnect, during);
    RunGrows(joined, after);
    LosslessIfKeepsUp(joined, after, q);
  }

  /** The event at position `p` has the identifier. */
  predicate Identifies(emitted: seq<Event>, p: nat, id: string) {
    id != "" && p < |emitted| && emitted[p].correlationId == Some(id)
  }

  /** A client whose last event was emitted at position `p`: that event is still in the history, and no event before
      it there has the same identifier. */
  predicate Resumable(emitted: seq<Event>, p: nat, id: string) {
    && p < |emitted| <= p + MAX_HISTORY
    && forall i :: 0 <= i < p && |emitted| <= i + MAX_HISTORY ==> emitted[i].correlationId != Some(id)
  }

  /** Where the first match is, the replay starts. */
  lemma {:induction false} FirstMatch(history: seq<Event>, id: string, i: nat)
    requires i < |history| && history[i].correlationId == Some(id)
    ensures |AfterFirst(history, id)| >= |history| - i - 1
    ensures |AfterFirst(history, id)| == |history| - i - 1 <==>
            forall j :: 0 <= j < i ==> history[j].correlationId != Some(id)
  {
    if history[0].correlationId != Some(id) {
      assert history[1..][i - 1] == history[i];
      FirstMatch(history[1..], id, i - 1);
      if forall j :: 0 <= j < i - 1 ==> history[1..][j].correlationId != Some(id) {
        forall j | 0 <= j < i ensures history[j].correlationId != Some(id) {
          if j > 0 { assert history[1..][j - 1] == history[j]; }
        }
      }
    }
  }

  lemma {:induction false} MatchIsDropped(history: seq<Event>, id: string)
    requires history != []
    ensures |AfterFirst(history, id)| < |history|
  {
    if history[0].correlationId != Some(id) && |history| > 1 { MatchIsDropped(history[1..], id); }
  }

  /** The replay resumes right after the client's last event exactly if that is resumable. Otherwise it sends events
      again that the client has seen, or, if the identifier has left the history, skips everything up to now. */
  lemma ReplayResumes(emitted: seq<Event>, p: nat, id: string)
    requires Identifies(emitted, p, id)
    ensures var replay := Replay(LastN(emitted, MAX_HISTORY), id);
            |replay| <= |emitted| && (|emitted| - |replay| == p + 1 <==> Resumable(emitted, p, id))
  {
    var history := LastN(emitted, MAX_HISTORY);
    var gone := |emitted| - |history|;
    ReplayIsSuffix(history, id);
    assert forall j :: 0 <= j < |history| ==> history[j] == emitted[gone + j];
    if p >= gone {
      FirstMatch(history, id, p - gone);
      SameMatches(emitted, history, gone, p, id);
    } else {
      MatchIsDropped(history, id);
    }
  }

  lemma SameMatches(emitted: seq<Event>, history: seq<Event>, gone: nat, p: nat, id: string)
    requires gone <= p < |emitted| && history == emitted[gone..] && history == LastN(emitted, MAX_HISTORY)
    ensures Resumable(emitted, p, id) <==>
            forall j :: 0 <= j < p - gone ==> history[j].correlationId != Some(id)
  {
    if forall j :: 0 <= j < p - gone ==> history[j].correlationId != Some(id) {
      forall i | 0 <= i < p && |emitted| <= i + MAX_HISTORY ensures emitted[i].correlationId != Some(id) {
        assert history[i - gone] == emitted[i];
      }
    }
  }

  /** A client that names no event is sent the last 500 emissions. */
  lemma FreshClientGetsHistory(emitted: seq<Event>)
    ensures Replay(LastN(emitted, MAX_HISTORY), "") == emitted[if |emitted| <= 500 then 0 else |emitted| - 500..]
  {
  }

  /** Two steps of one investigation have the same identifier: a client that saw both is sent the second again. */
  lemma SharedIdentifierRepeats(id: string, first: string, second: string)
    requires id != ""
    ensures var emitted := [Event(Some(id), first), Event(Some(id), second)];
            !Resumable(emitted, 1, id) && Replay(LastN(emitted, MAX_HISTORY), id) == [emitted[1]]
  {
    var emitted := [Event(Some(id), first), Event(Some(id), second)];
    assert emitted[0].correlationId == Some(id) && |emitted| <= 0 + MAX_HISTORY;
    assert emitted[1..] == [emitted[1]];
  }

  /** A client that was away for 500 events is sent none of them. */
  lemma ForgottenIdentifierSkips(id: string, body: string, others: seq<Event>)
    requires id != "" && |others| == MAX_HISTORY
    requires forall i :: 0 <= i < |others| ==> others[i].correlationId != Some(id)
    ensures var emitted := [Event(Some(id), body)] + others;
            !Resumable(emitted, 0, id) && Replay(LastN(emitted, MAX_HISTORY), id) == []
  {
    assert LastN([Event(Some(id), body)] + others, MAX_HISTORY) == others;
    NoMatch(others, id);
  }

  lemma {:induction false} NoMatch(history: seq<Event>, id: string)
    requires forall i :: 0 <= i < |history| ==> history[i].correlationId != Some(id)
    ensures AfterFirst(history, id) == []
  {
    if history != [] { NoMatch(history[1..], id); }
  }

  /** Sent `replay` and then what its queue delivered, a client that had seen the event at `p` receives every later
      event exactly once, and nothing else, if and only if its position is resumable, nothing was emitted between the
      snapshot and its subscription at `joined`, and it is never more than 100 events behind. */
  predicate SentOnceIff(past: seq<Event>, joined: nat, emitted: seq<Event>, t: Track, after: seq<Op>, q: QueueId,
                        p: nat, id: string)
  {
    var replay, h := Replay(LastN(past, MAX_HISTORY), id), |past|;
    && |replay| <= h && p + 1 <= t.next <= |emitted|
    && var at := Range(h - |replay|, h) + t.got;
    && Received(emitted, at, replay + t.out)
    && (at == Range(p + 1, t.next) <==> Resumable(past, p, id) && joined == h && KeepsUp(after, q))
  }

  /** Over every run: a client that reconnects with the identifier of the event at `p`. */
  lemma ResumedClient(before: seq<Op>, during: seq<Op>, q: QueueId, after: seq<Op>, p: nat, id: string)
    requires q !in RunFrom(RunFrom(EMPTY, before), during).bus.queues
    ensures var atConnect := RunFrom(EMPTY, before);
            var atSubscribe := RunFrom(atConnect, during);
            var end := RunFrom(Do(atSubscribe, DoSubscribe(q)), after);
            && atConnect.bus.history == LastN(atConnect.emitted, MAX_HISTORY) && q in end.tracks
            && (Identifies(atConnect.emitted, p, id) ==>
                  SentOnceIff(atConnect.emitted, |atSubscribe.emitted|, end.emitted, end.tracks[q], after, q, p, id))
  {
    var atConnect := RunFrom(EMPTY, before);
    var atSubscribe := RunFrom(atConnect, during);
    ClientJoins(atConnect, during, q, after);
    if Identifies(atConnect.emitted, p, id) {
      var end := RunFrom(Do(atSubscribe, DoSubscribe(q)), after);
      SentToResumed(atConnect, |atSubscribe.emitted|, end, q, after, p, id);
    }
  }

  lemma SentToResumed(atConnect: State, joined: nat, end: State, q: QueueId, after: seq<Op>, p: nat, id: string)
    requires Inv(end) && atConnect.emitted <= end.emitted && q in end.tracks
    requires |atConnect.emitted| <= joined == end.tracks[q].since
    requires Abreast(after, q, end.tracks[q], |end.bus.queues[q]|, q in end.bus.subscribers)
    requires Identifies(atConnect.emitted, p, id)
    ensures SentOnceIff(atConnect.emitted, joined, end.emitted, end.tracks[q], after, q, p, id)
  {
    assert Faithful(end.emitted, end.bus.queues[q], end.tracks[q], q in end.bus.subscribers);
    ResumedTail(atConnect.emitted, end.emitted, end.bus.queues[q], end.tracks[q], q in end.bus.subscribers, p, id);
  }

  lemma ResumedTail(past: seq<Event>, emitted: seq<Event>, items: seq<Event>, t: Track, on: bool, p: nat, id: string)
    requires past <= emitted && |past| <= t.since && Faithful(emitted, items, t, on)
    requires Identifies(past, p, id)
    ensures var replay, h := Replay(LastN(past, MAX_HISTORY), id), |past|;
            && |replay| <= h <= t.next <= |emitted|
            && var at := Range(h - |replay|, h) + t.got;
            && Received(emitted, at, replay + t.out)
            && (at == Range(p + 1, t.next) <==> Resumable(past, p, id) && t.since == h && Lossless(t))
  {
    StreamTail(past, emitted, items, t, on, id);
    ReplayResumes(past, p, id);
    StartsAt(|past|, |past| - |Replay(LastN(past, MAX_HISTORY), id)|, p, t);
  }

  /** Positions that start the replay elsewhere are not those after `p`. */
  lemma StartsAt(h: nat, from: nat, p: nat, t: Track)
    requires from <= h <= t.since <= t.next && p + 1 <= h
    requires forall i :: 0 <= i < |t.got| ==> t.since <= t.got[i] < t.next
    ensures Range(from, h) + t.got == Range(p + 1, t.next) ==> from == p + 1
  {
    var at, all := Range(from, h) + t.got, Range(p + 1, t.next);
    if at == all {
      if p + 1 < t.next {
        assert all[0] == p + 1;
        if from < h { assert at[0] == from; } else { assert at[0] == t.got[0]; }
      } else {
        assert |at| == 0;
      }
    }
  }

  lemma SentToClient(atConnect: State, joined: nat, end: State, q: QueueId, after: seq<Op>, lastEventId: string)
    requires Inv(atConnect) && Inv(end) && atConnect.emitted <= end.emitted && q in end.tracks
    requires |atConnect.emitted| <= joined == end.tracks[q].since
    requires Abreast(after, q, end.tracks[q], |end.bus.queues[q]|, q in end.bus.subscribers)
    ensures var replay, h := Replay(atConnect.bus.history, lastEventId), |atConnect.emitted|;
            && |replay| <= h && h <= end.tracks[q].next <= |end.emitted|
            && var t, from := end.tracks[q], h - |replay|;
               var at := Range(from, h) + t.got;
            && Received(end.emitted, at, replay + t.out)
            && (at == Range(from, t.next) <==> joined == h && KeepsUp(after, q))
            && (at == Range(from, t.next) ==> replay + t.out == end.emitted[from..t.next])
  {
    assert Faithful(end.emitted, end.bus.queues[q], end.tracks[q], q in end.bus.subscribers);
    StreamTail(atConnect.emitted, end.emitted, end.bus.queues[q], end.tracks[q], q in end.bus.subscribers, lastEventId);
  }

  lemma StreamTail(past: seq<Event>, emitted: seq<Event>, items: seq<Event>, t: Track, on: bool, lastEventId: string)
    requires past <= emitted && |past| <= t.since && Faithful(emitted, items, t, on)
    ensures var replay, h := Replay(LastN(past, MAX_HISTORY), lastEventId), |past|;
            && |replay| <= h <= t.next <= |emitted|
            && var from := h - |replay|; var at := Range(from, h) + t.got;
            && Received(emitted, at, replay + t.out)
            && (at == Range(from, t.next) <==> t.since == h && Lossless(t))
            && (at == Range(from, t.next) ==> replay + t.out == emitted[from..t.next])
  {
    ReplayPlace(past, emitted, lastEventId);
    Contiguous(t.got, t.since, t.next, |past|);
    Joined(emitted, Replay(LastN(past, MAX_HISTORY), lastEventId), |past|, t);
  }

  lemma Joined(emitted: seq<Event>, replay: seq<Event>, h: nat, t: Track)
    requires |replay| <= h <= t.since <= t.next <= |emitted| && replay == emitted[h - |replay|..h]
    requires Rising(t.got) && forall i :: 0 <= i < |t.got| ==> t.since <= t.got[i] < t.next
    requires |t.out| == |t.got| && forall i :: 0 <= i < |t.got| ==> t.out[i] == emitted[t.got[i]]
    ensures var from := h - |replay|; var at := Range(from, h) + t.got;
            && Received(emitted, at, replay + t.out)
            && (at == Range(from, t.next) <==> t.got == Range(h, t.next))
            && (at == Range(from, t.next) ==> replay + t.out == emitted[from..t.next])
  {
    var from := h - |replay|;
    var at := Range(from, h) + t.got;
    RangeSplit(from, h, t.next, t.got);
    assert Rising(at);
    forall i | 0 <= i < |at| ensures at[i] < |emitted| && (replay + t.out)[i] == emitted[at[i]] {
      if i < |replay| { assert replay[i] == emitted[from + i]; }
    }
    if at == Range(from, t.next) { Everything(emitted, from, t.next, replay + t.out); }
  }

  lemma RangeSplit(a: nat, b: nat, c: nat, got: seq<nat>)
    requires a <= b <= c
    ensures Range(a, b) + got == Range(a, c) <==> got == Range(b, c)
  {
    assert Range(a, b) + Range(b, c) == Range(a, c);
    if Range(a, b) + got == Range(a, c) {
      assert got == (Range(a, b) + got)[b - a..];
      assert Range(b, c) == (Range(a, b) + Range(b, c))[b - a..];
    }
  }

  lemma Everything(emitted: seq<Event>, a: nat, b: nat, sent: seq<Event>)
    requires a <= b <= |emitted| && Received(emitted, Range(a, b), sent)
    ensures sent == emitted[a..b]
  {
    forall i | 0 <= i < |sent| ensures sent[i] == emitted[a..b][i] { assert Range(a, b)[i] == a + i; }
  }

  lemma ReplayPlace(emitted: seq<Event>, later: seq<Event>, lastEventId: string)
    requires emitted <= later
    ensures var replay, h := Replay(LastN(emitted, MAX_HISTORY), lastEventId), |emitted|;
            |replay| <= h && replay == later[h - |replay|..h]
  {
    var history := LastN(emitted, MAX_HISTORY);
    ReplayIsSuffix(history, lastEventId);
    TailOfTail(emitted, later, history, Replay(history, lastEventId));
  }

  lemma TailOfTail(s: seq<Event>, later: seq<Event>, tail: seq<Event>, end: seq<Event>)
    requires s <= later && |end| <= |tail| <= |s|
    requires tail == s[|s| - |tail|..] && end == tail[|tail| - |end|..]
    ensures end == later[|s| - |end|..|s|]
  {
  }

  lemma Contiguous(got: seq<nat>, since: nat, next: nat, h: nat)
    requires h <= since <= next && Rising(got) && |got| <= next - since
    requires forall i :: 0 <= i < |got| ==> since <= got[i] < next
    ensures got == Range(h, next) <==> since == h && |got| == next - since
  {
    if since == h && |got| == next - since { NothingMissed(got, since, next); }
  }
}
