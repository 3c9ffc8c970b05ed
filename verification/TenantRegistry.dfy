/** The double-checked TTL cache of tenant configurations, as a protocol of any number of threads
    over a reader/writer lock, a database that changes underneath, and a clock that only advances. */
module TenantRegistry {
  import opened Common

  type Tenant = string
  type Thread = int
  type Time = int

  /** A registry row. `secret` is the decoded webhook secret, absent when its text is not hexadecimal. */
  datatype Row = Row(secret: Option<seq<int>>, database: string, llmKey: string)

  datatype Config = Config(tenant: Tenant, secret: seq<int>, database: string, llmKey: string, updatedAt: Time)

  type Database = map<Tenant, Row>

  /** Where a thread stands inside `FetchConfig`. */
  datatype Position =
    | Idle
    | Entered(tenant: Tenant)
    | Reading(tenant: Tenant)
    | Checking(tenant: Tenant, seen: Option<Config>)
    | Waiting(tenant: Tenant)
    | Locked(tenant: Tenant)
    | Loading(tenant: Tenant, since: Time, begun: nat)
    | Loaded(tenant: Tenant, since: Time, begun: nat, readAt: nat, row: Row)

  /** A load that stored `config`: instants are positions in the history of the database. */
  datatype Load = Load(tenant: Tenant, begun: nat, readAt: nat, storedAt: nat, config: Config)

  datatype Answer = Answer(tenant: Tenant, config: Config, checkedAt: Time, loaded: bool)

  /** What all threads share. The history variables are `past`, the database after every step so far,
      `loads`, `latest`, the load behind each cache entry, and `answers`. */
  datatype Shared = Shared(
    db: Database, clock: Time, cache: map<Tenant, Config>,
    past: seq<Database>, loads: seq<Load>, latest: map<Tenant, nat>, answers: seq<Answer>)

  datatype Locks = Locks(readers: set<Thread>, writer: Option<Thread>)

  datatype State = State(shared: Shared, locks: Locks, at: map<Thread, Position>)

  datatype Local = Local(shared: Shared, locks: Locks, pos: Position)

  predicate Fresh(ttl: Time, clock: Time, c: Config) { clock - c.updatedAt < ttl }

  function Lookup(cache: map<Tenant, Config>, t: Tenant): Option<Config> {
    if t in cache then Some(cache[t]) else None
  }

  function Reply(sh: Shared, a: Answer): Shared { sh.(answers := sh.answers + [a]) }

  /** Stamps the configuration with the current time, files it and answers with it. */
  function Filed(sh: Shared, p: Position): Shared
    requires p.Loaded? && p.row.secret.Some? && sh.past != []
  {
    var c := Config(p.tenant, p.row.secret.value, p.row.database, p.row.llmKey, sh.clock);
    Reply(sh, Answer(p.tenant, c, sh.clock, true)).(
      cache := sh.cache[p.tenant := c],
      loads := sh.loads + [Load(p.tenant, p.begun, p.readAt, |sh.past| - 1, c)],
      latest := sh.latest[p.tenant := |sh.loads|])
  }

  /** The next atomic action of thread `th` at position `p`. `call` is the tenant of a new call and
      `fails` the outcome of a query; a thread that must wait for a lock does not move. */
  function Advance(ttl: Time, sh: Shared, lk: Locks, th: Thread, p: Position, call: Tenant, fails: bool): Local
    requires sh.past != []
  {
    match p
    case Idle => Local(sh, lk, Entered(call))
    case Entered(t) =>
      if lk.writer.None? then Local(sh, lk.(readers := lk.readers + {th}), Reading(t)) else Local(sh, lk, p)
    case Reading(t) => Local(sh, lk.(readers := lk.readers - {th}), Checking(t, Lookup(sh.cache, t)))
    case Checking(t, seen) =>
      if seen.Some? && Fresh(ttl, sh.clock, seen.value)
      then Local(Reply(sh, Answer(t, seen.value, sh.clock, false)), lk, Idle)
      else Local(sh, lk, Waiting(t))
    case Waiting(t) =>
      if lk.writer.None? && lk.readers == {} then Local(sh, lk.(writer := Some(th)), Locked(t)) else Local(sh, lk, p)
    case Locked(t) =>
      if t in sh.cache && Fresh(ttl, sh.clock, sh.cache[t])
      then Local(Reply(sh, Answer(t, sh.cache[t], sh.clock, false)), lk.(writer := None), Idle)
      else Local(sh, lk, Loading(t, sh.clock, |sh.past| - 1))
    case Loading(t, since, begun) =>
      if !fails && t in sh.db
      then Local(sh, lk, Loaded(t, since, begun, |sh.past| - 1, sh.db[t]))
      else Local(sh, lk.(writer := None), Idle)
    case Loaded(t, since, begun, readAt, row) =>
      Local(if row.secret.Some? then Filed(sh, p) else sh, lk.(writer := None), Idle)
  }

  datatype Step = Move(th: Thread, call: Tenant, fails: bool) | Tick(duration: nat) | Change(db: Database)

  function Where(at: map<Thread, Position>, th: Thread): Position { if th in at then at[th] else Idle }

  function Remember(sh: Shared): Shared { sh.(past := sh.past + [sh.db]) }

  function Apply(ttl: Time, s: State, step: Step): (s': State)
    requires s.shared.past != []
    ensures s'.shared.past == s.shared.past + [s'.shared.db]
  {
    match step
    case Move(th, call, fails) =>
      var l := Advance(ttl, s.shared, s.locks, th, Where(s.at, th), call, fails);
      State(Remember(l.shared), l.locks, s.at[th := l.pos])
    case Tick(d) => s.(shared := Remember(s.shared.(clock := s.shared.clock + d)))
    case Change(db) => s.(shared := Remember(s.shared.(db := db)))
  }

  function Init(db: Database, clock: Time): State {
    State(Shared(db, clock, map[], [db], [], map[], []), Locks({}, None), map[])
  }

  /** The state after any interleaving of thread actions, clock ticks and database changes. */
  function Run(ttl: Time, db: Database, clock: Time, steps: seq<Step>): (s: State)
    ensures |s.shared.past| == |steps| + 1 && s.shared.past[|steps|] == s.shared.db
  {
    if steps == [] then Init(db, clock)
    else Apply(ttl, Run(ttl, db, clock, steps[..|steps| - 1]), steps[|steps| - 1])
  }

  // ---------------------------------------------------------------- invariant

  predicate HoldsWrite(p: Position) { p.Locked? || p.Loading? || p.Loaded? }

  ghost predicate Locking(lk: Locks, at: map<Thread, Position>) {
    && (forall th :: th in lk.readers <==> Where(at, th).Reading?)
    && (forall th :: HoldsWrite(Where(at, th)) <==> lk.writer == Some(th))
    && (lk.writer.Some? ==> lk.readers == {})
  }

  predicate Copies(c: Config, t: Tenant, row: Row) {
    row.secret.Some? && c.tenant == t && c.secret == row.secret.value
    && c.database == row.database && c.llmKey == row.llmKey
  }

  /** The load read the row at an instant between its beginning and its store. */
  predicate Genuine(past: seq<Database>, l: Load) {
    && l.begun <= l.readAt <= l.storedAt < |past|
    && l.tenant in past[l.readAt] && Copies(l.config, l.tenant, past[l.readAt][l.tenant])
  }

  /** Loads are in time order, and those of one tenant lie at least `ttl` apart. */
  predicate Spaced(ttl: Time, loads: seq<Load>) {
    forall i, j :: 0 <= i < j < |loads| ==> Apart(ttl, loads[i], loads[j])
  }

  predicate Apart(ttl: Time, l: Load, m: Load) {
    && l.config.updatedAt <= m.config.updatedAt
    && (l.tenant == m.tenant ==> m.config.updatedAt - l.config.updatedAt >= ttl)
  }

  /** Every cache entry is the configuration stored by the last load of its tenant. */
  ghost predicate Filing(cache: map<Tenant, Config>, latest: map<Tenant, nat>, loads: seq<Load>) {
    && cache.Keys == latest.Keys
    && (forall t :: t in latest ==>
          latest[t] < |loads| && loads[latest[t]].tenant == t && loads[latest[t]].config == cache[t])
    && (forall i :: 0 <= i < |loads| ==> loads[i].tenant in latest && i <= latest[loads[i].tenant])
  }

  ghost predicate Stored(ttl: Time, sh: Shared) {
    && sh.past != [] && sh.past[|sh.past| - 1] == sh.db
    && (forall i :: 0 <= i < |sh.loads| ==> Genuine(sh.past, sh.loads[i]))
    && (forall i :: 0 <= i < |sh.loads| ==> sh.loads[i].config.updatedAt <= sh.clock)
    && Spaced(ttl, sh.loads)
    && Filing(sh.cache, sh.latest, sh.loads)
  }

  predicate Known(loads: seq<Load>, t: Tenant, c: Config) {
    exists i :: 0 <= i < |loads| && loads[i].tenant == t && loads[i].config == c
  }

  predicate Stale(ttl: Time, cache: map<Tenant, Config>, t: Tenant, since: Time) {
    t in cache ==> !Fresh(ttl, since, cache[t])
  }

  predicate Sound(ttl: Time, sh: Shared, p: Position) {
    match p
    case Checking(t, seen) => seen.Some? ==> Known(sh.loads, t, seen.value)
    case Loading(t, since, begun) => since <= sh.clock && begun < |sh.past| && Stale(ttl, sh.cache, t, since)
    case Loaded(t, since, begun, readAt, row) =>
      && since <= sh.clock && begun <= readAt < |sh.past| && Stale(ttl, sh.cache, t, since)
      && t in sh.past[readAt] && sh.past[readAt][t] == row
    case _ => true
  }

  predicate Honest(ttl: Time, loads: seq<Load>, a: Answer) {
    && Known(loads, a.tenant, a.config)
    && (if a.loaded then a.checkedAt == a.config.updatedAt else Fresh(ttl, a.checkedAt, a.config))
  }

  ghost predicate AllHonest(ttl: Time, sh: Shared) {
    forall i :: 0 <= i < |sh.answers| ==> Honest(ttl, sh.loads, sh.answers[i])
  }

  ghost predicate Inv(ttl: Time, s: State) {
    && Locking(s.locks, s.at)
    && Stored(ttl, s.shared)
    && (forall th :: Sound(ttl, s.shared, Where(s.at, th)))
    && AllHonest(ttl, s.shared)
  }

  // ---------------------------------------------------------------- one step

  /** At most one thread holds the write lock, and none reads meanwhile. */
  lemma LockingKept(ttl: Time, sh: Shared, lk: Locks, at: map<Thread, Position>, th: Thread, call: Tenant, fails: bool)
    requires sh.past != [] && Locking(lk, at)
    ensures var l := Advance(ttl, sh, lk, th, Where(at, th), call, fails);
            Locking(l.locks, at[th := l.pos])
  {
    var p := Where(at, th);
    var l := Advance(ttl, sh, lk, th, p, call, fails);
    assert Where(at[th := l.pos], th) == l.pos;
    assert forall o :: o != th ==> Where(at[th := l.pos], o) == Where(at, o);
    assert HoldsWrite(p) <==> lk.writer == Some(th);
    assert th in lk.readers <==> p.Reading?;
    TurnOfLocks(ttl, sh, lk, th, p, call, fails);
  }

  /** What one action may do to the locks. */
  lemma TurnOfLocks(ttl: Time, sh: Shared, lk: Locks, th: Thread, p: Position, call: Tenant, fails: bool)
    requires sh.past != []
    requires HoldsWrite(p) <==> lk.writer == Some(th)
    requires th in lk.readers <==> p.Reading?
    requires lk.writer.Some? ==> lk.readers == {}
    ensures var l := Advance(ttl, sh, lk, th, p, call, fails);
            && l.locks.readers == (if l.pos.Reading? then lk.readers + {th} else lk.readers - {th})
            && (if HoldsWrite(l.pos) then l.locks.writer == Some(th) && (HoldsWrite(p) || lk.writer.None?)
                else l.locks.writer == if HoldsWrite(p) then None else lk.writer)
            && (l.locks.writer.Some? ==> l.locks.readers == {})
  {
    match p
    case Idle =>
    case Entered(t) =>
    case Reading(t) =>
    case Checking(t, seen) =>
    case Waiting(t) =>
    case Locked(t) =>
    case Loading(t, since, begun) =>
    case Loaded(t, since, begun, readAt, row) =>
  }

  lemma KnownGrows(loads: seq<Load>, more: seq<Load>, t: Tenant, c: Config)
    requires loads <= more && Known(loads, t, c)
    ensures Known(more, t, c)
  {
    var i :| 0 <= i < |loads| && loads[i].tenant == t && loads[i].config == c;
    assert more[i].tenant == t && more[i].config == c;
  }

  lemma CachedIsKnown(ttl: Time, sh: Shared, t: Tenant)
    requires Stored(ttl, sh) && t in sh.cache
    ensures Known(sh.loads, t, sh.cache[t])
  {
    assert t in sh.latest;
    assert sh.loads[sh.latest[t]].tenant == t && sh.loads[sh.latest[t]].config == sh.cache[t];
  }

  /** Time passing, the database changing and other threads' loads leave a position sound; a thread
      inside a load relies on the cache not changing under it. */
  lemma SoundKept(ttl: Time, sh: Shared, sh': Shared, p: Position)
    requires Sound(ttl, sh, p)
    requires sh.clock <= sh'.clock && sh.past <= sh'.past && sh.loads <= sh'.loads
    requires HoldsWrite(p) ==> sh'.cache == sh.cache
    ensures Sound(ttl, sh', p)
  {
    match p
    case Checking(t, seen) => if seen.Some? { KnownGrows(sh.loads, sh'.loads, t, seen.value); }
    case Loading(t, since, begun) =>
    case Loaded(t, since, begun, readAt, row) => assert sh'.past[readAt] == sh.past[readAt];
    case _ =>
  }

  lemma SpacedAppend(ttl: Time, loads: seq<Load>, l: Load)
    requires Spaced(ttl, loads) && forall i :: 0 <= i < |loads| ==> Apart(ttl, loads[i], l)
    ensures Spaced(ttl, loads + [l])
  {
    var more := loads + [l];
    forall i, j | 0 <= i < j < |more| ensures Apart(ttl, more[i], more[j]) {
      assert j < |loads| ==> Apart(ttl, loads[i], loads[j]);
      assert i < |loads| && Apart(ttl, loads[i], l);
    }
  }

  lemma FilingAppend(cache: map<Tenant, Config>, latest: map<Tenant, nat>, loads: seq<Load>, l: Load)
    requires Filing(cache, latest, loads)
    ensures Filing(cache[l.tenant := l.config], latest[l.tenant := |loads|], loads + [l])
  {
    assert cache[l.tenant := l.config].Keys == latest[l.tenant := |loads|].Keys;
  }

  /** A load that found its tenant stale lies a full `ttl` after every earlier load of the tenant. */
  lemma ApartFromEarlier(ttl: Time, sh: Shared, since: Time, l: Load, i: nat)
    requires Stored(ttl, sh) && Stale(ttl, sh.cache, l.tenant, since) && since <= sh.clock == l.config.updatedAt
    requires i < |sh.loads|
    ensures Apart(ttl, sh.loads[i], l)
  {
    if sh.loads[i].tenant == l.tenant {
      var k := sh.latest[l.tenant];
      assert i < k ==> Apart(ttl, sh.loads[i], sh.loads[k]);
      assert sh.loads[k].config == sh.cache[l.tenant];
    }
  }

  /** A store by the only thread inside a load keeps the books right. */
  lemma FiledKeepsStored(ttl: Time, sh: Shared, p: Position)
    requires Stored(ttl, sh) && p.Loaded? && p.row.secret.Some? && Sound(ttl, sh, p)
    ensures Stored(ttl, Filed(sh, p))
    ensures Known(Filed(sh, p).loads, p.tenant, Filed(sh, p).cache[p.tenant])
  {
    var sh', n := Filed(sh, p), |sh.loads|;
    var l := sh'.loads[n];
    assert Genuine(sh'.past, l);
    forall i | 0 <= i < n ensures Apart(ttl, sh.loads[i], l) { ApartFromEarlier(ttl, sh, p.since, l, i); }
    SpacedAppend(ttl, sh.loads, l);
    FilingAppend(sh.cache, sh.latest, sh.loads, l);
  }

  lemma RememberKeepsStored(ttl: Time, sh: Shared)
    requires sh.past != []
    requires forall i :: 0 <= i < |sh.loads| ==> Genuine(sh.past, sh.loads[i])
    requires forall i :: 0 <= i < |sh.loads| ==> sh.loads[i].config.updatedAt <= sh.clock
    requires Spaced(ttl, sh.loads) && Filing(sh.cache, sh.latest, sh.loads)
    ensures Stored(ttl, Remember(sh))
  {
    var sh' := Remember(sh);
    forall i | 0 <= i < |sh.loads| ensures Genuine(sh'.past, sh'.loads[i]) {
      assert Genuine(sh.past, sh.loads[i]);
      assert sh'.past[sh.loads[i].readAt] == sh.past[sh.loads[i].readAt];
    }
  }

  /** How the shared state may change in one action. */
  ghost predicate Extends(ttl: Time, sh: Shared, sh': Shared) {
    && Stored(ttl, sh')
    && sh'.clock == sh.clock && sh'.past == sh.past && sh.loads <= sh'.loads && sh.answers <= sh'.answers
    && |sh'.answers| <= |sh.answers| + 1
    && (|sh'.answers| > |sh.answers| ==> Honest(ttl, sh'.loads, sh'.answers[|sh.answers|]))
  }

  lemma ReplyExtends(ttl: Time, sh: Shared, a: Answer)
    requires Stored(ttl, sh) && Honest(ttl, sh.loads, a)
    ensures Extends(ttl, sh, Reply(sh, a))
  {
  }

  lemma FiledExtends(ttl: Time, sh: Shared, p: Position)
    requires Stored(ttl, sh) && p.Loaded? && p.row.secret.Some? && Sound(ttl, sh, p)
    ensures Extends(ttl, sh, Filed(sh, p))
  {
    FiledKeepsStored(ttl, sh, p);
  }

  lemma TurnOfShared(ttl: Time, sh: Shared, lk: Locks, th: Thread, p: Position, call: Tenant, fails: bool)
    requires Stored(ttl, sh) && Sound(ttl, sh, p)
    ensures Extends(ttl, sh, Advance(ttl, sh, lk, th, p, call, fails).shared)
  {
    if p.Checking? {
      if p.seen.Some? && Fresh(ttl, sh.clock, p.seen.value) {
        ReplyExtends(ttl, sh, Answer(p.tenant, p.seen.value, sh.clock, false));
      }
    } else if p.Locked? {
      if p.tenant in sh.cache && Fresh(ttl, sh.clock, sh.cache[p.tenant]) {
        CachedIsKnown(ttl, sh, p.tenant);
        ReplyExtends(ttl, sh, Answer(p.tenant, sh.cache[p.tenant], sh.clock, false));
      }
    } else if p.Loaded? {
      if p.row.secret.Some? { FiledExtends(ttl, sh, p); }
    } else {
      assert Advance(ttl, sh, lk, th, p, call, fails).shared == sh;
    }
  }

  lemma TurnOfPosition(ttl: Time, sh: Shared, lk: Locks, th: Thread, p: Position, call: Tenant, fails: bool)
    requires Stored(ttl, sh) && Sound(ttl, sh, p)
    ensures var l := Advance(ttl, sh, lk, th, p, call, fails);
            Sound(ttl, l.shared, l.pos) && (p.Loaded? || l.shared.cache == sh.cache)
  {
    if p.Reading? && p.tenant in sh.cache { CachedIsKnown(ttl, sh, p.tenant); }
  }

  lemma HonestGrows(ttl: Time, sh: Shared, sh': Shared)
    requires AllHonest(ttl, sh) && sh.loads <= sh'.loads && sh.answers <= sh'.answers
    requires |sh'.answers| <= |sh.answers| + 1
    requires |sh'.answers| > |sh.answers| ==> Honest(ttl, sh'.loads, sh'.answers[|sh.answers|])
    ensures AllHonest(ttl, sh')
  {
    forall i | 0 <= i < |sh'.answers| ensures Honest(ttl, sh'.loads, sh'.answers[i]) {
      if i < |sh.answers| {
        assert Honest(ttl, sh.loads, sh.answers[i]);
        KnownGrows(sh.loads, sh'.loads, sh.answers[i].tenant, sh.answers[i].config);
      }
    }
  }

  lemma MoveKeepsInv(ttl: Time, s: State, th: Thread, call: Tenant, fails: bool)
    requires Inv(ttl, s)
    ensures Inv(ttl, Apply(ttl, s, Move(th, call, fails)))
  {
    var sh, p := s.shared, Where(s.at, th);
    var l := Advance(ttl, sh, s.locks, th, p, call, fails);
    var s' := Apply(ttl, s, Move(th, call, fails));
    LockingKept(ttl, sh, s.locks, s.at, th, call, fails);
    TurnOfShared(ttl, sh, s.locks, th, p, call, fails);
    TurnOfPosition(ttl, sh, s.locks, th, p, call, fails);
    RememberKeepsStored(ttl, l.shared);
    HonestGrows(ttl, sh, s'.shared);
    forall o ensures Sound(ttl, s'.shared, Where(s'.at, o)) {
      if o == th {
        SoundKept(ttl, l.shared, s'.shared, l.pos);
      } else {
        assert Sound(ttl, sh, Where(s.at, o));
        assert p.Loaded? ==> !HoldsWrite(Where(s.at, o));
        SoundKept(ttl, sh, s'.shared, Where(s.at, o));
      }
    }
  }

  /** Every atomic action of every thread, of the clock and of the database keeps the invariant. */
  lemma ApplyKeepsInv(ttl: Time, s: State, step: Step)
    requires Inv(ttl, s)
    ensures Inv(ttl, Apply(ttl, s, step))
  {
    if step.Move? {
      MoveKeepsInv(ttl, s, step.th, step.call, step.fails);
    } else {
      var s' := Apply(ttl, s, step);
      RememberKeepsStored(ttl, if step.Tick? then s.shared.(clock := s.shared.clock + step.duration)
                               else s.shared.(db := step.db));
      HonestGrows(ttl, s.shared, s'.shared);
      forall o ensures Sound(ttl, s'.shared, Where(s'.at, o)) { SoundKept(ttl, s.shared, s'.shared, Where(s.at, o)); }
    }
  }

  lemma {:induction false} RunKeepsInv(ttl: Time, db: Database, clock: Time, steps: seq<Step>)
    ensures Inv(ttl, Run(ttl, db, clock, steps))
  {
    if steps != [] {
      RunKeepsInv(ttl, db, clock, steps[..|steps| - 1]);
      ApplyKeepsInv(ttl, Run(ttl, db, clock, steps[..|steps| - 1]), steps[|steps| - 1]);
    }
  }

  // ---------------------------------------------------------------- theorems over runs

  /** `past` really is the database along the run. */
  lemma {:induction false} PastIsTheRun(ttl: Time, db: Database, clock: Time, steps: seq<Step>, k: nat)
    requires k <= |steps|
    ensures Run(ttl, db, clock, steps).shared.past[k] == Run(ttl, db, clock, steps[..k]).shared.db
  {
    if k == |steps| {
      assert steps[..k] == steps;
    } else {
      var init := steps[..|steps| - 1];
      PastIsTheRun(ttl, db, clock, init, k);
      assert init[..k] == steps[..k];
    }
  }

  /** In every run, an answered configuration is the tenant's own row as the database held it at some
      instant of the load that stored it, and was younger than the time to live when it was checked. */
  lemma AnswersAreRegistryRows(ttl: Time, db: Database, clock: Time, steps: seq<Step>, i: nat)
    returns (l: Load)
    requires i < |Run(ttl, db, clock, steps).shared.answers|
    ensures var sh := Run(ttl, db, clock, steps).shared; var a := sh.answers[i];
            && l in sh.loads && l.tenant == a.tenant && l.config == a.config
            && l.begun <= l.readAt <= l.storedAt <= |steps|
            && a.tenant in Run(ttl, db, clock, steps[..l.readAt]).shared.db
            && Copies(a.config, a.tenant, Run(ttl, db, clock, steps[..l.readAt]).shared.db[a.tenant])
            && (if a.loaded then a.checkedAt == a.config.updatedAt else a.checkedAt - a.config.updatedAt < ttl)
  {
    RunKeepsInv(ttl, db, clock, steps);
    var sh := Run(ttl, db, clock, steps).shared;
    var a := sh.answers[i];
    assert Honest(ttl, sh.loads, a);
    var k :| 0 <= k < |sh.loads| && sh.loads[k].tenant == a.tenant && sh.loads[k].config == a.config;
    l := sh.loads[k];
    assert Genuine(sh.past, l);
    PastIsTheRun(ttl, db, clock, steps, l.readAt);
  }

  /** In every run, two loads of one tenant are stored at least one time to live apart. */
  lemma LoadsAreSpaced(ttl: Time, db: Database, clock: Time, steps: seq<Step>, i: nat, j: nat)
    requires i < j < |Run(ttl, db, clock, steps).shared.loads|
    requires Run(ttl, db, clock, steps).shared.loads[i].tenant == Run(ttl, db, clock, steps).shared.loads[j].tenant
    ensures var loads := Run(ttl, db, clock, steps).shared.loads;
            loads[j].config.updatedAt - loads[i].config.updatedAt >= ttl
  {
    RunKeepsInv(ttl, db, clock, steps);
    var loads := Run(ttl, db, clock, steps).shared.loads;
    assert Apart(ttl, loads[i], loads[j]);
  }

  /** Some action of the thread takes it to another position. */
  predicate CanMove(ttl: Time, s: State, th: Thread)
    requires s.shared.past != []
  {
    var p := Where(s.at, th);
    Advance(ttl, s.shared, s.locks, th, p, "", false).pos != p
  }

  lemma OnlyLocksBlock(ttl: Time, sh: Shared, lk: Locks, th: Thread, p: Position)
    requires sh.past != [] && Advance(ttl, sh, lk, th, p, "", false).pos == p
    ensures p.Entered? || p.Waiting?
    ensures lk.writer.Some? || lk.readers != {}
  {
    match p
    case Entered(t) => assert lk.writer.Some?;
    case Waiting(t) =>
    case _ =>
  }

  /** The calls never deadlock: in every run, a thread that cannot move waits for a lock whose holder can. */
  lemma NeverStuck(ttl: Time, db: Database, clock: Time, steps: seq<Step>, th: Thread) returns (other: Thread)
    ensures CanMove(ttl, Run(ttl, db, clock, steps), other)
    ensures var s := Run(ttl, db, clock, steps);
            other == th || (!CanMove(ttl, s, th) && (other in s.locks.readers || s.locks.writer == Some(other)))
  {
    RunKeepsInv(ttl, db, clock, steps);
    other := Unstuck(ttl, Run(ttl, db, clock, steps), th);
  }

  /** A lock that is held is held by a thread that does not wait for one. */
  lemma Holder(lk: Locks, at: map<Thread, Position>) returns (th: Thread)
    requires Locking(lk, at) && (lk.writer.Some? || lk.readers != {})
    ensures th in lk.readers || lk.writer == Some(th)
    ensures HoldsWrite(Where(at, th)) || Where(at, th).Reading?
  {
    if lk.writer.Some? {
      th := lk.writer.value;
    } else {
      assert (forall t :: t !in lk.readers) ==> lk.readers == {};
      th :| th in lk.readers;
    }
  }

  lemma HolderMoves(ttl: Time, sh: Shared, lk: Locks, th: Thread, p: Position)
    requires sh.past != [] && (HoldsWrite(p) || p.Reading?)
    ensures Advance(ttl, sh, lk, th, p, "", false).pos != p
  {
  }

  lemma Unstuck(ttl: Time, s: State, th: Thread) returns (other: Thread)
    requires s.shared.past != [] && Locking(s.locks, s.at)
    ensures CanMove(ttl, s, other)
    ensures other == th || (!CanMove(ttl, s, th) && (other in s.locks.readers || s.locks.writer == Some(other)))
  {
    other := th;
    if !CanMove(ttl, s, th) {
      OnlyLocksBlock(ttl, s.shared, s.locks, th, Where(s.at, th));
      other := Holder(s.locks, s.at);
      HolderMoves(ttl, s.shared, s.locks, other, Where(s.at, other));
    }
  }

  // ---------------------------------------------------------------- a call is answered

  /** The state after thread `th` alone takes `n` actions. */
  function Alone(ttl: Time, s: State, th: Thread, t: Tenant, fails: bool, n: nat): (s': State)
    requires s.shared.past != []
    ensures s'.shared.past != []
  {
    if n == 0 then s else Apply(ttl, Alone(ttl, s, th, t, fails, n - 1), Move(th, t, fails))
  }

  /** The parts of the state that a caller can observe. */
  predicate Looks(s: State, cache: map<Tenant, Config>, loads: seq<Load>, answers: seq<Answer>, th: Thread,
                  p: Position)
  {
    s.shared.cache == cache && s.shared.loads == loads && s.shared.answers == answers && Where(s.at, th) == p
  }

  /** One call is under way: nothing has been answered yet and everything else is as it was. */
  predicate Calling(s: State, s': State, th: Thread, p: Position) {
    && Looks(s', s.shared.cache, s.shared.loads, s.shared.answers, th, p)
    && s'.shared.clock == s.shared.clock && s'.shared.db == s.shared.db && s'.shared.past != []
  }

  lemma ReachesCheck(ttl: Time, s: State, th: Thread, t: Tenant, fails: bool)
    requires s.shared.past != [] && s.locks == Locks({}, None) && Where(s.at, th) == Idle
    ensures var s' := Alone(ttl, s, th, t, fails, 3);
            Calling(s, s', th, Checking(t, Lookup(s.shared.cache, t))) && s'.locks == Locks({}, None)
  {
    var s1, s2 := Alone(ttl, s, th, t, fails, 1), Alone(ttl, s, th, t, fails, 2);
    assert Alone(ttl, s, th, t, fails, 0) == s;
    assert Calling(s, s1, th, Entered(t)) && s1.locks == Locks({}, None);
    assert Calling(s, s2, th, Reading(t)) && s2.locks == Locks({th}, None);
    assert {th} - {th} == {};
  }

  /** The tenant's cache entry is still younger than the time to live. */
  predicate Cached(ttl: Time, s: State, t: Tenant) {
    t in s.shared.cache && s.shared.clock - s.shared.cache[t].updatedAt < ttl
  }

  lemma ReachesLoad(ttl: Time, s: State, th: Thread, t: Tenant, fails: bool)
    requires s.shared.past != [] && s.locks == Locks({}, None) && Where(s.at, th) == Idle && !Cached(ttl, s, t)
    ensures var s' := Alone(ttl, s, th, t, fails, 6);
            && Where(s'.at, th).Loading? && Calling(s, s', th, Where(s'.at, th)) && Where(s'.at, th).tenant == t
            && s'.locks == Locks({}, Some(th))
  {
    var s3, s4 := Alone(ttl, s, th, t, fails, 3), Alone(ttl, s, th, t, fails, 4);
    var s5 := Alone(ttl, s, th, t, fails, 5);
    ReachesCheck(ttl, s, th, t, fails);
    assert Calling(s, s4, th, Waiting(t)) && s4.locks == Locks({}, None);
    assert Calling(s, s5, th, Locked(t)) && s5.locks == Locks({}, Some(th));
  }

  /** A call from a fresh cache entry is answered with it after four actions, and loads nothing. */
  lemma CachedCallIsAnswered(ttl: Time, s: State, th: Thread, t: Tenant, fails: bool)
    requires s.shared.past != [] && s.locks == Locks({}, None) && Where(s.at, th) == Idle && Cached(ttl, s, t)
    ensures var sh, s' := s.shared, Alone(ttl, s, th, t, fails, 4);
            && Looks(s', sh.cache, sh.loads, sh.answers + [Answer(t, sh.cache[t], sh.clock, false)], th, Idle)
            && s'.locks == Locks({}, None)
  {
    ReachesCheck(ttl, s, th, t, fails);
  }

  /** The tenant is registered and its secret decodes. */
  predicate Registered(db: Database, t: Tenant) { t in db && db[t].secret.Some? }

  /** Otherwise a call whose query succeeds for a registered tenant files and answers the row, stamped with the
      current time, after eight actions. */
  lemma LoadedCallIsAnswered(ttl: Time, s: State, th: Thread, t: Tenant)
    requires s.shared.past != [] && s.locks == Locks({}, None) && Where(s.at, th) == Idle && !Cached(ttl, s, t)
    requires Registered(s.shared.db, t)
    ensures var sh, s' := s.shared, Alone(ttl, s, th, t, false, 8);
            && t in s'.shared.cache && |s'.shared.loads| == |sh.loads| + 1
            && var c := s'.shared.cache[t];
            && Copies(c, t, sh.db[t]) && c.updatedAt == sh.clock
            && Looks(s', sh.cache[t := c], sh.loads + [s'.shared.loads[|sh.loads|]],
                     sh.answers + [Answer(t, c, sh.clock, true)], th, Idle)
            && s'.locks == Locks({}, None)
  {
    var s6, s7 := Alone(ttl, s, th, t, false, 6), Alone(ttl, s, th, t, false, 7);
    ReachesLoad(ttl, s, th, t, false);
    assert Where(s7.at, th).Loaded? && Calling(s, s7, th, Where(s7.at, th));
    assert Where(s7.at, th).tenant == t && Where(s7.at, th).row == s.shared.db[t];
  }

  /** And in no other case: a failing query, an unknown tenant or a malformed secret answers and files nothing. */
  lemma FailedCallIsNotAnswered(ttl: Time, s: State, th: Thread, t: Tenant, fails: bool)
    requires s.shared.past != [] && s.locks == Locks({}, None) && Where(s.at, th) == Idle && !Cached(ttl, s, t)
    requires fails || !Registered(s.shared.db, t)
    ensures var n := if !fails && t in s.shared.db then 8 else 7;
            Calling(s, Alone(ttl, s, th, t, fails, n), th, Idle)
            && Alone(ttl, s, th, t, fails, n).locks == Locks({}, None)
  {
    var s6, s7 := Alone(ttl, s, th, t, fails, 6), Alone(ttl, s, th, t, fails, 7);
    ReachesLoad(ttl, s, th, t, fails);
    if !fails && t in s.shared.db {
      assert Where(s7.at, th).Loaded? && Calling(s, s7, th, Where(s7.at, th));
      assert Where(s7.at, th).row == s.shared.db[t];
    }
  }

  /** How many actions a call takes that nothing interrupts. */
  function Actions(ttl: Time, s: State, t: Tenant, fails: bool): nat {
    if Cached(ttl, s, t) then 4 else if !fails && t in s.shared.db then 8 else 7
  }

  /** From any state with free locks, reachable or not, a call that nothing interrupts returns and frees the locks. It
      is answered exactly once if the cache entry is fresh, or the query succeeds for a registered tenant, and not at
      all otherwise. */
  lemma CallIsAnsweredIff(ttl: Time, s: State, th: Thread, t: Tenant, fails: bool)
    requires s.shared.past != [] && s.locks == Locks({}, None) && Where(s.at, th) == Idle
    ensures var s' := Alone(ttl, s, th, t, fails, Actions(ttl, s, t, fails));
            && Where(s'.at, th) == Idle && s'.locks == Locks({}, None)
            && |s'.shared.answers| ==
               |s.shared.answers| + if Cached(ttl, s, t) || (!fails && Registered(s.shared.db, t)) then 1 else 0
  {
    if Cached(ttl, s, t) {
      CachedCallIsAnswered(ttl, s, th, t, fails);
    } else if !fails && Registered(s.shared.db, t) {
      LoadedCallIsAnswered(ttl, s, th, t);
    } else {
      FailedCallIsNotAnswered(ttl, s, th, t, fails);
    }
  }

  /** When the loads of tenant `t` that fall into [from, from + length] were stored. */
  function LoadTimes(loads: seq<Load>, t: Tenant, from: Time, length: nat): seq<Time> {
    if loads == [] then []
    else
      var times, l := LoadTimes(loads[..|loads| - 1], t, from, length), loads[|loads| - 1];
      if l.tenant == t && from <= l.config.updatedAt <= from + length then times + [l.config.updatedAt] else times
  }

  predicate StoredAt(loads: seq<Load>, t: Tenant, time: Time) {
    exists i :: 0 <= i < |loads| && loads[i].tenant == t && loads[i].config.updatedAt == time
  }

  lemma {:induction false} TimesAreSpread(ttl: Time, loads: seq<Load>, t: Tenant, from: Time, length: nat)
    requires Spaced(ttl, loads)
    ensures var times := LoadTimes(loads, t, from, length); times != [] ==>
            && from <= times[0] && times[|times| - 1] <= from + length
            && times[|times| - 1] - times[0] >= Gaps(|times| - 1, ttl)
            && StoredAt(loads, t, times[|times| - 1])
  {
    if loads != [] {
      var init, l := loads[..|loads| - 1], loads[|loads| - 1];
      assert Spaced(ttl, init) by {
        forall i, j | 0 <= i < j < |init| ensures Apart(ttl, init[i], init[j]) {
          assert Apart(ttl, loads[i], loads[j]);
        }
      }
      TimesAreSpread(ttl, init, t, from, length);
      var times, before := LoadTimes(loads, t, from, length), LoadTimes(init, t, from, length);
      if before != [] {
        var last := before[|before| - 1];
        var i :| 0 <= i < |init| && init[i].tenant == t && init[i].config.updatedAt == last;
        assert loads[i] == init[i];
        assert Apart(ttl, loads[i], l);
        assert StoredAt(loads, t, last);
      }
      assert times != before ==> loads[|loads| - 1].config.updatedAt == times[|times| - 1];
    }
  }

  /** The extent of `n` gaps of length `ttl`. */
  function Gaps(n: nat, ttl: Time): Time { if n == 0 then 0 else Gaps(n - 1, ttl) + ttl }

  /** In every run, a tenant is loaded at most length/ttl + 1 times in any interval of that length. */
  lemma LoadsPerInterval(ttl: Time, db: Database, clock: Time, steps: seq<Step>, t: Tenant, from: Time, length: nat)
    requires ttl > 0
    ensures |LoadTimes(Run(ttl, db, clock, steps).shared.loads, t, from, length)| <= length / ttl + 1
  {
    RunKeepsInv(ttl, db, clock, steps);
    CountFits(ttl, Run(ttl, db, clock, steps).shared.loads, t, from, length);
  }

  lemma CountFits(ttl: Time, loads: seq<Load>, t: Tenant, from: Time, length: nat)
    requires ttl > 0 && Spaced(ttl, loads)
    ensures |LoadTimes(loads, t, from, length)| <= length / ttl + 1
  {
    TimesAreSpread(ttl, loads, t, from, length);
    var times := LoadTimes(loads, t, from, length);
    if times != [] { SpreadFits(|times| - 1, ttl, times[|times| - 1] - times[0], length); }
  }

  lemma {:induction false} SpreadFits(n: nat, ttl: Time, spread: int, length: nat)
    requires ttl > 0 && Gaps(n, ttl) <= spread <= length
    ensures n <= length / ttl
  {
    if n > 0 {
      GapsPositive(n - 1, ttl);
      SpreadFits(n - 1, ttl, spread - ttl, length - ttl);
      OneLess(length, ttl);
    }
  }

  lemma {:induction false} GapsPositive(n: nat, ttl: Time)
    requires ttl > 0
    ensures Gaps(n, ttl) >= 0
  {
    if n > 0 { GapsPositive(n - 1, ttl); }
  }

  /** One more whole interval fits into one that is longer by its length. */
  lemma OneLess(m: nat, d: int)
    requires 0 < d <= m
    ensures (m - d) / d + 1 <= m / d
  {
    var q, r, p := (m - d) / d, (m - d) % d, m / d;
    assert m == Product(q, d) + d + r;
    assert m == Product(p, d) + m % d;
    if p <= q { ProductGrows(p, q, d); }
  }

  /** A product as a function symbol. */
  function Product(a: int, b: int): int { a * b }

  lemma ProductGrows(a: int, b: int, d: int)
    requires a <= b && d > 0
    ensures Product(a, d) <= Product(b, d)
  {
  }
}
