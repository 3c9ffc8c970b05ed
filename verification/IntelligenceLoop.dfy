/** The multi-tenant intelligence loop: a bounded bus, one bounded window per tenant, and a cool-down
    between triages. One tenant's triages are shown to depend on that tenant's events alone. */
module IntelligenceLoop {
  import opened Common

  const BUS_CAPACITY: nat := 50_000
  const WINDOW: nat := 1000
  const THRESHOLD_WARNING: nat := 5
  const THRESHOLD_CRITICAL: nat := 2
  const COOLDOWN: real := 60.0

  type Tenant = string

  datatype Event = Event(tenant: Option<Tenant>, severity: string, body: string) {
    function Owner(): Tenant { if tenant.Some? then tenant.value else "unknown" }
  }

  predicate IsWarning(e: Event) { e.severity == "WARNING" || e.severity == "WARN" }

  predicate IsCritical(e: Event) { e.severity == "CRITICAL" || e.severity == "ERROR" }

  function Count(p: Event -> bool, w: seq<Event>): nat {
    if w == [] then 0 else Count(p, w[..|w| - 1]) + (if p(w[|w| - 1]) then 1 else 0)
  }

  predicate Anomalous(w: seq<Event>) {
    Count(IsWarning, w) >= THRESHOLD_WARNING || Count(IsCritical, w) >= THRESHOLD_CRITICAL
  }

  /** The counting loop behind the anomaly signal. */
  method CheckAnomalyThresholds(w: seq<Event>) returns (anomalous: bool)
    ensures anomalous == Anomalous(w)
  {
    var warnings, criticals := 0, 0;
    for i := 0 to |w|
      invariant warnings == Count(IsWarning, w[..i]) && criticals == Count(IsCritical, w[..i])
    {
      assert w[..i + 1][..i] == w[..i];
      if IsWarning(w[i]) { warnings := warnings + 1; }
      if IsCritical(w[i]) { criticals := criticals + 1; }
    }
    assert w[..|w|] == w;
    anomalous := warnings >= THRESHOLD_WARNING || criticals >= THRESHOLD_CRITICAL;
  }

  // ---------------------------------------------------------------- one tenant

  datatype Triage = Triage(now: real, snapshot: seq<Event>)

  /** What the loop keeps for one tenant. `last` starts at the epoch, as the lookup default does. */
  datatype Single = Single(window: seq<Event>, last: real, triages: seq<Triage>)

  const FRESH := Single([], 0.0, [])

  /** An event consumed at a clock reading. */
  datatype Consumed = Consumed(event: Event, now: real)

  function Consume(s: Single, c: Consumed): (s': Single)
    requires |s.window| <= WINDOW
    ensures |s'.window| <= WINDOW
  {
    var w := DequeAppend(s.window, WINDOW, c.event);
    if c.now - s.last < COOLDOWN || !Anomalous(w) then s.(window := w)
    else Single(w, c.now, s.triages + [Triage(c.now, w)])
  }

  /** The single-tenant loop. */
  function SingleLoop(cs: seq<Consumed>): (s: Single)
    ensures |s.window| <= WINDOW
  {
    if cs == [] then FRESH else Consume(SingleLoop(cs[..|cs| - 1]), cs[|cs| - 1])
  }

  function Events(cs: seq<Consumed>): seq<Event> { seq(|cs|, i requires 0 <= i < |cs| => cs[i].event) }

  lemma {:induction false} WindowIsLastEvents(cs: seq<Consumed>)
    ensures SingleLoop(cs).window == LastN(Events(cs), WINDOW)
  {
    if cs != [] {
      var init, c := cs[..|cs| - 1], cs[|cs| - 1];
      WindowIsLastEvents(init);
      DequeAppendIsLastN(Events(init), WINDOW, c.event);
      assert Events(cs) == Events(init) + [c.event];
    }
  }

  /** Successive triages lie a cool-down apart, whatever the clock does in between. */
  predicate CooledDown(s: Single) {
    && (forall i :: 0 <= i < |s.triages| - 1 ==> s.triages[i + 1].now - s.triages[i].now >= COOLDOWN)
    && (s.triages != [] ==> s.last == s.triages[|s.triages| - 1].now)
  }

  lemma {:induction false} SingleLoopCools(cs: seq<Consumed>)
    ensures CooledDown(SingleLoop(cs))
  {
    if cs != [] { SingleLoopCools(cs[..|cs| - 1]); }
  }

  // ---------------------------------------------------------------- the loop of the source

  class IntelligenceEngine {
    var bus: seq<Event>
    var windows: map<Tenant, seq<Event>>
    var cooldown: map<Tenant, real>
    var triages: map<Tenant, seq<Triage>>

    /** What the engine holds for one tenant. */
    function Of(t: Tenant): Single
      reads this
    {
      Single(if t in windows then windows[t] else [], if t in cooldown then cooldown[t] else 0.0,
             if t in triages then triages[t] else [])
    }

    ghost predicate Valid()
      reads this
    {
      |bus| <= BUS_CAPACITY && forall t :: t in windows ==> |windows[t]| <= WINDOW
    }

    /** The engine as a value holds the same bus and the same state of every tenant. */
    ghost predicate Shows(g: Engine)
      reads this
    {
      g.bus == bus && forall t :: g.At(t) == Of(t)
    }

    constructor ()
      ensures Valid() && Shows(EMPTY)
    {
      bus, windows, cooldown, triages := [], map[], map[], map[];
    }

    /** Non-blocking: a full bus drops the event. */
    method Ingest(event: Event, ghost g: Engine)
      requires Valid() && Shows(g) && g.Valid()
      modifies this
      ensures Valid() && Shows(Apply(g, Offer(event)).0)
    {
      if |bus| < BUS_CAPACITY { bus := bus + [event]; }
      assert forall t :: Of(t) == old(Of(t));
    }

    /** One turn of the endless loop at clock reading `now`; an empty bus times out. */
    method Turn(now: real, ghost g: Engine)
      requires Valid() && Shows(g) && g.Valid()
      modifies this
      ensures Valid() && Shows(Apply(g, Take(now)).0)
    {
      if bus == [] { return; }
      var event := bus[0];
      var t := event.Owner();
      assert g.At(t) == Of(t) && |Of(t).window| <= WINDOW;
      bus := bus[1..];
      File(event, t, now);
      assert forall t' :: Apply(g, Take(now)).0.At(t') == if t' == t then Of(t) else old(Of(t'));
    }

    /** Appends the event to its tenant's window, and triages unless the tenant is cooling down. */
    method File(event: Event, t: Tenant, now: real)
      requires Valid()
      modifies this`windows, this`cooldown, this`triages
      ensures Valid() && Of(t) == Consume(old(Of(t)), Consumed(event, now))
      ensures forall t' :: t' != t ==> Of(t') == old(Of(t'))
    {
      var window := Remember(event, t);
      var last := if t in cooldown then cooldown[t] else 0.0;
      var anomalous := CheckAnomalyThresholds(window);
      if now - last >= COOLDOWN && anomalous { Alarm(t, now, window); }
    }

    /** Appends to the bounded window of the tenant. */
    method Remember(event: Event, t: Tenant) returns (window: seq<Event>)
      requires Valid()
      modifies this`windows
      ensures Valid() && |old(Of(t)).window| <= WINDOW
      ensures window == DequeAppend(old(Of(t)).window, WINDOW, event) && Of(t) == old(Of(t)).(window := window)
      ensures forall t' :: t' != t ==> Of(t') == old(Of(t'))
    {
      assert |Of(t).window| <= WINDOW;
      window := DequeAppend(if t in windows then windows[t] else [], WINDOW, event);
      windows := windows[t := window];
    }

    /** Starts the cool-down of the tenant and hands its window to triage. */
    method Alarm(t: Tenant, now: real, window: seq<Event>)
      modifies this`cooldown, this`triages
      ensures Of(t) == Single(old(Of(t)).window, now, old(Of(t)).triages + [Triage(now, window)])
      ensures forall t' :: t' != t ==> Of(t') == old(Of(t'))
    {
      cooldown := cooldown[t := now];
      triages := triages[t := (if t in triages then triages[t] else []) + [Triage(now, window)]];
    }
  }

  /** The consumed events of one tenant. */
  function OfTenant(cs: seq<Consumed>, t: Tenant): seq<Consumed> {
    if cs == [] then []
    else
      var init, c := OfTenant(cs[..|cs| - 1], t), cs[|cs| - 1];
      if c.event.Owner() == t then init + [c] else init
  }

  lemma {:induction false} SplitConsumed(cs: seq<Consumed>, c: Consumed, t: Tenant)
    ensures SingleLoop(OfTenant(cs + [c], t)) ==
            if c.event.Owner() == t then Consume(SingleLoop(OfTenant(cs, t)), c) else SingleLoop(OfTenant(cs, t))
  {
    assert (cs + [c])[..|cs|] == cs;
    SingleStep(OfTenant(cs, t), c);
  }

  lemma {:induction false} SingleStep(cs: seq<Consumed>, c: Consumed)
    ensures SingleLoop(cs + [c]) == Consume(SingleLoop(cs), c)
  {
    assert (cs + [c])[..|cs|] == cs;
  }

  // ---------------------------------------------------------------- runs

  datatype Op = Offer(event: Event) | Take(now: real)

  datatype Engine = Engine(bus: seq<Event>, tenants: map<Tenant, Single>) {
    function At(t: Tenant): Single { if t in tenants then tenants[t] else FRESH }
    ghost predicate Valid() { |bus| <= BUS_CAPACITY && forall t :: t in tenants ==> |tenants[t].window| <= WINDOW }
  }

  const EMPTY := Engine([], map[])

  /** One operation on the engine as a value, with what it consumed. */
  function Apply(g: Engine, op: Op): (r: (Engine, seq<Consumed>))
    requires g.Valid()
    ensures r.0.Valid()
  {
    match op
    case Offer(e) => (if |g.bus| < BUS_CAPACITY then g.(bus := g.bus + [e]) else g, [])
    case Take(now) =>
      if g.bus == [] then (g, [])
      else
        var c := Consumed(g.bus[0], now);
        var t := c.event.Owner();
        (Engine(g.bus[1..], g.tenants[t := Consume(g.At(t), c)]), [c])
  }

  function Run(ops: seq<Op>): (r: (Engine, seq<Consumed>))
    ensures r.0.Valid()
  {
    if ops == [] then (EMPTY, [])
    else
      var before := Run(ops[..|ops| - 1]);
      var (g, out) := Apply(before.0, ops[|ops| - 1]);
      (g, before.1 + out)
  }

  /** Over every interleaving of pushes and loop turns, what the engine holds for a tenant is what the
      single-tenant loop computes from the events of that tenant it consumed. */
  lemma {:induction false} ProjectionOntoTenant(ops: seq<Op>, t: Tenant)
    ensures Run(ops).0.At(t) == SingleLoop(OfTenant(Run(ops).1, t))
  {
    if ops != [] {
      var init, op := ops[..|ops| - 1], ops[|ops| - 1];
      ProjectionOntoTenant(init, t);
      ProjectionStep(Run(init).0, Run(init).1, op, t);
    }
  }

  lemma {:induction false} ProjectionStep(g: Engine, cs: seq<Consumed>, op: Op, t: Tenant)
    requires g.Valid() && g.At(t) == SingleLoop(OfTenant(cs, t))
    ensures Apply(g, op).0.At(t) == SingleLoop(OfTenant(cs + Apply(g, op).1, t))
  {
    var out := Apply(g, op).1;
    if out != [] {
      SplitConsumed(cs, out[0], t);
      assert out == [out[0]];
    } else {
      assert cs + out == cs;
    }
  }

  /** Two runs that consume the same events of a tenant at the same times triage that tenant alike. */
  lemma NonInterference(ops: seq<Op>, ops': seq<Op>, t: Tenant)
    requires OfTenant(Run(ops).1, t) == OfTenant(Run(ops').1, t)
    ensures Run(ops).0.At(t) == Run(ops').0.At(t)
  {
    ProjectionOntoTenant(ops, t);
    ProjectionOntoTenant(ops', t);
  }

  /** Over every run, a tenant's window is its last 1000 consumed events, and its triages lie at least
      60 seconds apart even if the clock steps back. */
  lemma TenantGuarantees(ops: seq<Op>, t: Tenant)
    ensures var s := Run(ops).0.At(t);
            s.window == LastN(Events(OfTenant(Run(ops).1, t)), WINDOW) && CooledDown(s)
  {
    ProjectionOntoTenant(ops, t);
    WindowIsLastEvents(OfTenant(Run(ops).1, t));
    SingleLoopCools(OfTenant(Run(ops).1, t));
  }

  function Offered(ops: seq<Op>): seq<Event> {
    if ops == [] then []
    else
      var init, op := Offered(ops[..|ops| - 1]), ops[|ops| - 1];
      if op.Offer? && |Run(ops[..|ops| - 1]).0.bus| < 50_000 then init + [op.event] else init
  }

  /** The bus is first in, first out: consumed events followed by waiting ones are the events offered
      while there was room, in order. */
  lemma {:induction false} BusIsFifo(ops: seq<Op>)
    ensures Events(Run(ops).1) + Run(ops).0.bus == Offered(ops)
  {
    if ops != [] {
      var init, op := ops[..|ops| - 1], ops[|ops| - 1];
      BusIsFifo(init);
      var g, cs := Run(init).0, Run(init).1;
      EventsConcat(cs, Apply(g, op).1);
      BusStep(g, op, Events(cs), Offered(init));
    }
  }

  lemma EventsConcat(a: seq<Consumed>, b: seq<Consumed>)
    ensures Events(a + b) == Events(a) + Events(b)
  {
  }

  lemma BusStep(g: Engine, op: Op, taken: seq<Event>, offered: seq<Event>)
    requires g.Valid() && taken + g.bus == offered
    ensures var (g', out) := Apply(g, op);
            taken + Events(out) + g'.bus ==
            if op.Offer? && |g.bus| < BUS_CAPACITY then offered + [op.event] else offered
  {
    var (g', out) := Apply(g, op);
    if out != [] {
      assert Events(out) == [g.bus[0]];
      assert [g.bus[0]] + g.bus[1..] == g.bus;
    } else {
      assert Events(out) == [];
    }
  }
}
