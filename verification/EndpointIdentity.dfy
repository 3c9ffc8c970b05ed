/** Enrollment tokens, endpoint secrets and their life cycle. Every handler is one atomic step, except enrollment and
    registration, whose check and commit are separate steps that other requests can come between. */
module EndpointIdentity {
  import opened Common

  // Identifiers and secrets are opaque; only their freshness matters.
  type Token = nat
  type Eid = nat
  type Secret = nat
  type Request = nat
  type Tenant = string

  datatype TokenRow = TokenRow(tenant: Tenant, expiresAt: int, maxUse: int, uses: nat)

  datatype Status = PendingRegister | Active

  datatype Endpoint = Endpoint(tenant: Tenant, secret: Secret, status: Status)

  /** The database tables, and the enrollments and registrations that passed their check but have not committed. */
  datatype Tables = Tables(tokens: map<Token, TokenRow>, endpoints: map<Eid, Endpoint>,
                           enrolling: map<Request, Token>, registering: map<Request, Eid>)

  datatype Verdict = Passed | UnknownToken | Expired | Exhausted

  function CheckToken(tb: Tables, tok: Token, now: int): Verdict {
    if tok !in tb.tokens then UnknownToken
    else if tb.tokens[tok].expiresAt < now then Expired
    else if tb.tokens[tok].uses >= tb.tokens[tok].maxUse then Exhausted
    else Passed
  }

  /** The row the secret lookup found, with the optional tenant header compared to it. */
  predicate Authenticates(tb: Tables, e: Eid, s: Secret, header: Tenant) {
    e in tb.endpoints && tb.endpoints[e].secret == s && (header == "" || header == tb.endpoints[e].tenant)
  }

  function Committed(tb: Tables, r: Request, e: Eid, s: Secret): Tables
    requires r in tb.enrolling && tb.enrolling[r] in tb.tokens
  {
    var tok := tb.enrolling[r];
    var row := tb.tokens[tok];
    Tables(tb.tokens[tok := row.(uses := row.uses + 1)],
           tb.endpoints[e := Endpoint(row.tenant, s, PendingRegister)],
           tb.enrolling - {r}, tb.registering)
  }

  /** The update names the endpoint only, not the secret that passed the check. */
  function Activated(tb: Tables, r: Request): Tables
    requires r in tb.registering && tb.registering[r] in tb.endpoints
  {
    var e := tb.registering[r];
    tb.(endpoints := tb.endpoints[e := tb.endpoints[e].(status := Active)], registering := tb.registering - {r})
  }

  function Rotated(tb: Tables, e: Eid, s: Secret): Tables
    requires e in tb.endpoints
  {
    tb.(endpoints := tb.endpoints[e := tb.endpoints[e].(secret := s, status := PendingRegister)])
  }

  /** The handlers over the shared tables. A numeric result is the HTTP status of a refusal. */
  class Hub {
    var tokens: map<Token, TokenRow>
    var endpoints: map<Eid, Endpoint>
    var enrolling: map<Request, Token>
    var registering: map<Request, Eid>

    function View(): Tables reads this { Tables(tokens, endpoints, enrolling, registering) }

    constructor ()
      ensures View() == Tables(map[], map[], map[], map[])
    {
      tokens, endpoints, enrolling, registering := map[], map[], map[], map[];
    }

    method CreateToken(token: Token, tenant: Tenant, expiresAt: int, maxUse: int)
      modifies this
      ensures View() == old(View()).(tokens := old(tokens)[token := TokenRow(tenant, expiresAt, maxUse, 0)])
    {
      tokens := tokens[token := TokenRow(tenant, expiresAt, maxUse, 0)];
    }

    method EnrollCheck(request: Request, token: Token, now: int) returns (refused: Option<int>)
      modifies this
      ensures refused == None <==> CheckToken(old(View()), token, now) == Passed
      ensures refused.Some? ==> refused.value == 401 && View() == old(View())
      ensures refused.None? ==> View() == old(View()).(enrolling := old(enrolling)[request := token])
    {
      if token !in tokens { return Some(401); }
      var row := tokens[token];
      if row.expiresAt < now { return Some(401); }
      if row.uses >= row.maxUse { return Some(401); }
      enrolling := enrolling[request := token];
      return None;
    }

    method EnrollCommit(request: Request, endpoint: Eid, secret: Secret)
      requires request in enrolling && enrolling[request] in tokens
      modifies this
      ensures View() == Committed(old(View()), request, endpoint, secret)
    {
      var token := enrolling[request];
      endpoints := endpoints[endpoint := Endpoint(tokens[token].tenant, secret, PendingRegister)];
      tokens := tokens[token := tokens[token].(uses := tokens[token].uses + 1)];
      enrolling := enrolling - {request};
    }

    /** The dependency in front of every endpoint route; `row` is what the secret lookup returned. */
    method Gate(row: Option<Eid>, secret: Secret, header: Tenant, needsActive: bool) returns (refused: Option<int>)
      requires row.Some? ==> row.value in endpoints && endpoints[row.value].secret == secret
      ensures refused.None? <==> row.Some? && Authenticates(View(), row.value, secret, header)
                                 && (needsActive ==> endpoints[row.value].status == Active)
      ensures refused.Some? ==>
        refused.value == if row.Some? && !Authenticates(View(), row.value, secret, header) then 403 else 401
    {
      if row.None? { return Some(401); }
      if header != "" && header != endpoints[row.value].tenant { return Some(403); }
      if needsActive && endpoints[row.value].status != Active { return Some(401); }
      return None;
    }

    /** Registration passes the gate whether the endpoint is active or not. */
    method RegisterCheck(request: Request, row: Option<Eid>, secret: Secret, header: Tenant)
      returns (refused: Option<int>)
      requires row.Some? ==> row.value in endpoints && endpoints[row.value].secret == secret
      modifies this
      ensures refused.None? <==> row.Some? && Authenticates(old(View()), row.value, secret, header)
      ensures refused.Some? ==> View() == old(View())
      ensures refused.None? ==> View() == old(View()).(registering := old(registering)[request := row.value])
    {
      refused := Gate(row, secret, header, false);
      if refused.None? { registering := registering[request := row.value]; }
    }

    method RegisterCommit(request: Request)
      requires request in registering && registering[request] in endpoints
      modifies this
      ensures View() == Activated(old(View()), request)
    {
      var endpoint := registering[request];
      endpoints := endpoints[endpoint := endpoints[endpoint].(status := Active)];
      registering := registering - {request};
    }

    method Rotate(endpoint: Eid, newSecret: Secret) returns (refused: Option<int>)
      modifies this
      ensures endpoint !in old(endpoints) ==> refused == Some(404) && View() == old(View())
      ensures endpoint in old(endpoints) ==> refused == None && View() == Rotated(old(View()), endpoint, newSecret)
    {
      if endpoint !in endpoints { return Some(404); }
      endpoints := endpoints[endpoint := endpoints[endpoint].(secret := newSecret, status := PendingRegister)];
      return None;
    }
  }

  // ---------------------------------------------------------------- runs

  datatype Operation = Push | Poll | Result

  datatype Entry =
    | Issued(e: Eid, s: Secret)
    | Registered(e: Eid)
    | Accepted(op: Operation, e: Eid, s: Secret)

  /** `minted` names the token behind each endpoint, `issued` all secrets ever generated, `known` those
      that some response carried, and `log` what happened. */
  datatype State = State(tables: Tables, minted: map<Eid, Token>, issued: set<Secret>, known: set<Secret>,
                         log: seq<Entry>)

  datatype Action =
    | CreateToken(tok: Token, tenant: Tenant, expiresAt: int, maxUse: int)
    | EnrollCheck(r: Request, tok: Token, now: int)
    | EnrollCommit(r: Request, e: Eid, s: Secret)
    | EnrollAbort(r: Request)
    | RegisterCheck(r: Request, e: Eid, s: Secret, header: Tenant)
    | RegisterCommit(r: Request)
    | RegisterAbort(r: Request)
    | Use(op: Operation, e: Eid, s: Secret, header: Tenant)
    | Rotate(e: Eid, s: Secret)

  /** A client can present a secret it was given, or a guess that is no secret at all. */
  predicate CanPresent(st: State, s: Secret) { s in st.known || s !in st.issued }

  /** Whether the action can happen; generated identifiers and secrets are fresh, and at most `k`
      enrollments are in flight. */
  predicate Enabled(k: nat, st: State, a: Action) {
    var tb := st.tables;
    match a
    case CreateToken(tok, tenant, expiresAt, maxUse) => tok !in tb.tokens
    case EnrollCheck(r, tok, now) =>
      r !in tb.enrolling && |tb.enrolling| < k && CheckToken(tb, tok, now) == Passed
    case EnrollCommit(r, e, s) =>
      r in tb.enrolling && tb.enrolling[r] in tb.tokens && e !in tb.endpoints && e !in st.minted && s !in st.issued
    case EnrollAbort(r) => r in tb.enrolling
    case RegisterCheck(r, e, s, header) =>
      r !in tb.registering && CanPresent(st, s) && Authenticates(tb, e, s, header)
    case RegisterCommit(r) => r in tb.registering && tb.registering[r] in tb.endpoints
    case RegisterAbort(r) => r in tb.registering
    case Use(op, e, s, header) =>
      CanPresent(st, s) && Authenticates(tb, e, s, header) && tb.endpoints[e].status == Active
    case Rotate(e, s) => e in tb.endpoints && s !in st.issued
  }

  function Step(k: nat, st: State, a: Action): State
    requires Enabled(k, st, a)
  {
    var tb := st.tables;
    match a
    case CreateToken(tok, tenant, expiresAt, maxUse) =>
      st.(tables := tb.(tokens := tb.tokens[tok := TokenRow(tenant, expiresAt, maxUse, 0)]))
    case EnrollCheck(r, tok, now) => st.(tables := tb.(enrolling := tb.enrolling[r := tok]))
    case EnrollCommit(r, e, s) =>
      State(Committed(tb, r, e, s), st.minted[e := tb.enrolling[r]], st.issued + {s}, st.known + {s},
            st.log + [Issued(e, s)])
    case EnrollAbort(r) => st.(tables := tb.(enrolling := tb.enrolling - {r}))
    case RegisterCheck(r, e, s, header) => st.(tables := tb.(registering := tb.registering[r := e]))
    case RegisterCommit(r) => st.(tables := Activated(tb, r), log := st.log + [Registered(tb.registering[r])])
    case RegisterAbort(r) => st.(tables := tb.(registering := tb.registering - {r}))
    case Use(op, e, s, header) => st.(log := st.log + [Accepted(op, e, s)])
    case Rotate(e, s) => st.(tables := Rotated(tb, e, s), issued := st.issued + {s}, log := st.log + [Issued(e, s)])
  }

  /** A refused request changes nothing. */
  function Try(k: nat, st: State, a: Action): State { if Enabled(k, st, a) then Step(k, st, a) else st }

  const EMPTY := State(Tables(map[], map[], map[], map[]), map[], {}, {}, [])

  function RunFrom(k: nat, st: State, acts: seq<Action>): State {
    if acts == [] then st else Try(k, RunFrom(k, st, acts[..|acts| - 1]), acts[|acts| - 1])
  }

  function Run(k: nat, acts: seq<Action>): State { RunFrom(k, EMPTY, acts) }

  lemma {:induction false} RunFromConcat(k: nat, st: State, a: seq<Action>, b: seq<Action>)
    ensures RunFrom(k, st, a + b) == RunFrom(k, RunFrom(k, st, a), b)
  {
    if b == [] {
      assert a + b == a;
    } else {
      RunFromConcat(k, st, a, b[..|b| - 1]);
      assert (a + b)[..|a + b| - 1] == a + b[..|b| - 1];
    }
  }

  // ---------------------------------------------------------------- token accounting

  function MintedBy(minted: map<Eid, Token>, tok: Token): set<Eid> { set e | e in minted && minted[e] == tok }

  function InFlight(enrolling: map<Request, Token>, tok: Token): set<Request> {
    set r | r in enrolling && enrolling[r] == tok
  }

  /** Endpoints minted equal uses, and uses with the enrollments in flight stay within max_use + k - 1. */
  ghost predicate Accounted(k: nat, tb: Tables, minted: map<Eid, Token>, tok: Token)
    requires tok in tb.tokens
  {
    var row, flying := tb.tokens[tok], |InFlight(tb.enrolling, tok)|;
    && |MintedBy(minted, tok)| == row.uses
    && (if row.maxUse <= 0 then row.uses == 0 && flying == 0 else row.uses + flying <= row.maxUse + k - 1)
  }

  ghost predicate TokenInv(k: nat, st: State) {
    && |st.tables.enrolling| <= k
    && st.minted.Keys == st.tables.endpoints.Keys
    && (forall r :: r in st.tables.enrolling ==> st.tables.enrolling[r] in st.tables.tokens)
    && (forall e :: e in st.minted ==> st.minted[e] in st.tables.tokens)
    && (forall tok :: tok in st.tables.tokens ==> Accounted(k, st.tables, st.minted, tok))
  }

  lemma FlightBound(enrolling: map<Request, Token>, tok: Token)
    ensures |InFlight(enrolling, tok)| <= |enrolling|
  {
    var flying, all := InFlight(enrolling, tok), enrolling.Keys;
    assert flying <= all;
    assert all == flying + (all - flying);
    assert |all| == |flying| + |all - flying|;
  }

  lemma AddedFlights(enrolling: map<Request, Token>, r: Request, tok: Token, t: Token)
    requires r !in enrolling
    ensures InFlight(enrolling[r := tok], t) == InFlight(enrolling, t) + if t == tok then {r} else {}
  {
  }

  lemma FlightAdded(enrolling: map<Request, Token>, r: Request, tok: Token)
    requires r !in enrolling
    ensures |enrolling[r := tok]| == |enrolling| + 1
    ensures |InFlight(enrolling[r := tok], tok)| == |InFlight(enrolling, tok)| + 1
    ensures forall t :: t != tok ==> InFlight(enrolling[r := tok], t) == InFlight(enrolling, t)
  {
    assert enrolling[r := tok].Keys == enrolling.Keys + {r};
    forall t { AddedFlights(enrolling, r, tok, t); }
  }

  lemma FlightRemoved(enrolling: map<Request, Token>, r: Request)
    requires r in enrolling
    ensures |enrolling - {r}| == |enrolling| - 1
    ensures |InFlight(enrolling - {r}, enrolling[r])| == |InFlight(enrolling, enrolling[r])| - 1
    ensures forall t :: t != enrolling[r] ==> InFlight(enrolling - {r}, t) == InFlight(enrolling, t)
  {
    assert (enrolling - {r}).Keys == enrolling.Keys - {r};
    assert InFlight(enrolling - {r}, enrolling[r]) == InFlight(enrolling, enrolling[r]) - {r};
  }

  lemma MintAdded(minted: map<Eid, Token>, e: Eid, tok: Token)
    requires e !in minted
    ensures |MintedBy(minted[e := tok], tok)| == |MintedBy(minted, tok)| + 1
    ensures forall t :: t != tok ==> MintedBy(minted[e := tok], t) == MintedBy(minted, t)
  {
    assert MintedBy(minted[e := tok], tok) == MintedBy(minted, tok) + {e};
  }

  lemma CommitKeepsTokens(k: nat, st: State, r: Request, e: Eid, s: Secret)
    requires TokenInv(k, st) && Enabled(k, st, EnrollCommit(r, e, s))
    ensures TokenInv(k, Step(k, st, EnrollCommit(r, e, s)))
  {
    var st' := Step(k, st, EnrollCommit(r, e, s));
    var tok := st.tables.enrolling[r];
    FlightRemoved(st.tables.enrolling, r);
    MintAdded(st.minted, e, tok);
    assert Accounted(k, st.tables, st.minted, tok);
    assert r in InFlight(st.tables.enrolling, tok);
    forall t | t in st'.tables.tokens ensures Accounted(k, st'.tables, st'.minted, t) {
      assert Accounted(k, st.tables, st.minted, t);
    }
  }

  lemma CheckKeepsTokens(k: nat, st: State, r: Request, tok: Token, now: int)
    requires TokenInv(k, st) && Enabled(k, st, EnrollCheck(r, tok, now))
    ensures TokenInv(k, Step(k, st, EnrollCheck(r, tok, now)))
  {
    var tb, st' := st.tables, Step(k, st, EnrollCheck(r, tok, now));
    FlightAdded(tb.enrolling, r, tok);
    FlightBound(tb.enrolling, tok);
    forall t | t in tb.tokens ensures Accounted(k, st'.tables, st'.minted, t) {
      assert Accounted(k, tb, st.minted, t);
    }
  }

  lemma StepKeepsTokens(k: nat, st: State, a: Action)
    requires TokenInv(k, st) && Enabled(k, st, a)
    ensures TokenInv(k, Step(k, st, a))
  {
    var tb, st' := st.tables, Step(k, st, a);
    if a.EnrollCommit? {
      CommitKeepsTokens(k, st, a.r, a.e, a.s);
    } else if a.EnrollCheck? {
      CheckKeepsTokens(k, st, a.r, a.tok, a.now);
    } else {
      if a.EnrollAbort? { FlightRemoved(tb.enrolling, a.r); }
      forall t | t in st'.tables.tokens ensures Accounted(k, st'.tables, st'.minted, t) {
        if a.CreateToken? && t == a.tok {
          assert MintedBy(st.minted, t) == {} && InFlight(tb.enrolling, t) == {};
        } else {
          assert Accounted(k, tb, st.minted, t);
        }
      }
    }
  }

  /** Over every run with at most `k` enrollments in flight, every token is accounted for. */
  lemma {:induction false} TokensAreAccounted(k: nat, acts: seq<Action>)
    requires k >= 1
    ensures TokenInv(k, Run(k, acts))
  {
    if acts != [] {
      var init := acts[..|acts| - 1];
      TokensAreAccounted(k, init);
      if Enabled(k, Run(k, init), acts[|acts| - 1]) { StepKeepsTokens(k, Run(k, init), acts[|acts| - 1]); }
    }
  }
}
