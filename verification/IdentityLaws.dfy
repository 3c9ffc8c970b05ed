/** Theorems over whole runs of the identity protocol: which requests are ever accepted, that a rotation
    is final, and how far a token can be overused. */
module IdentityLaws {
  import opened Common
  import opened EndpointIdentity

  // ---------------------------------------------------------------- accepted requests

  /** What a log says about an endpoint: its latest secret, and whether it registered since. */
  function Standing(log: seq<Entry>, e: Eid): Option<(Secret, bool)> {
    if log == [] then None
    else
      var before, entry := Standing(log[..|log| - 1], e), log[|log| - 1];
      match entry
      case Issued(e', s) => if e' == e then Some((s, false)) else before
      case Registered(e') => if e' == e && before.Some? then Some((before.value.0, true)) else before
      case Accepted(_, _, _) => before
  }

  predicate Justified(log: seq<Entry>, i: nat)
    requires i < |log|
  {
    log[i].Accepted? ==> Standing(log[..i], log[i].e) == Some((log[i].s, true))
  }

  ghost predicate LogInv(st: State) {
    && (forall e :: e in st.tables.endpoints <==> Standing(st.log, e).Some?)
    && (forall e :: e in st.tables.endpoints ==>
          Standing(st.log, e).value == (st.tables.endpoints[e].secret, st.tables.endpoints[e].status == Active))
    && (forall i :: 0 <= i < |st.log| ==> Justified(st.log, i))
  }

  lemma LogGrows(log: seq<Entry>, entry: Entry)
    requires forall i :: 0 <= i < |log| ==> Justified(log, i)
    requires entry.Accepted? ==> Standing(log, entry.e) == Some((entry.s, true))
    ensures forall i :: 0 <= i < |log + [entry]| ==> Justified(log + [entry], i)
  {
    var more := log + [entry];
    forall i | 0 <= i < |more| ensures Justified(more, i) {
      if i < |log| {
        assert Justified(log, i) && more[..i] == log[..i];
      } else {
        assert more[..i] == log;
      }
    }
  }

  lemma StepKeepsLog(k: nat, st: State, a: Action)
    requires LogInv(st) && Enabled(k, st, a)
    ensures LogInv(Step(k, st, a))
  {
    var st' := Step(k, st, a);
    if st'.log != st.log {
      var entry := st'.log[|st.log|];
      assert st'.log == st.log + [entry] && st'.log[..|st.log|] == st.log;
      LogGrows(st.log, entry);
    }
  }

  lemma {:induction false} RunKeepsLog(k: nat, acts: seq<Action>)
    ensures LogInv(Run(k, acts))
  {
    if acts != [] {
      var init := acts[..|acts| - 1];
      RunKeepsLog(k, init);
      if Enabled(k, Run(k, init), acts[|acts| - 1]) { StepKeepsLog(k, Run(k, init), acts[|acts| - 1]); }
    }
  }

  /** `issue` is the latest issue to `e`, of secret `s`, and `reg` a registration after it. */
  predicate RegisteredAfterIssue(log: seq<Entry>, e: Eid, s: Secret, issue: nat, reg: nat) {
    && issue < reg < |log|
    && log[issue] == Issued(e, s) && log[reg] == Registered(e)
    && (forall j :: issue < j < |log| ==> !(log[j].Issued? && log[j].e == e))
  }

  lemma {:induction false} StandingMeans(log: seq<Entry>, e: Eid) returns (issue: nat, reg: nat)
    requires Standing(log, e).Some?
    ensures issue < |log| && log[issue] == Issued(e, Standing(log, e).value.0)
    ensures forall j :: issue < j < |log| ==> !(log[j].Issued? && log[j].e == e)
    ensures Standing(log, e).value.1 ==> RegisteredAfterIssue(log, e, Standing(log, e).value.0, issue, reg)
  {
    var n := |log| - 1;
    var entry := log[n];
    if entry.Issued? && entry.e == e {
      issue, reg := n, 0;
    } else {
      issue, reg := StandingMeans(log[..n], e);
      assert forall j :: 0 <= j < n ==> log[..n][j] == log[j];
      if entry == Registered(e) { reg := n; }
    }
  }

  /** Over every run, an accepted push, poll or result carries the secret most recently issued to an
      endpoint that registered after that issue. */
  lemma AcceptedOnlyWhenRegistered(k: nat, acts: seq<Action>, i: nat) returns (issue: nat, reg: nat)
    requires i < |Run(k, acts).log| && Run(k, acts).log[i].Accepted?
    ensures var log := Run(k, acts).log;
            RegisteredAfterIssue(log[..i], log[i].e, log[i].s, issue, reg)
  {
    RunKeepsLog(k, acts);
    var log := Run(k, acts).log;
    assert Justified(log, i);
    issue, reg := StandingMeans(log[..i], log[i].e);
  }

  /** And conversely: at any point of any run, a request passes the gate exactly when it presents the secret last
      issued to an endpoint that registered since, under the endpoint's own tenant or none. */
  lemma AcceptanceIsExact(k: nat, acts: seq<Action>, op: Operation, e: Eid, s: Secret, header: Tenant)
    ensures var st := Run(k, acts);
            Enabled(k, st, Use(op, e, s, header)) <==>
              && CanPresent(st, s) && Standing(st.log, e) == Some((s, true))
              && (header == "" || (e in st.tables.endpoints && header == st.tables.endpoints[e].tenant))
  {
    RunKeepsLog(k, acts);
  }

  // ---------------------------------------------------------------- enrollment

  /** At any point of any run, an enrollment passes its check exactly if its token exists, has not expired at that
      time and has a use left, and there is room for one more in flight. */
  lemma EnrollmentIsExact(k: nat, acts: seq<Action>, r: Request, tok: Token, now: int)
    ensures var tb := Run(k, acts).tables;
            Enabled(k, Run(k, acts), EnrollCheck(r, tok, now)) <==>
              && r !in tb.enrolling && |tb.enrolling| < k
              && tok in tb.tokens && now <= tb.tokens[tok].expiresAt && tb.tokens[tok].uses < tb.tokens[tok].maxUse
  {
  }

  /** The row of a token still says what its creation said. */
  predicate AsCreated(acts: seq<Action>, tok: Token, row: TokenRow) {
    exists i :: 0 <= i < |acts| && acts[i] == CreateToken(tok, row.tenant, row.expiresAt, row.maxUse)
  }

  lemma AsCreatedGrows(acts: seq<Action>, a: Action, tok: Token, row: TokenRow)
    requires AsCreated(acts, tok, row)
    ensures AsCreated(acts + [a], tok, row)
  {
    var i :| 0 <= i < |acts| && acts[i] == CreateToken(tok, row.tenant, row.expiresAt, row.maxUse);
    assert (acts + [a])[i] == acts[i];
  }

  /** Over every run, tenant, expiry and limit of a token are those it was created with. */
  lemma {:induction false} TokensStayAsCreated(k: nat, acts: seq<Action>, tok: Token)
    requires tok in Run(k, acts).tables.tokens
    ensures AsCreated(acts, tok, Run(k, acts).tables.tokens[tok])
  {
    if acts != [] {
      var init, a := acts[..|acts| - 1], acts[|acts| - 1];
      var st := Run(k, init);
      assert acts == init + [a];
      TokenStep(k, st, a, tok);
      if tok in st.tables.tokens {
        TokensStayAsCreated(k, init, tok);
        AsCreatedGrows(init, a, tok, st.tables.tokens[tok]);
      } else {
        assert acts[|init|] == a;
      }
    }
  }

  lemma TokenStep(k: nat, st: State, a: Action, tok: Token)
    requires tok in Try(k, st, a).tables.tokens
    ensures var row := Try(k, st, a).tables.tokens[tok];
            if tok in st.tables.tokens then row == st.tables.tokens[tok].(uses := row.uses)
            else a == CreateToken(tok, row.tenant, row.expiresAt, row.maxUse)
  {
  }

  ghost predicate TenantInv(st: State) {
    && st.minted.Keys == st.tables.endpoints.Keys
    && (forall r :: r in st.tables.enrolling ==> st.tables.enrolling[r] in st.tables.tokens)
    && (forall e :: e in st.minted ==>
          st.minted[e] in st.tables.tokens && st.tables.endpoints[e].tenant == st.tables.tokens[st.minted[e]].tenant)
  }

  lemma StepKeepsTenants(k: nat, st: State, a: Action)
    requires TenantInv(st) && Enabled(k, st, a)
    ensures TenantInv(Step(k, st, a))
  {
  }

  /** Over every run, an endpoint belongs to the tenant of the token that minted it. */
  lemma {:induction false} EndpointsBelongToTokens(k: nat, acts: seq<Action>)
    ensures TenantInv(Run(k, acts))
  {
    if acts != [] {
      var init := acts[..|acts| - 1];
      EndpointsBelongToTokens(k, init);
      if Enabled(k, Run(k, init), acts[|acts| - 1]) { StepKeepsTenants(k, Run(k, init), acts[|acts| - 1]); }
    }
  }

  // ---------------------------------------------------------------- rotation

  ghost predicate SecretInv(st: State) {
    && st.known <= st.issued
    && (forall e :: e in st.tables.endpoints ==> st.tables.endpoints[e].secret in st.issued)
    && (forall e, f :: e in st.tables.endpoints && f in st.tables.endpoints && e != f ==>
          st.tables.endpoints[e].secret != st.tables.endpoints[f].secret)
  }

  lemma StepKeepsSecrets(k: nat, st: State, a: Action)
    requires SecretInv(st) && Enabled(k, st, a)
    ensures SecretInv(Step(k, st, a))
  {
  }

  lemma {:induction false} RunKeepsSecrets(k: nat, acts: seq<Action>)
    ensures SecretInv(Run(k, acts))
  {
    if acts != [] {
      var init := acts[..|acts| - 1];
      RunKeepsSecrets(k, init);
      if Enabled(k, Run(k, init), acts[|acts| - 1]) { StepKeepsSecrets(k, Run(k, init), acts[|acts| - 1]); }
    }
  }

  /** No endpoint answers to the secret, and none ever will. */
  predicate Retired(st: State, s: Secret) {
    s in st.issued && forall e :: e in st.tables.endpoints ==> st.tables.endpoints[e].secret != s
  }

  /** Nobody was ever given the secret of the endpoint. */
  predicate Lost(st: State, e: Eid) {
    && e in st.tables.endpoints
    && st.tables.endpoints[e].secret in st.issued
    && st.tables.endpoints[e].secret !in st.known
  }

  predicate Silent(log: seq<Entry>, e: Eid, from: nat) {
    forall i :: from <= i < |log| ==> !(log[i].Accepted? && log[i].e == e)
  }

  lemma StepStaysLost(k: nat, st: State, a: Action, e: Eid, s: Secret, from: nat)
    requires SecretInv(st) && Lost(st, e) && Retired(st, s) && from <= |st.log| && Silent(st.log, e, from)
    ensures var st' := Try(k, st, a);
            SecretInv(st') && Lost(st', e) && Retired(st', s) && from <= |st'.log| && Silent(st'.log, e, from)
  {
    if Enabled(k, st, a) {
      StepKeepsSecrets(k, st, a);
      StepKeepsLost(k, st, a, e, s);
      StepKeepsSilent(k, st, a, e, from);
    }
  }

  lemma StepKeepsLost(k: nat, st: State, a: Action, e: Eid, s: Secret)
    requires SecretInv(st) && Lost(st, e) && Retired(st, s) && Enabled(k, st, a)
    ensures Lost(Step(k, st, a), e) && Retired(Step(k, st, a), s)
  {
  }

  lemma StepKeepsSilent(k: nat, st: State, a: Action, e: Eid, from: nat)
    requires Lost(st, e) && Enabled(k, st, a) && from <= |st.log| && Silent(st.log, e, from)
    ensures from <= |Step(k, st, a).log| && Silent(Step(k, st, a).log, e, from)
  {
  }

  lemma {:induction false} StaysLost(k: nat, st: State, acts: seq<Action>, e: Eid, s: Secret, from: nat)
    requires SecretInv(st) && Lost(st, e) && Retired(st, s) && from <= |st.log| && Silent(st.log, e, from)
    ensures var st' := RunFrom(k, st, acts);
            SecretInv(st') && Lost(st', e) && Retired(st', s) && from <= |st'.log| && Silent(st'.log, e, from)
  {
    if acts != [] {
      var init := acts[..|acts| - 1];
      StaysLost(k, st, init, e, s, from);
      StepStaysLost(k, RunFrom(k, st, init), acts[|acts| - 1], e, s, from);
    }
  }

  lemma AfterRotation(k: nat, acts: seq<Action>, e: Eid, novel: Secret, more: seq<Action>)
    requires Enabled(k, Run(k, acts), Rotate(e, novel))
    ensures var st := Run(k, acts); var mid := Step(k, st, Rotate(e, novel));
            && Run(k, acts + [Rotate(e, novel)] + more) == RunFrom(k, mid, more)
            && SecretInv(mid) && Lost(mid, e) && Retired(mid, st.tables.endpoints[e].secret)
            && |mid.log| == |st.log| + 1
  {
    var st := Run(k, acts);
    RunKeepsSecrets(k, acts);
    StepKeepsSecrets(k, st, Rotate(e, novel));
    Extend(k, EMPTY, acts, Rotate(e, novel));
    RunFromConcat(k, EMPTY, acts + [Rotate(e, novel)], more);
  }

  /** After a rotation, however the run goes on and whatever was in flight: the old secret opens no endpoint, and
      nothing is ever accepted from the rotated one. */
  lemma RotationIsFinal(k: nat, acts: seq<Action>, e: Eid, novel: Secret, more: seq<Action>)
    requires Enabled(k, Run(k, acts), Rotate(e, novel))
    ensures var st, st' := Run(k, acts), Run(k, acts + [Rotate(e, novel)] + more);
            && Retired(st', st.tables.endpoints[e].secret)
            && e in st'.tables.endpoints
            && |st.log| < |st'.log| && Silent(st'.log, e, |st.log| + 1)
  {
    var st := Run(k, acts);
    var mid := Step(k, st, Rotate(e, novel));
    AfterRotation(k, acts, e, novel, more);
    StaysLost(k, mid, more, e, st.tables.endpoints[e].secret, |mid.log|);
  }

  predicate IsActive(st: State, e: Eid) { e in st.tables.endpoints && st.tables.endpoints[e].status == Active }

  /** Some registration of the endpoint has passed its check and not yet committed. */
  predicate Registering(st: State, e: Eid) {
    exists r :: r in st.tables.registering && st.tables.registering[r] == e
  }

  lemma StepStaysInactive(k: nat, st: State, a: Action, e: Eid)
    requires SecretInv(st) && Lost(st, e) && !IsActive(st, e) && !Registering(st, e)
    ensures var st' := Try(k, st, a); SecretInv(st') && Lost(st', e) && !IsActive(st', e) && !Registering(st', e)
  {
    if Enabled(k, st, a) { StepKeepsSecrets(k, st, a); }
  }

  lemma {:induction false} StaysInactive(k: nat, st: State, acts: seq<Action>, e: Eid)
    requires SecretInv(st) && Lost(st, e) && !IsActive(st, e) && !Registering(st, e)
    ensures var st' := RunFrom(k, st, acts);
            SecretInv(st') && Lost(st', e) && !IsActive(st', e) && !Registering(st', e)
  {
    if acts != [] {
      var init := acts[..|acts| - 1];
      StaysInactive(k, st, init, e);
      StepStaysInactive(k, RunFrom(k, st, init), acts[|acts| - 1], e);
    }
  }

  /** Some continuation of the run makes the endpoint active. */
  ghost predicate CanRevive(k: nat, acts: seq<Action>, e: Eid) {
    exists more: seq<Action> :: IsActive(Run(k, acts + more), e)
  }

  /** A rotated endpoint can become active again exactly if a registration of it was in flight at the rotation. */
  lemma RevivalNeedsRegistrationInFlight(k: nat, acts: seq<Action>, e: Eid, novel: Secret)
    requires Enabled(k, Run(k, acts), Rotate(e, novel))
    ensures CanRevive(k, acts + [Rotate(e, novel)], e) <==> Registering(Run(k, acts), e)
  {
    var rotated := acts + [Rotate(e, novel)];
    var mid := Step(k, Run(k, acts), Rotate(e, novel));
    AfterRotation(k, acts, e, novel, []);
    assert rotated + [] == rotated;
    if Registering(Run(k, acts), e) {
      var r :| r in mid.tables.registering && mid.tables.registering[r] == e;
      Extend(k, EMPTY, rotated, RegisterCommit(r));
      assert IsActive(Run(k, rotated + [RegisterCommit(r)]), e);
    } else {
      forall more: seq<Action> ensures !IsActive(Run(k, rotated + more), e) {
        AfterRotation(k, acts, e, novel, more);
        StaysInactive(k, mid, more, e);
      }
    }
  }

  const ENROLL_ONE: seq<Action> := [CreateToken(0, "", 0, 1), EnrollCheck(0, 0, 0), EnrollCommit(0, 0, 0)]

  lemma OneEndpoint()
    ensures Run(1, ENROLL_ONE) ==
            State(Tables(map[0 := TokenRow("", 0, 1, 1)], map[0 := Endpoint("", 0, PendingRegister)], map[], map[]),
                  map[0 := 0], {0}, {0}, [Issued(0, 0)])
  {
    var a, b, c := CreateToken(0, "", 0, 1), EnrollCheck(0, 0, 0), EnrollCommit(0, 0, 0);
    assert [] + [a] == [a] && [a] + [b] == [a, b] && [a, b] + [c] == ENROLL_ONE;
    Extend(1, EMPTY, [], a);
    assert Run(1, [a]).tables == Tables(map[0 := TokenRow("", 0, 1, 0)], map[], map[], map[]);
    Extend(1, EMPTY, [a], b);
    assert Run(1, [a, b]).tables == Tables(map[0 := TokenRow("", 0, 1, 0)], map[], map[0 := 0], map[]);
    Extend(1, EMPTY, [a, b], c);
  }

  /** For example: a registration that passed its check before the rotation makes the endpoint active after it. */
  lemma RotatedEndpointRevives()
    ensures var acts := ENROLL_ONE + [RegisterCheck(0, 0, 0, "")];
            Enabled(1, Run(1, acts), Rotate(0, 1)) && CanRevive(1, acts + [Rotate(0, 1)], 0)
  {
    OneEndpoint();
    var acts := ENROLL_ONE + [RegisterCheck(0, 0, 0, "")];
    Extend(1, EMPTY, ENROLL_ONE, RegisterCheck(0, 0, 0, ""));
    assert 0 in Run(1, acts).tables.registering;
    RevivalNeedsRegistrationInFlight(1, acts, 0, 1);
  }

  // ---------------------------------------------------------------- overuse

  /** Requests 0..c-1, all enrolling with token 0. */
  function Requests(c: nat): map<Request, Token> { if c == 0 then map[] else Requests(c - 1)[c - 1 := 0] }

  lemma {:induction false} RequestsBelow(c: nat)
    ensures |Requests(c)| == c && forall r :: r in Requests(c) ==> r < c && Requests(c)[r] == 0
    ensures c > 0 ==> c - 1 in Requests(c) && Requests(c) - {c - 1} == Requests(c - 1)
  {
    if c > 0 {
      RequestsBelow(c - 1);
      assert Requests(c).Keys == Requests(c - 1).Keys + {c - 1};
    }
  }

  /** One token of `m` uses, `used` of them spent, requests 0..c-1 past their check, and identifiers
      from `next` on never used. */
  ghost predicate Shape(st: State, m: int, used: nat, c: nat, next: nat) {
    && st.tables.tokens == map[0 := TokenRow("", 0, m, used)]
    && st.tables.enrolling == Requests(c)
    && (forall e :: e in st.tables.endpoints || e in st.minted || e in st.issued ==> e < next)
  }

  lemma PassCheck(k: nat, st: State, m: int, used: nat, c: nat, next: nat)
    requires Shape(st, m, used, c, next) && c < k && used < m
    ensures Enabled(k, st, EnrollCheck(c, 0, 0))
    ensures Shape(Step(k, st, EnrollCheck(c, 0, 0)), m, used, c + 1, next)
  {
    RequestsBelow(c);
  }

  lemma Commit(k: nat, st: State, m: int, used: nat, c: nat, next: nat)
    requires Shape(st, m, used, c, next) && c > 0
    ensures Enabled(k, st, EnrollCommit(c - 1, next, next))
    ensures Shape(Step(k, st, EnrollCommit(c - 1, next, next)), m, used + 1, c - 1, next + 1)
  {
    RequestsBelow(c);
  }

  lemma Extend(k: nat, st: State, acts: seq<Action>, a: Action)
    requires Enabled(k, RunFrom(k, st, acts), a)
    ensures RunFrom(k, st, acts + [a]) == Step(k, RunFrom(k, st, acts), a)
  {
    assert (acts + [a])[..|acts|] == acts;
  }

  lemma CheckNext(k: nat, acts: seq<Action>, m: int, used: nat, c: nat, next: nat)
    requires Shape(Run(k, acts), m, used, c, next) && c < k && used < m
    ensures Shape(Run(k, acts + [EnrollCheck(c, 0, 0)]), m, used, c + 1, next)
  {
    PassCheck(k, Run(k, acts), m, used, c, next);
    Extend(k, EMPTY, acts, EnrollCheck(c, 0, 0));
  }

  lemma CommitNext(k: nat, acts: seq<Action>, m: int, used: nat, c: nat, next: nat)
    requires Shape(Run(k, acts), m, used, c, next) && c > 0
    ensures Shape(Run(k, acts + [EnrollCommit(c - 1, next, next)]), m, used + 1, c - 1, next + 1)
  {
    Commit(k, Run(k, acts), m, used, c, next);
    Extend(k, EMPTY, acts, EnrollCommit(c - 1, next, next));
  }

  /** Enrollments one after the other, up to `n` uses. */
  lemma {:induction false} Serially(k: nat, m: int, n: nat) returns (acts: seq<Action>, next: nat)
    requires k >= 1 && n < m
    ensures Shape(Run(k, acts), m, n, 0, next)
  {
    if n == 0 {
      acts, next := [CreateToken(0, "", 0, m)], 0;
      Extend(k, EMPTY, [], CreateToken(0, "", 0, m));
      assert [] + [CreateToken(0, "", 0, m)] == acts;
    } else {
      acts, next := Serially(k, m, n - 1);
      CheckNext(k, acts, m, n - 1, 0, next);
      acts := acts + [EnrollCheck(0, 0, 0)];
      CommitNext(k, acts, m, n - 1, 1, next);
      acts, next := acts + [EnrollCommit(0, next, next)], next + 1;
    }
  }

  /** `c` requests pass the check before any of them commits. */
  lemma {:induction false} Together(k: nat, m: int, c: nat) returns (acts: seq<Action>, next: nat)
    requires k >= 1 && m >= 1 && c <= k
    ensures Shape(Run(k, acts), m, m - 1, c, next)
  {
    if c == 0 {
      acts, next := Serially(k, m, m - 1);
    } else {
      acts, next := Together(k, m, c - 1);
      CheckNext(k, acts, m, m - 1, c - 1, next);
      acts := acts + [EnrollCheck(c - 1, 0, 0)];
    }
  }

  lemma {:induction false} CommitAll(k: nat, m: int, used: nat, c: nat, next: nat, acts: seq<Action>)
    returns (all: seq<Action>, last: nat)
    requires Shape(Run(k, acts), m, used, c, next)
    ensures Shape(Run(k, all), m, used + c, 0, last)
    decreases c
  {
    if c == 0 {
      all, last := acts, next;
    } else {
      CommitNext(k, acts, m, used, c, next);
      all, last := CommitAll(k, m, used + 1, c - 1, next + 1, acts + [EnrollCommit(c - 1, next, next)]);
    }
  }

  /** The bound is reached: with `k` enrollments in flight, a token of `m` uses can mint m + k - 1. */
  lemma OveruseIsReachable(k: nat, m: int) returns (acts: seq<Action>)
    requires k >= 1 && m >= 1
    ensures var tokens := Run(k, acts).tables.tokens;
            0 in tokens && tokens[0].maxUse == m && tokens[0].uses == m + k - 1
  {
    var prefix, next := Together(k, m, k);
    var last;
    acts, last := CommitAll(k, m, m - 1, k, next, prefix);
  }

  /** No run ever uses a token more often than it allows. */
  ghost predicate NeverOverused(k: nat) {
    forall acts: seq<Action>, tok: Token :: tok in Run(k, acts).tables.tokens ==>
      var row := Run(k, acts).tables.tokens[tok]; row.uses == 0 || row.uses <= row.maxUse
  }

  /** `max_use` is a limit exactly when enrollments are served one at a time. */
  lemma OveruseNeedsConcurrency(k: nat)
    requires k >= 1
    ensures NeverOverused(k) <==> k == 1
  {
    if k == 1 {
      forall acts: seq<Action>, tok: Token | tok in Run(k, acts).tables.tokens
        ensures var row := Run(k, acts).tables.tokens[tok]; row.uses == 0 || row.uses <= row.maxUse
      {
        TokensAreAccounted(k, acts);
        assert Accounted(k, Run(k, acts).tables, Run(k, acts).minted, tok);
      }
    } else {
      var acts := OveruseIsReachable(k, 1);
      assert 0 in Run(k, acts).tables.tokens;
    }
  }

  /** With one backend process and its pool of 30 connections, a token mints at most max_use + 29 endpoints. */
  lemma PoolBound(acts: seq<Action>, tok: Token)
    requires tok in Run(30, acts).tables.tokens
    ensures var st := Run(30, acts); var row := st.tables.tokens[tok];
            && |MintedBy(st.minted, tok)| == row.uses
            && (row.uses > 0 ==> row.uses <= row.maxUse + 29)
  {
    TokensAreAccounted(30, acts);
    assert Accounted(30, Run(30, acts).tables, Run(30, acts).minted, tok);
  }
}
