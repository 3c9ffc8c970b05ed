# A verified model of the SIEM/SOAR platform's cores

This project models the parts of the platform that hold real state, arithmetic and concurrency, and proves what
they are for. Each module is one component:

| module | component |
|---|---|
| `Ewma`, `Ddos`, `DdosLaws`, `DdosMeaning` | the rolling baselines, the DDoS and container-abuse scorer, its laws over whole runs, and what its totals and triggers mean |
| `EndpointIdentity`, `IdentityLaws` | enrollment tokens, endpoint secrets, registration and rotation, as handlers and as a protocol |
| `TaskDispatch` | the task protocol between the hub, its webhooks and the polling agents |
| `TenantRegistry` | the double-checked TTL cache, as a protocol of any number of threads |
| `IntelligenceLoop`, `IntelligenceLaws` | the multi-tenant intelligence loop with its bus, windows and cool-downs, and when it triages |
| `RateLimiter`, `EventBus` | the two chat limiters, the agent event bus and the replay for stream clients |
| `BlastRadius`, `ContextStream`, `DeadLetter` | the worklist of the network map, batched streaming, the dead-letter hand-off |
| `Beacon`, `Jitter` | beacon detection, and exactly how much jitter it forgives |
| `Containment` | what triage may propose, and what the audit ledger records of it |
| `Common` | options, bounded deques, permutations |

Objects that the program updates in place are classes with the same fields; loops are loops with invariants. Each is
tied to a function or a step relation, and the theorems over all inputs, runs and interleavings are about those.
Arithmetic is exact: timestamps, rates and baselines are `real`, and the square roots of the z-score and of the
coefficient of variation are replaced by tests that are proved equivalent to the quotients the code computes.

Verify everything with `dafny verify dfyconfig.toml`.

## What the proofs found

- A host and a container of the same name share one baseline, and both default to the name `unknown`. A flow of such a
  host can hide a finding about the container that the deployed threshold of 60 would raise
  (`DdosLaws.SharedNameSuppresses`). Some run hides a finding in this way exactly when the names are equal
  (`DdosLaws.SuppressionNeedsSharedName`).
- When flows and containers both trigger, the evidence of the finding lists only the container triggers and no longer
  accounts for the score (`DdosLaws.EvidenceAccountsForScore`, with an input in `DdosLaws.EvidenceMayHideTheFlood`).
- An enrollment token can be used `max_use + K - 1` times when K enrollments are in flight, and `max_use` is a limit
  exactly for K = 1 (`IdentityLaws.OveruseNeedsConcurrency`). A token created with a `max_use` of zero or less admits
  nobody.
- Nothing is ever accepted again from a rotated endpoint, because its new secret is never handed out
  (`IdentityLaws.RotationIsFinal`). It can still be shown as active: exactly when a registration had passed its check
  and not yet committed at the rotation (`IdentityLaws.RevivalNeedsRegistrationInFlight`, with a run in
  `IdentityLaws.RotatedEndpointRevives`). The response text says that the agent must re-enroll; that gives it a new
  identity.
- The hub takes an endpoint's word for its own tasks, and for no other: a task that was never executed shows what its
  owner last claimed (`TaskDispatch.OnlyOwnWordIsTaken`, with a run in `TaskDispatch.UnexecutedClaimCompletes`). If owners
  claim only what they executed before, completion proves execution (`TaskDispatch.HonestClaimsProveExecution`).
- A stream client loses the events emitted between the history snapshot and its subscription. If it resumes after an
  identifier that has left the history, it is sent nothing of what it missed (`EventBus.ForgottenIdentifierSkips`); if
  the identifier is shared, as all steps of one investigation share theirs, it is sent events again
  (`EventBus.SharedIdentifierRepeats`). `EventBus.ResumedClient` says exactly when every later event arrives once.
- Triage hands the beacon check at most one flow, and fewer than four never score (`Beacon.FewFlowsNeverBeacon`).
- The beacon check describes its threshold as a 15 % jitter tolerance. That holds exactly for odd numbers of intervals
  (`Jitter.FifteenPercentNeedsOddCount`); the share that is safe for every group is just below 13 % (`Jitter.SafeShare`).
- A throttle that triage proposes for an abusive container names the source address of the telemetry instead, whenever
  there is one (`Containment.TriageWithDetector`, with an input in `Containment.HostIsThrottledForContainer`).
- The dead-letter log keeps an entry for every consumed payload exactly when no write failed and no two payloads share
  the instant and the client (`DeadLetter.DiskKeepsAllOrKeysClash`, with a run in `DeadLetter.SameInstantOverwrites`).

## Model

| member | source | states |
|---|---|---|
| `Ewma.EWMABaseline.Update` | soc-backend/domain/investigations/DDoSDetector.py:92-100 | one update in place is the value-level recurrence, first sample included |
| `Ewma.EWMABaseline.Seed` | soc-backend/domain/investigations/DDoSDetector.py:149-151 | the seeding loop absorbs all values in order |
| `Ewma.EWMABaseline.ZScoreReaches` | soc-backend/domain/investigations/DDoSDetector.py:102-111 | decides `zscore(value) >= t` without a square root, and never before five samples |
| `Ewma.ClosedForm` | soc-backend/domain/investigations/DDoSDetector.py:92-100 | for every smoothing factor in (0,1) and every non-empty sample list, the recurrence yields the exponentially weighted mean and the exact weighted variance about it, with weights that sum to one |
| `Ewma.MeanAndVarianceBounds` | soc-backend/domain/investigations/DDoSDetector.py:92-100 | the mean stays within any bounds of the samples and the variance is never negative |
| `Ewma.ZScoreWithoutRoot` | soc-backend/domain/investigations/DDoSDetector.py:102-111 | the rootless test is the quotient test, in both directions |
| `Ewma.AbsorbedValueIsOrdinary` | soc-backend/domain/investigations/DDoSDetector.py:92-111 | once x is absorbed, no value up to x reaches a z-score above sqrt((1-a)/a), which is 2 for a = 0.2 |
| `Ewma.BoundIsAttained` | soc-backend/domain/investigations/DDoSDetector.py:92-111 | that bound is sharp: after a steady history the z-score of a jump reaches t if and only if t is within it |
| `Ewma.StillOrdinaryAfterOneMore` | soc-backend/domain/investigations/DDoSDetector.py:92-111 | an absorbed value still does not reach a z-score of 3 after any one further sample |
| `Ddos.GatherFlows` | soc-backend/domain/investigations/DDoSDetector.py:248-264 | the aggregation loop gives each host its totals, hosts in first-seen order |
| `Ddos.GatherSamples` | soc-backend/domain/investigations/DDoSDetector.py:354-376 | the container loop gives each container its counts and maxima |
| `Ddos.DDoSDetector.JudgeHost` | soc-backend/domain/investigations/DDoSDetector.py:268-330 | the four checks add exactly the host's triggers, and the score stays the sum of the trigger weights |
| `Ddos.DDoSDetector.JudgeContainer` | soc-backend/domain/investigations/DDoSDetector.py:378-438 | the five checks add exactly the container's triggers; score and abuse flag stay determined by them |
| `Ddos.DDoSDetector.Open` | soc-backend/domain/investigations/DDoSDetector.py:136-138 | the lookup finds the one object under a key or creates an empty one; what all baselines hold stays the same |
| `Ddos.DDoSDetector.Feed` | soc-backend/domain/investigations/DDoSDetector.py:158-159 | updates the one object under a key; no other object changes |
| `Ddos.DDoSDetector.SeedBaseline` | soc-backend/domain/investigations/DDoSDetector.py:144-151 | seeds one key and leaves every other baseline as it was |
| `Ddos.DDoSDetector.UpdateBaseline` | soc-backend/domain/investigations/DDoSDetector.py:153-159 | feeds each metric of the sample to its own object |
| `Ddos.DDoSDetector.AnalyzeFlows` | soc-backend/domain/investigations/DDoSDetector.py:241-336 | score is the weight of the returned triggers; each host is judged against the baselines from before the call; the new baselines are given |
| `Ddos.DDoSDetector.AnalyzeContainerMetrics` | soc-backend/domain/investigations/DDoSDetector.py:342-441 | the same for containers, with the abuse flag |
| `Ddos.PrimarySource` | soc-backend/domain/investigations/DDoSDetector.py:447-461 | the most frequent source address that is given, the first seen on a tie; else the first container; else `unknown` |
| `Ddos.GivenPositions` | soc-backend/domain/investigations/DDoSDetector.py:451-456 | the addresses counted are those of exactly the flows that name one, in order |
| `Ddos.DDoSDetector.Analyze` | soc-backend/domain/investigations/DDoSDetector.py:182-236 | a finding if and only if both scores together reach the threshold; its score lies in [threshold, 100]; its evidence, category, source and recommended action; the baselines afterwards |
| `Ddos.LearnHostsByKey` | soc-backend/domain/investigations/DDoSDetector.py:267-333 | after a window, each baseline has absorbed exactly its own host's totals |
| `Ddos.LearnContainersByKey` | soc-backend/domain/investigations/DDoSDetector.py:378-438 | the same for containers |
| `DdosMeaning.TotalsAreSums` | soc-backend/domain/investigations/DDoSDetector.py:248-264 | a host's totals are the sums of the byte and packet counters of its own flows, and the set of the non-empty destinations of those flows; a flow that names no source belongs to `unknown` |
| `DdosMeaning.HardTriggers` | soc-backend/domain/investigations/DDoSDetector.py:273-330 | packet flood if and only if the packet sum is at least 5000; extreme spread if and only if at least 200 destinations; scan if and only if 50 to 199 |
| `DdosMeaning.BaselineTriggers` | soc-backend/domain/investigations/DDoSDetector.py:282-311 | over any run, the z-score triggers fire if and only if five samples were absorbed and the sum lies three standard deviations above their weighted mean; the multiplier if and only if one to four were and the sum is ten times their mean |
| `DdosMeaning.FlowTriggersMean` | soc-backend/domain/investigations/DDoSDetector.py:267-336 | an analysis has a trigger if and only if some host that sent a flow has it |
| `DdosMeaning.ScanIsReported` | soc-backend/domain/investigations/DDoSDetector.py:315-330 | a host that reaches 200 addresses in one window is reported, whatever the baselines |
| `DdosMeaning.UsageMeans` | soc-backend/domain/investigations/DDoSDetector.py:363-376 | a container's restarts and kills are numbers of samples; its rate and destination count bound all its samples and are attained by one, or are zero |
| `DdosMeaning.AbuseMeans` | soc-backend/domain/investigations/DDoSDetector.py:385-404 | containers are found abusive if and only if one of them has five restarts or two out-of-memory kills |
| `DdosMeaning.WindowTeaches` | soc-backend/domain/investigations/DDoSDetector.py:333-438 | which samples an analysed window adds under the keys of a name: packet sum, byte sum and container peak |
| `DdosLaws.EvidenceAccountsForScore` | soc-backend/domain/investigations/DDoSDetector.py:187-202 | for all baselines, flows and samples, the evidence of the finding accounts for the whole score if and only if flows or containers triggered nothing |
| `DdosLaws.EvidenceMayHideTheFlood` | soc-backend/domain/investigations/DDoSDetector.py:187-202 | one flow at 5000 packets per second and five restarts score 105, of which the evidence shows 35 |
| `DdosLaws.FlowOrderIsIrrelevant` | soc-backend/domain/investigations/DDoSDetector.py:241-336 | any permutation of the flows gives the same score, the same triggers as a multiset and the same final baselines |
| `DdosLaws.HostWeightMonotone` | soc-backend/domain/investigations/DDoSDetector.py:268-330 | larger totals never lower a host's score |
| `DdosLaws.MoreFlowNeverScoresLess` | soc-backend/domain/investigations/DDoSDetector.py:241-336 | one more flow with non-negative counters, inserted anywhere, never lowers the flow score |
| `DdosLaws.RunByKey` | soc-backend/domain/investigations/DDoSDetector.py:144-159 | over any history of seeding, learning and analysing, a baseline summarises exactly the samples absorbed under its key |
| `DdosLaws.ZScoreFiresOnlyOnRise` | soc-backend/domain/investigations/DDoSDetector.py:282-308 | over any run, a z-score trigger needs five earlier samples and a strict rise above the one last absorbed |
| `DdosLaws.ContainerZScoreFiresOnlyOnRise` | soc-backend/domain/investigations/DDoSDetector.py:416-427 | a container's z-score trigger needs five samples and a strict rise above the last one under its name, this window's flows included |
| `DdosLaws.ConstantFloodTripsOnce` | soc-backend/domain/investigations/DDoSDetector.py:282-333 | a flood that does not grow is flagged twice in a row neither by its packet nor by its byte z-score, even if a container of its name was sampled in between |
| `DdosLaws.ForeignFlowNeverScoresLess` | soc-backend/domain/investigations/DDoSDetector.py:187-208 | a flow whose source names no container never lowers the total score |
| `DdosLaws.SharedNameSuppresses` | soc-backend/domain/investigations/DDoSDetector.py:284-286 | a flow of a host that shares a container's name can lower the total from 90 to 40, past the deployed threshold of 60 |
| `DdosLaws.SuppressionNeedsSharedName` | soc-backend/domain/investigations/DDoSDetector.py:182-208 | further flows of host s never hide a finding about container c, over all runs, if and only if s and c differ |
| `EndpointIdentity.Hub.CreateToken` | soc-backend/interfaces/agent_routes.py:346-393 | files a token with no uses; the limit is not validated |
| `EndpointIdentity.Hub.EnrollCheck` | soc-backend/interfaces/agent_routes.py:158-176 | passes exactly known, unexpired, unexhausted tokens; a refusal is a 401 and changes nothing |
| `EndpointIdentity.Hub.EnrollCommit` | soc-backend/interfaces/agent_routes.py:193-211 | creates a pending endpoint and counts one use, in one transaction |
| `EndpointIdentity.Hub.Gate` | soc-backend/interfaces/agent_routes.py:92-147 | admits exactly the holder of the current secret with a matching tenant header, active where required; 403 on a tenant mismatch and 401 otherwise |
| `EndpointIdentity.Hub.RegisterCheck` | soc-backend/interfaces/agent_routes.py:105-147 | registration passes the gate with the current secret, active or not; a refusal changes nothing |
| `EndpointIdentity.Hub.RegisterCommit` | soc-backend/interfaces/agent_routes.py:272-288 | makes the endpoint active, whatever happened to its secret since the check |
| `EndpointIdentity.Hub.Rotate` | soc-backend/interfaces/agent_routes.py:564-596 | replaces the secret and sends the endpoint back to pending; 404 for an unknown one |
| `EndpointIdentity.CommitKeepsTokens` | soc-backend/interfaces/agent_routes.py:193-211 | a commit keeps the accounts of every token |
| `EndpointIdentity.StepKeepsTokens` | soc-backend/interfaces/agent_routes.py:158-211 | so does every other handler step |
| `EndpointIdentity.TokensAreAccounted` | soc-backend/interfaces/agent_routes.py:158-211 | over every run with at most K enrollments in flight, endpoints minted equal uses, and uses with those in flight stay within max_use + K - 1 |
| `IdentityLaws.EnrollmentIsExact` | soc-backend/interfaces/agent_routes.py:158-176 | at any point of any run, an enrollment passes if and only if its token exists, has not expired at that time and has a use left |
| `IdentityLaws.TokensStayAsCreated` | soc-backend/interfaces/agent_routes.py:205-211 | over every run, tenant, expiry and limit of a token are those it was created with |
| `IdentityLaws.EndpointsBelongToTokens` | soc-backend/interfaces/agent_routes.py:178-211 | over every run, an endpoint belongs to the tenant of the token that minted it |
| `IdentityLaws.OveruseIsReachable` | soc-backend/interfaces/agent_routes.py:164-211 | for every K and every positive max_use some run reaches max_use + K - 1 uses |
| `IdentityLaws.OveruseNeedsConcurrency` | soc-backend/interfaces/agent_routes.py:164-211 | no run overuses a token if and only if K is one |
| `IdentityLaws.PoolBound` | soc-backend/Infrastructure/Http/Deps.py:51-57 | with one process and its pool of 30 connections, a token mints at most max_use + 29 endpoints |
| `IdentityLaws.RunKeepsLog` | soc-backend/interfaces/agent_routes.py:92-147 | over every run the tables agree with the log of issues and registrations |
| `IdentityLaws.AcceptedOnlyWhenRegistered` | soc-backend/interfaces/agent_routes.py:124-138 | over every run, an accepted push, poll or result carries the secret last issued to an endpoint that registered after that issue |
| `IdentityLaws.AcceptanceIsExact` | soc-backend/interfaces/agent_routes.py:92-138 | conversely, at any point of any run the gate admits exactly the secret last issued to an endpoint that registered since, under its own tenant or none |
| `IdentityLaws.RotationIsFinal` | soc-backend/interfaces/agent_routes.py:564-596 | however the run goes on after a rotation and whatever was in flight, the old secret opens nothing and nothing is accepted from the endpoint |
| `IdentityLaws.RevivalNeedsRegistrationInFlight` | soc-backend/interfaces/agent_routes.py:564-596 | some continuation makes a rotated endpoint active if and only if a registration of it was between check and commit at the rotation |
| `IdentityLaws.RotatedEndpointRevives` | soc-backend/interfaces/agent_routes.py:564-596 | one enrollment, a registration check and then a rotation: the endpoint can become active |
| `TaskDispatch.SelectPending` | soc-backend/interfaces/agent_routes.py:445-462 | the poll query on any table: the oldest pending tasks of the endpoint, in order of request time, as many as the limit allows |
| `TaskDispatch.ForeignRequestsChangeNothing` | soc-backend/interfaces/agent_routes.py:476-493 | over any run in which any endpoint may post any status for any task, a task changes only by a request of its own endpoint or an answer of its webhook |
| `TaskDispatch.StepKeepsInv` | soc-backend/interfaces/agent_routes.py:445-562 | every step of hub, webhook and agent keeps the invariant behind the next row |
| `TaskDispatch.CompletedMeansExecuted` | soc-backend/interfaces/agent_routes.py:464-562 | over every run with lost messages, failing webhooks and claims, a task shows the outcome with which its own endpoint executed it, or what that endpoint last claimed, and is pending without either; no other endpoint executed it |
| `TaskDispatch.OnlyOwnWordIsTaken` | soc-backend/interfaces/agent_routes.py:476-493 | in every run, a task is completed and unexecuted if and only if it is unexecuted and the last word of its owner is a completion |
| `TaskDispatch.UnexecutedClaimCompletes` | soc-backend/interfaces/agent_routes.py:476-493 | one claim completes a task that nobody executed |
| `TaskDispatch.HonestClaimsProveExecution` | soc-backend/interfaces/agent_routes.py:464-562 | in every run in which owners claim only outcomes of earlier executions, a completed task was executed with the outcome it shows |
| `TaskDispatch.RoundDrains` | hybrid-siem-agent/agent_poller.py:510-535 | a complete round takes min(10, n) tasks off the queue |
| `TaskDispatch.DrainsInCeilRounds` | hybrid-siem-agent/agent_poller.py:510-535 | with no new work, complete rounds empty a queue of n if and only if there are at least ceil(n/10) of them |
| `TaskDispatch.PollForTasks` | hybrid-siem-agent/agent_poller.py:524-535 | the agent's loop: min(10, n) tasks, oldest first; each that stops being pending shows the outcome of its execution, and every other row is unchanged |
| `TenantRegistry.LockingKept` | core-ingest/tenant_registry.go:60-69 | any action of any thread keeps the lock discipline: one writer and then no reader |
| `TenantRegistry.FiledKeepsStored` | core-ingest/tenant_registry.go:92-101 | a store keeps the cache equal to the latest genuine load of each tenant and loads a TTL apart |
| `TenantRegistry.MoveKeepsInv` | core-ingest/tenant_registry.go:59-102 | every atomic action of every thread keeps the whole invariant |
| `TenantRegistry.RunKeepsInv` | core-ingest/tenant_registry.go:59-102 | it holds along every interleaving of threads, clock and database changes |
| `TenantRegistry.AnswersAreRegistryRows` | core-ingest/tenant_registry.go:59-102 | every configuration returned in any run is the tenant's own row as the database held it at an instant of the load that stored it, younger than the TTL when checked |
| `TenantRegistry.CachedCallIsAnswered` | core-ingest/tenant_registry.go:60-66 | a call with a fresh cache entry is answered with it and loads nothing |
| `TenantRegistry.LoadedCallIsAnswered` | core-ingest/tenant_registry.go:68-101 | otherwise, if the query succeeds for a registered tenant, the answer and the new cache entry copy the row and carry the current clock |
| `TenantRegistry.FailedCallIsNotAnswered` | core-ingest/tenant_registry.go:80-90 | a failed query, an unknown tenant or a malformed secret answers and files nothing |
| `TenantRegistry.CallIsAnsweredIff` | core-ingest/tenant_registry.go:59-102 | from any state with free locks, a call that nothing interrupts returns, frees the locks, and is answered exactly once in the first two cases and not at all otherwise |
| `TenantRegistry.LoadsAreSpaced` | core-ingest/tenant_registry.go:68-101 | two successful loads of one tenant are at least one TTL apart |
| `TenantRegistry.NeverStuck` | core-ingest/tenant_registry.go:60-69 | no deadlock: in every run, a thread that cannot move waits for a lock whose holder can |
| `TenantRegistry.LoadsPerInterval` | core-ingest/tenant_registry.go:68-101 | in any interval of length L a tenant is loaded at most L/ttl + 1 times |
| `IntelligenceLoop.CheckAnomalyThresholds` | soc-backend/domain/Intelligence/AIIntelligenceEngine.py:113-125 | five warnings or two critical events in the window |
| `IntelligenceLoop.IntelligenceEngine.Ingest` | soc-backend/domain/Intelligence/AIIntelligenceEngine.py:47-58 | appends to the bus, or drops the event when 50000 wait |
| `IntelligenceLoop.IntelligenceEngine.File` | soc-backend/domain/Intelligence/AIIntelligenceEngine.py:149-165 | moves the event's tenant by one step of the single-tenant loop and leaves every other tenant alone |
| `IntelligenceLoop.IntelligenceEngine.Turn` | soc-backend/domain/Intelligence/AIIntelligenceEngine.py:143-165 | one turn of the loop, at any clock reading |
| `IntelligenceLoop.ProjectionOntoTenant` | soc-backend/domain/Intelligence/AIIntelligenceEngine.py:143-165 | over every interleaving, what is held for a tenant is what the single-tenant loop computes from that tenant's consumed events |
| `IntelligenceLoop.NonInterference` | soc-backend/domain/Intelligence/AIIntelligenceEngine.py:143-165 | two runs that consume the same events of a tenant at the same times treat that tenant alike |
| `IntelligenceLoop.TenantGuarantees` | soc-backend/domain/Intelligence/AIIntelligenceEngine.py:40-165 | a tenant's window is its last 1000 consumed events and its triages lie 60 s apart, whatever the clock does |
| `IntelligenceLaws.TriageLaw` | soc-backend/domain/Intelligence/AIIntelligenceEngine.py:149-165 | over every run: a tenant's consumed event is triaged if and only if among its last 1000 events there are five of severity WARNING or WARN or two of CRITICAL or ERROR, and its clock reading is 60 s after the previous triage, or after zero; the snapshot is exactly that window |
| `IntelligenceLaws.TenantPositions` | soc-backend/domain/Intelligence/AIIntelligenceEngine.py:149-150 | the events of a tenant are those that name it, or those that name none for `unknown`, in the order of consumption |
| `IntelligenceLaws.AnomalousMeans` | soc-backend/domain/Intelligence/AIIntelligenceEngine.py:120-125 | the anomaly signal in numbers of positions of the window |
| `IntelligenceLoop.BusIsFifo` | soc-backend/domain/Intelligence/AIIntelligenceEngine.py:37-58 | consumed then waiting events are the events offered while there was room, in order |
| `RateLimiter.AtMostTenPerWindow` | soc-backend/interfaces/api_routes.py:167-177 | no 60 s window of any run holds more than ten accepted messages |
| `RateLimiter.AcceptanceLaw` | soc-backend/interfaces/api_routes.py:167-177 | in every run, the j-th message is accepted if and only if fewer than ten of the messages accepted before it lie within the 60 s before it |
| `RateLimiter.ListLimiter.Message` | soc-backend/interfaces/api_routes.py:167-177 | accepts if and only if fewer than ten were accepted in the last 60 s |
| `RateLimiter.DequeLimiter.Clean` | soc-backend/interfaces/api_routes.py:1962-1964 | the popping loop equals filtering |
| `RateLimiter.DequeLimiter.Message` | soc-backend/interfaces/api_routes.py:1960-1970 | the same acceptance law; the bound of the deque never evicts |
| `RateLimiter.VariantsDiffer` | soc-backend/interfaces/api_routes.py:1963-1966 | on one history the variants disagree if and only if messages exactly 60 s old make the difference; the deque is the stricter |
| `RateLimiter.VariantsAgree` | soc-backend/interfaces/api_routes.py:167-177 | without arrivals exactly 60 s apart both accept the same messages of any run |
| `EventBus.AgentEventBus.Put` | soc-backend/Infrastructure/AgentEvents.py:17-21 | a full queue gives up its oldest event, then takes the new one |
| `EventBus.AgentEventBus.Broadcast` | soc-backend/Infrastructure/AgentEvents.py:13-23 | the loop delivers to every subscriber once and to nobody else |
| `EventBus.AgentEventBus.NewSubscriber` | soc-backend/Infrastructure/AgentEvents.py:25-28 | an empty queue joins the list |
| `EventBus.AgentEventBus.Leave` | soc-backend/Infrastructure/AgentEvents.py:30-32 | the queue leaves the list, keeping what it holds |
| `EventBus.AgentEventBus.Next` | soc-backend/interfaces/api_routes.py:1940 | the live loop takes the oldest waiting event |
| `EventBus.CollectReplay` | soc-backend/interfaces/api_routes.py:1924-1932 | the flag loop sends the whole history, or all of it after the first match, or nothing |
| `EventBus.ReplayIsSuffix` | soc-backend/interfaces/api_routes.py:1927-1932 | what is replayed is a suffix of the history |
| `EventBus.ApplyKeepsInv` | soc-backend/Infrastructure/AgentEvents.py:8-34 | under any operation the history stays the last 500 emissions and each queue a contiguous stretch of those since it subscribed |
| `EventBus.NothingMissed` | soc-backend/interfaces/api_routes.py:1937-1941 | rising deliveries without loss are exactly the positions since the subscription |
| `EventBus.LosslessIfKeepsUp` | soc-backend/Infrastructure/AgentEvents.py:17-21 | over any operations, a queue loses nothing if and only if its reader is never more than 100 events behind, and it then holds the whole backlog |
| `EventBus.StreamClient` | soc-backend/interfaces/api_routes.py:1924-1943 | replay then live delivery sends the events emitted at strictly rising positions; from the start of the replay on nothing is missed if and only if nothing was emitted between snapshot and subscription and the client is never more than 100 behind |
| `EventBus.ReplayResumes` | soc-backend/interfaces/api_routes.py:1925-1932 | the replay starts right after the event at position p if and only if p is among the last 500 and no earlier event of the history has its identifier |
| `EventBus.FreshClientGetsHistory` | soc-backend/interfaces/api_routes.py:1924-1936 | a client that names no event is sent the last 500 emissions |
| `EventBus.SharedIdentifierRepeats` | soc-backend/interfaces/api_routes.py:1929-1931 | a client that saw two events of one identifier is sent the second again |
| `EventBus.ForgottenIdentifierSkips` | soc-backend/interfaces/api_routes.py:1929-1931 | a client that was away for 500 events is sent none of them |
| `EventBus.ResumedClient` | soc-backend/interfaces/api_routes.py:1924-1943 | a client that resumes after position p is sent every later event exactly once if and only if p is resumable in that sense, nothing was emitted between snapshot and subscription, and it is never more than 100 behind |
| `BlastRadius.Expand` | soc-frontend/src/pages/assets/NetworkMapPage.tsx:200-208 | one pass over the edges keeps the exploration invariant while it fills the set it tests |
| `BlastRadius.ReachableNodes` | soc-frontend/src/pages/assets/NetworkMapPage.tsx:196-210 | terminates for every edge list with exactly the undirected component of the selected node; empty when nothing is selected or simulated |
| `BlastRadius.PathStaysInside` | soc-frontend/src/pages/assets/NetworkMapPage.tsx:196-210 | no path leaves a set that is closed under edges |
| `BlastRadius.ConnectedBack` | soc-frontend/src/pages/assets/NetworkMapPage.tsx:205-206 | reachability goes both ways |
| `BlastRadius.EdgeConnects` | soc-frontend/src/pages/assets/NetworkMapPage.tsx:205-206 | an edge puts its ends into one component, whichever way it points |
| `Beacon.GroupFlows` | soc-backend/domain/investigations/RatDetector.py:278-301 | groups the timestamps of external flows by connection, in first-seen order |
| `Beacon.GroupPositions` | soc-backend/domain/investigations/RatDetector.py:278-301 | a group holds the timestamps of exactly the flows with its source, destination and port, a timestamp, and a destination that is none of the private, local or unspecified ones by its text |
| `Beacon.SortSorts` | soc-backend/domain/investigations/RatDetector.py:136 | sorting gives an ordered permutation |
| `Beacon.SortedIsUnique` | soc-backend/domain/investigations/RatDetector.py:136 | there is only one |
| `Beacon.MeanInterval` | soc-backend/domain/investigations/RatDetector.py:132-137 | the mean interval is (latest - earliest)/(n - 1) |
| `Beacon.CvWithoutRoot` | soc-backend/domain/investigations/RatDetector.py:108-116 | the rootless test is the test stdev/mean <= c, in both directions and with the degenerate value 1.0 |
| `Beacon.ScoreMeans` | soc-backend/domain/investigations/RatDetector.py:306-345 | four or more timestamps score by their mean spacing (latest - earliest)/(n - 1) and the standard deviation of the intervals alone: 0 outside (0, 300] s, 60 up to 15 % of the mean, 35 up to 30 %, else 0 |
| `Beacon.JudgeGroup` | soc-backend/domain/investigations/RatDetector.py:306-345 | the verdict on one group: 60, 35 or 0 |
| `Beacon.CheckBeaconPattern` | soc-backend/domain/investigations/RatDetector.py:271-346 | with its early return, gives the maximum over all groups and names the first group that attains it |
| `Beacon.BestIsUnique` | soc-backend/domain/investigations/RatDetector.py:302-346 | there is one such maximum, the score of the check |
| `Beacon.FlowOrderIsIrrelevant` | soc-backend/domain/investigations/RatDetector.py:271-346 | the score is the same for every permutation of the flows |
| `Beacon.OriginIsIrrelevant` | soc-backend/domain/investigations/RatDetector.py:271-346 | shifting all timestamps changes neither the score nor the group reported |
| `Beacon.ExactPeriodIsFound` | soc-backend/domain/investigations/RatDetector.py:302-330 | four or more connections at one exact period in (0, 300] s score 60, in any order and among any other traffic, and 60 reaches the threshold |
| `Jitter.DeviationBound` | soc-backend/domain/investigations/RatDetector.py:108-116 | n intervals within w of their mean have squared deviations of at most 2·(n/2)·w² in all, with integer division |
| `Jitter.JitterTolerance` | soc-backend/domain/investigations/RatDetector.py:108-116 | for every n >= 2, share j and threshold c: all lists of n intervals within the share j of their mean pass the test c if and only if 2·(n/2)·j² <= c²(n-1) |
| `Jitter.BeaconTolerance` | soc-backend/domain/investigations/RatDetector.py:306-330 | all groups of n + 1 connections with a mean interval in (0, 300] s and jitter up to j score 60 if and only if 2·(n/2)·j² <= 0.0225·(n-1) |
| `Jitter.SafeShare` | soc-backend/domain/investigations/RatDetector.py:306-330 | a share of jitter is safe for groups of every size if and only if 4·j² <= 0.0675, just below 13 % |
| `Jitter.FifteenPercentNeedsOddCount` | soc-backend/domain/investigations/RatDetector.py:46-47 | 15 % is tolerated if and only if the number of intervals is odd |
| `Beacon.FewFlowsNeverBeacon` | soc-backend/domain/investigations/AntigravityTriageAgent.py:311-318 | fewer than four flows, as triage passes them, never score |
| `Beacon.Analyze` | soc-backend/domain/investigations/RatDetector.py:186-248 | a finding if and only if there are flows and the beacon score with the other checks reaches the threshold; reported score capped at 100; it carries the first best group whenever a beacon scored |
| `ContextStream.FetchAlertContext` | core-ingest/main.go:274-344 | batches numbered 1..k, none empty, all but the last of exactly 100, concatenating to the scanned rows in order; on a failed send, whole batches of a proper prefix; fails if and only if more rows scan than fit in the batches that can be sent |
| `ContextStream.KeepRequested` | soc-backend/domain/investigations/agents.py:47-50 | the inner loop keeps what was requested |
| `ContextStream.FetchEvidence` | soc-backend/domain/investigations/agents.py:43-67 | stream and filter together return exactly the requested scanned rows, in order, and an error instead of a short answer |
| `ContextStream.ScannedPositions` | core-ingest/main.go:298-301 | scanning skips exactly the rows that do not scan and keeps the order |
| `ContextStream.RequestedPositions` | soc-backend/domain/investigations/agents.py:47-50 | the filter keeps exactly the rows whose identifier was asked for, in order; all if none was named |
| `ContextStream.OnlyRequested` | soc-backend/domain/investigations/agents.py:48-50 | with identifiers named, every returned row has one of them |
| `ContextStream.RequestedMeans` | soc-backend/domain/investigations/agents.py:48-50 | each requested row survives as often as it was sent, and no other does |
| `DeadLetter.Queue.TrySend` | core-ingest/database.go:286-291 | the non-blocking send succeeds if and only if there is room |
| `DeadLetter.Queue.HandOff` | core-ingest/database.go:282-293 | the fallback loop keeps the head of the batch as far as there is room, and drops only into a full channel |
| `DeadLetter.Queue.Consume` | core-ingest/database.go:67-82 | takes the oldest payload and files it under time and client |
| `DeadLetter.EveryPayloadIsAccounted` | core-ingest/database.go:67-82 | over any interleaving of writers and consumer, every payload handed over is exactly one of consumed, buffered or dropped, consumption is first in first out, and at most 100000 wait |
| `DeadLetter.DropsOnlyWhenBehind` | core-ingest/database.go:282-293 | nothing is dropped if and only if arrivals never outrun the consumer by more than the capacity |
| `DeadLetter.DiskKeepsAllOrKeysClash` | core-ingest/database.go:71-77 | the disk log has one entry per consumed payload if and only if no write failed and no key repeats |
| `DeadLetter.FiledUnderOwnKey` | core-ingest/database.go:73-77 | whatever is filed is filed under the instant of its consumption and its own client |
| `DeadLetter.SameInstantOverwrites` | core-ingest/database.go:71-77 | two payloads of one client consumed at the same instant leave one entry |
| `DeadLetter.DiskHoldsWhatWasFiled` | core-ingest/database.go:71-77 | what was filed and not overwritten is the payload that was consumed |
| `Containment.OnlyHarmlessActionsPassUnapproved` | soc-backend/domain/investigations/AntigravityTriageAgent.py:185-233 | an action is permitted if and only if its target is unprotected and it does not modify the router; it is allowed without approval if and only if it is permitted and not a containment action |
| `Containment.ExfiltrationInBytes` | soc-backend/domain/investigations/AntigravityTriageAgent.py:125-131 | the exfiltration risk in whole bytes, for all counters |
| `Containment.AuditLedger.Append` | soc-backend/Infrastructure/Database/audit.py:31-39 | appends one entry whose decision follows from the risk |
| `Containment.Escalate` | soc-backend/domain/investigations/AntigravityTriageAgent.py:284-354 | threat, confidence and findings from the flow's own verdict and the two detectors |
| `Containment.Propose` | soc-backend/domain/investigations/AntigravityTriageAgent.py:365-379 | proposes the action unless its target is protected, with one pending entry |
| `Containment.ProposeThrottles` | soc-backend/domain/investigations/AntigravityTriageAgent.py:382-403 | one throttle for each container-abuse finding on an unprotected source |
| `Containment.TargetMeans` | soc-backend/domain/investigations/AntigravityTriageAgent.py:289-291 | whom triage is about, from the telemetry alone: the destination if the application mentions drop or block, else the source; 192.168.1.105 if that is empty |
| `Containment.ExecuteTriage` | soc-backend/domain/investigations/AntigravityTriageAgent.py:284-403 | for all telemetry and detector results: true positive if and only if drop, exfiltration or a finding; a true positive isolates exactly that target, once, if and only if it is not one of the three protected addresses, and nothing else is isolated; no action on a protected address; exactly one pending entry per action, in order |
| `Containment.RunDetector` | soc-backend/domain/investigations/AntigravityTriageAgent.py:333-342 | the DDoS detector on the telemetry at hand: its verdict, and a source that is the source address of the telemetry whenever there is one |
| `Containment.TriageWithDetector` | soc-backend/domain/investigations/AntigravityTriageAgent.py:333-403 | triage with the detector in it: the same isolation; a throttle is proposed if and only if the detector finds container abuse and its target is unprotected, and it names the source of the telemetry, the container only when there is none |
| `Containment.HostIsThrottledForContainer` | soc-backend/domain/investigations/AntigravityTriageAgent.py:380-386 | five restarts of a container at 5000 packets per second of its host reach the deployed threshold as abuse, and the throttle names the host |

## Left out

- `Ddos.DDoSDetector.Analyze`: identifiers, tenant and timestamps of the finding; evidence is its trigger list.
- `Beacon.Analyze`: the other four checks of the RAT detector enter as their non-negative total; they are table lookups.
- `EndpointIdentity.Hub.Gate`: parsing of the Bearer header and the secret lookup itself; `row` is what the lookup found.
- `EndpointIdentity.Hub.RegisterCommit`: only the change of status; the inventory columns it fills are not modelled.
- `TaskDispatch.SelectPending`: among tasks of the same request time the database may choose another order.
- `TaskDispatch.CompletedMeansExecuted`: a webhook is taken to reach the endpoint the task was assigned to, although the tunnel address is self-reported; for pushes, execution by no other endpoint holds by this assumption. Webhook answers are success or failure, and a status other than pending counts as one of these.
- `TaskDispatch.PollForTasks`: one round with all messages delivered; lost messages are in the step relation.
- `RateLimiter.ListLimiter.Message`: for a clock that does not step back; `time.time()` does not promise that.
- `RateLimiter.DequeLimiter.Message`: the same.
- `ContextStream.FetchAlertContext`: the query and its limit, and UUID parsing of the requested ids, come before the loop; rows enter as scanned or failed.
- `DeadLetter.Queue.Consume`: the key is the pair of time and client, not its text; JSON encoding is not modelled.
- `Containment.ExecuteTriage`: progress events, the investigation graph and the texts of summaries; the database insert behind the ledger is fire-and-forget and may fail.
- Except for enrollment and registration, handlers are atomic steps; issued secrets and identifiers are fresh and distinct, and cryptography is not modelled.
- LLM triage and alert persistence after the intelligence loop decides to triage.
- Floating-point rounding: all arithmetic is exact.
- The hourly sweep of correlation state (`core-ingest/main.go`) keeps the timestamps of the last 24 hours and deletes keys without any; `aggregate_network_evidence` (`agents.py`) counts connections per destination and lists the ten largest. Both are one pass over their input that no other modelled component relies on.
- HTTP, gRPC, WebSocket, PostgreSQL, ClickHouse, bbolt and Docker; log parsing, correlation rules, the policy engine's role table, and all other pages of the console.
