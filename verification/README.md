# SentinelOps core, verified

A Dafny model of the stateful core of the SentinelOps services, with proofs of what that core promises
over whole runs, all interleavings and arbitrary outside answers.

`dafny verify dfyconfig.toml` checks everything.

## What is modelled

**Incident correlation** (`services/incident-correlator`). One anomaly signal is one unit of work:
dedupe, lock the active incident of the key, create / append / supersede, fold the signal into the
incident, re-rate it, link it across the service graph, commit.

| module | content |
|---|---|
| `IncidentDomain`, `SeverityEngine`, `Aggregates`, `Correlation` | entities, the severity rules, the fold that aggregates must agree with, the effect of one unit of work on the tables |
| `Topology` | the batch correlation over all active incidents |
| `IncidentRepository`, `AnomalyProcessor` | the in-memory repository, its unit of work and the processor, as classes that update their fields |
| `SerialStore`, `SerialInvariants`, `SerialLinks`, `SerialGaps`, `SerialTimes`, `EvidenceSeverity` | serial runs of signals and API transitions, and what holds in every state of them |
| `Interleaving` | concurrent units of work on the SQL tables with row lock, unique active key, unique event id, rollback |

**At-least-once consumer** (`IdempotentConsumer`). One partition, one effect per await, a crash between
any two of them, driving the incident processor on a store (incidents, evidence, relations) that other
partitions and API transitions also change.

**Remediation lifecycle** (`RemediationDomain`, `RemediationRepository`, `RemediationClients`,
`RemediationService`). The repository and the service as classes; any number of interleaved calls as a
state machine in which every call reads once, checks its guards on that read, and then performs its
transactions; the audit list as a log that replays to the stored status.

**RCA investigation** (`RcaReport`, `RcaPlan`, `RcaGraph`, `RcaRuns`, `RcaLongest`). The plan gate, the seven nodes
driven by a model, tools and a clock that answer arbitrarily, the assembly of the report, and the
validation gate.

**Numeric code** (`Calibration`, `Quantile`, `Features`) and the bounded order store (`OrderStore`).

`Prelude` and `Ordering` hold shared vocabulary: options, extrema, sorting under a strict total order.

## Exact conditions, and differences from the documentation

- Incremental linking equals the batch correlation exactly when no two services depend on each other
  and none on itself (`IncrementalLinksRefineBatch`). Acyclicity of the dependency graph, which the
  design assumes, is enough but more than needed; with a mutual dependency the batch lists two edges
  where the processor stores one.
- No record is lost by the consumer exactly when `max_retries` is at least 1
  (`CoveredExactlyWhenRetrying`). With a smaller value a record is skipped without any effect and the
  commit of a later one passes it.
- An assembled report passes the gate exactly when every hypothesis cites collected evidence only and the
  account of the uncertainty is empty or not blank; the fallback exactly when every hypothesis does
  (`BuiltReportPasses`, `FallbackPasses`). In a run of the graph the verification step keeps hypotheses
  grounded, so a blank account of the uncertainty is the only thing the repair loop can meet, and the
  branches in which the fallback itself is rejected cannot be reached (`AcceptedReportsPass`).
- A run visits at most max_tool_calls + 6 + 2 * repairs nodes: a re-analysis needs an unspent tool call.
  With at least three tool calls and enough steps there is a run of exactly that length
  (`RunsAreBounded`, `BoundIsAttained`).
- The status of an investigation follows its lifecycle table with two exceptions, both reachable:
  PENDING to TIMED_OUT and PLANNING to VERIFYING.
- With `objective="fpr"` calibration is documented as the lowest threshold within budget. What it keeps is
  the lowest grid point within budget; no real threshold within budget has a higher recall. It is the
  lowest of all real thresholds exactly when all scores are equal, some window has label 0 and the budget
  is below one (`LowestExactlyWhenOneScore`). Scores 0 and 1 with labels 0 and 1 and a budget of zero show
  the failure: one half is kept, although zero is lower and within budget (`LowerThresholdExample`).
- The order store refuses an add exactly when its bound is negative (the eviction loop pops an empty
  dictionary).

## Model

| member | source | states |
|---|---|---|
| SeverityEngine.EvaluateSeverity | services/incident-correlator/incident_correlator/severity.py:53-114 | collecting fired rules and taking the highest level gives the level of the strongest rule that holds, with exactly that level's reasons in rule order |
| SeverityEngine.SeverityIsMonotone | services/incident-correlator/incident_correlator/severity.py:53-114 | for every configuration, inputs that are nowhere lower never get a lower severity |
| EvidenceSeverity.SeverityFromEvidence | services/incident-correlator/incident_correlator/severity.py:53-114 | an incident that agrees with its evidence is CRITICAL, HIGH, MEDIUM or LOW exactly as readings, spans, counts and abnormal names of its evidence rows reach the limits of the levels, and each reason names the peak reading or span and the limit; its title lists the names seen, in order |
| EvidenceSeverity.StoredSeverity | services/incident-correlator/incident_correlator/processor.py:227-260 | in every serially reachable store each incident's severity and reasons are those its evidence rows call for |
| Aggregates.FoldIgnoresOrder | services/incident-correlator/incident_correlator/processor.py:227-256 | folding any permutation of the same signals gives the same aggregates |
| Aggregates.FoldMeaning | services/incident-correlator/incident_correlator/processor.py:227-256 | the folded count is the number of signals and each maximum is the largest reading, floored at zero |
| Aggregates.FoldSpan | services/incident-correlator/incident_correlator/processor.py:227-256 | the folded interval is the tightest one around all windows |
| Aggregates.FoldNames | services/incident-correlator/incident_correlator/processor.py:227-256 | a signal name is listed exactly when some window had it abnormal |
| Correlation.Decide | services/incident-correlator/incident_correlator/correlation.py:55-74 | an incident is created exactly when none is active, appended to exactly when the signal occurs within the window after the last evidence, and superseded otherwise; the reason carries gap and window |
| SerialGaps.NoIncidentSpansQuiet | services/incident-correlator/incident_correlator/correlation.py:55-74 | in every serially reachable store each signal of an incident after its first occurred within the window after the evidence there was by then and carries that gap, and each incident was opened because none was active or the active one had been quiet for longer |
| Correlation.NewIncidentAgrees | services/incident-correlator/incident_correlator/processor.py:192-260 | a new incident's aggregates, names, severity, reasons and title are the fold of its one piece of evidence |
| Correlation.AppendAgrees | services/incident-correlator/incident_correlator/processor.py:140-150 | appending keeps aggregates, names, severity, reasons and title equal to the fold of all evidence |
| Correlation.EvidenceOrderIsIrrelevant | services/incident-correlator/incident_correlator/processor.py:227-260 | incidents of one service and environment with the same evidence in any order agree on aggregates, names, severity, reasons and title |
| Correlation.AbsorbWidens | services/incident-correlator/incident_correlator/processor.py:227-260 | absorbing widens the interval and never lowers the severity |
| IncidentDomain.TransitionAdvances | services/incident-correlator/incident_correlator/state_machine.py:18-48 | every allowed transition moves strictly forward in the lifecycle |
| Topology.AcyclicIsAsymmetric | services/incident-correlator/incident_correlator/topology.py:91-111 | an acyclic dependency graph has no mutual and no self dependency |
| Topology.CorrelateIncidents | services/incident-correlator/incident_correlator/topology.py:114-227 | the batch loop returns, sorted by id pair and without duplicates, exactly the pairs with a declared dependency, one environment and overlapping windows, each with the ids and services of dependent and dependency; for proper intervals, overlapping means that some instants of the two are within the window |
| Topology.BatchPairMeaning | services/incident-correlator/incident_correlator/topology.py:114-123 | a batch pair is two incidents whose services the graph connects, in one environment, with an instant of the one within the window of an instant of the other |
| IncidentRepository.InMemoryRepository.Transition | services/incident-correlator/incident_correlator/repository.py:273-298 | a validated transition updates status, times, resolution and history of one row and returns that row; a missing id or a forbidden transition changes nothing |
| IncidentRepository.UnitOfWork.LockActiveIncident | services/incident-correlator/incident_correlator/repository.py:112-116 | the loop finds the active incident of the key, or none when there is none |
| IncidentRepository.UnitOfWork.ActiveIncidentsInServices | services/incident-correlator/incident_correlator/repository.py:161-171 | the loop returns exactly the active incidents of the environment in the named services, each once |
| IncidentRepository.UnitOfWork.Commit | services/incident-correlator/incident_correlator/repository.py:118-186 | commit applies the staged writes one by one in order and stops at the first that fails |
| IncidentRepository.ApplyAllConcat | services/incident-correlator/incident_correlator/repository.py:184-186 | committing two batches of writes in a row is committing their concatenation |
| AnomalyProcessor.Incident.Absorb | services/incident-correlator/incident_correlator/processor.py:227-260 | the field updates in place produce the row that the specification of absorption gives, and leave evidence and history alone |
| AnomalyProcessor.Incident.AutoResolve | services/incident-correlator/incident_correlator/processor.py:262-276 | a quiet incident is resolved in place as of its last evidence, with the matching history entry |
| AnomalyProcessor.Processor.LinkRelatedIncidents | services/incident-correlator/incident_correlator/processor.py:278-319 | the loop stages exactly the edges to active incidents of adjacent services in the same environment that have an instant within the window of an instant of this one, each directed from dependent to dependency |
| AnomalyProcessor.Processor.Process | services/incident-correlator/incident_correlator/processor.py:102-173 | one undisturbed unit of work is exactly one step of the serial specification, its commit never fails, and it reports duplicate, created, appended or superseded, with incident and reason, as the tables it found call for |
| SerialInvariants.ProcessDbInv | services/incident-correlator/incident_correlator/processor.py:117-173 | one unit of work keeps one active incident a key, one evidence row an event, aggregates equal to the fold of the evidence, and legal histories |
| SerialInvariants.RunInv | services/incident-correlator/incident_correlator/processor.py:102-173 | every serially reachable state has one active incident a key, one evidence row an event, agreeing aggregates, legal histories, justified and duplicate-free edges |
| SerialInvariants.RunMovesForward | services/incident-correlator/incident_correlator/processor.py:227-256 | between any two states of a serial run no incident is lost, its identity stays, its interval only widens, and severity rank and lifecycle stage never decrease |
| SerialLinks.IncrementalLinksRefineBatch | services/incident-correlator/incident_correlator/processor.py:278-319 | in every state of every serial run the stored edges between active incidents are those of the batch correlation, if and only if no two services depend on each other and none on itself |
| SerialLinks.StoredEdgesConnect | services/incident-correlator/incident_correlator/processor.py:278-319 | in every serially reachable store over an asymmetric graph, two active incidents share a stored edge exactly when the graph declares the dependency, the environment is one, and an instant of the one is within the window of an instant of the other |
| SerialLinks.MutualDependencyFails | services/incident-correlator/incident_correlator/processor.py:286-319 | a mutual or self dependency always has a run whose stored edges differ from the batch |
| SerialLinks.RelationsAcyclic | services/incident-correlator/incident_correlator/processor.py:286-319 | over an acyclic dependency graph no walk along stored edges returns to its start |
| SerialLinks.StoredRelationGraph | services/incident-correlator/incident_correlator/repository.py:173-182 | in every serially reachable store edges are distinct, free of loops and cycles, follow a declared dependency within one environment, and their ends still overlap |
| SerialLinks.StoredIncident | services/incident-correlator/incident_correlator/state_machine.py:18-48 | every stored incident agrees with its evidence, has a gapless history of at most five allowed transitions from OPEN to its status, a resolution time exactly when resolved, and is never reopened |
| SerialTimes.StoredTimes | services/incident-correlator/incident_correlator/repository.py:273-298 | in every serially reachable store an incident is acknowledged at the instant of its first ACKNOWLEDGED entry or not at all; one resolved by hand is resolved at its last entry, one that went quiet as of its last evidence, each with its resolution; an unresolved one shows neither; opening reason, time and detector are those of the first evidence |
| Interleaving.CommitIsSerial | services/incident-correlator/incident_correlator/db/repository.py:163-219 | what a transaction decided before its writes is, at commit, one serial unit of work on the tables as they are then |
| Interleaving.Serializable | services/incident-correlator/incident_correlator/db/repository.py:159-280 | in every interleaving the committed tables are those of the committed units of work and transitions run one after the other in commit order; one active incident a key, one evidence row an event |
| IdempotentConsumer.Consumer.ProcessOne | libs/sentinelops_common/kafka.py:207-258 | the handler is called again only after a retryable failure and while attempts are left; a rejection, an unexpected failure or the last retryable failure is followed by exactly one dead-letter offer and one commit, a return by the commit; the record is counted as processed or rejected accordingly, and the call raises exactly when the last commit does |
| IdempotentConsumer.PolicyDeterminesTrace | libs/sentinelops_common/kafka.py:207-258 | for each record and outcome of its attempts the retry policy allows one sequence of effects |
| IdempotentConsumer.Consumer.Run | libs/sentinelops_common/kafka.py:192-205 | a session handles its records in order until told to stop or until a commit raises out of it, no record after that, and is not healthy afterwards |
| IdempotentConsumer.TraceCovered | libs/sentinelops_common/kafka.py:207-275 | with at least one attempt, a record's offset is never committed before the record was handled or offered to the dead-letter topic, and its effects end with a commit |
| IdempotentConsumer.ExactlyOnceEffect | libs/sentinelops_common/kafka.py:192-262 | under any schedule of crashes, redeliveries, handler failures, failing commits and steps of others, incidents, evidence and relations are those of a serial run in which every event takes effect at most once, this partition's in log order; a record takes effect exactly when it is the first one handled of its event and the event did not come from outside; every record below the committed offset was handled or offered to the dead-letter topic |
| IdempotentConsumer.CoveredExactlyWhenRetrying | libs/sentinelops_common/kafka.py:219-258 | no run ever leaves an uncovered record below the committed offset, if and only if max_retries is at least 1 |
| IdempotentConsumer.NoAttemptLosesRecord | libs/sentinelops_common/kafka.py:219-258 | without attempts a well-formed record followed by a malformed one is lost |
| RemediationDomain.WordReplays | services/remediation-controller/remediation_controller/audit/builders.py:93-360 | replaying the audit rows of the transactions that lead to a status yields that status, each row being of the kind that describes its change |
| RemediationDomain.TrailConcat | services/remediation-controller/remediation_controller/repository.py:319-322 | the rows appended by one transaction come last in the trail of their remediation |
| RemediationRepository.InMemoryRepository.CreateRecord | services/remediation-controller/remediation_controller/repository.py:324-336 | stores a new record with its audit rows, or refuses a known id and changes nothing |
| RemediationRepository.InMemoryRepository.Decide | services/remediation-controller/remediation_controller/repository.py:355-371 | writes the caller's proposal and approval with the audit rows, unless the record is missing or decided, when nothing changes |
| RemediationRepository.InMemoryRepository.BeginRun | services/remediation-controller/remediation_controller/repository.py:373-391 | claims the one execution of an approved remediation, or changes nothing |
| RemediationRepository.InMemoryRepository.FinishRun | services/remediation-controller/remediation_controller/repository.py:393-412 | finishes the execution in progress along an allowed transition, or changes nothing |
| RemediationRepository.InMemoryRepository.BeginCheck | services/remediation-controller/remediation_controller/repository.py:414-435 | claims the one verification of an executed remediation, or changes nothing |
| RemediationRepository.InMemoryRepository.FinishCheck | services/remediation-controller/remediation_controller/repository.py:437-456 | finishes the verification in progress along an allowed transition, or changes nothing |
| RemediationRepository.InMemoryRepository.ListAuditEvents | services/remediation-controller/remediation_controller/repository.py:458-466 | the page is the requested slice of the remediation's rows, oldest first |
| RemediationService.Service.Propose | services/remediation-controller/remediation_controller/service.py:225-254 | from the mapped and evaluated proposal on, an undisturbed call is one step of the concurrent model and answers the new record, or fails on a known id |
| RemediationService.Service.Decide | services/remediation-controller/remediation_controller/service.py:274-380 | an undisturbed decision is the composition of its steps in the concurrent model; it succeeds exactly on an undecided, allowed, unexpired record, for a rejection or for a role that may approve that action, and then answers the stored record, and otherwise answers the guard's error and changes nothing |
| RemediationService.DecideMeaning | services/remediation-controller/remediation_controller/service.py:274-380 | exactly then the record becomes APPROVED or REJECTED with the decision, role, identity and time given, and nothing else changes |
| RemediationService.Service.Execute | services/remediation-controller/remediation_controller/service.py:383-533 | an undisturbed execution is the composition of its steps; it answers the guard's error, a conflict, an interruption or the stored record; a dry run changes nothing; a refused call never reaches the executor |
| RemediationService.ExecuteMeaning | services/remediation-controller/remediation_controller/service.py:383-533 | the executor is reached, once, exactly for a listed, approved, unexpired remediation without an execution; success, failure and interruption leave EXECUTED, EXECUTION_FAILED or EXECUTING with the matching execution |
| RemediationService.Service.VerifyRecovery | services/remediation-controller/remediation_controller/service.py:536-707 | an undisturbed verification is the composition of its steps; a stored verdict, and nothing else, is replayed unchanged; any other call answers its refusal or the stored record |
| RemediationService.VerifyMeaning | services/remediation-controller/remediation_controller/service.py:536-707 | a verification goes through exactly for a succeeded execution that has none yet, and leaves RECOVERED or RECOVERY_FAILED with the outcome |
| RemediationClients.StepInv | services/remediation-controller/remediation_controller/service.py:274-677 | every step of every call keeps the invariant on records, calls in progress and executor runs, and records only evolve |
| RemediationClients.RunsOnceAndOnlyApproved | services/remediation-controller/remediation_controller/service.py:297-533 | in every interleaving the executor runs for real at most once a remediation, with the execution recorded for it, after an APPROVE by a role whose matrix covers the catalogue risk, with decision and start before expiry |
| RemediationClients.EveryRunEntitled | services/remediation-controller/remediation_controller/authorization.py:31-54 | in every interleaving a rollback really ran only with an administrator's APPROVE, a restart or scaling never with an operator's, and an operator's APPROVE is only stored for disabling a feature flag |
| RemediationDomain.MatrixPairs | services/remediation-controller/remediation_controller/authorization.py:31-54 | matrix and catalogue risks together let an operator approve disabling a flag, an incident responder anything but a rollback, and an administrator everything |
| RemediationClients.AuditReplaysToStatus | services/remediation-controller/remediation_controller/repository.py:319-456 | in every interleaving the rows of a remediation are exactly the transactions that lead to its status and replay to it; a verification, in progress or done, implies a SUCCEEDED execution |
| RemediationClients.RecordsOnlyEvolve | services/remediation-controller/remediation_controller/repository.py:355-456 | between any two moments no remediation disappears, an approval never changes, execution and verification keep their identity, a finished execution stays, status moves onward, the audit list only grows at its end |
| RcaReport.ReferencedEvidenceIds | services/rca-agent/rca_agent/validation.py:36-50 | the loops collect exactly the evidence ids that some section of the report cites |
| RcaReport.ValidateConsistency | services/rca-agent/rca_agent/validation.py:58-88 | the issues are the listed ones in order, and there is none exactly when the report is consistent |
| RcaReport.ValidateReport | services/rca-agent/rca_agent/validation.py:53-97 | there is no issue exactly when every cited id was collected and the report is consistent; dangling ids come first, sorted |
| RcaReport.PassesMeaning | services/rca-agent/rca_agent/validation.py:36-97 | the gate in plain terms: collected evidence only, a root cause with evidence on a completed report and not less confident than it, no confidence without evidence, factors typed as such, a stated uncertainty, human approval |
| RcaReport.SplitFindings | services/rca-agent/rca_agent/engine/synthesis.py:100-111 | the loops number all findings in order of appearance and separate the contributing factors |
| RcaReport.NumberedSound | services/rca-agent/rca_agent/engine/synthesis.py:39-50 | every assembled finding cites only collected evidence, claims no confidence without it, and is on the right side of the split |
| RcaReport.BuildReport | services/rca-agent/rca_agent/engine/synthesis.py:80-177 | the root cause is reported exactly when concluded, proposed and backed by some collected id, with its confidence and exactly its collected ids; overall confidence is the lower of the proposed one and the root cause's, or LOW without one; every finding, factor, timeline entry and action keeps exactly its collected ids; the report passes the gate exactly when every hypothesis cites collected evidence only and the account of the uncertainty is empty or not blank |
| RcaReport.BuiltReportPasses | services/rca-agent/rca_agent/engine/synthesis.py:80-177 | whatever was proposed, the issues of an assembled report are exactly the uncollected ids its hypotheses cite, sorted, and then a blank account of the uncertainty |
| RcaReport.FallbackPasses | services/rca-agent/rca_agent/engine/synthesis.py:180-230 | the fallback report passes the gate exactly when every hypothesis cites collected evidence only; nothing else of it can be an issue |
| RcaPlan.ValidatePlan | services/rca-agent/rca_agent/engine/plan.py:43-81 | the loop accepts the specified calls and rejects every other one with the first reason that applies |
| RcaPlan.AcceptedCallsMeaning | services/rca-agent/rca_agent/engine/plan.py:43-81 | accepted calls are usable, distinct and at most as many as allowed, and a usable call is left out only when the plan is full |
| RcaGraph.DrainExtraQueue | services/rca-agent/rca_agent/engine/nodes.py:274-298 | the follow-up loop advances the meters and gathers the evidence as specified, and makes at most one call per queued item |
| RcaGraph.JudgeHypotheses | services/rca-agent/rca_agent/engine/nodes.py:326-341 | every hypothesis gets its last verdict, or the default one, and cites only collected evidence |
| RcaRuns.VisitGood | services/rca-agent/rca_agent/engine/nodes.py:86-526 | one visit of any node keeps the invariant, lowers the bound on the visits to come, and changes status legally |
| RcaRuns.RunsAreBounded | services/rca-agent/rca_agent/engine/graph.py:36-45 | every run visits at most max_tool_calls + 6 + 2 * repairs nodes, below the recursion limit for the default of one repair and for any number up to a stated bound |
| RcaLongest.BoundIsAttained | services/rca-agent/rca_agent/engine/nodes.py:200-386 | with at least three tool calls and enough steps some run visits exactly that many nodes |
| RcaRuns.AcceptedReportsPass | services/rca-agent/rca_agent/engine/nodes.py:441-526 | a run that ends COMPLETED, or INSUFFICIENT_EVIDENCE with a report, ends with a report that passes validation against the final evidence and carries that status; the fallback is never rejected; no more tools are called than allowed |
| RcaRuns.SynthesisIsShown | services/rca-agent/rca_agent/engine/nodes.py:389-438 | the report of a synthesis visit shows what the model proposed, cut down to the collected evidence |
| RcaRuns.WhyItEnds | services/rca-agent/rca_agent/engine/nodes.py:38-78 | a visit ends FAILED only when the incident cannot be loaded or a model call fails otherwise than by timeout, TIMED_OUT only when time is over or a model call times out, and a failing analysis, verification or synthesis does end it so |
| RcaRuns.CollectionLosesNothing | services/rca-agent/rca_agent/engine/nodes.py:200-240 | collecting keeps all evidence a tool returns, makes at most one call a visit, and goes on exactly while calls and evidence budget are left |
| RcaRuns.AnalysisKeepsFirst | services/rca-agent/rca_agent/engine/nodes.py:243-272 | the analysis keeps the first hypotheses, at most as many as allowed, and all if they fit |
| RcaRuns.ReanalysisIsBounded | services/rca-agent/rca_agent/engine/nodes.py:343-370 | verification sends back to analysis once, on request, with one to three usable calls within the budget |
| RcaRuns.DefaultVerdictMeaning | services/rca-agent/rca_agent/engine/nodes.py:529-538 | the default verdict is fixed by how often collected evidence is cited for and against |
| RcaRuns.StatusFollowsLifecycle | services/rca-agent/rca_agent/state_machine.py:26-48 | every change of status is an edge of the lifecycle, a stutter, or one of two named jumps; evidence is only appended |
| RcaRuns.LateStartTimesOut | services/rca-agent/rca_agent/engine/nodes.py:86-109 | the jump from PENDING to TIMED_OUT happens exactly when the time is up at the first check |
| RcaRuns.PlanningJumpsWhenOverLimit | services/rca-agent/rca_agent/engine/nodes.py:51-78 | the jump from PLANNING to VERIFYING happens exactly when no step is left for planning or the incident alone exceeds the evidence limit |
| Calibration.GridCovers | ml/models/base.py:131-139 | every real threshold flags the same windows as some grid point |
| Calibration.RatesMonotone | ml/models/base.py:143-151 | recall and false positive rate never rise with the threshold |
| Calibration.F1FromCounts | ml/models/base.py:143-150 | F1 is twice the hits over twice the hits, the false alarms and the misses, and zero without any |
| Calibration.PerfectF1 | ml/models/base.py:143-150 | F1 is one exactly when there is an anomalous window and every window is classified rightly |
| Calibration.Detector.CalibrateThreshold | ml/models/base.py:115-161 | the stored threshold is optimal among all real thresholds; with a false positive budget it is the lowest grid point within it, and no real threshold within it has higher recall; without data it is zero |
| Calibration.WithinBudget | ml/models/base.py:152-160 | for a non-negative budget the first best grid point is the lowest within budget with the highest recall; for a negative one it has no false positive |
| Calibration.LowestExactlyWhenOneScore | ml/models/base.py:123-127 | the threshold kept for a budget is the lowest of all real thresholds within it exactly when all scores are equal, some window has label 0 and the budget is below one |
| Calibration.LowerThresholdExample | ml/models/base.py:123-127 | for scores 0 and 1, labels 0 and 1 and a budget of zero, one half is kept although zero is lower and within budget |
| Quantile.EstimateQuantile | ml/data/prometheus_parse.py:144-173 | the loop gives the interpolation in the first bucket that reaches the target, not-a-number without observations, and the last bound when no bucket reaches it |
| Quantile.OrderedIsHistogram | ml/data/prometheus_parse.py:156-158 | non-negative bounds with non-decreasing counts form a histogram once ordered |
| Quantile.QuantileIsMonotone | ml/data/prometheus_parse.py:160-173 | over a histogram the estimate never decreases in the quantile |
| Quantile.QuantileInBucket | ml/data/prometheus_parse.py:163-171 | for a quantile between 0 and 1 the estimate lies between the edges of its containing bucket |
| Quantile.QuantileInUnboundedBucket | ml/data/prometheus_parse.py:166-167 | in the unbounded bucket the estimate is the greatest finite bound, or zero when there is none |
| Quantile.QuantileRoundTrip | ml/data/prometheus_parse.py:163-171 | in a finite, non-empty bucket of positive width the piecewise-linear distribution maps the estimate back to exactly that share of the total |
| Features.BuildFeatures | ml/features/engineering.py:73-100 | the loop over runs joins the engineered rows of each run, in order of run and window start |
| Features.SortRowsSorts | ml/features/engineering.py:82-83 | sorting orders the rows by run and window start and loses none |
| Features.MeanBalances | ml/features/engineering.py:44-45 | every rolling mean balances the readings of its own column over the last rows and lies between the least and the greatest |
| Features.DeviationOfWindow | ml/features/engineering.py:47-48 | every rolling deviation is that of its own column over the last rows, zero for a single row |
| Features.DeltasTelescope | ml/features/engineering.py:50-51 | deltas start at zero and add up to the change of their own column |
| Features.GrowthCarries | ml/features/engineering.py:65-68 | growth times the previous request rate, counted as at least one, is the change of the rate; it is zero at the start and on a constant rate |
| Features.FeaturesReadOwnColumn | ml/features/engineering.py:40-70 | features of a column do not depend on any other column |
| Features.RunsDoNotBleed | ml/features/engineering.py:85-91 | in a frame of many runs the feature rows of each run are those of the batch over that run alone |
| Features.BatchIsCausal | ml/features/engineering.py:40-70 | in a frame of any number of runs, rows that come later in their runs, or belong to other runs, change no earlier feature row of a run |
| Features.StreamIsCausal | ml/features/engineering.py:40-70 | in a single stream the features of a window do not depend on later windows |
| Features.LastOfBuffer | ml/inference/featurizer.py:23-49 | over the last rolling_window rows of a run the batch code gives the same last row as over the whole history |
| Features.StreamFeaturizer.Push | ml/inference/featurizer.py:32-49 | for one run with increasing starts, the returned row is that of the batch over everything pushed since the last reset |
| OrderStore.LastAddsAppend | apps/orders-service/orders_service/store.py:20-24 | one more add drops the older order of the same id and comes last |
| OrderStore.EvictionCommutes | apps/orders-service/orders_service/store.py:20-24 | evicting after every add loses nothing that evicting once at the end would keep |
| OrderStore.Store.Add | apps/orders-service/orders_service/store.py:20-24 | after any adds the store holds exactly the last max_size distinct ids by most recent add, each with its newest order; eviction ends, and fails exactly for a negative bound |
| OrderStore.Store.Get | apps/orders-service/orders_service/store.py:26-27 | finds the newest order of an id exactly when the store holds it |

## Left out

General:

- Time is an exact real and every clock read an input; float rounding, time zones and text length limits (for instance on the joined issue texts of the fallback report) are not modelled.
- New ids are inputs. An incident id is required to be free when it is used; a used remediation id is refused as in the source.
- HTTP routes, authentication, metrics, logging, telemetry, migrations and the Kafka publication of lifecycle changes.

Incident correlation:

- Reasons and titles are structured values, not rendered text; detector version, threshold and trace id, which are only passed through, are dropped.
- The API transition is one atomic step: load, validate, apply. The source does not give atomicity between its load and its write.
- Relations are not part of the interleavings: the neighbours are read without a lock, so two concurrent creates can miss each other. Relation properties are for serial runs.
- A stale snapshot under READ COMMITTED is modelled by a lock that may come back empty; the retry after a conflict is modelled as an aborted transaction followed by a new one.
- `_InMemoryUoW.commit` is not all-or-nothing when a write raises; the model applies the writes one by one as the source does, and serial runs are shown not to raise.
- AnomalyProcessor.Processor.Process: requires a consistent store and a free new id; it is one attempt, without the retry loop.
- Free-form `link_incidents`, `get_related_incidents`, `find_related_incidents` and the list queries.

Consumer:

- One partition; what other partitions and the API do to the store are serial steps in between, so the interleaving inside a unit of work is `Interleaving` and not repeated here. Batching of polls does not affect the order of records and is not modelled. A record offered to the dead-letter topic may still be missing there, since the source swallows a failed publish.
- IdempotentConsumer.ExactlyOnceEffect: requires max_retries of at least 1; what a smaller value does is `CoveredExactlyWhenRetrying`.

Remediation:

- The policy engine, catalogue checks of target and parameters, executor and verifier are arbitrary answers. The history snapshot for cooldown and duplicate rules only feeds the policy answer and is left out.
- A finished verification is kept as whether the target recovered; attempts, checks and reasons are dropped.
- A dry run does not call the executor in the model, so that it leaves the target alone holds by construction; that it leaves the tables alone is proved.
- Redaction, metadata and actor fields of audit rows; the SQL repository, which the source declares equivalent to the in-memory one.

RCA:

- Texts, times and ids of report sections that validation does not look at; the evidence rows copied into the report; metadata.
- Tools are assumed to return a result rather than raise.
- Follow-up evidence gathered before a re-analysis is used by the model but not kept in the state; the model follows the source, and no claim is made that it reaches the report.
- RcaRuns.RunsAreBounded: the comparison with the recursion limit is a sufficient condition on the number of repairs, met by the default; the bound on the visits holds for every number of repairs.

Numeric:

- Signals are exact reals without missing values; the rolling standard deviation is an arbitrary function of its window; a pushed record is assumed to have all signal columns.
- Scores are arbitrary reals; fitting, loading and saving of detectors, parsing of metrics text, drift, promotion and dataset splits.
