/**
 Incident vocabulary: statuses and the lifecycle state machine, severities, anomaly
 observations, evidence, history and the persisted incident row.

 Instants and durations are exact real numbers of seconds. Rendered text (reasons, titles) is
 kept as structured data, so a statement about a reason is a statement about its arguments.
 */
module IncidentDomain {
  import opened Prelude

  type Instant = real

  datatype Status = Open | Acknowledged | Investigating | Mitigating | Resolved {
    predicate IsActive() { this != Resolved }

    /** Position along the lifecycle; every allowed transition strictly increases it. */
    function Stage(): (r: nat) {
      match this
      case Open => 0
      case Acknowledged => 1
      case Investigating => 2
      case Mitigating => 3
      case Resolved => 4
    }
  }

  function AllowedTransitions(current: Status): (r: set<Status>) {
    match current
    case Open => {Acknowledged, Investigating, Resolved}
    case Acknowledged => {Investigating, Resolved}
    case Investigating => {Mitigating, Resolved}
    case Mitigating => {Resolved}
    case Resolved => {}
  }

  predicate CanTransition(current: Status, target: Status, actor: string) {
    (actor == "system" && target == Resolved && current.IsActive()) || target in AllowedTransitions(current)
  }

  datatype Severity = Info | Low | Medium | High | Critical {
    function Rank(): (r: nat) {
      match this
      case Info => 0
      case Low => 1
      case Medium => 2
      case High => 3
      case Critical => 4
    }
  }

  /** What one anomaly says about the monitored service. */
  datatype Observation = Observation(
    eventId: string,
    detector: string,
    windowStart: Instant,
    windowEnd: Instant,
    anomalyScore: real,
    signals: map<string, real>,
    abnormalSignals: seq<string>,
    occurredAt: Instant)
  {
    function Reading(name: string): (r: real) {
      if name in signals then signals[name] else 0.0
    }

    function AbnormalNames(): (r: set<string>) {
      set name | name in abnormalSignals
    }
  }

  function CorrelationKey(service: string, environment: string): (r: string) {
    service + ":" + environment
  }

  datatype Signal = Signal(obs: Observation, service: string, environment: string) {
    function Key(): (r: string) { CorrelationKey(service, environment) }
  }

  /** Why a signal was put where it was put. */
  datatype CorrelationReason =
    | NoActiveIncident
    | WithinWindow(gap: real, window: real)
    | WentQuiet(gap: real, window: real)

  datatype Evidence = Evidence(obs: Observation, reason: CorrelationReason)

  datatype TransitionReason =
    | Correlated(why: CorrelationReason)
    | AutoResolved(why: CorrelationReason)
    | Manual(text: string)

  datatype Transition = Transition(
    fromStatus: Option<Status>,
    toStatus: Status,
    actor: string,
    reason: TransitionReason,
    severity: Severity,
    at: Instant)

  datatype SeverityReason =
    | NoRulesFired
    | AnomalyWindows(count: int)
    | Sustained(minimum: int)
    | DistinctSignals(count: int)
    | ErrorRate(rate: real, limit: real)
    | P95Latency(latency: real, limit: real)
    | LongDuration(duration: real, limit: real)
    | MultiSignalDegradation(limit: real)

  datatype Title =
    | Placeholder(service: string, environment: string)
    | Rated(level: Severity, names: seq<string>, service: string, environment: string)

  /** One row of the incident table together with its evidence and history rows. */
  datatype IncidentRow = IncidentRow(
    id: string,
    correlationKey: string,
    service: string,
    environment: string,
    status: Status,
    severity: Severity,
    severityReasons: seq<SeverityReason>,
    title: Title,
    anomalyCount: int,
    maxAnomalyScore: real,
    maxErrorRate: real,
    maxLatencyP95: real,
    detector: string,
    startedAt: Instant,
    lastEvidenceAt: Instant,
    createdAt: Instant,
    updatedAt: Instant,
    abnormalSignalNames: seq<string>,
    acknowledgedAt: Option<Instant>,
    resolvedAt: Option<Instant>,
    resolution: Option<string>,
    evidence: seq<Evidence>,
    history: seq<Transition>)
  {
    function DurationSeconds(): (r: real) {
      Max(lastEvidenceAt - startedAt, 0.0)
    }
  }

  /** A stored dependent -> dependency edge between two incidents. */
  datatype Relation = Relation(
    incidentId: string,
    relatedIncidentId: string,
    dependentService: string,
    dependencyService: string,
    createdAt: Instant)
  {
    function Pair(): (r: (string, string)) { (incidentId, relatedIncidentId) }
  }

  /** With one environment, equal correlation keys mean equal services. */
  lemma SameKeySameEnvironment(s1: string, s2: string, env: string)
    requires CorrelationKey(s1, env) == CorrelationKey(s2, env)
    ensures s1 == s2
  {
    var k := CorrelationKey(s1, env);
    assert |s1| == |s2|;
    assert s1 == k[..|s1|] && s2 == k[..|s1|];
  }

  lemma {:induction false} TransitionAdvances(current: Status, target: Status, actor: string)
    requires CanTransition(current, target, actor)
    ensures current.IsActive() && target != Open && current.Stage() < target.Stage()
  {
  }
}
