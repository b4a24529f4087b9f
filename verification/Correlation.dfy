/**
 One unit of work of the anomaly processor as a function on stored rows: dedupe, find the active
 incident of the key, decide, and create / append to / supersede an incident.

 Clock readings (`Ticks`) and new incident ids are inputs.
 */
module Correlation {
  import opened Prelude
  import opened Ordering
  import opened IncidentDomain
  import SeverityEngine
  import Aggregates

  datatype Config = Config(
    windowSeconds: real,
    severity: SeverityEngine.Config,
    graph: map<string, seq<string>>,
    crossWindowSeconds: real)

  /** The clock readings one unit of work takes. */
  datatype Ticks = Ticks(resolve: Instant, create: Instant, absorb: Instant, link: Instant)

  datatype Action = CreateIncident | Append | Supersede

  datatype Decision = Decision(action: Action, reason: CorrelationReason)

  function Decide(o: Observation, active: Option<IncidentRow>, window: real): (d: Decision)
    ensures d.action == CreateIncident <==> active == None
    ensures d.action == Append <==> active.Some? && o.occurredAt <= active.value.lastEvidenceAt + window
    ensures d.action == Append ==> d.reason == WithinWindow(o.occurredAt - active.value.lastEvidenceAt, window)
    ensures d.action == Supersede ==> d.reason == WentQuiet(o.occurredAt - active.value.lastEvidenceAt, window)
  {
    match active
    case None => Decision(CreateIncident, NoActiveIncident)
    case Some(row) =>
      var gap := o.occurredAt - row.lastEvidenceAt;
      if gap <= window then Decision(Append, WithinWindow(gap, window)) else Decision(Supersede, WentQuiet(gap, window))
  }

  function SeverityInputs(row: IncidentRow): (r: SeverityEngine.Inputs) {
    SeverityEngine.Inputs(row.anomalyCount, |row.abnormalSignalNames|, row.maxAnomalyScore, row.maxErrorRate,
                          row.maxLatencyP95, row.DurationSeconds())
  }

  /** Re-evaluates severity and title from the aggregates. */
  function Rate(row: IncidentRow, cfg: SeverityEngine.Config): (r: IncidentRow) {
    var v := SeverityEngine.VerdictOf(SeverityInputs(row), cfg);
    row.(severity := v.level, severityReasons := v.reasons,
         title := Rated(v.level, row.abnormalSignalNames, row.service, row.environment))
  }

  /** The names abnormal so far and those abnormal now, in order. */
  function MergeNames(names: seq<string>, o: Observation): (r: seq<string>) {
    SortedTexts(SetOf(names) + o.AbnormalNames())
  }

  function AccumulateCounters(row: IncidentRow, o: Observation, now: Instant): (r: IncidentRow) {
    row.(
      anomalyCount := row.anomalyCount + 1,
      lastEvidenceAt := Max(row.lastEvidenceAt, o.windowEnd),
      startedAt := Min(row.startedAt, o.windowStart),
      updatedAt := now,
      maxAnomalyScore := Max(row.maxAnomalyScore, o.anomalyScore),
      maxErrorRate := Max(row.maxErrorRate, o.Reading("error_rate")),
      maxLatencyP95 := Max(row.maxLatencyP95, o.Reading("latency_p95_ms")))
  }

  /** Folds one observation into the aggregates of an incident. */
  function Absorb(row: IncidentRow, o: Observation, now: Instant, cfg: SeverityEngine.Config): (r: IncidentRow) {
    Rate(AccumulateCounters(row, o, now).(abnormalSignalNames := MergeNames(row.abnormalSignalNames, o)), cfg)
  }

  function BlankIncident(s: Signal, id: string, now: Instant): (r: IncidentRow) {
    IncidentRow(id, s.Key(), s.service, s.environment, Open, Info, [], Placeholder(s.service, s.environment),
                0, 0.0, 0.0, 0.0, s.obs.detector, s.obs.windowStart, s.obs.windowEnd, now, now, [],
                None, None, None, [], [])
  }

  function NewIncident(s: Signal, id: string, reason: CorrelationReason, t: Ticks, cfg: Config): (r: IncidentRow) {
    var row := Absorb(BlankIncident(s, id, t.create), s.obs, t.absorb, cfg.severity);
    row.(evidence := [Evidence(s.obs, reason)],
         history := [Transition(None, Open, "system", Correlated(reason), row.severity, t.create)])
  }

  function AppendTo(row: IncidentRow, o: Observation, reason: CorrelationReason, t: Ticks,
                    cfg: Config): (r: IncidentRow) {
    var next := Absorb(row, o, t.absorb, cfg.severity);
    next.(evidence := row.evidence + [Evidence(o, reason)])
  }

  /** Closes an incident that went quiet; it counts as resolved since its last evidence. */
  function AutoResolve(row: IncidentRow, reason: CorrelationReason, t: Ticks): (r: IncidentRow) {
    row.(status := Resolved, resolvedAt := Some(row.lastEvidenceAt), resolution := Some("auto:stale"),
      updatedAt := t.resolve,
         history := row.history + [Transition(Some(row.status), Resolved, "system", AutoResolved(reason),
           row.severity, t.resolve)])
  }

  /** A lifecycle change through the API, once validated. */
  function ApplyTransition(row: IncidentRow, target: Status, actor: string, reason: string,
                           now: Instant): (r: IncidentRow) {
    row.(status := target,
         updatedAt := now,
         acknowledgedAt := if target == Acknowledged && row.acknowledgedAt == None then Some(now)
           else row.acknowledgedAt,
         resolvedAt := if target == Resolved then Some(now) else row.resolvedAt,
         resolution := if target == Resolved && (row.resolution == None || row.resolution == Some(""))
           then Some("manual")
                       else row.resolution,
         history := row.history + [Transition(Some(row.status), target, actor, Manual(reason), row.severity, now)])
  }

  /** The incident table and the unique index on evidence event ids. */
  datatype Db = Db(incidents: map<string, IncidentRow>, eventIds: set<string>)

  const EmptyDb := Db(map[], {})

  ghost predicate ActiveFor(db: Db, key: string, id: string) {
    id in db.incidents && db.incidents[id].correlationKey == key && db.incidents[id].status.IsActive()
  }

  ghost predicate OneActivePerKey(db: Db) {
    forall key, a, b | ActiveFor(db, key, a) && ActiveFor(db, key, b) :: a == b
  }

  ghost function FindActive(db: Db, key: string): (r: Option<string>)
    ensures r == None ==> forall id :: !ActiveFor(db, key, id)
    ensures r.Some? ==> ActiveFor(db, key, r.value)
  {
    if exists id :: ActiveFor(db, key, id) then
      var id :| ActiveFor(db, key, id); Some(id)
    else None
  }

  function InsertRow(db: Db, row: IncidentRow, eventId: string): (r: Db) {
    Db(db.incidents[row.id := row], db.eventIds + {eventId})
  }

  /** The table once incident `id` is auto-resolved. */
  function ResolveRow(db: Db, id: string, reason: CorrelationReason, t: Ticks): (r: Db)
    requires id in db.incidents
  {
    db.(incidents := db.incidents[id := AutoResolve(db.incidents[id], reason, t)])
  }

  /** One unit of work on the incident and evidence tables. */
  ghost function ProcessDb(db: Db, s: Signal, newId: string, t: Ticks, cfg: Config): (r: Db) {
    if s.obs.eventId in db.eventIds then db else
    match FindActive(db, s.Key())
    case None => InsertRow(db, NewIncident(s, newId, NoActiveIncident, t, cfg), s.obs.eventId)
    case Some(id) =>
      var row := db.incidents[id];
      var d := Decide(s.obs, Some(row), cfg.windowSeconds);
      if d.action == Append then InsertRow(db, AppendTo(row, s.obs, d.reason, t, cfg), s.obs.eventId)
      else InsertRow(ResolveRow(db, id, d.reason, t), NewIncident(s, newId, d.reason, t, cfg), s.obs.eventId)
  }

  /** The incident a unit of work ends with: the one appended to, or the new one. */
  ghost function CurrentIncident(db: Db, s: Signal, newId: string, cfg: Config): (r: string) {
    match FindActive(db, s.Key())
    case None => newId
    case Some(id) =>
      if id in db.incidents && Decide(s.obs, Some(db.incidents[id]), cfg.windowSeconds).action == Append then id
      else newId
  }

  // ---------------------------------------------------------------- agreement with the evidence

  function Observations(row: IncidentRow): (r: seq<Observation>) {
    seq(|row.evidence|, i requires 0 <= i < |row.evidence| => row.evidence[i].obs)
  }

  function AggregatesOf(row: IncidentRow): (r: Aggregates.Agg) {
    Aggregates.Agg(row.anomalyCount, row.maxAnomalyScore, row.maxErrorRate, row.maxLatencyP95,
                   row.startedAt, row.lastEvidenceAt, SetOf(row.abnormalSignalNames))
  }

  /** Severity, reasons and title are those the aggregates call for. */
  ghost predicate IsRated(row: IncidentRow, cfg: SeverityEngine.Config) {
    var v := SeverityEngine.VerdictOf(SeverityInputs(row), cfg);
    && row.severity == v.level && row.severityReasons == v.reasons
    && row.title == Rated(v.level, row.abnormalSignalNames, row.service, row.environment)
  }

  ghost predicate NamesSorted(row: IncidentRow) {
    row.abnormalSignalNames == SortedTexts(SetOf(row.abnormalSignalNames))
  }

  /** Every incrementally maintained column is the fold of the evidence rows. */
  ghost predicate AgreesWithEvidence(row: IncidentRow, cfg: SeverityEngine.Config) {
    && row.evidence != []
    && AggregatesOf(row) == Aggregates.Fold(Observations(row))
    && NamesSorted(row)
    && IsRated(row, cfg)
  }

  lemma AbsorbRates(row: IncidentRow, o: Observation, now: Instant, cfg: SeverityEngine.Config)
    ensures IsRated(Absorb(row, o, now, cfg), cfg) && NamesSorted(Absorb(row, o, now, cfg))
  {
    hide SeverityEngine.VerdictOf, SortedTexts;
    var names := SetOf(row.abnormalSignalNames) + o.AbnormalNames();
    assert SetOf(SortedTexts(names)) == names;
  }

  lemma AbsorbIsCombine(row: IncidentRow, o: Observation, now: Instant, cfg: SeverityEngine.Config)
    requires row.maxAnomalyScore >= 0.0 && row.maxErrorRate >= 0.0 && row.maxLatencyP95 >= 0.0
    ensures AggregatesOf(Absorb(row, o, now, cfg)) == Aggregates.Combine(AggregatesOf(row), Aggregates.Single(o))
  {
    var names := SetOf(row.abnormalSignalNames) + o.AbnormalNames();
    assert SetOf(SortedTexts(names)) == names;
  }

  /** Evidence rows change neither the aggregates nor what they call for. */
  lemma EvidenceIsSeparate(row: IncidentRow, evidence: seq<Evidence>, history: seq<Transition>,
                           cfg: SeverityEngine.Config)
    requires IsRated(row, cfg) && NamesSorted(row)
    ensures var next := row.(evidence := evidence, history := history);
      IsRated(next, cfg) && NamesSorted(next) && AggregatesOf(next) == AggregatesOf(row)
  {
    hide SeverityEngine.VerdictOf;
    assert SeverityInputs(row.(evidence := evidence, history := history)) == SeverityInputs(row);
  }

  lemma NewIncidentAgrees(s: Signal, id: string, reason: CorrelationReason, t: Ticks, cfg: Config)
    ensures AgreesWithEvidence(NewIncident(s, id, reason, t, cfg), cfg.severity)
  {
    hide IsRated, NamesSorted, Absorb;
    var blank := BlankIncident(s, id, t.create);
    var mid := Absorb(blank, s.obs, t.absorb, cfg.severity);
    AbsorbRates(blank, s.obs, t.absorb, cfg.severity);
    AbsorbIsCombine(blank, s.obs, t.absorb, cfg.severity);
    EvidenceIsSeparate(mid, [Evidence(s.obs, reason)], NewIncident(s, id, reason, t, cfg).history, cfg.severity);
    assert SetOf<string>([]) == {};
    assert Observations(NewIncident(s, id, reason, t, cfg)) == [s.obs];
  }

  lemma AppendAgrees(row: IncidentRow, o: Observation, reason: CorrelationReason, t: Ticks, cfg: Config)
    requires AgreesWithEvidence(row, cfg.severity)
    ensures AgreesWithEvidence(AppendTo(row, o, reason, t, cfg), cfg.severity)
  {
    hide Aggregates.Combine, Aggregates.Single, Aggregates.Fold, Absorb, IsRated, NamesSorted;
    var mid := Absorb(row, o, t.absorb, cfg.severity);
    Aggregates.FoldMeaning(Observations(row));
    AbsorbRates(row, o, t.absorb, cfg.severity);
    AbsorbIsCombine(row, o, t.absorb, cfg.severity);
    EvidenceIsSeparate(mid, row.evidence + [Evidence(o, reason)], mid.history, cfg.severity);
    assert Observations(AppendTo(row, o, reason, t, cfg)) == Observations(row) + [o];
    Aggregates.FoldAppend(Observations(row), o);
  }

  /** Equal aggregates call for the same names, rating and title. */
  lemma SameAggregatesSameRating(r1: IncidentRow, r2: IncidentRow, cfg: SeverityEngine.Config)
    requires IsRated(r1, cfg) && NamesSorted(r1) && IsRated(r2, cfg) && NamesSorted(r2)
    requires AggregatesOf(r1) == AggregatesOf(r2) && r1.service == r2.service && r1.environment == r2.environment
    ensures r1.abnormalSignalNames == r2.abnormalSignalNames
    ensures r1.severity == r2.severity && r1.severityReasons == r2.severityReasons && r1.title == r2.title
  {
    hide SeverityEngine.VerdictOf, SortedTexts;
    assert SeverityInputs(r1) == SeverityInputs(r2);
  }

  /**
   Two incidents of one service and environment whose evidence carries the same observations, in
   whatever order they were absorbed, agree on every aggregate, on severity and on the title.
   */
  lemma EvidenceOrderIsIrrelevant(r1: IncidentRow, r2: IncidentRow, cfg: SeverityEngine.Config)
    requires AgreesWithEvidence(r1, cfg) && AgreesWithEvidence(r2, cfg)
    requires r1.service == r2.service && r1.environment == r2.environment
    requires multiset(Observations(r1)) == multiset(Observations(r2))
    ensures r1.anomalyCount == r2.anomalyCount
    ensures r1.maxAnomalyScore == r2.maxAnomalyScore && r1.maxErrorRate == r2.maxErrorRate
    ensures r1.maxLatencyP95 == r2.maxLatencyP95
    ensures r1.startedAt == r2.startedAt && r1.lastEvidenceAt == r2.lastEvidenceAt
    ensures r1.abnormalSignalNames == r2.abnormalSignalNames
    ensures r1.severity == r2.severity && r1.severityReasons == r2.severityReasons && r1.title == r2.title
  {
    hide IsRated, NamesSorted, Aggregates.Fold;
    Aggregates.FoldIgnoresOrder(Observations(r1), Observations(r2));
    SameAggregatesSameRating(r1, r2, cfg);
  }

  /** Absorbing evidence widens the incident's interval and never lowers its severity. */
  lemma AbsorbWidens(row: IncidentRow, o: Observation, now: Instant, cfg: SeverityEngine.Config)
    requires IsRated(row, cfg) && NamesSorted(row)
    ensures Absorb(row, o, now, cfg).startedAt <= row.startedAt &&
      row.lastEvidenceAt <= Absorb(row, o, now, cfg).lastEvidenceAt
    ensures row.severity.Rank() <= Absorb(row, o, now, cfg).severity.Rank()
  {
    hide SeverityEngine.Level, SeverityEngine.ReasonsAt;
    var next := Absorb(row, o, now, cfg);
    var before, after := SetOf(row.abnormalSignalNames), SetOf(row.abnormalSignalNames) + o.AbnormalNames();
    SubsetSize(before, after);
    assert SeverityInputs(next).distinctAbnormalSignals >= SeverityInputs(row).distinctAbnormalSignals;
    SeverityEngine.SeverityIsMonotone(SeverityInputs(next), SeverityInputs(row), cfg);
  }

  lemma SubsetSize(a: set<string>, b: set<string>)
    requires a <= b
    ensures |a| <= |b|
  {
    assert b == a + (b - a);
  }

  lemma AgreementRates(row: IncidentRow, cfg: SeverityEngine.Config)
    requires AgreesWithEvidence(row, cfg)
    ensures IsRated(row, cfg) && NamesSorted(row)
  {
  }

  /** Columns that absorbing evidence leaves alone. */
  lemma AbsorbKeeps(row: IncidentRow, o: Observation, now: Instant, cfg: SeverityEngine.Config)
    ensures var next := Absorb(row, o, now, cfg);
      && next.id == row.id && next.correlationKey == row.correlationKey
      && next.service == row.service && next.environment == row.environment
      && next.status == row.status && next.evidence == row.evidence
      && next.history == row.history && next.resolvedAt == row.resolvedAt
      && next.anomalyCount == row.anomalyCount + 1
  {
  }

  lemma AppendKeeps(row: IncidentRow, o: Observation, reason: CorrelationReason, t: Ticks, cfg: Config)
    ensures AppendTo(row, o, reason, t, cfg).id == row.id
    ensures AppendTo(row, o, reason, t, cfg).status == row.status
  {
    AbsorbKeeps(row, o, t.absorb, cfg.severity);
  }

  /** A new incident is open under its own id and the key of its signal. */
  lemma NewIncidentIdentity(s: Signal, newId: string, reason: CorrelationReason, t: Ticks, cfg: Config)
    ensures var row := NewIncident(s, newId, reason, t, cfg);
      && row.id == newId && row.status == Open && row.correlationKey == s.Key()
      && row.service == s.service && row.environment == s.environment && row.evidence == [Evidence(s.obs, reason)]
  {
  }

  /** A lifecycle change touches no aggregate, so agreement with the evidence survives it. */
  lemma LifecycleKeepsAgreement(row: IncidentRow, next: IncidentRow, cfg: SeverityEngine.Config)
    requires AgreesWithEvidence(row, cfg)
    requires next == row.(status := next.status, updatedAt := next.updatedAt, acknowledgedAt := next.acknowledgedAt,
                          resolvedAt := next.resolvedAt, resolution := next.resolution, history := next.history)
    ensures AgreesWithEvidence(next, cfg)
  {
    hide SeverityEngine.VerdictOf, Aggregates.Fold;
    assert Observations(next) == Observations(row);
    assert SeverityInputs(next) == SeverityInputs(row);
    assert AggregatesOf(next) == AggregatesOf(row);
  }
}
