/**
 Severity and its reasons in terms of the evidence rows alone: which readings, names, counts and
 spans an incident must show for each level.
 */
module EvidenceSeverity {
  import opened Prelude
  import opened IncidentDomain
  import opened Correlation
  import opened SerialStore
  import opened Ordering
  import SeverityEngine
  import Aggregates
  import SerialLinks

  /** Some window read at least `limit`; a limit at or below zero is reached by any incident. */
  predicate Reaches(row: IncidentRow, name: string, limit: real) {
    limit <= 0.0 || exists i :: 0 <= i < |row.evidence| && row.evidence[i].obs.Reading(name) >= limit
  }

  /** Some window ends at least `seconds` after the start of some window. */
  predicate Lasts(row: IncidentRow, seconds: real) {
    seconds <= 0.0 || exists i, j :: 0 <= i < |row.evidence| && 0 <= j < |row.evidence| && Apart(row, i, j) >= seconds
  }

  /** From the start of window `i` to the end of window `j`. */
  function Apart(row: IncidentRow, i: nat, j: nat): (r: real)
    requires i < |row.evidence| && j < |row.evidence|
  {
    row.evidence[j].obs.windowEnd - row.evidence[i].obs.windowStart
  }

  /** The names some window had abnormal. */
  function NamesSeen(row: IncidentRow): (r: set<string>) {
    set i, n | 0 <= i < |row.evidence| && n in row.evidence[i].obs.abnormalSignals :: n
  }

  /** The largest reading, floored at zero. */
  predicate IsPeak(row: IncidentRow, name: string, x: real) {
    && x >= 0.0
    && (forall i | 0 <= i < |row.evidence| :: row.evidence[i].obs.Reading(name) <= x)
    && (x == 0.0 || exists i :: 0 <= i < |row.evidence| && row.evidence[i].obs.Reading(name) == x)
  }

  /** The longest stretch between a start and an end, floored at zero. */
  predicate IsSpan(row: IncidentRow, x: real) {
    && x >= 0.0
    && (forall i, j | 0 <= i < |row.evidence| && 0 <= j < |row.evidence| :: Apart(row, i, j) <= x)
    && (x == 0.0 || exists i, j :: 0 <= i < |row.evidence| && 0 <= j < |row.evidence| && Apart(row, i, j) == x)
  }

  // ---------------------------------------------------------------- the levels

  predicate CriticalByEvidence(row: IncidentRow, cfg: SeverityEngine.Config) {
    || Reaches(row, "error_rate", cfg.errorRateCritical)
    || (Lasts(row, cfg.durationCritical) && |NamesSeen(row)| >= cfg.distinctSignalsCritical)
  }

  predicate HighByEvidence(row: IncidentRow, cfg: SeverityEngine.Config) {
    || Reaches(row, "error_rate", cfg.errorRateHigh)
    || Reaches(row, "latency_p95_ms", cfg.latencyP95High)
    || Lasts(row, cfg.durationHigh)
  }

  predicate MediumByEvidence(row: IncidentRow, cfg: SeverityEngine.Config) {
    |row.evidence| >= cfg.anomalyCountMedium || |NamesSeen(row)| >= cfg.distinctSignalsMedium
  }

  /** The level the evidence calls for; with any evidence at all it is at least LOW. */
  predicate LevelByEvidence(row: IncidentRow, cfg: SeverityEngine.Config) {
    && (row.severity == Critical <==> CriticalByEvidence(row, cfg))
    && (row.severity == High <==> !CriticalByEvidence(row, cfg) && HighByEvidence(row, cfg))
    && (row.severity == Medium <==>
          !CriticalByEvidence(row, cfg) && !HighByEvidence(row, cfg) && MediumByEvidence(row, cfg))
    && (row.severity == Low <==>
          !CriticalByEvidence(row, cfg) && !HighByEvidence(row, cfg) && !MediumByEvidence(row, cfg))
    && row.severity != Info
  }

  /** The title names the severity, service and environment and lists the names seen, in order. */
  predicate TitleByEvidence(row: IncidentRow) {
    && row.title.Rated? && row.title.level == row.severity
    && row.title.service == row.service && row.title.environment == row.environment
    && SetOf(row.title.names) == NamesSeen(row)
    && forall i, j | 0 <= i < j < |row.title.names| :: TextLess(row.title.names[i], row.title.names[j])
  }

  // ---------------------------------------------------------------- the reasons

  function Told(holds: bool, reason: SeverityReason): (r: seq<SeverityReason>) {
    if holds then [reason] else []
  }

  /** The reasons for each level, given the peaks of error rate and latency and the span. */
  function ReasonsByEvidence(row: IncidentRow, cfg: SeverityEngine.Config, errorRate: real, latency: real, span: real)
    : (r: seq<SeverityReason>)
  {
    match row.severity
    case Critical =>
      Told(Reaches(row, "error_rate", cfg.errorRateCritical), ErrorRate(errorRate, cfg.errorRateCritical)) +
      Told(Lasts(row, cfg.durationCritical) && |NamesSeen(row)| >= cfg.distinctSignalsCritical,
           MultiSignalDegradation(cfg.durationCritical))
    case High =>
      Told(Reaches(row, "error_rate", cfg.errorRateHigh), ErrorRate(errorRate, cfg.errorRateHigh)) +
      Told(Reaches(row, "latency_p95_ms", cfg.latencyP95High), P95Latency(latency, cfg.latencyP95High)) +
      Told(Lasts(row, cfg.durationHigh), LongDuration(span, cfg.durationHigh))
    case Medium =>
      Told(|row.evidence| >= cfg.anomalyCountMedium, Sustained(cfg.anomalyCountMedium)) +
      Told(|NamesSeen(row)| >= cfg.distinctSignalsMedium, DistinctSignals(|NamesSeen(row)|))
    case Low => [AnomalyWindows(|row.evidence|)]
    case Info => []
  }

  // ---------------------------------------------------------------- agreement implies it

  lemma PeakOfReadings(row: IncidentRow, name: string, x: real)
    requires Aggregates.FlooredMax(x, Aggregates.Readings(Observations(row), name))
    ensures IsPeak(row, name, x)
  {
    var readings := Aggregates.Readings(Observations(row), name);
    assert forall i | 0 <= i < |row.evidence| :: readings[i] == row.evidence[i].obs.Reading(name);
    if x != 0.0 {
      var i :| 0 <= i < |readings| && readings[i] == x;
      assert row.evidence[i].obs.Reading(name) == x;
    }
  }

  lemma PeakReaches(row: IncidentRow, name: string, x: real, limit: real)
    requires IsPeak(row, name, x)
    ensures Reaches(row, name, limit) <==> x >= limit
  {
  }

  lemma SpanLasts(row: IncidentRow, x: real, seconds: real)
    requires IsSpan(row, x)
    ensures Lasts(row, seconds) <==> x >= seconds
  {
  }

  lemma SpanOfInterval(row: IncidentRow)
    requires row.evidence != []
    requires Aggregates.SpansAll(row.startedAt, row.lastEvidenceAt, Observations(row))
    requires Aggregates.IsSomeStart(row.startedAt, Observations(row))
    requires Aggregates.IsSomeEnd(row.lastEvidenceAt, Observations(row))
    ensures IsSpan(row, row.DurationSeconds())
  {
    var obs := Observations(row);
    assert forall i | 0 <= i < |obs| :: obs[i] == row.evidence[i].obs;
    var p :| 0 <= p < |obs| && row.startedAt == obs[p].windowStart;
    var q :| 0 <= q < |obs| && row.lastEvidenceAt == obs[q].windowEnd;
    assert Apart(row, p, q) == row.lastEvidenceAt - row.startedAt;
  }

  lemma NamesAgree(row: IncidentRow, cfg: SeverityEngine.Config)
    requires AgreesWithEvidence(row, cfg)
    ensures SetOf(row.abnormalSignalNames) == NamesSeen(row)
  {
    hide IsRated, NamesSorted, Aggregates.Fold;
    var obs := Observations(row);
    assert forall i | 0 <= i < |obs| :: obs[i] == row.evidence[i].obs;
    forall n ensures n in Aggregates.Fold(obs).names <==> n in NamesSeen(row) {
      Aggregates.FoldNames(obs, n);
    }
  }

  lemma NamesCounted(row: IncidentRow, cfg: SeverityEngine.Config)
    requires AgreesWithEvidence(row, cfg)
    ensures |row.abnormalSignalNames| == |NamesSeen(row)|
  {
    hide IsRated, AggregatesOf, Aggregates.Fold;
    NamesAgree(row, cfg);
  }

  lemma AggregatesShown(row: IncidentRow, cfg: SeverityEngine.Config)
    requires AgreesWithEvidence(row, cfg)
    ensures row.anomalyCount == |row.evidence| >= 1
    ensures IsPeak(row, "error_rate", row.maxErrorRate) && IsPeak(row, "latency_p95_ms", row.maxLatencyP95)
    ensures IsSpan(row, row.DurationSeconds())
  {
    hide IsRated, NamesSorted, Aggregates.Fold, Aggregates.FlooredMax, IsPeak, IsSpan;
    hide Aggregates.SpansAll, Aggregates.IsSomeStart, Aggregates.IsSomeEnd;
    Aggregates.FoldMeaning(Observations(row));
    Aggregates.FoldSpan(Observations(row));
    PeakOfReadings(row, "error_rate", row.maxErrorRate);
    PeakOfReadings(row, "latency_p95_ms", row.maxLatencyP95);
    SpanOfInterval(row);
  }

  /** The columns the rating is computed from show these peaks, span and counts of the evidence. */
  ghost predicate ColumnsShow(row: IncidentRow, errorRate: real, latency: real, span: real) {
    && row.anomalyCount == |row.evidence| >= 1 && |row.abnormalSignalNames| == |NamesSeen(row)|
    && row.maxErrorRate == errorRate && row.maxLatencyP95 == latency && row.DurationSeconds() == span
    && (forall x :: Reaches(row, "error_rate", x) <==> errorRate >= x)
    && (forall x :: Reaches(row, "latency_p95_ms", x) <==> latency >= x)
    && (forall x :: Lasts(row, x) <==> span >= x)
  }

  lemma LevelShown(row: IncidentRow, cfg: SeverityEngine.Config, errorRate: real, latency: real, span: real)
    requires IsRated(row, cfg) && ColumnsShow(row, errorRate, latency, span)
    ensures LevelByEvidence(row, cfg)
  {
    hide Reaches, Lasts, NamesSeen, SeverityEngine.ReasonsAt;
  }

  lemma ReasonsShown(row: IncidentRow, cfg: SeverityEngine.Config, errorRate: real, latency: real, span: real)
    requires IsRated(row, cfg) && ColumnsShow(row, errorRate, latency, span)
    ensures row.severityReasons == ReasonsByEvidence(row, cfg, errorRate, latency, span)
  {
    hide Reaches, Lasts, NamesSeen;
  }

  lemma TitleShown(row: IncidentRow, cfg: SeverityEngine.Config)
    requires AgreesWithEvidence(row, cfg)
    ensures TitleByEvidence(row)
  {
    hide SeverityEngine.VerdictOf, NamesSeen, Aggregates.Fold, AggregatesOf, TextLess;
    NamesAgree(row, cfg);
  }

  lemma EvidenceShows(row: IncidentRow, cfg: SeverityEngine.Config) returns (errorRate: real, latency: real, span: real)
    requires AgreesWithEvidence(row, cfg)
    ensures IsPeak(row, "error_rate", errorRate) && IsPeak(row, "latency_p95_ms", latency) && IsSpan(row, span)
    ensures ColumnsShow(row, errorRate, latency, span)
  {
    hide IsRated, Reaches, Lasts, NamesSeen, NamesSorted, Aggregates.Fold, AggregatesOf, IsPeak, IsSpan;
    AggregatesShown(row, cfg);
    NamesCounted(row, cfg);
    errorRate, latency, span := row.maxErrorRate, row.maxLatencyP95, row.DurationSeconds();
    forall x ensures Reaches(row, "error_rate", x) <==> errorRate >= x { PeakReaches(row, "error_rate", errorRate, x); }
    forall x ensures Reaches(row, "latency_p95_ms", x) <==> latency >= x {
      PeakReaches(row, "latency_p95_ms", latency, x);
    }
    forall x ensures Lasts(row, x) <==> span >= x { SpanLasts(row, span, x); }
  }

  /** What an incident that agrees with its evidence is rated, told from the evidence rows. */
  lemma SeverityFromEvidence(row: IncidentRow, cfg: SeverityEngine.Config)
    returns (errorRate: real, latency: real, span: real)
    requires AgreesWithEvidence(row, cfg)
    ensures LevelByEvidence(row, cfg)
    ensures IsPeak(row, "error_rate", errorRate) && IsPeak(row, "latency_p95_ms", latency) && IsSpan(row, span)
    ensures row.severityReasons == ReasonsByEvidence(row, cfg, errorRate, latency, span)
    ensures TitleByEvidence(row)
  {
    TitleShown(row, cfg);
    hide TitleByEvidence, LevelByEvidence, ReasonsByEvidence, IsPeak, IsSpan, ColumnsShow, IsRated, AggregatesOf,
      NamesSorted;
    errorRate, latency, span := EvidenceShows(row, cfg);
    LevelShown(row, cfg, errorRate, latency, span);
    ReasonsShown(row, cfg, errorRate, latency, span);
  }

  /**
   In every serially reachable store, an incident's severity and the reasons given for it are those its
   evidence rows call for.
   */
  lemma StoredSeverity(states: seq<Store>, events: seq<Event>, cfg: Config, n: nat, id: string)
    returns (errorRate: real, latency: real, span: real)
    requires IsRun(states, events, cfg) && n < |states| && id in states[n].db.incidents
    ensures var row := states[n].db.incidents[id];
      && LevelByEvidence(row, cfg.severity)
      && IsPeak(row, "error_rate", errorRate) && IsPeak(row, "latency_p95_ms", latency) && IsSpan(row, span)
      && row.severityReasons == ReasonsByEvidence(row, cfg.severity, errorRate, latency, span) && TitleByEvidence(row)
  {
    hide TitleByEvidence, IsRun, AgreesWithEvidence, LevelByEvidence, IsPeak, IsSpan, HistoryLegal, ReasonsByEvidence;
    SerialLinks.StoredIncident(states, events, cfg, n, id);
    errorRate, latency, span := SeverityFromEvidence(states[n].db.incidents[id], cfg.severity);
  }
}
