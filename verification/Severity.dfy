/**
 The rule-based severity engine. The engine collects every firing rule and takes the highest
 level; `Level` says directly which level that is, and `ReasonsAt` which reasons are reported.
 */
module SeverityEngine {
  import opened IncidentDomain

  datatype Config = Config(
    anomalyCountMedium: int,
    distinctSignalsMedium: int,
    errorRateHigh: real,
    latencyP95High: real,
    durationHigh: real,
    errorRateCritical: real,
    durationCritical: real,
    distinctSignalsCritical: int)

  datatype Inputs = Inputs(
    anomalyCount: int,
    distinctAbnormalSignals: int,
    maxAnomalyScore: real,
    maxErrorRate: real,
    maxLatencyP95: real,
    durationSeconds: real)

  datatype Verdict = Verdict(level: Severity, reasons: seq<SeverityReason>)

  predicate IsCritical(i: Inputs, c: Config) {
    i.maxErrorRate >= c.errorRateCritical ||
    (i.durationSeconds >= c.durationCritical && i.distinctAbnormalSignals >= c.distinctSignalsCritical)
  }

  predicate IsHigh(i: Inputs, c: Config) {
    i.maxErrorRate >= c.errorRateHigh || i.maxLatencyP95 >= c.latencyP95High || i.durationSeconds >= c.durationHigh
  }

  predicate IsMedium(i: Inputs, c: Config) {
    i.anomalyCount >= c.anomalyCountMedium || i.distinctAbnormalSignals >= c.distinctSignalsMedium
  }

  /** The highest level one of whose rules fires. */
  function Level(i: Inputs, c: Config): (r: Severity) {
    if IsCritical(i, c) then Critical
    else if IsHigh(i, c) then High
    else if IsMedium(i, c) then Medium
    else if i.anomalyCount >= 1 then Low
    else Info
  }

  function When(cond: bool, reason: SeverityReason): (r: seq<SeverityReason>) {
    if cond then [reason] else []
  }

  /** The reasons of the rules of one level that fire, in rule order. */
  function ReasonsAt(level: Severity, i: Inputs, c: Config): (r: seq<SeverityReason>) {
    match level
    case Info => [NoRulesFired]
    case Low => When(i.anomalyCount >= 1, AnomalyWindows(i.anomalyCount))
    case Medium =>
      When(i.anomalyCount >= c.anomalyCountMedium, Sustained(c.anomalyCountMedium)) +
      When(i.distinctAbnormalSignals >= c.distinctSignalsMedium, DistinctSignals(i.distinctAbnormalSignals))
    case High =>
      When(i.maxErrorRate >= c.errorRateHigh, ErrorRate(i.maxErrorRate, c.errorRateHigh)) +
      When(i.maxLatencyP95 >= c.latencyP95High, P95Latency(i.maxLatencyP95, c.latencyP95High)) +
      When(i.durationSeconds >= c.durationHigh, LongDuration(i.durationSeconds, c.durationHigh))
    case Critical =>
      When(i.maxErrorRate >= c.errorRateCritical, ErrorRate(i.maxErrorRate, c.errorRateCritical)) +
      When(i.durationSeconds >= c.durationCritical && i.distinctAbnormalSignals >= c.distinctSignalsCritical,
           MultiSignalDegradation(c.durationCritical))
  }

  function VerdictOf(i: Inputs, c: Config): (r: Verdict) {
    Verdict(Level(i, c), ReasonsAt(Level(i, c), i, c))
  }

  type Fired = (Severity, SeverityReason)

  /** The reasons recorded at one level, in the order in which they were recorded. */
  function Select(fired: seq<Fired>, level: Severity): (r: seq<SeverityReason>) {
    if fired == [] then []
    else Select(fired[..|fired| - 1], level) +
         (if fired[|fired| - 1].0 == level then [fired[|fired| - 1].1] else [])
  }

  lemma SelectAppend(fired: seq<Fired>, f: Fired, level: Severity)
    ensures Select(fired + [f], level) == Select(fired, level) + (if f.0 == level then [f.1] else [])
  {
    assert (fired + [f])[..|fired + [f]| - 1] == fired;
  }

  /** `r` extends `fired` by entries of one level, whose reasons are `added`. */
  ghost predicate Adds(fired: seq<Fired>, r: seq<Fired>, level: Severity, added: seq<SeverityReason>) {
    && Select(r, level) == Select(fired, level) + added
    && forall l | l != level :: Select(r, l) == Select(fired, l)
  }

  /** Appends one entry to the list of firing rules when its condition holds. */
  method Fire(fired: seq<Fired>, cond: bool, level: Severity, reason: SeverityReason) returns (r: seq<Fired>)
    ensures Adds(fired, r, level, When(cond, reason))
  {
    r := if cond then fired + [(level, reason)] else fired;
    forall l ensures Select(r, l) == Select(fired, l) + (if l == level then When(cond, reason) else []) {
      if cond { SelectAppend(fired, (level, reason), l); }
    }
  }

  method FireLowAndMedium(i: Inputs, c: Config) returns (r: seq<Fired>)
    ensures Select(r, Low) == ReasonsAt(Low, i, c) && Select(r, Medium) == ReasonsAt(Medium, i, c)
    ensures forall l | l != Low && l != Medium :: Select(r, l) == []
  {
    r := [];
    r := Fire(r, i.anomalyCount >= 1, Low, AnomalyWindows(i.anomalyCount));
    r := Fire(r, i.anomalyCount >= c.anomalyCountMedium, Medium, Sustained(c.anomalyCountMedium));
    r := Fire(r, i.distinctAbnormalSignals >= c.distinctSignalsMedium, Medium,
      DistinctSignals(i.distinctAbnormalSignals));
  }

  method FireHigh(fired: seq<Fired>, i: Inputs, c: Config) returns (r: seq<Fired>)
    requires Select(fired, High) == []
    ensures Adds(fired, r, High, ReasonsAt(High, i, c))
  {
    var r1 := Fire(fired, i.maxErrorRate >= c.errorRateHigh, High, ErrorRate(i.maxErrorRate, c.errorRateHigh));
    var r2 := Fire(r1, i.maxLatencyP95 >= c.latencyP95High, High, P95Latency(i.maxLatencyP95, c.latencyP95High));
    r := Fire(r2, i.durationSeconds >= c.durationHigh, High, LongDuration(i.durationSeconds, c.durationHigh));
  }

  method FireCritical(fired: seq<Fired>, i: Inputs, c: Config) returns (r: seq<Fired>)
    requires Select(fired, Critical) == []
    ensures Adds(fired, r, Critical, ReasonsAt(Critical, i, c))
  {
    r := Fire(fired, i.maxErrorRate >= c.errorRateCritical, Critical, ErrorRate(i.maxErrorRate, c.errorRateCritical));
    r := Fire(r, i.durationSeconds >= c.durationCritical && i.distinctAbnormalSignals >= c.distinctSignalsCritical,
              Critical, MultiSignalDegradation(c.durationCritical));
  }

  /** Evaluates the rules level by level. */
  method FireAll(i: Inputs, c: Config) returns (fired: seq<Fired>)
    ensures Select(fired, Info) == []
    ensures forall l | l != Info :: Select(fired, l) == ReasonsAt(l, i, c)
  {
    fired := FireLowAndMedium(i, c);
    fired := FireHigh(fired, i, c);
    fired := FireCritical(fired, i, c);
  }

  method TopLevel(fired: seq<Fired>) returns (top: Severity)
    requires fired != []
    ensures exists i | 0 <= i < |fired| :: fired[i].0 == top
    ensures forall i | 0 <= i < |fired| :: fired[i].0.Rank() <= top.Rank()
  {
    top := fired[0].0;
    for n := 1 to |fired|
      invariant exists i | 0 <= i < n :: fired[i].0 == top
      invariant forall i | 0 <= i < n :: fired[i].0.Rank() <= top.Rank()
    {
      if fired[n].0.Rank() > top.Rank() { top := fired[n].0; }
    }
  }

  lemma {:induction false} SelectNonEmpty(fired: seq<Fired>, i: nat)
    requires i < |fired|
    ensures Select(fired, fired[i].0) != []
  {
    if i < |fired| - 1 {
      SelectNonEmpty(fired[..|fired| - 1], i);
    }
  }

  lemma {:induction false} SelectedOccurs(fired: seq<Fired>, level: Severity)
    requires Select(fired, level) != []
    ensures exists i | 0 <= i < |fired| :: fired[i].0 == level
  {
    var init := fired[..|fired| - 1];
    if fired[|fired| - 1].0 != level {
      SelectedOccurs(init, level);
      var i :| 0 <= i < |init| && init[i].0 == level;
      assert fired[i].0 == level;
    }
  }

  /** The highest firing level and its reasons; INFO when no rule fires. */
  method EvaluateSeverity(i: Inputs, c: Config) returns (v: Verdict)
    ensures v == VerdictOf(i, c)
  {
    var fired := FireAll(i, c);
    if fired == [] {
      return Verdict(Info, [NoRulesFired]);
    }
    var top := TopLevel(fired);
    ghost var w :| 0 <= w < |fired| && fired[w].0 == top;
    SelectNonEmpty(fired, w);
    forall l | Select(fired, l) != [] ensures l.Rank() <= top.Rank() { SelectedOccurs(fired, l); }
    assert top == Level(i, c) by {
      assert Select(fired, Critical) != [] <==> IsCritical(i, c);
      assert Select(fired, High) != [] <==> IsHigh(i, c);
      assert Select(fired, Medium) != [] <==> IsMedium(i, c);
    }
    return Verdict(top, Select(fired, top));
  }

  /** More evidence never lowers the severity. */
  ghost predicate AtLeast(more: Inputs, less: Inputs) {
    && more.anomalyCount >= less.anomalyCount
    && more.distinctAbnormalSignals >= less.distinctAbnormalSignals
    && more.maxErrorRate >= less.maxErrorRate
    && more.maxLatencyP95 >= less.maxLatencyP95
    && more.durationSeconds >= less.durationSeconds
  }

  lemma SeverityIsMonotone(more: Inputs, less: Inputs, c: Config)
    requires AtLeast(more, less)
    ensures Level(more, c).Rank() >= Level(less, c).Rank()
  {
  }
}
