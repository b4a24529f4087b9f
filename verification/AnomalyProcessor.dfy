/**
 The anomaly processor over the in-memory repository. Incident objects are updated in place and
 written back through the unit of work; every processed signal is one serial step of the store.
 */
module AnomalyProcessor {
  import opened Prelude
  import opened IncidentDomain
  import opened Correlation
  import opened SerialStore
  import opened IncidentRepository
  import SeverityEngine
  import SerialInvariants
  import T = Topology

  datatype ProcessResult = Created | Appended | Superseded | Duplicate

  /** A duplicate has a fixed reason, left out here. */
  datatype ProcessOutcome = ProcessOutcome(result: ProcessResult, incidentId: Option<string>,
    reason: Option<CorrelationReason>)

  /** What one unit of work reports, from the tables it finds. */
  ghost function OutcomeOf(db: Db, s: Signal, newId: string, cfg: Config): (o: ProcessOutcome)
    ensures o.result == Duplicate <==> s.obs.eventId in db.eventIds
    ensures o.result != Duplicate ==> o.incidentId == Some(CurrentIncident(db, s, newId, cfg))
  {
    if s.obs.eventId in db.eventIds then ProcessOutcome(Duplicate, None, None) else
    match FindActive(db, s.Key())
    case None => ProcessOutcome(Created, Some(newId), Some(NoActiveIncident))
    case Some(id) =>
      var d := Decide(s.obs, Some(db.incidents[id]), cfg.windowSeconds);
      if d.action == Append then ProcessOutcome(Appended, Some(id), Some(d.reason))
      else ProcessOutcome(Superseded, Some(newId), Some(d.reason))
  }

  /** A detached, mutable copy of an incident row. */
  class Incident {
    const id: string
    const correlationKey: string
    const service: string
    const environment: string
    const detector: string
    const createdAt: Instant
    var status: Status
    var severity: Severity
    var severityReasons: seq<SeverityReason>
    var title: Title
    var anomalyCount: int
    var maxAnomalyScore: real
    var maxErrorRate: real
    var maxLatencyP95: real
    var startedAt: Instant
    var lastEvidenceAt: Instant
    var updatedAt: Instant
    var abnormalSignalNames: seq<string>
    var acknowledgedAt: Option<Instant>
    var resolvedAt: Option<Instant>
    var resolution: Option<string>
    var evidence: seq<Evidence>
    var history: seq<Transition>

    function Row(): (r: IncidentRow)
      reads this
    {
      IncidentRow(id, correlationKey, service, environment, status, severity, severityReasons, title, anomalyCount,
                  maxAnomalyScore, maxErrorRate, maxLatencyP95, detector, startedAt, lastEvidenceAt, createdAt,
                  updatedAt, abnormalSignalNames, acknowledgedAt, resolvedAt, resolution, evidence, history)
    }

    constructor (row: IncidentRow)
      ensures Row() == row
    {
      id, correlationKey, service, environment := row.id, row.correlationKey, row.service, row.environment;
      detector, createdAt := row.detector, row.createdAt;
      status, severity, severityReasons, title := row.status, row.severity, row.severityReasons, row.title;
      anomalyCount, maxAnomalyScore := row.anomalyCount, row.maxAnomalyScore;
      maxErrorRate, maxLatencyP95 := row.maxErrorRate, row.maxLatencyP95;
      startedAt, lastEvidenceAt, updatedAt := row.startedAt, row.lastEvidenceAt, row.updatedAt;
      abnormalSignalNames, acknowledgedAt := row.abnormalSignalNames, row.acknowledgedAt;
      resolvedAt, resolution, evidence, history := row.resolvedAt, row.resolution, row.evidence, row.history;
    }

    /** Re-evaluates severity, reasons and title from the aggregates. */
    method Rate(cfg: SeverityEngine.Config)
      modifies this`severity, this`severityReasons, this`title
      ensures Row() == Correlation.Rate(old(Row()), cfg)
    {
      hide SeverityEngine.VerdictOf;
      var verdict := SeverityEngine.EvaluateSeverity(
        SeverityEngine.Inputs(anomalyCount, |abnormalSignalNames|, maxAnomalyScore, maxErrorRate, maxLatencyP95,
                              Max(lastEvidenceAt - startedAt, 0.0)), cfg);
      severity, severityReasons := verdict.level, verdict.reasons;
      title := Rated(verdict.level, abnormalSignalNames, service, environment);
    }

    method WidenInterval(o: Observation, now: Instant)
      modifies this`anomalyCount, this`lastEvidenceAt, this`startedAt, this`updatedAt
      ensures Row() == old(Row()).(
        anomalyCount := old(anomalyCount) + 1,
        lastEvidenceAt := Max(old(lastEvidenceAt), o.windowEnd),
        startedAt := Min(old(startedAt), o.windowStart),
        updatedAt := now)
    {
      hide Max, Min;
      anomalyCount := anomalyCount + 1;
      lastEvidenceAt := Max(lastEvidenceAt, o.windowEnd);
      startedAt := Min(startedAt, o.windowStart);
      updatedAt := now;
    }

    method RaiseMaxima(o: Observation)
      modifies this`maxAnomalyScore, this`maxErrorRate, this`maxLatencyP95
      ensures Row() == old(Row()).(
        maxAnomalyScore := Max(old(maxAnomalyScore), o.anomalyScore),
        maxErrorRate := Max(old(maxErrorRate), o.Reading("error_rate")),
        maxLatencyP95 := Max(old(maxLatencyP95), o.Reading("latency_p95_ms")))
    {
      hide Max, IncidentDomain.Observation.Reading;
      maxAnomalyScore := Max(maxAnomalyScore, o.anomalyScore);
      maxErrorRate := Max(maxErrorRate, o.Reading("error_rate"));
      maxLatencyP95 := Max(maxLatencyP95, o.Reading("latency_p95_ms"));
    }

    method AddNames(o: Observation)
      modifies this`abnormalSignalNames
      ensures Row() == old(Row()).(abnormalSignalNames := MergeNames(old(abnormalSignalNames), o))
    {
      hide MergeNames;
      abnormalSignalNames := MergeNames(abnormalSignalNames, o);
    }

    /** Folds one observation into the aggregates and rates the incident again. */
    method Absorb(o: Observation, now: Instant, cfg: SeverityEngine.Config)
      modifies this
      ensures Row() == Correlation.Absorb(old(Row()), o, now, cfg)
    {
      hide Correlation.Rate, MergeNames, Max, Min, IncidentDomain.Observation.Reading;
      ghost var before := Row();
      WidenInterval(o, now);
      RaiseMaxima(o);
      assert Row() == AccumulateCounters(before, o, now);
      AddNames(o);
      Rate(cfg);
    }

    /** Closes an incident that went quiet and returns the history entry to store. */
    method AutoResolve(reason: CorrelationReason, now: Instant) returns (tr: Transition)
      modifies this
      ensures tr == Transition(Some(old(status)), Resolved, "system", AutoResolved(reason), old(severity), now)
      ensures Row() == old(Row()).(status := Resolved, resolvedAt := Some(old(lastEvidenceAt)),
                                   resolution := Some("auto:stale"), updatedAt := now)
    {
      var previous := status;
      status := Resolved;
      resolvedAt := Some(lastEvidenceAt);
      resolution := Some("auto:stale");
      updatedAt := now;
      tr := Transition(Some(previous), Resolved, "system", AutoResolved(reason), severity, now);
    }
  }

  // ---------------------------------------------------------------- what the staged writes do

  function InsertOps(row: IncidentRow, e: Evidence, tr: Transition): (r: seq<Op>) {
    [InsertOp(row.(evidence := [], history := [])), EvidenceOp(row.id, e), TransitionOp(row.id, tr)]
  }

  lemma ApplyInsert(st: Store, row: IncidentRow, e: Evidence, tr: Transition)
    requires forall id :: !ActiveFor(st.db, row.correlationKey, id)
    ensures ApplyAll(st, InsertOps(row, e, tr)) ==
      Applied(Store(InsertRow(st.db, row.(evidence := [e], history := [tr]), e.obs.eventId), st.relations))
  {
    var ops := InsertOps(row, e, tr);
    var st1 := ApplyOp(st, ops[0]).st;
    var st2 := ApplyOp(st1, ops[1]).st;
    assert st2.db.incidents[row.id] == row.(evidence := [e], history := []);
    var st3 := ApplyOp(st2, ops[2]).st;
    assert st3.db.incidents[row.id] == row.(evidence := [e], history := [tr]);
    assert ops[1..] == [ops[1], ops[2]] && [ops[1], ops[2]][1..] == [ops[2]] && [ops[2]][1..] == [];
    assert ApplyAll(st2, [ops[2]]) == Applied(st3);
    assert st3.db.incidents == st.db.incidents[row.id := row.(evidence := [e], history := [tr])];
  }

  lemma ApplyAppend(st: Store, row: IncidentRow, e: Evidence)
    requires row.id in st.db.incidents
    requires row.evidence == st.db.incidents[row.id].evidence && row.history == st.db.incidents[row.id].history
    ensures ApplyAll(st, [UpdateOp(row), EvidenceOp(row.id, e)]) ==
      Applied(Store(InsertRow(st.db, row.(evidence := row.evidence + [e]), e.obs.eventId), st.relations))
  {
    var ops := [UpdateOp(row), EvidenceOp(row.id, e)];
    var st1 := ApplyOp(st, ops[0]).st;
    var st2 := ApplyOp(st1, ops[1]).st;
    assert ops[1..] == [ops[1]] && [ops[1]][1..] == [];
    assert ApplyAll(st1, [ops[1]]) == Applied(st2);
    assert st2.db.incidents == st.db.incidents[row.id := row.(evidence := row.evidence + [e])];
  }

  lemma ApplyResolve(st: Store, row: IncidentRow, tr: Transition)
    requires row.id in st.db.incidents
    requires row.evidence == st.db.incidents[row.id].evidence && row.history == st.db.incidents[row.id].history
    ensures ApplyAll(st, [UpdateOp(row), TransitionOp(row.id, tr)]) ==
      Applied(st.(db := st.db.(incidents := st.db.incidents[row.id := row.(history := row.history + [tr])])))
  {
    var ops := [UpdateOp(row), TransitionOp(row.id, tr)];
    var st1 := ApplyOp(st, ops[0]).st;
    var st2 := ApplyOp(st1, ops[1]).st;
    assert ops[1..] == [ops[1]] && [ops[1]][1..] == [];
    assert ApplyAll(st1, [ops[1]]) == Applied(st2);
    assert st2.db.incidents == st.db.incidents[row.id := row.(history := row.history + [tr])];
  }

  function LinkOps(rs: seq<Relation>): (r: seq<Op>) {
    seq(|rs|, i requires 0 <= i < |rs| => LinkOp(rs[i]))
  }

  function AddLinks(stored: seq<Relation>, rs: seq<Relation>): (r: seq<Relation>)
    decreases rs
  {
    if rs == [] then stored else AddLinks(AddLink(stored, rs[0]), rs[1..])
  }

  lemma {:induction false} ApplyLinks(st: Store, rs: seq<Relation>)
    ensures ApplyAll(st, LinkOps(rs)) == Applied(st.(relations := AddLinks(st.relations, rs)))
    decreases rs
  {
    if rs != [] {
      var st1 := st.(relations := AddLink(st.relations, rs[0]));
      assert LinkOps(rs)[0] == LinkOp(rs[0]);
      assert LinkOps(rs)[1..] == LinkOps(rs[1..]);
      ApplyLinks(st1, rs[1..]);
    }
  }

  /** Adding edges one by one keeps what was stored, stores every edge once and nothing else. */
  lemma {:induction false} AddLinksMeaning(stored: seq<Relation>, rs: seq<Relation>)
    ensures stored <= AddLinks(stored, rs)
    ensures forall i | |stored| <= i < |AddLinks(stored, rs)| :: AddLinks(stored, rs)[i] in rs
    ensures forall r | r in rs :: r.Pair() in RelationPairs(AddLinks(stored, rs))
    ensures NoDuplicates(stored) ==> NoDuplicates(AddLinks(stored, rs))
    decreases rs
  {
    if rs != [] {
      var r, next := rs[0], AddLink(stored, rs[0]);
      AddLinksMeaning(next, rs[1..]);
      var all := AddLinks(stored, rs);
      assert r.Pair() in RelationPairs(next) by { if next == stored + [r] { assert next[|stored|] == r; } }
      assert forall p :: p in RelationPairs(next) ==> p in RelationPairs(all);
      assert NoDuplicates(stored) ==> NoDuplicates(next) by {
        assert forall i | 0 <= i < |stored| :: stored[i] in stored;
      }
    }
  }

  lemma DbInvOneActive(db: Db, cfg: Config)
    requires DbInv(db, cfg)
    ensures OneActivePerKey(db)
  {
  }

  /** Identity, place and interval: all that linking looks at. */
  ghost predicate SamePlace(a: IncidentRow, b: IncidentRow) {
    && a.id == b.id && a.service == b.service && a.environment == b.environment
    && a.startedAt == b.startedAt && a.lastEvidenceAt == b.lastEvidenceAt
  }

  /** `rs` holds one edge for every candidate that overlaps `row`, and nothing else. */
  ghost predicate EdgesOf(rs: seq<Relation>, db: Db, row: IncidentRow, cfg: Config, now: Instant) {
    forall r :: r in rs <==> NewEdge(db, row, cfg, now, r)
  }

  /** An edge between `row` and an active, near neighbour of its environment, from dependent to dependency. */
  ghost predicate ConnectsNeighbour(db: Db, row: IncidentRow, cfg: Config, now: Instant, r: Relation) {
    exists id :: id in db.incidents && id != row.id && db.incidents[id].status.IsActive()
      && db.incidents[id].environment == row.environment && T.Near(row, db.incidents[id], cfg.crossWindowSeconds)
      && DirectedEdge(row, db.incidents[id], cfg, now, r)
  }

  /** The service of `row` comes first where it is the dependent one. */
  predicate DirectedEdge(row: IncidentRow, other: IncidentRow, cfg: Config, now: Instant, r: Relation) {
    if T.Declares(cfg.graph, row.service, other.service)
    then r == Relation(row.id, other.id, row.service, other.service, now)
    else T.Declares(cfg.graph, other.service, row.service)
         && r == Relation(other.id, row.id, other.service, row.service, now)
  }

  lemma EdgeIsDirected(row: IncidentRow, other: IncidentRow, cfg: Config, now: Instant, r: Relation)
    ensures other.service in T.RelatedServices(row.service, cfg.graph) && r == Edge(row, other, cfg.graph, now) <==>
      DirectedEdge(row, other, cfg, now, r)
  {
    hide T.RelatedServices;
  }

  /** When incidents are intervals, the edges of a row are those to its near neighbours. */
  lemma NewEdgeMeaning(db: Db, row: IncidentRow, cfg: Config, now: Instant, r: Relation)
    requires cfg.crossWindowSeconds >= 0.0 && T.IsInterval(row)
    requires forall id | id in db.incidents :: T.IsInterval(db.incidents[id])
    ensures NewEdge(db, row, cfg, now, r) <==> ConnectsNeighbour(db, row, cfg, now, r)
  {
    forall id | id in db.incidents
      ensures T.Overlap(row, db.incidents[id], cfg.crossWindowSeconds) <==>
        T.Near(row, db.incidents[id], cfg.crossWindowSeconds)
      ensures (db.incidents[id].service in T.RelatedServices(row.service, cfg.graph)
               && r == Edge(row, db.incidents[id], cfg.graph, now)) <==>
        DirectedEdge(row, db.incidents[id], cfg, now, r)
    {
      T.OverlapIsNear(row, db.incidents[id], cfg.crossWindowSeconds);
      EdgeIsDirected(row, db.incidents[id], cfg, now, r);
    }
    hide T.Overlap, T.Near, T.RelatedServices, Edge, DirectedEdge, T.IsInterval;
  }

  /** The rows a link step reads are intervals. */
  ghost predicate AllIntervals(db: Db, row: IncidentRow) {
    T.IsInterval(row) && forall id | id in db.incidents :: T.IsInterval(db.incidents[id])
  }

  lemma EdgesMeaning(rs: seq<Relation>, db: Db, row: IncidentRow, cfg: Config, now: Instant)
    requires EdgesOf(rs, db, row, cfg, now)
    ensures cfg.crossWindowSeconds >= 0.0 && AllIntervals(db, row) ==>
      forall r :: r in rs <==> ConnectsNeighbour(db, row, cfg, now, r)
  {
    hide NewEdge, ConnectsNeighbour;
    if cfg.crossWindowSeconds >= 0.0 && AllIntervals(db, row) {
      forall r ensures r in rs <==> ConnectsNeighbour(db, row, cfg, now, r) {
        NewEdgeMeaning(db, row, cfg, now, r);
      }
    }
  }

  ghost predicate EdgesAmong(rs: seq<Relation>, candidates: seq<IncidentRow>, row: IncidentRow, cfg: Config,
                             now: Instant) {
    forall r :: r in rs <==> (exists other | other in candidates ::
      other.id != row.id && T.Overlap(row, other, cfg.crossWindowSeconds) && r == Edge(row, other, cfg.graph, now))
  }

  lemma NoEdgesAmongNone(row: IncidentRow, cfg: Config, now: Instant)
    ensures EdgesAmong([], [], row, cfg, now)
  {
  }

  lemma NoNeighboursNoEdges(db: Db, row: IncidentRow, cfg: Config, now: Instant)
    requires T.RelatedServices(row.service, cfg.graph) == {}
    ensures EdgesOf([], db, row, cfg, now)
  {
  }

  lemma EdgesAmongAppend(rs: seq<Relation>, candidates: seq<IncidentRow>, other: IncidentRow, row: IncidentRow,
                         cfg: Config, now: Instant)
    requires EdgesAmong(rs, candidates, row, cfg, now)
    ensures EdgesAmong(if other.id != row.id && T.Overlap(row, other, cfg.crossWindowSeconds)
      then rs + [Edge(row, other, cfg.graph, now)] else rs,
                       candidates + [other], row, cfg, now)
  {
    hide Edge, T.Overlap;
    assert forall c :: c in candidates + [other] <==> c in candidates || c == other;
  }

  /** With one active incident per key, the scan finds the one there is. */
  lemma LockedIsFound(db: Db, key: string, active: Option<IncidentRow>)
    requires OneActivePerKey(db)
    requires active == None ==> forall id :: !ActiveFor(db, key, id)
    requires active.Some? ==> exists id :: ActiveFor(db, key, id) && db.incidents[id] == active.value
    ensures match FindActive(db, key)
      case None => active == None
      case Some(id) => id in db.incidents && active == Some(db.incidents[id])
  {
  }

  lemma EdgesOfCandidates(db: Db, row: IncidentRow, candidates: seq<IncidentRow>, rs: seq<Relation>, cfg: Config,
                          now: Instant)
    requires RowIdsMatch(db)
    requires forall other :: other in candidates <==>
      exists id | id in db.incidents ::
        db.incidents[id] == other && other.service in T.RelatedServices(row.service, cfg.graph)
        && other.environment == row.environment && other.status.IsActive()
    requires EdgesAmong(rs, candidates, row, cfg, now)
    ensures EdgesOf(rs, db, row, cfg, now)
  {
    hide Edge, T.Overlap, T.RelatedServices;
    forall id | Candidate(db, row, id, cfg.graph)
      ensures db.incidents[id] in candidates && db.incidents[id].id == id { }
    forall r | r in rs
      ensures NewEdge(db, row, cfg, now, r)
    {
      var other :| other in candidates && other.id != row.id && T.Overlap(row, other, cfg.crossWindowSeconds)
        && r == Edge(row, other, cfg.graph, now);
      assert Candidate(db, row, other.id, cfg.graph);
    }
  }

  /** The writes of a superseding unit of work: resolve the old incident, then insert the new one. */
  lemma SupersedeWrites(st: Store, s: Signal, newId: string, t: Ticks, cfg: Config, id: string,
                        reason: CorrelationReason,
                        resolveOps: seq<Op>, row: IncidentRow, e: Evidence, tr: Transition)
    requires DbInv(st.db, cfg) && id in st.db.incidents && ActiveFor(st.db, s.Key(), id)
    requires ApplyAll(st, resolveOps) == Applied(st.(db := ResolveRow(st.db, id, reason, t)))
    requires row.correlationKey == s.Key() && e.obs.eventId == s.obs.eventId
    requires row.(evidence := [e], history := [tr]) == Correlation.NewIncident(s, newId, reason, t, cfg)
    ensures ApplyAll(st, resolveOps + InsertOps(row, e, tr)) ==
      Applied(Store(InsertRow(ResolveRow(st.db, id, reason, t), Correlation.NewIncident(s, newId, reason, t, cfg),
        s.obs.eventId),
                    st.relations))
  {
    hide Correlation.NewIncident, InsertOps, DbInv, ResolveRow;
    var mid := st.(db := ResolveRow(st.db, id, reason, t));
    SerialInvariants.ResolveRowInv(st.db, id, reason, t, cfg);
    ApplyInsert(mid, row, e, tr);
    ApplyAllConcat(st, resolveOps, InsertOps(row, e, tr));
  }

  /** Edges depend only on identity, place and interval of the incident. */
  lemma LinksOfStoredRow(before: seq<Relation>, after: seq<Relation>, db: Db, row: IncidentRow, stored: IncidentRow,
                         cfg: Config, now: Instant)
    requires LinksTo(before, after, db, row, cfg, now)
    requires SamePlace(row, stored)
    ensures LinksTo(before, after, db, stored, cfg, now)
  {
    forall r ensures NewEdge(db, stored, cfg, now, r) <==> NewEdge(db, row, cfg, now, r) {
      if NewEdge(db, row, cfg, now, r) { SameEdges(db, row, stored, cfg, now, r); }
      if NewEdge(db, stored, cfg, now, r) { SameEdges(db, stored, row, cfg, now, r); }
    }
  }

  lemma SameEdges(db: Db, row: IncidentRow, stored: IncidentRow, cfg: Config, now: Instant, r: Relation)
    requires SamePlace(row, stored) && NewEdge(db, row, cfg, now, r)
    ensures NewEdge(db, stored, cfg, now, r)
  {
    var id :| Candidate(db, row, id, cfg.graph) && T.Overlap(row, db.incidents[id], cfg.crossWindowSeconds)
              && r == Edge(row, db.incidents[id], cfg.graph, now);
    assert Candidate(db, stored, id, cfg.graph);
  }

  /** The row writes followed by the edge writes are one serial step. */
  lemma LinkStep(st: Store, s: Signal, newId: string, t: Ticks, cfg: Config, writes: seq<Op>, rs: seq<Relation>,
                 row: IncidentRow)
    requires s.obs.eventId !in st.db.eventIds
    requires ApplyAll(st, writes) == Applied(Store(ProcessDb(st.db, s, newId, t, cfg), st.relations))
    requires row.id == CurrentIncident(st.db, s, newId, cfg) && row.id in ProcessDb(st.db, s, newId, t, cfg).incidents
    requires SamePlace(row, ProcessDb(st.db, s, newId, t, cfg).incidents[row.id])
    requires EdgesOf(rs, st.db, row, cfg, t.link)
    ensures ApplyAll(st, writes + LinkOps(rs)).Applied?
    ensures ProcessStep(st, s, newId, t, cfg, ApplyAll(st, writes + LinkOps(rs)).st)
  {
    hide ProcessDb, CurrentIncident, Candidate;
    var mid := Store(ProcessDb(st.db, s, newId, t, cfg), st.relations);
    ApplyAllConcat(st, writes, LinkOps(rs));
    ApplyLinks(mid, rs);
    AddLinksMeaning(st.relations, rs);
    var after := AddLinks(st.relations, rs);
    assert LinksTo(st.relations, after, st.db, row, cfg, t.link);
    LinksOfStoredRow(st.relations, after, st.db, row, mid.db.incidents[row.id], cfg, t.link);
  }

  // ---------------------------------------------------------------- processing

  class Processor {
    const repo: InMemoryRepository
    const cfg: Config

    constructor (repo: InMemoryRepository, cfg: Config)
      ensures this.repo == repo && this.cfg == cfg
    {
      this.repo, this.cfg := repo, cfg;
    }

    method NewIncident(s: Signal, newId: string, reason: CorrelationReason, t: Ticks)
      returns (incident: Incident, e: Evidence, tr: Transition)
      ensures fresh(incident)
      ensures incident.id == newId && incident.correlationKey == s.Key()
      ensures e == Evidence(s.obs, reason)
      ensures incident.Row().(evidence := [e], history := [tr]) == Correlation.NewIncident(s, newId, reason, t, cfg)
    {
      incident := new Incident(BlankIncident(s, newId, t.create));
      incident.Absorb(s.obs, t.absorb, cfg.severity);
      e := Evidence(s.obs, reason);
      tr := Transition(None, Open, "system", Correlated(reason), incident.severity, t.create);
    }

    /** Stages one edge per active neighbour that overlaps the incident. */
    method LinkRelatedIncidents(incident: Incident, uow: UnitOfWork, now: Instant) returns (ghost rs: seq<Relation>)
      requires uow.store == repo && RowIdsMatch(repo.Contents().db)
      modifies uow`ops
      ensures uow.ops == old(uow.ops) + LinkOps(rs)
      ensures EdgesOf(rs, repo.Contents().db, incident.Row(), cfg, now)
      ensures cfg.crossWindowSeconds >= 0.0 && AllIntervals(repo.Contents().db, incident.Row()) ==>
        forall r :: r in rs <==> ConnectsNeighbour(repo.Contents().db, incident.Row(), cfg, now, r)
    {
      hide AllIntervals, ConnectsNeighbour, Edge, T.Overlap, EdgesAmong, EdgesOf, NewEdge, Candidate, T.RelatedServices;
      rs := [];
      var row := incident.Row();
      var neighbours := T.RelatedServices(incident.service, cfg.graph);
      if neighbours == {} {
        NoNeighboursNoEdges(repo.Contents().db, row, cfg, now);
        EdgesMeaning(rs, repo.Contents().db, row, cfg, now);
        return;
      }
      var candidates := uow.ActiveIncidentsInServices(neighbours, incident.environment);
      NoEdgesAmongNone(row, cfg, now);
      assert candidates[..0] == [];
      for n := 0 to |candidates|
        invariant uow.ops == old(uow.ops) + LinkOps(rs)
        invariant EdgesAmong(rs, candidates[..n], row, cfg, now)
      {
        var other := candidates[n];
        assert candidates[..n + 1] == candidates[..n] + [other];
        EdgesAmongAppend(rs, candidates[..n], other, row, cfg, now);
        if other.id != incident.id && T.Overlap(row, other, cfg.crossWindowSeconds) {
          var edge := Edge(row, other, cfg.graph, now);
          uow.LinkIncident(edge);
          assert LinkOps(rs + [edge]) == LinkOps(rs) + [LinkOp(edge)];
          rs := rs + [edge];
        }
      }
      assert candidates[..|candidates|] == candidates;
      EdgesOfCandidates(repo.Contents().db, row, candidates, rs, cfg, now);
      EdgesMeaning(rs, repo.Contents().db, row, cfg, now);
    }

    method StageNew(uow: UnitOfWork, incident: Incident, e: Evidence, tr: Transition)
      modifies uow
      ensures uow.ops == old(uow.ops) + InsertOps(incident.Row(), e, tr)
    {
      uow.InsertIncident(incident.Row());
      uow.AddEvidence(incident.id, e);
      uow.AddTransition(incident.id, tr);
    }

    /** The staged writes turn the tables into those of `ProcessDb`, and `current` is the incident it ends with. */
    ghost predicate Staged(st: Store, s: Signal, newId: string, t: Ticks, ops: seq<Op>, current: IncidentRow) {
      var db' := ProcessDb(st.db, s, newId, t, cfg);
      && ApplyAll(st, ops) == Applied(Store(db', st.relations))
      && current.id == CurrentIncident(st.db, s, newId, cfg)
      && current.id in db'.incidents && SamePlace(current, db'.incidents[current.id])
    }

    method StageCreate(s: Signal, newId: string, t: Ticks, uow: UnitOfWork) returns (current: Incident)
      requires uow.store == repo && uow.ops == [] && s.obs.eventId !in repo.eventIds
      requires FindActive(repo.Contents().db, s.Key()) == None
      modifies uow
      ensures fresh(current) && Staged(repo.Contents(), s, newId, t, uow.ops, current.Row())
    {
      hide Correlation.NewIncident;
      ghost var st := repo.Contents();
      var incident, e, tr := NewIncident(s, newId, NoActiveIncident, t);
      StageNew(uow, incident, e, tr);
      assert uow.ops == InsertOps(incident.Row(), e, tr);
      ApplyInsert(st, incident.Row(), e, tr);
      current := incident;
    }

    method StageAppend(s: Signal, newId: string, t: Ticks, active: IncidentRow, reason: CorrelationReason,
                       uow: UnitOfWork)
      returns (current: Incident)
      requires uow.store == repo && uow.ops == [] && s.obs.eventId !in repo.eventIds && RowIdsMatch(repo.Contents().db)
      requires FindActive(repo.Contents().db, s.Key()) == Some(active.id)
      requires active.id in repo.incidents && active == repo.incidents[active.id]
      requires Decide(s.obs, Some(active), cfg.windowSeconds) == Decision(Append, reason)
      modifies uow
      ensures fresh(current) && Staged(repo.Contents(), s, newId, t, uow.ops, current.Row())
    {
      hide Correlation.Absorb;
      ghost var st := repo.Contents();
      var incident := new Incident(active);
      var e := Evidence(s.obs, reason);
      incident.Absorb(s.obs, t.absorb, cfg.severity);
      AbsorbKeeps(active, s.obs, t.absorb, cfg.severity);
      uow.UpdateIncident(incident.Row());
      uow.AddEvidence(incident.id, e);
      assert uow.ops == [UpdateOp(incident.Row()), EvidenceOp(incident.id, e)];
      ApplyAppend(st, incident.Row(), e);
      assert incident.Row().(evidence := incident.evidence + [e]) == AppendTo(active, s.obs, reason, t, cfg);
      current := incident;
    }

    method StageSupersede(s: Signal, newId: string, t: Ticks, active: IncidentRow, reason: CorrelationReason,
                          uow: UnitOfWork)
      returns (current: Incident)
      requires uow.store == repo && uow.ops == [] && s.obs.eventId !in repo.eventIds && DbInv(repo.Contents().db, cfg)
      requires FindActive(repo.Contents().db, s.Key()) == Some(active.id)
      requires active.id in repo.incidents && active == repo.incidents[active.id]
      requires Decide(s.obs, Some(active), cfg.windowSeconds) == Decision(Supersede, reason)
      modifies uow
      ensures fresh(current) && Staged(repo.Contents(), s, newId, t, uow.ops, current.Row())
    {
      hide Correlation.NewIncident, DbInv;
      ghost var st := repo.Contents();
      var quiet := new Incident(active);
      var resolved := quiet.AutoResolve(reason, t.resolve);
      uow.UpdateIncident(quiet.Row());
      uow.AddTransition(quiet.id, resolved);
      ghost var resolveOps := uow.ops;
      assert resolveOps == [UpdateOp(quiet.Row()), TransitionOp(quiet.id, resolved)];
      ApplyResolve(st, quiet.Row(), resolved);
      var incident, e, tr := NewIncident(s, newId, reason, t);
      StageNew(uow, incident, e, tr);
      SupersedeWrites(st, s, newId, t, cfg, active.id, reason, resolveOps, incident.Row(), e, tr);
      current := incident;
    }

    /** Processes one signal as one unit of work. */
    method Process(s: Signal, newId: string, t: Ticks) returns (outcome: ProcessOutcome)
      requires DbInv(repo.Contents().db, cfg) && newId !in repo.incidents
      modifies repo
      ensures Next(old(repo.Contents()), Anomaly(s, newId, t), cfg, repo.Contents())
      ensures outcome == OutcomeOf(old(repo.Contents().db), s, newId, cfg)
    {
      hide ProcessDb, DbInv;
      ghost var st := repo.Contents();
      SerialInvariants.RowIds(st.db, cfg);
      var uow := new UnitOfWork(repo);
      var seen := uow.EvidenceExists(s.obs.eventId);
      if seen {
        var _ := uow.Commit();
        return ProcessOutcome(Duplicate, None, None);
      }
      var active := uow.LockActiveIncident(s.Key());
      assert repo.Contents() == st;
      assert OneActivePerKey(st.db) by { DbInvOneActive(st.db, cfg); }
      LockedIsFound(st.db, s.Key(), active);
      var decision := Decide(s.obs, active, cfg.windowSeconds);
      var current: Incident;
      match decision.action {
        case CreateIncident =>
          current := StageCreate(s, newId, t, uow);
          outcome := ProcessOutcome(Created, Some(current.id), Some(decision.reason));
        case Append =>
          current := StageAppend(s, newId, t, active.value, decision.reason, uow);
          outcome := ProcessOutcome(Appended, Some(current.id), Some(decision.reason));
        case Supersede =>
          current := StageSupersede(s, newId, t, active.value, decision.reason, uow);
          outcome := ProcessOutcome(Superseded, Some(current.id), Some(decision.reason));
      }
      ghost var writes := uow.ops;
      ghost var rs := LinkRelatedIncidents(current, uow, t.link);
      LinkStep(st, s, newId, t, cfg, writes, rs, current.Row());
      var ok := uow.Commit();
      assert ok;
    }
  }
}
