/**
 The incident store and its serial steps: an anomaly processed as one unit of work, or a
 validated lifecycle change through the API. `Inv` is what every serial run keeps.
 */
module SerialStore {
  import opened Prelude
  import opened IncidentDomain
  import opened Correlation
  import T = Topology

  datatype Store = Store(db: Db, relations: seq<Relation>)

  const EmptyStore := Store(EmptyDb, [])

  datatype Event =
    | Anomaly(s: Signal, newId: string, t: Ticks)
    | Lifecycle(id: string, target: Status, actor: string, reason: string, now: Instant)

  // ---------------------------------------------------------------- linking

  /** An active incident of an adjacent service in the same environment. */
  ghost predicate Candidate(db: Db, cur: IncidentRow, id: string, graph: T.Graph) {
    && id in db.incidents && id != cur.id
    && db.incidents[id].status.IsActive()
    && db.incidents[id].environment == cur.environment
    && db.incidents[id].service in T.RelatedServices(cur.service, graph)
  }

  function Edge(cur: IncidentRow, other: IncidentRow, graph: T.Graph, now: Instant): (r: Relation) {
    if T.Depends(cur.service, other.service, graph) then Relation(cur.id, other.id, cur.service, other.service, now)
    else Relation(other.id, cur.id, other.service, cur.service, now)
  }

  function RelationPairs(rs: seq<Relation>): (r: set<(string, string)>) {
    set r | r in rs :: r.Pair()
  }

  ghost predicate NoDuplicates(rs: seq<Relation>) {
    forall i, j | 0 <= i < j < |rs| :: rs[i].Pair() != rs[j].Pair()
  }

  /** `r` links `cur` to a candidate that overlaps it. */
  ghost predicate NewEdge(db: Db, cur: IncidentRow, cfg: Config, now: Instant, r: Relation) {
    exists id :: Candidate(db, cur, id, cfg.graph) && T.Overlap(cur, db.incidents[id], cfg.crossWindowSeconds)
                 && r == Edge(cur, db.incidents[id], cfg.graph, now)
  }

  /** `after` extends `before` by the new edges whose pair is not stored yet. */
  ghost predicate LinksTo(before: seq<Relation>, after: seq<Relation>, db: Db, cur: IncidentRow, cfg: Config,
                          now: Instant) {
    && before <= after
    && (forall i | |before| <= i < |after| :: NewEdge(db, cur, cfg, now, after[i]))
    && (forall r | NewEdge(db, cur, cfg, now, r) :: r.Pair() in RelationPairs(after))
    && (NoDuplicates(before) ==> NoDuplicates(after))
  }

  // ---------------------------------------------------------------- steps

  ghost predicate ProcessStep(st: Store, s: Signal, newId: string, t: Ticks, cfg: Config, st': Store) {
    if s.obs.eventId in st.db.eventIds then st' == st
    else
      && st'.db == ProcessDb(st.db, s, newId, t, cfg)
      && var cur := CurrentIncident(st.db, s, newId, cfg);
      && cur in st'.db.incidents
      && LinksTo(st.relations, st'.relations, st.db, st'.db.incidents[cur], cfg, t.link)
  }

  function LifecycleStep(st: Store, id: string, target: Status, actor: string, reason: string,
                         now: Instant): (r: Store) {
    if id in st.db.incidents && CanTransition(st.db.incidents[id].status, target, actor) then
      st.(db := st.db.(incidents := st.db.incidents[id := ApplyTransition(st.db.incidents[id], target, actor, reason,
        now)]))
    else st
  }

  /** New incident ids are fresh; everything else about an event is arbitrary. */
  ghost predicate Next(st: Store, e: Event, cfg: Config, st': Store) {
    match e
    case Anomaly(s, newId, t) => newId !in st.db.incidents && ProcessStep(st, s, newId, t, cfg, st')
    case Lifecycle(id, target, actor, reason, now) => st' == LifecycleStep(st, id, target, actor, reason, now)
  }

  ghost predicate IsRun(states: seq<Store>, events: seq<Event>, cfg: Config) {
    && |states| == |events| + 1 && states[0] == EmptyStore
    && forall i | 0 <= i < |events| :: Next(states[i], events[i], cfg, states[i + 1])
  }

  // ---------------------------------------------------------------- invariant

  ghost predicate RowsConsistent(db: Db) {
    forall id | id in db.incidents ::
      && db.incidents[id].id == id
      && db.incidents[id].correlationKey == CorrelationKey(db.incidents[id].service, db.incidents[id].environment)
  }

  ghost predicate RowIdsMatch(db: Db) {
    forall id | id in db.incidents :: db.incidents[id].id == id
  }

  ghost predicate EvidenceAt(db: Db, id: string, i: int, eventId: string) {
    id in db.incidents && 0 <= i < |db.incidents[id].evidence| && db.incidents[id].evidence[i].obs.eventId == eventId
  }

  /** The unique index and the evidence rows agree, and no event is recorded twice. */
  ghost predicate EvidenceConsistent(db: Db) {
    && (forall id, i, e | EvidenceAt(db, id, i, e) :: e in db.eventIds)
    && (forall e | e in db.eventIds :: exists id, i :: EvidenceAt(db, id, i, e))
    && (forall id1, i1, id2, i2, e | EvidenceAt(db, id1, i1, e) && EvidenceAt(db, id2, i2, e) :: id1 == id2 && i1 == i2)
  }

  /** The history starts at (none -> OPEN), has no gaps, follows allowed transitions and ends at the status. */
  ghost predicate HistoryLegal(row: IncidentRow) {
    var h := row.history;
    && h != [] && h[0].fromStatus == None && h[0].toStatus == Open
    && (forall i | 0 < i < |h| :: h[i].fromStatus == Some(h[i - 1].toStatus)
                                  && CanTransition(h[i - 1].toStatus, h[i].toStatus, h[i].actor))
    && h[|h| - 1].toStatus == row.status
    && |h| <= row.status.Stage() + 1
    && (row.resolvedAt.Some? <==> row.status == Resolved)
  }

  ghost predicate RowsLegal(db: Db, cfg: Config) {
    forall id | id in db.incidents ::
      AgreesWithEvidence(db.incidents[id], cfg.severity) && HistoryLegal(db.incidents[id])
  }

  /** Every stored edge follows a declared dependency between two stored, concurrent incidents. */
  ghost predicate EdgeJustified(db: Db, r: Relation, cfg: Config) {
    && r.incidentId in db.incidents && r.relatedIncidentId in db.incidents
    && T.Linked(db.incidents[r.incidentId], db.incidents[r.relatedIncidentId], cfg.crossWindowSeconds, cfg.graph)
    && r.dependentService == db.incidents[r.incidentId].service
    && r.dependencyService == db.incidents[r.relatedIncidentId].service
  }

  ghost predicate EdgesJustified(st: Store, cfg: Config) {
    forall r | r in st.relations :: EdgeJustified(st.db, r, cfg)
  }

  ghost predicate ActivePairLinked(db: Db, a: string, b: string, cfg: Config) {
    && a in db.incidents && b in db.incidents
    && db.incidents[a].status.IsActive() && db.incidents[b].status.IsActive()
    && T.Linked(db.incidents[a], db.incidents[b], cfg.crossWindowSeconds, cfg.graph)
  }

  /** No pair of active incidents that should be linked is missing. */
  ghost predicate EdgesComplete(st: Store, cfg: Config) {
    forall a, b | ActivePairLinked(st.db, a, b, cfg) :: (a, b) in RelationPairs(st.relations)
  }

  ghost predicate DbInv(db: Db, cfg: Config) {
    RowsConsistent(db) && OneActivePerKey(db) && EvidenceConsistent(db) && RowsLegal(db, cfg)
  }

  ghost predicate Inv(st: Store, cfg: Config) {
    DbInv(st.db, cfg) && EdgesJustified(st, cfg) && NoDuplicates(st.relations)
  }

  // ---------------------------------------------------------------- how one row may change

  /** `r'` is a later version of `r`: identity kept, interval wider, severity and status no lower. */
  ghost predicate Later(r: IncidentRow, r': IncidentRow) {
    && r'.id == r.id && r'.service == r.service && r'.environment == r.environment
    && r'.correlationKey == r.correlationKey
    && r'.startedAt <= r.startedAt && r.lastEvidenceAt <= r'.lastEvidenceAt
    && r.severity.Rank() <= r'.severity.Rank()
    && r.status.Stage() <= r'.status.Stage()
    && r.anomalyCount <= r'.anomalyCount
  }

  ghost predicate DbLater(db: Db, db': Db) {
    && db.eventIds <= db'.eventIds
    && forall id | id in db.incidents :: id in db'.incidents && Later(db.incidents[id], db'.incidents[id])
  }

  lemma HistoryExtends(row: IncidentRow, row': IncidentRow, tr: Transition)
    requires HistoryLegal(row)
    requires CanTransition(row.status, tr.toStatus, tr.actor) && tr.fromStatus == Some(row.status)
    requires row'.history == row.history + [tr] && row'.status == tr.toStatus
    requires row'.resolvedAt.Some? <==> row'.status == Resolved
    ensures HistoryLegal(row')
  {
    TransitionAdvances(row.status, tr.toStatus, tr.actor);
  }

  lemma AutoResolveLegal(row: IncidentRow, reason: CorrelationReason, t: Ticks, cfg: Config)
    requires AgreesWithEvidence(row, cfg.severity) && HistoryLegal(row) && row.status.IsActive()
    ensures var row' := AutoResolve(row, reason, t);
      AgreesWithEvidence(row', cfg.severity) && HistoryLegal(row') && Later(row, row')
  {
    hide AgreesWithEvidence;
    var row' := AutoResolve(row, reason, t);
    LifecycleKeepsAgreement(row, row', cfg.severity);
    HistoryExtends(row, row', row'.history[|row.history|]);
  }

  lemma ApplyTransitionLegal(row: IncidentRow, target: Status, actor: string, reason: string, now: Instant, cfg: Config)
    requires AgreesWithEvidence(row, cfg.severity) && HistoryLegal(row) && CanTransition(row.status, target, actor)
    ensures var row' := ApplyTransition(row, target, actor, reason, now);
      AgreesWithEvidence(row', cfg.severity) && HistoryLegal(row') && Later(row, row')
  {
    hide AgreesWithEvidence;
    var row' := ApplyTransition(row, target, actor, reason, now);
    LifecycleKeepsAgreement(row, row', cfg.severity);
    TransitionAdvances(row.status, target, actor);
    HistoryExtends(row, row', row'.history[|row.history|]);
  }

  lemma AppendLegal(row: IncidentRow, o: Observation, reason: CorrelationReason, t: Ticks, cfg: Config)
    requires AgreesWithEvidence(row, cfg.severity) && HistoryLegal(row)
    ensures var row' := AppendTo(row, o, reason, t, cfg);
      AgreesWithEvidence(row', cfg.severity) && HistoryLegal(row') && Later(row, row')
      && row'.status == row.status && row'.evidence == row.evidence + [Evidence(o, reason)]
  {
    hide Absorb, AgreesWithEvidence;
    AppendAgrees(row, o, reason, t, cfg);
    AgreementRates(row, cfg.severity);
    AbsorbKeeps(row, o, t.absorb, cfg.severity);
    AbsorbWidens(row, o, t.absorb, cfg.severity);
  }

  lemma NewIncidentLegal(s: Signal, id: string, reason: CorrelationReason, t: Ticks, cfg: Config)
    ensures var row := NewIncident(s, id, reason, t, cfg);
      && AgreesWithEvidence(row, cfg.severity) && HistoryLegal(row)
      && row.id == id && row.correlationKey == s.Key() && row.service == s.service && row.environment == s.environment
      && row.status == Open && row.evidence == [Evidence(s.obs, reason)]
  {
    NewIncidentAgrees(s, id, reason, t, cfg);
  }
}
