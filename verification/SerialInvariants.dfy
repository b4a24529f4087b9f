/** Every serial step keeps the store invariant, and only ever moves rows forward. */
module SerialInvariants {
  import opened Prelude
  import opened IncidentDomain
  import opened Correlation
  import opened SerialStore
  import T = Topology

  // ---------------------------------------------------------------- tables

  /** Replacing a row by a later version with the same evidence. */
  lemma ReplaceRowInv(db: Db, id: string, row: IncidentRow, cfg: Config)
    requires DbInv(db, cfg) && id in db.incidents
    requires Later(db.incidents[id], row) && row.evidence == db.incidents[id].evidence
    requires AgreesWithEvidence(row, cfg.severity) && HistoryLegal(row)
    requires row.status.IsActive() ==> db.incidents[id].status.IsActive()
    ensures DbInv(db.(incidents := db.incidents[id := row]), cfg)
    ensures DbLater(db, db.(incidents := db.incidents[id := row]))
  {
    hide AgreesWithEvidence, HistoryLegal, EvidenceConsistent;
    var db' := db.(incidents := db.incidents[id := row]);
    SameEvidenceConsistent(db, db', id);
    forall key, a, b | ActiveFor(db', key, a) && ActiveFor(db', key, b) ensures a == b {
      assert ActiveFor(db, key, a) && ActiveFor(db, key, b);
    }
  }

  lemma SameEvidenceConsistent(db: Db, db': Db, id: string)
    requires EvidenceConsistent(db) && id in db.incidents && id in db'.incidents
    requires db' == db.(incidents := db.incidents[id := db'.incidents[id]])
    requires db'.incidents[id].evidence == db.incidents[id].evidence
    ensures EvidenceConsistent(db')
  {
    assert forall j, i, e :: EvidenceAt(db', j, i, e) <==> EvidenceAt(db, j, i, e);
  }

  /** One more piece of evidence, of an event not yet recorded, on an existing row. */
  lemma AppendEvidence(db: Db, row: IncidentRow, o: Observation, reason: CorrelationReason)
    requires EvidenceConsistent(db) && row.id in db.incidents && o.eventId !in db.eventIds
    requires row.evidence == db.incidents[row.id].evidence + [Evidence(o, reason)]
    ensures EvidenceConsistent(InsertRow(db, row, o.eventId))
  {
    var db', last := InsertRow(db, row, o.eventId), |db.incidents[row.id].evidence|;
    forall j, i, e ensures EvidenceAt(db', j, i, e) <==>
      EvidenceAt(db, j, i, e) || (j == row.id && i == last && e == o.eventId) {
    }
    forall e | e in db'.eventIds ensures exists j, i :: EvidenceAt(db', j, i, e) {
      if e == o.eventId {
        assert EvidenceAt(db', row.id, last, e);
      } else {
        var j, i :| EvidenceAt(db, j, i, e);
        assert EvidenceAt(db', j, i, e);
      }
    }
  }

  lemma AppendRowInv(db: Db, id: string, o: Observation, reason: CorrelationReason, t: Ticks, cfg: Config)
    requires DbInv(db, cfg) && id in db.incidents && o.eventId !in db.eventIds
    ensures var db' := InsertRow(db, AppendTo(db.incidents[id], o, reason, t, cfg), o.eventId);
      DbInv(db', cfg) && DbLater(db, db')
  {
    hide AgreesWithEvidence, HistoryLegal, AppendTo, EvidenceConsistent;
    var prior := db.incidents[id];
    var row := AppendTo(prior, o, reason, t, cfg);
    AppendLegal(prior, o, reason, t, cfg);
    var db' := InsertRow(db, row, o.eventId);
    AppendEvidence(db, row, o, reason);
    forall key, a, b | ActiveFor(db', key, a) && ActiveFor(db', key, b) ensures a == b {
      assert ActiveFor(db, key, a) && ActiveFor(db, key, b);
    }
  }

  /** A new row brings exactly its own piece of evidence. */
  lemma InsertEvidence(db: Db, row: IncidentRow, eventId: string)
    requires EvidenceConsistent(db) && row.id !in db.incidents && eventId !in db.eventIds
    requires |row.evidence| == 1 && row.evidence[0].obs.eventId == eventId
    ensures EvidenceConsistent(InsertRow(db, row, eventId))
  {
    var db' := InsertRow(db, row, eventId);
    forall j, i, e ensures EvidenceAt(db', j, i, e) <==>
      EvidenceAt(db, j, i, e) || (j == row.id && i == 0 && e == eventId) {
    }
    forall e | e in db'.eventIds ensures exists j, i :: EvidenceAt(db', j, i, e) {
      if e == eventId {
        assert EvidenceAt(db', row.id, 0, e);
      } else {
        var j, i :| EvidenceAt(db, j, i, e);
        assert EvidenceAt(db', j, i, e);
      }
    }
  }

  lemma InsertIncidentInv(db: Db, s: Signal, newId: string, reason: CorrelationReason, t: Ticks, cfg: Config)
    requires DbInv(db, cfg) && newId !in db.incidents && s.obs.eventId !in db.eventIds
    requires forall id :: !ActiveFor(db, s.Key(), id)
    ensures var db' := InsertRow(db, NewIncident(s, newId, reason, t, cfg), s.obs.eventId);
      DbInv(db', cfg) && DbLater(db, db')
  {
    hide NewIncident;
    var row := NewIncident(s, newId, reason, t, cfg);
    NewIncidentLegal(s, newId, reason, t, cfg);
    NewIncidentIdentity(s, newId, reason, t, cfg);
    hide AgreesWithEvidence, HistoryLegal, EvidenceConsistent;
    var db' := InsertRow(db, row, s.obs.eventId);
    InsertEvidence(db, row, s.obs.eventId);
    forall key, a, b | ActiveFor(db', key, a) && ActiveFor(db', key, b) ensures a == b {
      assert a != newId ==> ActiveFor(db, key, a);
      assert b != newId ==> ActiveFor(db, key, b);
    }
  }

  lemma ResolveRowInv(db: Db, id: string, reason: CorrelationReason, t: Ticks, cfg: Config)
    requires DbInv(db, cfg) && id in db.incidents && db.incidents[id].status.IsActive()
    ensures DbInv(ResolveRow(db, id, reason, t), cfg) && DbLater(db, ResolveRow(db, id, reason, t))
    ensures forall j :: !ActiveFor(ResolveRow(db, id, reason, t), db.incidents[id].correlationKey, j)
  {
    var row := AutoResolve(db.incidents[id], reason, t);
    AutoResolveLegal(db.incidents[id], reason, t, cfg);
    ReplaceRowInv(db, id, row, cfg) by { hide AgreesWithEvidence; }
    NoOtherActive(db, id, row, ResolveRow(db, id, reason, t));
  }

  lemma NoOtherActive(db: Db, id: string, row: IncidentRow, db': Db)
    requires id in db.incidents && db.incidents[id].status.IsActive() && OneActivePerKey(db)
    requires row.status == Resolved && db' == db.(incidents := db.incidents[id := row])
    ensures forall j :: !ActiveFor(db', db.incidents[id].correlationKey, j)
  {
    var key := db.incidents[id].correlationKey;
    assert ActiveFor(db, key, id);
    assert forall j :: ActiveFor(db', key, j) ==> j != id && ActiveFor(db, key, j);
  }

  lemma LaterTransitive(a: Db, b: Db, c: Db)
    requires DbLater(a, b) && DbLater(b, c)
    ensures DbLater(a, c)
  {
    forall id | id in a.incidents ensures id in c.incidents && Later(a.incidents[id], c.incidents[id]) {
      assert Later(a.incidents[id], b.incidents[id]) && Later(b.incidents[id], c.incidents[id]);
    }
  }

  lemma NothingMoves(db: Db)
    ensures DbLater(db, db)
  {
  }

  /** The new id is free whenever the unit of work opens an incident. */
  ghost predicate IdFreeIfUsed(db: Db, s: Signal, newId: string, cfg: Config) {
    s.obs.eventId in db.eventIds || newId !in db.incidents ||
    match FindActive(db, s.Key())
    case None => false
    case Some(id) => id in db.incidents && Decide(s.obs, Some(db.incidents[id]), cfg.windowSeconds).action == Append
  }

  /** One unit of work keeps both tables consistent. */
  lemma ProcessDbInv(db: Db, s: Signal, newId: string, t: Ticks, cfg: Config)
    requires DbInv(db, cfg) && IdFreeIfUsed(db, s, newId, cfg)
    ensures DbInv(ProcessDb(db, s, newId, t, cfg), cfg)
    ensures DbLater(db, ProcessDb(db, s, newId, t, cfg))
    ensures s.obs.eventId in ProcessDb(db, s, newId, t, cfg).eventIds
  {
    hide DbInv, AppendTo, NewIncident, AutoResolve;
    if s.obs.eventId !in db.eventIds {
      match FindActive(db, s.Key())
      case None => InsertIncidentInv(db, s, newId, NoActiveIncident, t, cfg);
      case Some(id) =>
        var d := Decide(s.obs, Some(db.incidents[id]), cfg.windowSeconds);
        if d.action == Append {
          AppendRowInv(db, id, s.obs, d.reason, t, cfg);
        } else {
          ResolveRowInv(db, id, d.reason, t, cfg);
          var mid := ResolveRow(db, id, d.reason, t);
          InsertIncidentInv(mid, s, newId, d.reason, t, cfg);
          LaterTransitive(db, mid, InsertRow(mid, NewIncident(s, newId, d.reason, t, cfg), s.obs.eventId));
        }
    }
  }

  /** Rows other than the locked and the current one are untouched by a unit of work. */
  lemma ProcessDbFrame(db: Db, s: Signal, newId: string, t: Ticks, cfg: Config, id: string)
    requires DbInv(db, cfg) && newId !in db.incidents && s.obs.eventId !in db.eventIds
    requires id in db.incidents && id != CurrentIncident(db, s, newId, cfg)
    ensures id in ProcessDb(db, s, newId, t, cfg).incidents
    ensures ProcessDb(db, s, newId, t, cfg).incidents[id].status.IsActive() ==>
      ProcessDb(db, s, newId, t, cfg).incidents[id] == db.incidents[id]
  {
    hide AppendTo, NewIncident, RowsLegal;
    NewIncidentIdentity(s, newId, NoActiveIncident, t, cfg);
    match FindActive(db, s.Key())
    case None =>
    case Some(a) =>
      var d := Decide(s.obs, Some(db.incidents[a]), cfg.windowSeconds);
      NewIncidentIdentity(s, newId, d.reason, t, cfg);
      AppendKeeps(db.incidents[a], s.obs, d.reason, t, cfg);
  }

  lemma CurrentIsActive(db: Db, s: Signal, newId: string, t: Ticks, cfg: Config)
    requires DbInv(db, cfg) && newId !in db.incidents && s.obs.eventId !in db.eventIds
    ensures var cur, db' := CurrentIncident(db, s, newId, cfg), ProcessDb(db, s, newId, t, cfg);
      cur in db'.incidents && db'.incidents[cur].id == cur && db'.incidents[cur].status.IsActive()
  {
    hide AppendTo, NewIncident, RowsLegal;
    NewIncidentIdentity(s, newId, NoActiveIncident, t, cfg);
    match FindActive(db, s.Key())
    case None =>
    case Some(a) =>
      var d := Decide(s.obs, Some(db.incidents[a]), cfg.windowSeconds);
      NewIncidentIdentity(s, newId, d.reason, t, cfg);
      AppendKeeps(db.incidents[a], s.obs, d.reason, t, cfg);
  }

  // ---------------------------------------------------------------- relations

  /** A justified edge stays justified: intervals only widen. */
  lemma JustifiedLater(db: Db, db': Db, r: Relation, cfg: Config)
    requires EdgeJustified(db, r, cfg) && DbLater(db, db')
    ensures EdgeJustified(db', r, cfg)
  {
    assert Later(db.incidents[r.incidentId], db'.incidents[r.incidentId]);
    assert Later(db.incidents[r.relatedIncidentId], db'.incidents[r.relatedIncidentId]);
  }

  /** An edge made now is justified by the rows it was made from. */
  lemma NewEdgeJustified(db: Db, db': Db, row: IncidentRow, cfg: Config, now: Instant, r: Relation)
    requires RowIdsMatch(db) && DbLater(db, db') && NewEdge(db, row, cfg, now, r)
    requires row.id in db'.incidents && db'.incidents[row.id] == row
    ensures EdgeJustified(db', r, cfg)
  {
    var id :| Candidate(db, row, id, cfg.graph) && T.Overlap(row, db.incidents[id], cfg.crossWindowSeconds)
              && r == Edge(row, db.incidents[id], cfg.graph, now);
    assert Later(db.incidents[id], db'.incidents[id]);
  }

  lemma NewEdgesJustified(st: Store, s: Signal, newId: string, t: Ticks, cfg: Config, st': Store, r: Relation)
    requires Inv(st, cfg) && newId !in st.db.incidents && s.obs.eventId !in st.db.eventIds
    requires ProcessStep(st, s, newId, t, cfg, st') && r in st'.relations
    ensures EdgeJustified(st'.db, r, cfg)
  {
    hide DbInv, ProcessDb, CurrentIncident, DbLater, NewEdge, EdgeJustified;
    ProcessDbInv(st.db, s, newId, t, cfg);
    var cur := CurrentIncident(st.db, s, newId, cfg);
    CurrentIsActive(st.db, s, newId, t, cfg);
    RowIds(st.db, cfg);
    var i :| 0 <= i < |st'.relations| && st'.relations[i] == r;
    if i < |st.relations| {
      assert st.relations[i] in st.relations;
      JustifiedLater(st.db, st'.db, r, cfg);
    } else {
      NewEdgeJustified(st.db, st'.db, st'.db.incidents[cur], cfg, t.link, r);
    }
  }

  lemma RowIds(db: Db, cfg: Config)
    requires DbInv(db, cfg)
    ensures RowIdsMatch(db)
  {
  }

  lemma ProcessStepInv(st: Store, s: Signal, newId: string, t: Ticks, cfg: Config, st': Store)
    requires Inv(st, cfg) && newId !in st.db.incidents && ProcessStep(st, s, newId, t, cfg, st')
    ensures Inv(st', cfg) && DbLater(st.db, st'.db)
  {
    hide DbInv, EdgeJustified, ProcessDb;
    if s.obs.eventId !in st.db.eventIds {
      ProcessDbInv(st.db, s, newId, t, cfg);
      forall r | r in st'.relations ensures EdgeJustified(st'.db, r, cfg) {
        NewEdgesJustified(st, s, newId, t, cfg, st', r);
      }
    }
  }

  lemma LifecycleStepInv(st: Store, id: string, target: Status, actor: string, reason: string, now: Instant,
                         cfg: Config)
    requires Inv(st, cfg)
    ensures Inv(LifecycleStep(st, id, target, actor, reason, now), cfg)
    ensures DbLater(st.db, LifecycleStep(st, id, target, actor, reason, now).db)
  {
    hide AgreesWithEvidence, HistoryLegal, EdgeJustified;
    if id in st.db.incidents && CanTransition(st.db.incidents[id].status, target, actor) {
      TransitionAdvances(st.db.incidents[id].status, target, actor);
      var row' := ApplyTransition(st.db.incidents[id], target, actor, reason, now);
      ApplyTransitionLegal(st.db.incidents[id], target, actor, reason, now, cfg);
      ReplaceRowInv(st.db, id, row', cfg);
      var st' := LifecycleStep(st, id, target, actor, reason, now);
      forall r | r in st'.relations ensures EdgeJustified(st'.db, r, cfg) {
        JustifiedLater(st.db, st'.db, r, cfg);
      }
    }
  }

  lemma NextInv(st: Store, e: Event, cfg: Config, st': Store)
    requires Inv(st, cfg) && Next(st, e, cfg, st')
    ensures Inv(st', cfg) && DbLater(st.db, st'.db)
  {
    hide Inv, ProcessStep, LifecycleStep;
    match e
    case Anomaly(s, newId, t) => ProcessStepInv(st, s, newId, t, cfg, st');
    case Lifecycle(id, target, actor, reason, now) => LifecycleStepInv(st, id, target, actor, reason, now, cfg);
  }

  lemma EmptyInv(cfg: Config)
    ensures Inv(EmptyStore, cfg)
  {
  }

  /** The invariant holds throughout every serial run. */
  lemma {:induction false} RunInv(states: seq<Store>, events: seq<Event>, cfg: Config, n: nat)
    requires IsRun(states, events, cfg) && n < |states|
    ensures Inv(states[n], cfg)
    decreases n
  {
    hide Next, Inv;
    if n == 0 {
      EmptyInv(cfg);
    } else {
      RunInv(states, events, cfg, n - 1);
      assert Next(states[n - 1], events[n - 1], cfg, states[n - 1 + 1]);
      NextInv(states[n - 1], events[n - 1], cfg, states[n]);
    }
  }

  /**
   Between any two moments of a serial run no incident disappears, moves to another service,
   narrows its interval, steps back in its lifecycle or drops in severity.
   */
  lemma {:induction false} RunMovesForward(states: seq<Store>, events: seq<Event>, cfg: Config, m: nat, n: nat)
    requires IsRun(states, events, cfg) && m <= n < |states|
    ensures DbLater(states[m].db, states[n].db)
    decreases n
  {
    hide Next, Inv, Later, DbLater;
    if m == n {
      NothingMoves(states[n].db);
    } else {
      RunMovesForward(states, events, cfg, m, n - 1);
      RunInv(states, events, cfg, n - 1);
      NextInv(states[n - 1], events[n - 1], cfg, states[n]);
      LaterTransitive(states[m].db, states[n - 1].db, states[n].db);
    }
  }
}
