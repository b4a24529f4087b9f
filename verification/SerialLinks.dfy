/**
 Incremental linking against the batch correlation. While a unit of work only compares the
 incident it touched with its active neighbours, the stored edges between active incidents are
 always those a batch correlation of all active incidents would report -- exactly when the
 dependency graph has no mutual (or self) dependency.
 */
module SerialLinks {
  import opened Prelude
  import opened IncidentDomain
  import opened Correlation
  import opened SerialStore
  import opened SerialInvariants
  import Aggregates
  import T = Topology

  function ActiveIncidents(db: Db): (r: set<IncidentRow>) {
    set id | id in db.incidents && db.incidents[id].status.IsActive() :: db.incidents[id]
  }

  ghost predicate BothActive(db: Db, p: (string, string)) {
    && p.0 in db.incidents && db.incidents[p.0].status.IsActive()
    && p.1 in db.incidents && db.incidents[p.1].status.IsActive()
  }

  /** The stored edges between active incidents are the pairs computed from scratch. */
  ghost predicate RefinesBatch(st: Store, cfg: Config) {
    forall p: (string, string) ::
      p in RelationPairs(st.relations) && BothActive(st.db, p) <==>
      T.IsBatchPair(p, ActiveIncidents(st.db), cfg.crossWindowSeconds, cfg.graph)
  }

  lemma ProcessDbDomain(db: Db, s: Signal, newId: string, t: Ticks, cfg: Config, id: string)
    requires DbInv(db, cfg) && newId !in db.incidents && s.obs.eventId !in db.eventIds
    requires id in ProcessDb(db, s, newId, t, cfg).incidents
    ensures id in db.incidents || id == CurrentIncident(db, s, newId, cfg)
  {
    hide AppendTo, NewIncident, RowsLegal;
    NewIncidentIdentity(s, newId, NoActiveIncident, t, cfg);
    match FindActive(db, s.Key())
    case None =>
    case Some(a) =>
      var d := Decide(s.obs, Some(db.incidents[a]), cfg.windowSeconds);
      NewIncidentIdentity(s, newId, d.reason, t, cfg);
      AppendKeeps(db.incidents[a], s.obs, d.reason, t, cfg);
  }

  /** After a unit of work no edge between two active incidents is missing. */
  lemma ProcessStepComplete(st: Store, s: Signal, newId: string, t: Ticks, cfg: Config, st': Store)
    requires Inv(st, cfg) && EdgesComplete(st, cfg) && T.Asymmetric(cfg.graph)
    requires newId !in st.db.incidents && ProcessStep(st, s, newId, t, cfg, st')
    ensures EdgesComplete(st', cfg)
  {
    if s.obs.eventId !in st.db.eventIds {
      hide DbInv, ProcessDb, CurrentIncident, LinksTo, EdgesJustified;
      var cur := CurrentIncident(st.db, s, newId, cfg);
      forall a, b | ActivePairLinked(st'.db, a, b, cfg) ensures (a, b) in RelationPairs(st'.relations) {
        CurrentIsActive(st.db, s, newId, t, cfg);
        if a != cur { OtherRow(st, s, newId, t, cfg, st', a); }
        if b != cur { OtherRow(st, s, newId, t, cfg, st', b); }
        if a != cur && b != cur {
          OldPairKept(st, s, newId, t, cfg, st', a, b);
        } else {
          assert a != b;
          var other := if a == cur then b else a;
          NeighbourLinked(st, s, newId, t, cfg, st', other);
        }
      }
    }
  }

  /** An active row other than the current one is as it was before the unit of work. */
  lemma OtherRow(st: Store, s: Signal, newId: string, t: Ticks, cfg: Config, st': Store, id: string)
    requires Inv(st, cfg) && newId !in st.db.incidents && s.obs.eventId !in st.db.eventIds
    requires ProcessStep(st, s, newId, t, cfg, st')
    requires id in st'.db.incidents && id != CurrentIncident(st.db, s, newId, cfg) &&
      st'.db.incidents[id].status.IsActive()
    ensures id in st.db.incidents && st.db.incidents[id] == st'.db.incidents[id] && st.db.incidents[id].id == id
  {
    hide DbInv, ProcessDb, CurrentIncident, LinksTo;
    ProcessDbDomain(st.db, s, newId, t, cfg, id);
    ProcessDbFrame(st.db, s, newId, t, cfg, id);
    RowIds(st.db, cfg);
  }

  lemma OldPairKept(st: Store, s: Signal, newId: string, t: Ticks, cfg: Config, st': Store, a: string, b: string)
    requires EdgesComplete(st, cfg) && s.obs.eventId !in st.db.eventIds && ProcessStep(st, s, newId, t, cfg, st')
    requires ActivePairLinked(st.db, a, b, cfg)
    ensures (a, b) in RelationPairs(st'.relations)
  {
    hide ProcessDb, CurrentIncident;
    var r :| r in st.relations && r.Pair() == (a, b);
    var i :| 0 <= i < |st.relations| && st.relations[i] == r;
    assert st'.relations[i] == r;
  }

  lemma NeighbourLinked(st: Store, s: Signal, newId: string, t: Ticks, cfg: Config, st': Store, other: string)
    requires Inv(st, cfg) && newId !in st.db.incidents && s.obs.eventId !in st.db.eventIds
    requires T.Asymmetric(cfg.graph) && ProcessStep(st, s, newId, t, cfg, st')
    requires other in st.db.incidents && other in st'.db.incidents && st.db.incidents[other] == st'.db.incidents[other]
    requires st.db.incidents[other].id == other && other != CurrentIncident(st.db, s, newId, cfg)
    ensures var cur := CurrentIncident(st.db, s, newId, cfg);
      && (ActivePairLinked(st'.db, cur, other, cfg) ==> (cur, other) in RelationPairs(st'.relations))
      && (ActivePairLinked(st'.db, other, cur, cfg) ==> (other, cur) in RelationPairs(st'.relations))
  {
    hide DbInv, ProcessDb, CurrentIncident;
    var cur := CurrentIncident(st.db, s, newId, cfg);
    CurrentIsActive(st.db, s, newId, t, cfg);
    var row := st'.db.incidents[cur];
    if ActivePairLinked(st'.db, cur, other, cfg) || ActivePairLinked(st'.db, other, cur, cfg) {
      assert Candidate(st.db, row, other, cfg.graph);
      assert NewEdge(st.db, row, cfg, t.link, Edge(row, st.db.incidents[other], cfg.graph, t.link));
    }
  }

  lemma LifecycleStepComplete(st: Store, id: string, target: Status, actor: string, reason: string, now: Instant,
                              cfg: Config)
    requires EdgesComplete(st, cfg)
    ensures EdgesComplete(LifecycleStep(st, id, target, actor, reason, now), cfg)
  {
    var st' := LifecycleStep(st, id, target, actor, reason, now);
    if id in st.db.incidents && CanTransition(st.db.incidents[id].status, target, actor) {
      TransitionAdvances(st.db.incidents[id].status, target, actor);
      assert forall a, b :: ActivePairLinked(st'.db, a, b, cfg) ==> ActivePairLinked(st.db, a, b, cfg);
    }
  }

  lemma {:induction false} RunComplete(states: seq<Store>, events: seq<Event>, cfg: Config, n: nat)
    requires IsRun(states, events, cfg) && n < |states| && T.Asymmetric(cfg.graph)
    ensures EdgesComplete(states[n], cfg)
    decreases n
  {
    hide Inv, ProcessStep, LifecycleStep, EdgesComplete;
    if n == 0 {
      EmptyComplete(cfg);
    } else {
      RunComplete(states, events, cfg, n - 1);
      RunInv(states, events, cfg, n - 1);
      match events[n - 1]
      case Anomaly(s, newId, t) => ProcessStepComplete(states[n - 1], s, newId, t, cfg, states[n]);
      case Lifecycle(id, target, actor, reason, now) =>
        LifecycleStepComplete(states[n - 1], id, target, actor, reason, now, cfg);
    }
  }

  lemma EmptyComplete(cfg: Config)
    ensures EdgesComplete(EmptyStore, cfg)
  {
  }

  lemma CompleteRefines(st: Store, cfg: Config)
    requires Inv(st, cfg) && EdgesComplete(st, cfg)
    ensures RefinesBatch(st, cfg)
  {
    hide T.Linked;
    RowIds(st.db, cfg);
    forall p: (string, string)
      ensures p in RelationPairs(st.relations) && BothActive(st.db, p) <==>
        T.IsBatchPair(p, ActiveIncidents(st.db), cfg.crossWindowSeconds, cfg.graph)
    {
      if p in RelationPairs(st.relations) && BothActive(st.db, p) {
        var r :| r in st.relations && r.Pair() == p;
        assert EdgeJustified(st.db, r, cfg);
        assert st.db.incidents[p.0] in ActiveIncidents(st.db) && st.db.incidents[p.1] in ActiveIncidents(st.db);
      }
      if T.IsBatchPair(p, ActiveIncidents(st.db), cfg.crossWindowSeconds, cfg.graph) {
        var a, b :| a in ActiveIncidents(st.db) && b in ActiveIncidents(st.db) &&
          T.Linked(a, b, cfg.crossWindowSeconds, cfg.graph) && p == (a.id, b.id);
        assert ActivePairLinked(st.db, a.id, b.id, cfg);
      }
    }
  }

  // ---------------------------------------------------------------- the condition is necessary

  function Wide(window: real): (r: real) { if window < 0.0 then -window else window }

  /** An anomaly whose window is wide enough to overlap any incident with the same window. */
  function WideSignal(service: string, eventId: string, window: real): (r: Signal) {
    Signal(Observation(eventId, "d", 0.0, Wide(window), 0.0, map[], [], 0.0), service, "e")
  }

  const T0 := Ticks(0.0, 0.0, 0.0, 0.0)

  function FirstRow(service: string, id: string, eventId: string, cfg: Config): (r: IncidentRow) {
    NewIncident(WideSignal(service, eventId, cfg.crossWindowSeconds), id, NoActiveIncident, T0, cfg)
  }

  lemma FirstRowShape(service: string, id: string, eventId: string, cfg: Config)
    ensures var row := FirstRow(service, id, eventId, cfg);
      && row.id == id && row.service == service && row.environment == "e" && row.status == Open
      && row.correlationKey == CorrelationKey(service, "e")
      && row.startedAt == 0.0 && row.lastEvidenceAt == Wide(cfg.crossWindowSeconds)
  {
  }

  /** The run that opens one incident for `a`. */
  lemma OpenFirst(a: string, cfg: Config) returns (st: Store, e: Event)
    ensures Next(EmptyStore, e, cfg, st)
    ensures st == Store(Db(map["1" := FirstRow(a, "1", "x", cfg)], {"x"}), [])
  {
    hide NewIncident;
    var s := WideSignal(a, "x", cfg.crossWindowSeconds);
    e := Anomaly(s, "1", T0);
    FirstRowShape(a, "1", "x", cfg);
    st := Store(Db(map["1" := FirstRow(a, "1", "x", cfg)], {"x"}), []);
    assert FindActive(EmptyDb, s.Key()) == None;
    assert ProcessDb(EmptyDb, s, "1", T0, cfg) == st.db;
  }

  /** The tables once incidents for `a` and for `b` have been opened. */
  function SecondDb(a: string, b: string, cfg: Config): (r: Db) {
    Db(map["1" := FirstRow(a, "1", "x", cfg), "2" := FirstRow(b, "2", "y", cfg)], {"x", "y"})
  }

  lemma SecondProcessed(a: string, b: string, cfg: Config)
    requires a != b
    ensures var s := WideSignal(b, "y", cfg.crossWindowSeconds);
      var db := Db(map["1" := FirstRow(a, "1", "x", cfg)], {"x"});
      ProcessDb(db, s, "2", T0, cfg) == SecondDb(a, b, cfg) && CurrentIncident(db, s, "2", cfg) == "2"
  {
    hide NewIncident;
    FirstRowShape(a, "1", "x", cfg);
    FirstRowShape(b, "2", "y", cfg);
    if CorrelationKey(a, "e") == CorrelationKey(b, "e") { SameKeySameEnvironment(a, b, "e"); }
    assert FindActive(Db(map["1" := FirstRow(a, "1", "x", cfg)], {"x"}), CorrelationKey(b, "e")) == None;
  }

  lemma OnlyEdge(a: string, b: string, cfg: Config, db: Db, r: Relation)
    requires a != b && T.Depends(b, a, cfg.graph) && db == Db(map["1" := FirstRow(a, "1", "x", cfg)], {"x"})
    requires r == Relation("2", "1", b, a, 0.0)
    ensures forall e :: NewEdge(db, FirstRow(b, "2", "y", cfg), cfg, 0.0, e) <==> e == r
  {
    hide NewIncident, FirstRow;
    FirstRowShape(a, "1", "x", cfg);
    FirstRowShape(b, "2", "y", cfg);
    var old1, row := FirstRow(a, "1", "x", cfg), FirstRow(b, "2", "y", cfg);
    assert r == Edge(row, old1, cfg.graph, 0.0);
    assert Candidate(db, row, "1", cfg.graph) && T.Overlap(row, old1, cfg.crossWindowSeconds);
    assert forall id | Candidate(db, row, id, cfg.graph) :: id == "1";
  }

  /** Only the dependency of `b` on `a` is stored, although each depends on the other. */
  lemma SecondLinks(a: string, b: string, cfg: Config, db: Db)
    requires a != b && T.Depends(b, a, cfg.graph) && db == Db(map["1" := FirstRow(a, "1", "x", cfg)], {"x"})
    ensures LinksTo([], [Relation("2", "1", b, a, 0.0)], db, FirstRow(b, "2", "y", cfg), cfg, 0.0)
  {
    hide NewIncident, FirstRow, NewEdge;
    var r := Relation("2", "1", b, a, 0.0);
    OnlyEdge(a, b, cfg, db, r);
    assert [r][0] == r;
    assert r.Pair() in RelationPairs([r]);
    assert NoDuplicates([r]);
  }

  /** Then one for `b`, which depends on `a` and vice versa: only one of the two edges is stored. */
  lemma OpenSecond(a: string, b: string, cfg: Config, st: Store) returns (st': Store, e: Event)
    requires a != b && T.Depends(b, a, cfg.graph)
    requires st == Store(Db(map["1" := FirstRow(a, "1", "x", cfg)], {"x"}), [])
    ensures Next(st, e, cfg, st')
    ensures st'.db.incidents == map["1" := FirstRow(a, "1", "x", cfg), "2" := FirstRow(b, "2", "y", cfg)]
    ensures RelationPairs(st'.relations) == {("2", "1")}
  {
    hide FirstRow, LinksTo, ProcessDb, CurrentIncident;
    e := Anomaly(WideSignal(b, "y", cfg.crossWindowSeconds), "2", T0);
    SecondProcessed(a, b, cfg);
    SecondLinks(a, b, cfg, st.db);
    var r := Relation("2", "1", b, a, 0.0);
    st' := Store(SecondDb(a, b, cfg), [r]);
    OnePair(r);
  }

  lemma OnePair(r: Relation)
    ensures RelationPairs([r]) == {r.Pair()}
  {
    assert [r][0] == r;
    forall e | e in [r] ensures e == r { }
  }

  ghost predicate RefinesBatchAlways(cfg: Config) {
    forall states, events, n: nat | IsRun(states, events, cfg) && n < |states| :: RefinesBatch(states[n], cfg)
  }

  lemma MutualDependencyFails(a: string, b: string, cfg: Config)
    requires T.Depends(a, b, cfg.graph) && T.Depends(b, a, cfg.graph)
    ensures !RefinesBatchAlways(cfg)
  {
    hide NewIncident, ProcessStep;
    var w := cfg.crossWindowSeconds;
    var st1, e1 := OpenFirst(a, cfg);
    FirstRowShape(a, "1", "x", cfg);
    var r1 := FirstRow(a, "1", "x", cfg);
    if a == b {
      assert IsRun([EmptyStore, st1], [e1], cfg);
      assert r1 in ActiveIncidents(st1.db) by { assert "1" in st1.db.incidents; }
      assert T.Linked(r1, r1, w, cfg.graph);
      assert T.IsBatchPair(("1", "1"), ActiveIncidents(st1.db), w, cfg.graph);
      assert !RefinesBatch([EmptyStore, st1][1], cfg);
    } else {
      var st2, e2 := OpenSecond(a, b, cfg, st1);
      FirstRowShape(b, "2", "y", cfg);
      var r2 := FirstRow(b, "2", "y", cfg);
      TwoStepRun(st1, e1, st2, e2, cfg);
      assert r1 in ActiveIncidents(st2.db) by { assert "1" in st2.db.incidents; }
      assert r2 in ActiveIncidents(st2.db) by { assert "2" in st2.db.incidents; }
      assert T.Linked(r1, r2, w, cfg.graph);
      assert T.IsBatchPair(("1", "2"), ActiveIncidents(st2.db), w, cfg.graph);
      assert !RefinesBatch([EmptyStore, st1, st2][2], cfg);
    }
  }

  lemma TwoStepRun(st1: Store, e1: Event, st2: Store, e2: Event, cfg: Config)
    requires Next(EmptyStore, e1, cfg, st1) && Next(st1, e2, cfg, st2)
    ensures IsRun([EmptyStore, st1, st2], [e1, e2], cfg)
  {
    hide Next;
    var states, events := [EmptyStore, st1, st2], [e1, e2];
    assert states[0] == EmptyStore && states[1] == st1 && states[2] == st2;
    forall i | 0 <= i < |events| ensures Next(states[i], events[i], cfg, states[i + 1]) {
      if i == 0 { assert Next(states[0], events[0], cfg, states[1]); }
      else { assert Next(states[1], events[1], cfg, states[2]); }
    }
  }

  /**
   In every state of every serial run the stored edges between active incidents are those of the
   batch correlation, if and only if no two services depend on each other and none on itself.
   */
  lemma IncrementalLinksRefineBatch(cfg: Config)
    ensures RefinesBatchAlways(cfg) <==> T.Asymmetric(cfg.graph)
  {
    if T.Asymmetric(cfg.graph) {
      forall states, events, n: nat | IsRun(states, events, cfg) && n < |states| ensures RefinesBatch(states[n], cfg) {
        RunInv(states, events, cfg, n);
        RunComplete(states, events, cfg, n);
        CompleteRefines(states[n], cfg);
      }
    } else {
      var a, b :| T.Depends(a, b, cfg.graph) && T.Depends(b, a, cfg.graph);
      MutualDependencyFails(a, b, cfg);
    }
  }

  /** Every window the incident absorbed ends no earlier than it starts. */
  predicate WindowsProper(row: IncidentRow) {
    forall i | 0 <= i < |row.evidence| :: row.evidence[i].obs.windowStart <= row.evidence[i].obs.windowEnd
  }

  lemma ProperIsInterval(row: IncidentRow, cfg: Config)
    requires AgreesWithEvidence(row, cfg.severity) && WindowsProper(row)
    ensures T.IsInterval(row)
  {
    hide IsRated, NamesSorted, Aggregates.Fold;
    Aggregates.FoldSpan(Observations(row));
    assert Observations(row)[0] == row.evidence[0].obs;
    assert AggregatesOf(row).started == row.startedAt && AggregatesOf(row).last == row.lastEvidenceAt;
  }

  /**
   In every serially reachable store over an asymmetric graph, two active incidents share a stored edge
   exactly when the graph declares the dependency, their environment is one, and some instant of the one is
   within the window of some instant of the other.
   */
  lemma StoredEdgesConnect(states: seq<Store>, events: seq<Event>, cfg: Config, n: nat, p: (string, string))
    requires IsRun(states, events, cfg) && n < |states| && T.Asymmetric(cfg.graph) && cfg.crossWindowSeconds >= 0.0
    requires forall id | id in states[n].db.incidents :: WindowsProper(states[n].db.incidents[id])
    ensures p in RelationPairs(states[n].relations) && BothActive(states[n].db, p) <==>
      T.IsConnectedPair(p, ActiveIncidents(states[n].db), cfg.crossWindowSeconds, cfg.graph)
  {
    hide IsRun, AgreesWithEvidence, WindowsProper, T.IsConnectedPair, T.IsBatchPair, T.IsInterval, EdgesComplete,
      BothActive;
    RunInv(states, events, cfg, n);
    RunComplete(states, events, cfg, n);
    CompleteRefines(states[n], cfg);
    forall row | row in ActiveIncidents(states[n].db) ensures T.IsInterval(row) { ProperIsInterval(row, cfg); }
    T.BatchPairMeaning(p, ActiveIncidents(states[n].db), cfg.crossWindowSeconds, cfg.graph);
  }

  // ---------------------------------------------------------------- shape of the relation graph

  /** `walk` follows stored edges from incident to incident. */
  ghost predicate RelationWalk(walk: seq<string>, relations: seq<Relation>) {
    forall i | 0 <= i < |walk| - 1 :: (walk[i], walk[i + 1]) in RelationPairs(relations)
  }

  /** With an acyclic dependency graph no walk along stored edges returns to its start. */
  lemma RelationsAcyclic(st: Store, cfg: Config, walk: seq<string>)
    requires Inv(st, cfg) && T.Acyclic(cfg.graph)
    requires |walk| >= 2 && RelationWalk(walk, st.relations)
    ensures walk[0] != walk[|walk| - 1]
  {
    hide DbInv, EdgesJustified;
    hide RelationWalk, T.Depends;
    forall i | 0 <= i < |walk| ensures walk[i] in st.db.incidents {
      WalkEdge(st, cfg, walk, if i < |walk| - 1 then i else i - 1);
    }
    var services := seq(|walk|, i requires 0 <= i < |walk| => st.db.incidents[walk[i]].service);
    forall i | 0 <= i < |services| - 1 ensures T.Depends(services[i], services[i + 1], cfg.graph) {
      WalkEdge(st, cfg, walk, i);
    }
    assert T.ServiceWalk(services, cfg.graph);
  }

  lemma WalkEdge(st: Store, cfg: Config, walk: seq<string>, i: nat)
    requires EdgesJustified(st, cfg) && RelationWalk(walk, st.relations) && i < |walk| - 1
    ensures walk[i] in st.db.incidents && walk[i + 1] in st.db.incidents
    ensures T.Depends(st.db.incidents[walk[i]].service, st.db.incidents[walk[i + 1]].service, cfg.graph)
  {
    assert (walk[i], walk[i + 1]) in RelationPairs(st.relations);
    var r :| r in st.relations && r.Pair() == (walk[i], walk[i + 1]);
    assert EdgeJustified(st.db, r, cfg);
  }

  /**
   In every serially reachable store: stored edges are pairwise distinct, no edge is a loop, each
   follows a declared dependency between incidents of one environment that still overlap, and no
   walk along edges is closed.
   */
  lemma StoredRelationGraph(states: seq<Store>, events: seq<Event>, cfg: Config, n: nat)
    requires IsRun(states, events, cfg) && n < |states| && T.Acyclic(cfg.graph)
    ensures NoDuplicates(states[n].relations)
    ensures forall r | r in states[n].relations ::
      r.incidentId != r.relatedIncidentId && EdgeJustified(states[n].db, r, cfg)
    ensures forall walk | |walk| >= 2 && RelationWalk(walk, states[n].relations) :: walk[0] != walk[|walk| - 1]
  {
    hide DbInv, EdgeJustified, RelationWalk, IsRun;
    RunInv(states, events, cfg, n);
    var st := states[n];
    forall walk | |walk| >= 2 && RelationWalk(walk, st.relations) ensures walk[0] != walk[|walk| - 1] {
      RelationsAcyclic(st, cfg, walk);
    }
    forall r | r in st.relations ensures r.incidentId != r.relatedIncidentId {
      assert RelationWalk([r.incidentId, r.relatedIncidentId], st.relations) by { SingleEdgeWalk(r, st.relations); }
      assert [r.incidentId, r.relatedIncidentId][0] != [r.incidentId, r.relatedIncidentId][1];
    }
  }

  lemma SingleEdgeWalk(r: Relation, relations: seq<Relation>)
    requires r in relations
    ensures RelationWalk([r.incidentId, r.relatedIncidentId], relations)
  {
    assert r.Pair() in RelationPairs(relations);
  }

  /**
   What a serial run promises about one incident: aggregates, severity, reasons, names and title are
   the fold of its evidence; its history is a gapless path of at most five allowed transitions from
   OPEN to its status; it is resolved exactly when it has a resolution time; and a later anomaly
   never reopens it.
   */
  lemma StoredIncident(states: seq<Store>, events: seq<Event>, cfg: Config, n: nat, id: string)
    requires IsRun(states, events, cfg) && n < |states| && id in states[n].db.incidents
    ensures AgreesWithEvidence(states[n].db.incidents[id], cfg.severity)
    ensures HistoryLegal(states[n].db.incidents[id]) && |states[n].db.incidents[id].history| <= 5
    ensures states[n].db.incidents[id].status == Resolved ==>
      forall m | n <= m < |states| :: id in states[m].db.incidents && states[m].db.incidents[id].status == Resolved
  {
    hide AgreesWithEvidence, Next;
    RunInv(states, events, cfg, n);
    forall m | n <= m < |states| && states[n].db.incidents[id].status == Resolved
      ensures id in states[m].db.incidents && states[m].db.incidents[id].status == Resolved
    {
      RunMovesForward(states, events, cfg, n, m);
      assert Later(states[n].db.incidents[id], states[m].db.incidents[id]);
    }
  }
}
