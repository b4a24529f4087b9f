/**
 The in-memory incident repository and its unit of work. Writes are staged as a list of
 operations and applied, in order, when the unit of work commits.
 */
module IncidentRepository {
  import opened Prelude
  import opened IncidentDomain
  import opened Correlation
  import opened SerialStore

  /** A staged write. */
  datatype Op =
    | InsertOp(row: IncidentRow)
    | UpdateOp(row: IncidentRow)
    | EvidenceOp(id: string, evidence: Evidence)
    | TransitionOp(id: string, transition: Transition)
    | LinkOp(relation: Relation)

  /** A write either succeeds, or raises and leaves the store as the earlier writes made it. */
  datatype Outcome = Applied(st: Store) | DuplicateActive(st: Store) | MissingIncident(st: Store)

  ghost function PutRow(st: Store, row: IncidentRow): (r: Store) {
    st.(db := st.db.(incidents := st.db.incidents[row.id := row]))
  }

  ghost function ApplyOp(st: Store, op: Op): (r: Outcome) {
    match op
    case InsertOp(row) =>
      if exists id :: ActiveFor(st.db, row.correlationKey, id) then DuplicateActive(st) else Applied(PutRow(st, row))
    case UpdateOp(row) =>
      if row.id !in st.db.incidents then MissingIncident(st) else
      var stored := st.db.incidents[row.id];
      Applied(PutRow(st, row.(evidence := stored.evidence, history := stored.history)))
    case EvidenceOp(id, e) =>
      if id !in st.db.incidents then MissingIncident(st) else
      var stored := st.db.incidents[id];
      Applied(Store(Db(st.db.incidents[id := stored.(evidence := stored.evidence + [e])],
        st.db.eventIds + {e.obs.eventId}),
                    st.relations))
    case TransitionOp(id, tr) =>
      if id !in st.db.incidents then MissingIncident(st) else
      var stored := st.db.incidents[id];
      Applied(st.(db := st.db.(incidents := st.db.incidents[id := stored.(history := stored.history + [tr])])))
    case LinkOp(r) => Applied(st.(relations := AddLink(st.relations, r)))
  }

  /** An edge that is already stored is not stored again. */
  function AddLink(rs: seq<Relation>, r: Relation): (res: seq<Relation>) {
    if r.Pair() in RelationPairs(rs) then rs else rs + [r]
  }

  ghost function ApplyAll(st: Store, ops: seq<Op>): (r: Outcome)
    decreases ops
  {
    if ops == [] then Applied(st) else
    var first := ApplyOp(st, ops[0]);
    if first.Applied? then ApplyAll(first.st, ops[1..]) else first
  }

  lemma {:induction false} ApplyAllConcat(st: Store, xs: seq<Op>, ys: seq<Op>)
    ensures ApplyAll(st, xs + ys) ==
      (if ApplyAll(st, xs).Applied? then ApplyAll(ApplyAll(st, xs).st, ys) else ApplyAll(st, xs))
    decreases xs
  {
    if xs == [] {
      assert xs + ys == ys;
    } else {
      assert (xs + ys)[1..] == xs[1..] + ys;
      var first := ApplyOp(st, xs[0]);
      if first.Applied? { ApplyAllConcat(first.st, xs[1..], ys); }
    }
  }

  class InMemoryRepository {
    var incidents: map<string, IncidentRow>
    var eventIds: set<string>
    var relations: seq<Relation>

    ghost function Contents(): (r: Store)
      reads this
    {
      Store(Db(incidents, eventIds), relations)
    }

    constructor ()
      ensures Contents() == EmptyStore
    {
      incidents, eventIds, relations := map[], {}, [];
    }

    /** A lifecycle change through the API: load, validate, apply. */
    method Transition(id: string, target: Status, actor: string, reason: string, now: Instant)
      returns (updated: Option<IncidentRow>)
      modifies this
      ensures Contents() == LifecycleStep(old(Contents()), id, target, actor, reason, now)
      ensures updated ==
        if id in old(incidents) && CanTransition(old(incidents)[id].status, target, actor)
        then Some(ApplyTransition(old(incidents)[id], target, actor, reason, now)) else None
    {
      if id !in incidents { return None; }
      var inc := incidents[id];
      if !CanTransition(inc.status, target, actor) { return None; }
      var previous := inc.status;
      inc := inc.(status := target, updatedAt := now);
      if target == Acknowledged && inc.acknowledgedAt == None {
        inc := inc.(acknowledgedAt := Some(now));
      }
      if target == Resolved {
        inc := inc.(resolvedAt := Some(now),
                    resolution := if inc.resolution == None || inc.resolution == Some("") then Some("manual")
                      else inc.resolution);
      }
      inc := inc.(history := inc.history + [IncidentDomain.Transition(Some(previous), target, actor, Manual(reason),
        inc.severity, now)]);
      incidents := incidents[id := inc];
      return Some(inc);
    }
  }

  ghost predicate DistinctRows(rows: seq<IncidentRow>) {
    forall i, j | 0 <= i < j < |rows| :: rows[i].id != rows[j].id
  }

  lemma NoRows()
    ensures DistinctRows([])
  {
  }

  /** A row still to be looked at is not among those found. */
  lemma OneMoreRow(incidents: map<string, IncidentRow>, found: seq<IncidentRow>, todo: set<string>, id: string)
    requires forall k | k in incidents :: incidents[k].id == k
    requires id in todo && id in incidents && DistinctRows(found)
    requires forall row | row in found :: exists k | k in incidents && k !in todo :: incidents[k] == row
    ensures DistinctRows(found + [incidents[id]])
  {
    forall i | 0 <= i < |found| ensures found[i].id != id { assert found[i] in found; }
  }

  class UnitOfWork {
    const store: InMemoryRepository
    var ops: seq<Op>
    var stagedEventIds: set<string>

    constructor (store: InMemoryRepository)
      ensures this.store == store && ops == [] && stagedEventIds == {}
    {
      this.store := store;
      ops, stagedEventIds := [], {};
    }

    method EvidenceExists(eventId: string) returns (found: bool)
      ensures found <==> eventId in store.eventIds || eventId in stagedEventIds
    {
      found := eventId in store.eventIds || eventId in stagedEventIds;
    }

    /** Scans the incidents for the active one of `key`. */
    method LockActiveIncident(key: string) returns (r: Option<IncidentRow>)
      ensures r == None ==> forall id :: !ActiveFor(store.Contents().db, key, id)
      ensures r.Some? ==> exists id :: ActiveFor(store.Contents().db, key, id) && store.incidents[id] == r.value
    {
      var todo := store.incidents.Keys;
      while todo != {}
        invariant todo <= store.incidents.Keys
        invariant forall id | id in store.incidents && id !in todo :: !ActiveFor(store.Contents().db, key, id)
      {
        var id :| id in todo;
        var inc := store.incidents[id];
        if inc.correlationKey == key && inc.status.IsActive() {
          assert ActiveFor(store.Contents().db, key, id);
          return Some(inc);
        }
        todo := todo - {id};
      }
      return None;
    }

    method InsertIncident(row: IncidentRow)
      modifies this`ops
      ensures ops == old(ops) + [InsertOp(row.(evidence := [], history := []))]
    {
      ops := ops + [InsertOp(row.(evidence := [], history := []))];
    }

    method UpdateIncident(row: IncidentRow)
      modifies this`ops
      ensures ops == old(ops) + [UpdateOp(row)]
    {
      ops := ops + [UpdateOp(row)];
    }

    method AddEvidence(id: string, e: Evidence)
      modifies this
      ensures ops == old(ops) + [EvidenceOp(id, e)] && stagedEventIds == old(stagedEventIds) + {e.obs.eventId}
    {
      stagedEventIds := stagedEventIds + {e.obs.eventId};
      ops := ops + [EvidenceOp(id, e)];
    }

    method AddTransition(id: string, tr: Transition)
      modifies this`ops
      ensures ops == old(ops) + [TransitionOp(id, tr)]
    {
      ops := ops + [TransitionOp(id, tr)];
    }

    /** The committed active incidents of some services in one environment, each once. */
    method ActiveIncidentsInServices(services: set<string>, environment: string) returns (found: seq<IncidentRow>)
      ensures forall row :: row in found <==>
        exists id | id in store.incidents :: store.incidents[id] == row && row.service in services
          && row.environment == environment && row.status.IsActive()
      ensures RowIdsMatch(store.Contents().db) ==> DistinctRows(found)
    {
      found := [];
      var todo := store.incidents.Keys;
      while todo != {}
        invariant todo <= store.incidents.Keys
        invariant forall row :: row in found <==>
          exists id | id in store.incidents && id !in todo :: store.incidents[id] == row && row.service in services
            && row.environment == environment && row.status.IsActive()
        invariant RowIdsMatch(store.Contents().db) ==> DistinctRows(found)
      {
        hide DistinctRows;
        var id :| id in todo;
        var inc := store.incidents[id];
        if RowIdsMatch(store.Contents().db) { OneMoreRow(store.incidents, found, todo, id); }
        if inc.service in services && inc.environment == environment && inc.status.IsActive() {
          found := found + [inc];
        }
        todo := todo - {id};
      }
      NoRows();
    }

    method LinkIncident(r: Relation)
      modifies this`ops
      ensures ops == old(ops) + [LinkOp(r)]
    {
      ops := ops + [LinkOp(r)];
    }

    /** Applies one staged write to the store. */
    method Apply(op: Op) returns (ok: bool)
      modifies store
      ensures store.Contents() == ApplyOp(old(store.Contents()), op).st
      ensures ok <==> ApplyOp(old(store.Contents()), op).Applied?
    {
      match op {
      case InsertOp(row) =>
        var todo := store.incidents.Keys;
        while todo != {}
          invariant todo <= store.incidents.Keys
          invariant forall id | id in store.incidents && id !in todo ::
            !ActiveFor(store.Contents().db, row.correlationKey, id)
        {
          var id :| id in todo;
          if store.incidents[id].correlationKey == row.correlationKey && store.incidents[id].status.IsActive() {
            assert ActiveFor(store.Contents().db, row.correlationKey, id);
            return false;
          }
          todo := todo - {id};
        }
        store.incidents := store.incidents[row.id := row];
      case UpdateOp(row) =>
        if row.id !in store.incidents { return false; }
        var stored := store.incidents[row.id];
        store.incidents := store.incidents[row.id := row.(evidence := stored.evidence, history := stored.history)];
      case EvidenceOp(id, e) =>
        if id !in store.incidents { return false; }
        var stored := store.incidents[id];
        store.incidents := store.incidents[id := stored.(evidence := stored.evidence + [e])];
        store.eventIds := store.eventIds + {e.obs.eventId};
      case TransitionOp(id, tr) =>
        if id !in store.incidents { return false; }
        var stored := store.incidents[id];
        store.incidents := store.incidents[id := stored.(history := stored.history + [tr])];
      case LinkOp(r) =>
        var known := false;
        for i := 0 to |store.relations|
          invariant known <==> exists j | 0 <= j < i :: store.relations[j].Pair() == r.Pair()
        {
          if store.relations[i].Pair() == r.Pair() { known := true; }
        }
        assert known <==> r.Pair() in RelationPairs(store.relations) by {
          assert forall j | 0 <= j < |store.relations| :: store.relations[j] in store.relations;
        }
        if !known { store.relations := store.relations + [r]; }
      }
      return true;
    }

    /** Applies the staged writes in order; stops at the first that raises. */
    method Commit() returns (ok: bool)
      modifies store
      ensures store.Contents() == ApplyAll(old(store.Contents()), ops).st
      ensures ok <==> ApplyAll(old(store.Contents()), ops).Applied?
    {
      for n := 0 to |ops|
        invariant ApplyAll(old(store.Contents()), ops[..n]) == Applied(store.Contents())
      {
        ghost var before := store.Contents();
        assert ops[..n + 1] == ops[..n] + [ops[n]] && ops == ops[..n + 1] + ops[n + 1..];
        ApplyAllConcat(old(store.Contents()), ops[..n], [ops[n]]);
        ApplyAllConcat(old(store.Contents()), ops[..n + 1], ops[n + 1..]);
        assert [ops[n]][1..] == [];
        var applied := Apply(ops[n]);
        if !applied { return false; }
      }
      assert ops[..|ops|] == ops;
      return true;
    }
  }
}
