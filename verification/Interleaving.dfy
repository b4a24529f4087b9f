/**
 Concurrent units of work on the SQL store.

 Each unit of work is one transaction: read whether the event is already recorded, lock the
 active incident of the key, write the incident rows, insert the evidence row, commit. Between
 any two of these, other transactions and API transitions may run.
   - A row lock is held until the transaction ends; the locked row is read when it is granted.
   - The lock query may also come back empty although the key has an active incident: its
     snapshot can predate a concurrent supersede.
   - An insert that would violate the unique index on active keys, on incident ids or on event ids
     is not possible: the transaction waits for the conflicting one, and aborts if that commits.
   - A transaction may abort at any point (conflict, crash, failed link insert); the caller retries
     by starting another one.
 Commit applies the row values computed from the locked copy.
 */
module Interleaving {
  import opened Prelude
  import opened IncidentDomain
  import opened Correlation
  import opened SerialStore
  import opened SerialInvariants

  datatype Phase = Started | Checked | Decided | RowsWritten | EvidenceWritten

  /** `locked` is the copy of the active incident read under the row lock. */
  datatype Txn = Txn(s: Signal, newId: string, t: Ticks, phase: Phase, locked: Option<IncidentRow>)

  /** Committed tables, running transactions, and the units of work in commit order. */
  datatype System = System(db: Db, txns: map<nat, Txn>, log: seq<Event>)

  function DecisionOf(x: Txn, cfg: Config): (r: Decision) {
    Decide(x.s.obs, x.locked, cfg.windowSeconds)
  }

  /** The transaction has inserted an incident row it has not committed yet. */
  predicate Inserting(x: Txn, cfg: Config) {
    x.phase in {RowsWritten, EvidenceWritten} && DecisionOf(x, cfg).action != Append
  }

  predicate HoldsLock(x: Txn, id: string) {
    x.locked.Some? && x.locked.value.id == id
  }

  /** The tables once the writes of `x`, computed from its locked copy, are applied. */
  function ApplyWrites(db: Db, x: Txn, cfg: Config): (r: Db) {
    var d := DecisionOf(x, cfg);
    var o := x.s.obs;
    match d.action
    case CreateIncident => InsertRow(db, NewIncident(x.s, x.newId, d.reason, x.t, cfg), o.eventId)
    case Append =>
      var id := x.locked.value.id;
      if id !in db.incidents then db else
      var row := Absorb(x.locked.value, o, x.t.absorb, cfg.severity);
      InsertRow(db, row.(evidence := db.incidents[id].evidence + [Evidence(o, d.reason)],
        history := db.incidents[id].history), o.eventId)
    case Supersede =>
      var id := x.locked.value.id;
      if id !in db.incidents then db else
      var closed := AutoResolve(x.locked.value, d.reason, x.t);
      var history := db.incidents[id].history + closed.history[|x.locked.value.history|..];
      InsertRow(db.(incidents := db.incidents[id := closed.(evidence := db.incidents[id].evidence,
        history := history)]),
                NewIncident(x.s, x.newId, d.reason, x.t, cfg), o.eventId)
  }

  // ---------------------------------------------------------------- steps

  datatype Action =
    | Begin(s: Signal, newId: string, t: Ticks)
    | SkipDuplicate
    | CheckEvidence
    | LockFound(id: string)
    | LockEmpty
    | WriteRows
    | WriteEvidence
    | CommitTxn
    | Abort
    | Api(id: string, target: Status, actor: string, reason: string, now: Instant)

  ghost predicate NoConflictingInsert(y: System, c: nat, cfg: Config)
    requires c in y.txns
  {
    var x := y.txns[c];
    && x.newId !in y.db.incidents
    && (forall id | ActiveFor(y.db, x.s.Key(), id) :: HoldsLock(x, id))
    && forall k | k in y.txns && k != c && Inserting(y.txns[k], cfg) ::
         y.txns[k].s.Key() != x.s.Key() && y.txns[k].newId != x.newId
  }

  ghost predicate NoConflictingEvidence(y: System, c: nat)
    requires c in y.txns
  {
    && y.txns[c].s.obs.eventId !in y.db.eventIds
    && forall k | k in y.txns && k != c && y.txns[k].phase == EvidenceWritten ::
         y.txns[k].s.obs.eventId != y.txns[c].s.obs.eventId
  }

  ghost predicate Step(y: System, c: nat, a: Action, cfg: Config, y': System) {
    match a
    case Begin(s, newId, t) => c !in y.txns && y' == y.(txns := y.txns[c := Txn(s, newId, t, Started, None)])
    case SkipDuplicate =>
      && c in y.txns && y.txns[c].phase == Started && y.txns[c].s.obs.eventId in y.db.eventIds
      && y' == y.(txns := y.txns - {c}, log := y.log + [EventOf(y.txns[c])])
    case CheckEvidence =>
      && c in y.txns && y.txns[c].phase == Started && y.txns[c].s.obs.eventId !in y.db.eventIds
      && y' == y.(txns := y.txns[c := y.txns[c].(phase := Checked)])
    case LockFound(id) =>
      && c in y.txns && y.txns[c].phase == Checked && ActiveFor(y.db, y.txns[c].s.Key(), id)
      && (forall k | k in y.txns :: !HoldsLock(y.txns[k], id))
      && y' == y.(txns := y.txns[c := y.txns[c].(phase := Decided, locked := Some(y.db.incidents[id]))])
    case LockEmpty =>
      && c in y.txns && y.txns[c].phase == Checked
      && y' == y.(txns := y.txns[c := y.txns[c].(phase := Decided, locked := None)])
    case WriteRows =>
      && c in y.txns && y.txns[c].phase == Decided
      && (DecisionOf(y.txns[c], cfg).action == Append || NoConflictingInsert(y, c, cfg))
      && y' == y.(txns := y.txns[c := y.txns[c].(phase := RowsWritten)])
    case WriteEvidence =>
      && c in y.txns && y.txns[c].phase == RowsWritten && NoConflictingEvidence(y, c)
      && y' == y.(txns := y.txns[c := y.txns[c].(phase := EvidenceWritten)])
    case CommitTxn =>
      && c in y.txns && y.txns[c].phase == EvidenceWritten
      && y' == System(ApplyWrites(y.db, y.txns[c], cfg), y.txns - {c}, y.log + [EventOf(y.txns[c])])
    case Abort => c in y.txns && y' == y.(txns := y.txns - {c})
    case Api(id, target, actor, reason, now) =>
      && (forall k | k in y.txns :: !HoldsLock(y.txns[k], id))
      && y' == System(LifecycleStep(Store(y.db, []), id, target, actor, reason, now).db, y.txns,
                      y.log + [Lifecycle(id, target, actor, reason, now)])
  }

  function EventOf(x: Txn): (r: Event) {
    Anomaly(x.s, x.newId, x.t)
  }

  const Initial := System(EmptyDb, map[], [])

  ghost predicate IsExecution(ys: seq<System>, cs: seq<nat>, acts: seq<Action>, cfg: Config) {
    && |ys| == |acts| + 1 && |cs| == |acts| && ys[0] == Initial
    && forall i | 0 <= i < |acts| :: Step(ys[i], cs[i], acts[i], cfg, ys[i + 1])
  }

  /** The same units of work run one after the other. */
  ghost function Replay(log: seq<Event>, cfg: Config): (r: Db) {
    if log == [] then EmptyDb else ApplyEvent(Replay(log[..|log| - 1], cfg), log[|log| - 1], cfg)
  }

  ghost function ApplyEvent(db: Db, e: Event, cfg: Config): (r: Db) {
    match e
    case Anomaly(s, newId, t) => ProcessDb(db, s, newId, t, cfg)
    case Lifecycle(id, target, actor, reason, now) => LifecycleStep(Store(db, []), id, target, actor, reason, now).db
  }

  // ---------------------------------------------------------------- invariant

  /** What a running transaction may rely on, whatever the others do. */
  ghost predicate TxnInv(db: Db, x: Txn, cfg: Config) {
    && (x.phase in {Started, Checked} ==> x.locked == None)
    && (x.locked.Some? ==>
      ActiveFor(db, x.s.Key(), x.locked.value.id) && db.incidents[x.locked.value.id] == x.locked.value)
    && (Inserting(x, cfg) ==>
          x.newId !in db.incidents && forall id | ActiveFor(db, x.s.Key(), id) :: HoldsLock(x, id))
    && (x.phase == EvidenceWritten ==> x.s.obs.eventId !in db.eventIds)
  }

  /** Locks, inserted keys, inserted ids and inserted event ids are held by one transaction at a time. */
  ghost predicate Compatible(a: Txn, b: Txn, cfg: Config) {
    && (a.locked.Some? && b.locked.Some? ==> a.locked.value.id != b.locked.value.id)
    && (Inserting(a, cfg) && Inserting(b, cfg) ==> a.s.Key() != b.s.Key() && a.newId != b.newId)
    && (a.phase == EvidenceWritten && b.phase == EvidenceWritten ==> a.s.obs.eventId != b.s.obs.eventId)
  }

  ghost predicate TxnsInv(y: System, cfg: Config) {
    && (forall k | k in y.txns :: TxnInv(y.db, y.txns[k], cfg))
    && (forall j, k | j in y.txns && k in y.txns && j != k :: Compatible(y.txns[j], y.txns[k], cfg))
  }

  ghost predicate SysInv(y: System, cfg: Config) {
    DbInv(y.db, cfg) && TxnsInv(y, cfg) && y.db == Replay(y.log, cfg)
  }

  // ---------------------------------------------------------------- preservation

  /** Committing is one serial step on the tables as they are at that moment. */
  lemma CommitIsSerial(db: Db, x: Txn, cfg: Config)
    requires DbInv(db, cfg) && TxnInv(db, x, cfg) && x.phase == EvidenceWritten
    ensures ApplyWrites(db, x, cfg) == ProcessDb(db, x.s, x.newId, x.t, cfg)
    ensures IdFreeIfUsed(db, x.s, x.newId, cfg)
  {
    hide NewIncident, Absorb, RowsLegal, EvidenceConsistent;
    match x.locked
    case None =>
    case Some(row) =>
      assert FindActive(db, x.s.Key()) == Some(row.id);
      AbsorbKeeps(row, x.s.obs, x.t.absorb, cfg.severity);
  }

  /** Another transaction keeps everything it relies on when `x` commits. */
  lemma CommitKeepsOther(db: Db, x: Txn, z: Txn, cfg: Config)
    requires DbInv(db, cfg) && TxnInv(db, x, cfg) && TxnInv(db, z, cfg) && x.phase == EvidenceWritten
    requires Compatible(x, z, cfg)
    ensures TxnInv(ApplyWrites(db, x, cfg), z, cfg)
  {
    hide NewIncident, Absorb, RowsLegal, EvidenceConsistent;
    var d := DecisionOf(x, cfg);
    NewIncidentIdentity(x.s, x.newId, d.reason, x.t, cfg);
    if x.locked.Some? { AbsorbKeeps(x.locked.value, x.s.obs, x.t.absorb, cfg.severity); }
  }

  lemma ReplayAppend(log: seq<Event>, e: Event, cfg: Config)
    ensures (log + [e])[..|log + [e]| - 1] == log
  {
  }

  lemma CommitStep(y: System, c: nat, cfg: Config, y': System)
    requires SysInv(y, cfg) && Step(y, c, CommitTxn, cfg, y')
    ensures SysInv(y', cfg)
  {
    hide DbInv, ApplyWrites, ProcessDb, Compatible, TxnInv;
    var x := y.txns[c];
    CommitIsSerial(y.db, x, cfg);
    ProcessDbInv(y.db, x.s, x.newId, x.t, cfg);
    forall k | k in y'.txns ensures TxnInv(y'.db, y'.txns[k], cfg) {
      CommitKeepsOther(y.db, x, y.txns[k], cfg);
    }
    ReplayAppend(y.log, EventOf(x), cfg);
  }

  lemma ApiKeepsTxn(db: Db, z: Txn, id: string, target: Status, actor: string, reason: string, now: Instant,
                    cfg: Config)
    requires TxnInv(db, z, cfg) && !HoldsLock(z, id)
    ensures TxnInv(LifecycleStep(Store(db, []), id, target, actor, reason, now).db, z, cfg)
  {
    var db' := LifecycleStep(Store(db, []), id, target, actor, reason, now).db;
    if id in db.incidents && CanTransition(db.incidents[id].status, target, actor) {
      TransitionAdvances(db.incidents[id].status, target, actor);
    }
    assert forall key, j :: ActiveFor(db', key, j) ==> ActiveFor(db, key, j);
  }

  lemma ApiStep(y: System, c: nat, a: Action, cfg: Config, y': System)
    requires SysInv(y, cfg) && a.Api? && Step(y, c, a, cfg, y')
    ensures SysInv(y', cfg)
  {
    hide DbInv, LifecycleStep, TxnInv, Compatible;
    var Api(id, target, actor, reason, now) := a;
    ApiKeepsDb(y.db, id, target, actor, reason, now, cfg);
    forall k | k in y'.txns ensures TxnInv(y'.db, y'.txns[k], cfg) {
      ApiKeepsTxn(y.db, y.txns[k], id, target, actor, reason, now, cfg);
    }
    ReplayAppend(y.log, Lifecycle(id, target, actor, reason, now), cfg);
  }

  lemma ApiKeepsDb(db: Db, id: string, target: Status, actor: string, reason: string, now: Instant, cfg: Config)
    requires DbInv(db, cfg)
    ensures DbInv(LifecycleStep(Store(db, []), id, target, actor, reason, now).db, cfg)
  {
    hide DbInv;
    LifecycleStepInv(Store(db, []), id, target, actor, reason, now, cfg);
  }

  /** Replacing one transaction keeps the invariant if the new one fits with the tables and the others. */
  lemma ReplaceTxn(y: System, c: nat, x: Txn, cfg: Config)
    requires TxnsInv(y, cfg) && TxnInv(y.db, x, cfg)
    requires forall k | k in y.txns && k != c :: Compatible(x, y.txns[k], cfg)
    ensures TxnsInv(y.(txns := y.txns[c := x]), cfg)
  {
    hide TxnInv;
    forall k | k in y.txns && k != c ensures Compatible(y.txns[k], x, cfg) { CompatibleSymmetric(x, y.txns[k], cfg); }
    hide Compatible;
  }

  lemma CompatibleSymmetric(a: Txn, b: Txn, cfg: Config)
    requires Compatible(a, b, cfg)
    ensures Compatible(b, a, cfg)
  {
  }

  /** A step inside one transaction leaves the tables and the log alone. */
  /** The transaction that moved may rely on what it should. */
  lemma MoverInv(y: System, c: nat, a: Action, cfg: Config, y': System)
    requires SysInv(y, cfg) && !a.CommitTxn? && !a.Api? && !a.SkipDuplicate? && !a.Abort? && Step(y, c, a, cfg, y')
    ensures c in y'.txns && y' == y.(txns := y.txns[c := y'.txns[c]]) && TxnInv(y.db, y'.txns[c], cfg)
  {
    hide Replay, Compatible, EvidenceConsistent, RowsLegal;
    RowIds(y.db, cfg);
  }

  /** It clashes with no other. */
  lemma MoverCompatible(y: System, c: nat, a: Action, cfg: Config, y': System, k: nat)
    requires SysInv(y, cfg) && !a.CommitTxn? && !a.Api? && !a.SkipDuplicate? && !a.Abort? && Step(y, c, a, cfg, y')
    requires k in y.txns && k != c
    ensures c in y'.txns && Compatible(y'.txns[c], y.txns[k], cfg)
  {
    hide DbInv, Replay;
    RowIds(y.db, cfg);
    if c in y.txns { assert Compatible(y.txns[c], y.txns[k], cfg); }
    assert TxnInv(y.db, y.txns[k], cfg);
  }

  lemma LocalStep(y: System, c: nat, a: Action, cfg: Config, y': System)
    requires SysInv(y, cfg) && !a.CommitTxn? && !a.Api? && !a.SkipDuplicate? && Step(y, c, a, cfg, y')
    ensures SysInv(y', cfg)
  {
    hide DbInv, Replay, TxnInv, Compatible;
    if !a.Abort? {
      hide Step;
      MoverInv(y, c, a, cfg, y');
      forall k | k in y.txns && k != c ensures Compatible(y'.txns[c], y.txns[k], cfg) {
        MoverCompatible(y, c, a, cfg, y', k);
      }
      ReplaceTxn(y, c, y'.txns[c], cfg);
    }
  }

  lemma SkipStep(y: System, c: nat, cfg: Config, y': System)
    requires SysInv(y, cfg) && Step(y, c, SkipDuplicate, cfg, y')
    ensures SysInv(y', cfg)
  {
    hide DbInv, TxnInv, Compatible;
    ReplayAppend(y.log, EventOf(y.txns[c]), cfg);
  }

  lemma StepInv(y: System, c: nat, a: Action, cfg: Config, y': System)
    requires SysInv(y, cfg) && Step(y, c, a, cfg, y')
    ensures SysInv(y', cfg)
  {
    hide SysInv, Step;
    match a {
      case CommitTxn => CommitStep(y, c, cfg, y');
      case Api(_, _, _, _, _) => ApiStep(y, c, a, cfg, y');
      case SkipDuplicate => SkipStep(y, c, cfg, y');
      case _ => LocalStep(y, c, a, cfg, y');
    }
  }

  lemma InitialInv(cfg: Config)
    ensures SysInv(Initial, cfg)
  {
  }

  lemma {:induction false} ExecutionInv(ys: seq<System>, cs: seq<nat>, acts: seq<Action>, cfg: Config, n: nat)
    requires IsExecution(ys, cs, acts, cfg) && n < |ys|
    ensures SysInv(ys[n], cfg)
    decreases n
  {
    hide SysInv, Step;
    if n == 0 {
      InitialInv(cfg);
    } else {
      ExecutionInv(ys, cs, acts, cfg, n - 1);
      assert Step(ys[n - 1], cs[n - 1], acts[n - 1], cfg, ys[n - 1 + 1]);
      StepInv(ys[n - 1], cs[n - 1], acts[n - 1], cfg, ys[n]);
    }
  }

  /**
   In every interleaving, at every moment, the committed tables are those of the committed units of
   work and API transitions run one after the other in commit order; and each key has at most one
   active incident and each event at most one evidence row.
   */
  lemma Serializable(ys: seq<System>, cs: seq<nat>, acts: seq<Action>, cfg: Config, n: nat)
    requires IsExecution(ys, cs, acts, cfg) && n < |ys|
    ensures ys[n].db == Replay(ys[n].log, cfg)
    ensures OneActivePerKey(ys[n].db) && EvidenceConsistent(ys[n].db)
  {
    hide IsExecution, TxnsInv, Replay, RowsLegal, EvidenceConsistent, OneActivePerKey;
    ExecutionInv(ys, cs, acts, cfg, n);
  }
}
