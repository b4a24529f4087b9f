/** The times and outcome an incident shows, read off its history. */
module SerialTimes {
  import opened Prelude
  import opened IncidentDomain
  import opened Correlation
  import opened SerialStore
  import opened SerialInvariants
  import SeverityEngine

  /** The instant of the first entry that enters `s`. */
  function FirstAt(h: seq<Transition>, s: Status): (r: Option<Instant>) {
    if h == [] then None
    else if h[0].toStatus == s then Some(h[0].at)
    else FirstAt(h[1..], s)
  }

  lemma {:induction false} FirstAtAppend(h: seq<Transition>, tr: Transition, s: Status)
    ensures FirstAt(h + [tr], s) ==
      if FirstAt(h, s).Some? then FirstAt(h, s) else if tr.toStatus == s then Some(tr.at) else None
  {
    if h == [] {
      assert h + [tr] == [tr];
    } else {
      FirstAtAppend(h[1..], tr, s);
      assert (h + [tr])[1..] == h[1..] + [tr];
    }
  }

  /** How a resolved incident was closed, and when: by hand at its last entry, or for quiet as of its last evidence. */
  predicate ClosedAs(row: IncidentRow, last: Transition) {
    match last.reason
    case Manual(_) => row.resolvedAt == Some(last.at) && row.resolution == Some("manual")
    case AutoResolved(why) =>
      why.WentQuiet? && last.actor == "system"
      && row.resolvedAt == Some(row.lastEvidenceAt) && row.resolution == Some("auto:stale")
    case Correlated(_) => false
  }

  /**
   Opened by the system when created,
     for the reason and by the detector of the first evidence; acknowledged at the first ACKNOWLEDGED entry,
     if there is one; closed
   as the last entry says, and not otherwise.
   */
  ghost predicate TimesShown(row: IncidentRow) {
    var h := row.history;
    && h != [] && h[0].at == row.createdAt && h[0].actor == "system"
    && row.evidence != [] && row.detector == row.evidence[0].obs.detector
    && h[0].reason == Correlated(row.evidence[0].reason)
    && row.acknowledgedAt == FirstAt(h, Acknowledged)
    && (if row.status == Resolved then ClosedAs(row, h[|h| - 1]) else row.resolvedAt == None && row.resolution == None)
  }

  ghost predicate RowsTimesShown(db: Db) {
    forall id | id in db.incidents :: TimesShown(db.incidents[id])
  }

  // ---------------------------------------------------------------- one row

  lemma NewTimes(s: Signal, id: string, reason: CorrelationReason, t: Ticks, cfg: Config)
    ensures TimesShown(NewIncident(s, id, reason, t, cfg))
  {
    hide SeverityEngine.VerdictOf, MergeNames;
    var row := NewIncident(s, id, reason, t, cfg);
    assert FirstAt(row.history, Acknowledged) == None by {
      assert row.history[1..] == [];
    }
  }

  lemma AppendTimes(row: IncidentRow, o: Observation, reason: CorrelationReason, t: Ticks, cfg: Config)
    requires TimesShown(row) && row.status.IsActive()
    ensures TimesShown(AppendTo(row, o, reason, t, cfg))
  {
    hide FirstAt, MergeNames, SeverityEngine.VerdictOf;
  }

  lemma AutoResolveTimes(row: IncidentRow, reason: CorrelationReason, t: Ticks)
    requires TimesShown(row) && row.status.IsActive() && reason.WentQuiet?
    ensures TimesShown(AutoResolve(row, reason, t))
  {
    hide FirstAt;
    var next := AutoResolve(row, reason, t);
    FirstAtAppend(row.history, next.history[|row.history|], Acknowledged);
    assert next.history[0] == row.history[0];
  }

  lemma TransitionTimes(row: IncidentRow, target: Status, actor: string, reason: string, now: Instant)
    requires TimesShown(row) && CanTransition(row.status, target, actor)
    ensures TimesShown(ApplyTransition(row, target, actor, reason, now))
  {
    hide FirstAt;
    var next := ApplyTransition(row, target, actor, reason, now);
    FirstAtAppend(row.history, next.history[|row.history|], Acknowledged);
    assert next.history[0] == row.history[0];
  }

  // ---------------------------------------------------------------- runs

  lemma ProcessTimes(db: Db, s: Signal, newId: string, t: Ticks, cfg: Config)
    requires DbInv(db, cfg) && RowsTimesShown(db)
    ensures RowsTimesShown(ProcessDb(db, s, newId, t, cfg))
  {
    hide TimesShown, AgreesWithEvidence, HistoryLegal, NewIncident, AppendTo, AutoResolve, EvidenceConsistent;
    match FindActive(db, s.Key())
    case None =>
      NewTimes(s, newId, NoActiveIncident, t, cfg);
      NewIncidentIdentity(s, newId, NoActiveIncident, t, cfg);
    case Some(id) =>
      var row := db.incidents[id];
      var d := Decide(s.obs, Some(row), cfg.windowSeconds);
      if d.action == Append {
        AppendTimes(row, s.obs, d.reason, t, cfg);
        AppendKeeps(row, s.obs, d.reason, t, cfg);
      } else {
        AutoResolveTimes(row, d.reason, t);
        NewTimes(s, newId, d.reason, t, cfg);
        NewIncidentIdentity(s, newId, d.reason, t, cfg);
      }
  }

  lemma LifecycleTimes(st: Store, e: Event)
    requires e.Lifecycle? && RowsTimesShown(st.db)
    ensures RowsTimesShown(LifecycleStep(st, e.id, e.target, e.actor, e.reason, e.now).db)
  {
    hide TimesShown, ApplyTransition;
    if e.id in st.db.incidents && CanTransition(st.db.incidents[e.id].status, e.target, e.actor) {
      TransitionTimes(st.db.incidents[e.id], e.target, e.actor, e.reason, e.now);
    }
  }

  /**
   In every serially reachable store, each incident is acknowledged at the instant of its first
   ACKNOWLEDGED entry or not at all; one resolved by hand is resolved at the instant of its last entry,
   one that went quiet as of its last evidence; and an incident that is not resolved shows neither.
   */
  lemma {:induction false} StoredTimes(states: seq<Store>, events: seq<Event>, cfg: Config, n: nat)
    requires IsRun(states, events, cfg) && n < |states|
    ensures RowsTimesShown(states[n].db)
  {
    hide TimesShown, ProcessDb, LifecycleStep, DbInv;
    if n > 0 {
      StoredTimes(states, events, cfg, n - 1);
      RunInv(states, events, cfg, n - 1);
      assert Next(states[n - 1], events[n - 1], cfg, states[n]);
      match events[n - 1] {
        case Anomaly(s, newId, t) => ProcessTimes(states[n - 1].db, s, newId, t, cfg);
        case Lifecycle(_, _, _, _, _) => LifecycleTimes(states[n - 1], events[n - 1]);
      }
    }
  }
}
