/** Quiet periods: no incident spans one longer than the correlation window. */
module SerialGaps {
  import opened Prelude
  import opened IncidentDomain
  import opened Correlation
  import opened SerialStore
  import opened SerialInvariants
  import Aggregates

  /** How long after the end of the earlier evidence the `i`-th signal occurred. */
  function Gap(row: IncidentRow, i: nat): (r: real)
    requires 0 < i < |row.evidence|
  {
    row.evidence[i].obs.occurredAt - Aggregates.Fold(Observations(row)[..i]).last
  }

  /** Every signal appended came within the window and says so; the first says why an incident was opened. */
  ghost predicate GapsWithin(row: IncidentRow, window: real) {
    && (forall i | 0 < i < |row.evidence| ::
          Gap(row, i) <= window && row.evidence[i].reason == WithinWindow(Gap(row, i), window))
    && (row.evidence != [] ==> Opens(row.evidence[0].reason, window))
  }

  /** A reason to open an incident: none was active, or the active one had been quiet for longer than the window. */
  predicate Opens(reason: CorrelationReason, window: real) {
    reason == NoActiveIncident || (reason.WentQuiet? && reason.gap > window && reason.window == window)
  }

  ghost predicate RowsGapsWithin(db: Db, window: real) {
    forall id | id in db.incidents :: GapsWithin(db.incidents[id], window)
  }

  lemma AppendGaps(row: IncidentRow, o: Observation, reason: CorrelationReason, t: Ticks, cfg: Config)
    requires AgreesWithEvidence(row, cfg.severity) && GapsWithin(row, cfg.windowSeconds)
    requires o.occurredAt - row.lastEvidenceAt <= cfg.windowSeconds
    requires reason == WithinWindow(o.occurredAt - row.lastEvidenceAt, cfg.windowSeconds)
    ensures GapsWithin(AppendTo(row, o, reason, t, cfg), cfg.windowSeconds)
  {
    hide Aggregates.Fold, Absorb, IsRated, NamesSorted, Opens;
    var next := AppendTo(row, o, reason, t, cfg);
    assert next.evidence == row.evidence + [Evidence(o, reason)];
    assert Observations(next) == Observations(row) + [o];
    forall i | 0 < i < |next.evidence|
      ensures Gap(next, i) <= cfg.windowSeconds &&
        next.evidence[i].reason == WithinWindow(Gap(next, i), cfg.windowSeconds)
    {
      assert Observations(next)[..i] == Observations(row)[..i];
      if i == |row.evidence| {
        assert Observations(row)[..i] == Observations(row);
        assert AggregatesOf(row).last == row.lastEvidenceAt;
      } else {
        assert Gap(next, i) == Gap(row, i);
      }
    }
  }

  lemma SameEvidenceGaps(row: IncidentRow, row': IncidentRow, window: real)
    requires row'.evidence == row.evidence && GapsWithin(row, window)
    ensures GapsWithin(row', window)
  {
    hide Aggregates.Fold;
    assert Observations(row') == Observations(row);
    forall i | 0 < i < |row.evidence| ensures Gap(row', i) == Gap(row, i) { }
  }

  lemma NewGaps(s: Signal, id: string, reason: CorrelationReason, t: Ticks, cfg: Config)
    requires Opens(reason, cfg.windowSeconds)
    ensures GapsWithin(NewIncident(s, id, reason, t, cfg), cfg.windowSeconds)
  {
    hide Absorb, Aggregates.Fold;
  }

  lemma ProcessGaps(db: Db, s: Signal, newId: string, t: Ticks, cfg: Config)
    requires DbInv(db, cfg) && RowsGapsWithin(db, cfg.windowSeconds)
    ensures RowsGapsWithin(ProcessDb(db, s, newId, t, cfg), cfg.windowSeconds)
  {
    hide GapsWithin, AgreesWithEvidence, HistoryLegal, NewIncident, AppendTo, EvidenceConsistent;
    var db' := ProcessDb(db, s, newId, t, cfg);
    match FindActive(db, s.Key())
    case None =>
      NewGaps(s, newId, NoActiveIncident, t, cfg);
      NewIncidentIdentity(s, newId, NoActiveIncident, t, cfg);
    case Some(id) =>
      var row := db.incidents[id];
      var d := Decide(s.obs, Some(row), cfg.windowSeconds);
      if d.action == Append {
        AppendGaps(row, s.obs, d.reason, t, cfg);
        AppendKeeps(row, s.obs, d.reason, t, cfg);
      } else {
        SameEvidenceGaps(row, AutoResolve(row, d.reason, t), cfg.windowSeconds);
        NewGaps(s, newId, d.reason, t, cfg);
        NewIncidentIdentity(s, newId, d.reason, t, cfg);
      }
  }

  lemma LifecycleGaps(st: Store, e: Event, cfg: Config)
    requires e.Lifecycle? && RowsGapsWithin(st.db, cfg.windowSeconds)
    ensures RowsGapsWithin(LifecycleStep(st, e.id, e.target, e.actor, e.reason, e.now).db, cfg.windowSeconds)
  {
    hide GapsWithin;
    if e.id in st.db.incidents {
      var row := st.db.incidents[e.id];
      SameEvidenceGaps(row, ApplyTransition(row, e.target, e.actor, e.reason, e.now), cfg.windowSeconds);
    }
  }

  /**
   In every serially reachable store, every signal after the first occurred within the window after the
   evidence its incident had by then, and every incident was opened because none was active or the
   active one had been quiet for longer: decisions are right over whole runs, not only one by one.
   */
  lemma {:induction false} NoIncidentSpansQuiet(states: seq<Store>, events: seq<Event>, cfg: Config, n: nat)
    requires IsRun(states, events, cfg) && n < |states|
    ensures RowsGapsWithin(states[n].db, cfg.windowSeconds)
  {
    hide GapsWithin, ProcessDb, LifecycleStep, DbInv;
    if n > 0 {
      NoIncidentSpansQuiet(states, events, cfg, n - 1);
      RunInv(states, events, cfg, n - 1);
      assert Next(states[n - 1], events[n - 1], cfg, states[n]);
      match events[n - 1] {
        case Anomaly(s, newId, t) => ProcessGaps(states[n - 1].db, s, newId, t, cfg);
        case Lifecycle(_, _, _, _, _) => LifecycleGaps(states[n - 1], events[n - 1], cfg);
      }
    }
  }
}
