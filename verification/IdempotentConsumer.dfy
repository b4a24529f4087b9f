/**
 The at-least-once consumer of one partition, driving the idempotent incident processor.

 Processing one record is a sequence of effects on the outside world, one per await: call the
 handler, offer the record to the dead-letter topic, commit the offset. A crash cuts the sequence
 anywhere; the next session resumes at the committed offset. Handler results, commit failures
 and crashes are arbitrary.
 */
module IdempotentConsumer {
  import opened Prelude
  import opened IncidentDomain
  import opened Correlation
  import opened SerialStore
  import opened SerialInvariants

  datatype Record = Malformed | Event(s: Signal)

  datatype Result = Returned | Rejected | Retryable | Unexpected

  /**
   One handler call: whether its unit of work committed (with the id and clock it drew), and how the
   call ended. A call can fail after its unit of work has committed.
   */
  datatype Attempt = Attempt(applied: bool, newId: string, t: Ticks, result: Result)

  /** A commit may raise although the broker has stored the offset. */
  datatype CommitResult = Acknowledged | Raised(stored: bool)

  datatype Script = Script(attempts: seq<Attempt>, commit: CommitResult, lastCommit: CommitResult)

  datatype Effect = Handled(a: Attempt) | DlqOffered | Committed(r: CommitResult)

  ghost predicate ValidScript(sc: Script, maxRetries: int) {
    |sc.attempts| >= maxRetries && forall a | a in sc.attempts :: a.result == Returned ==> a.applied
  }

  function DlqAndCommit(sc: Script): (r: seq<Effect>) {
    [DlqOffered, Committed(sc.lastCommit)]
  }

  /** The record is attempted again. */
  predicate TriesAgain(sc: Script, n: int, maxRetries: int)
    requires 1 <= n <= |sc.attempts|
  {
    sc.attempts[n - 1].result == Retryable && n < maxRetries
  }

  /** The effects of attempt `n`; a commit that raises inside the try block counts as an unexpected failure. */
  function AttemptEffects(sc: Script, n: int, maxRetries: int): (r: seq<Effect>)
    requires 1 <= n <= |sc.attempts|
  {
    var a := sc.attempts[n - 1];
    if TriesAgain(sc, n, maxRetries) then [Handled(a)]
    else if a.result != Returned then [Handled(a)] + DlqAndCommit(sc)
    else if sc.commit.Acknowledged? then [Handled(a), Committed(sc.commit)]
    else [Handled(a), Committed(sc.commit)] + DlqAndCommit(sc)
  }

  function FromAttempt(sc: Script, n: int, maxRetries: int): (r: seq<Effect>)
    requires 1 <= n && |sc.attempts| >= maxRetries
    decreases maxRetries - n
  {
    if n > maxRetries then []
    else if TriesAgain(sc, n, maxRetries) then AttemptEffects(sc, n, maxRetries) + FromAttempt(sc, n + 1, maxRetries)
    else AttemptEffects(sc, n, maxRetries)
  }

  function Trace(record: Record, sc: Script, maxRetries: int): (r: seq<Effect>)
    requires |sc.attempts| >= maxRetries
  {
    if record.Malformed? then DlqAndCommit(sc) else FromAttempt(sc, 1, maxRetries)
  }

  /** The last commit raised, so the exception leaves the processing loop. */
  predicate EndsRaised(trace: seq<Effect>) {
    trace != [] && trace[|trace| - 1].Committed? && trace[|trace| - 1].r.Raised?
  }

  /** The last effect acknowledged the offset, straight after `before`. */
  predicate EndsAfter(trace: seq<Effect>, dlq: bool) {
    && |trace| >= 2 && trace[|trace| - 1] == Committed(CommitResult.Acknowledged)
    && (if dlq then trace[|trace| - 2] == DlqOffered else trace[|trace| - 2].Handled?)
  }

  lemma NothingEnds()
    ensures !EndsAfter([], true) && !EndsAfter([], false) && !EndsRaised([])
  {
  }

  function One(b: bool): (r: nat) { if b then 1 else 0 }

  // ---------------------------------------------------------------- the retry policy

  /** What follows the last attempt at a record. */
  function Aftermath(sc: Script, result: Result): (r: seq<Effect>) {
    match result
    case Returned =>
      if sc.commit == CommitResult.Acknowledged then [Committed(sc.commit)]
      else [Committed(sc.commit), DlqOffered, Committed(sc.lastCommit)]
    case Rejected => [DlqOffered, Committed(sc.lastCommit)]
    case Retryable => [DlqOffered, Committed(sc.lastCommit)]
    case Unexpected => [DlqOffered, Committed(sc.lastCommit)]
  }

  function Calls(attempts: seq<Attempt>): (r: seq<Effect>) {
    seq(|attempts|, i requires 0 <= i < |attempts| => Handled(attempts[i]))
  }

  /**
   The handler is called for the first `c` of the attempts allowed, every time but the last with a
   retryable failure; a retryable failure is the last only when no attempt is left; then comes the
   aftermath of the last.
   */
  ghost predicate StopsAfter(sc: Script, allowed: seq<Attempt>, c: nat, trace: seq<Effect>) {
    && 1 <= c <= |allowed|
    && (forall i | 0 <= i < c - 1 :: allowed[i].result == Retryable)
    && (allowed[c - 1].result == Retryable ==> c == |allowed|)
    && trace == Calls(allowed[..c]) + Aftermath(sc, allowed[c - 1].result)
  }

  /** The whole trace of a record: dead-lettered unread, never attempted, or attempted and stopped. */
  ghost predicate FollowsPolicy(record: Record, sc: Script, maxRetries: int, trace: seq<Effect>)
    requires |sc.attempts| >= maxRetries
  {
    if record.Malformed? then trace == [DlqOffered, Committed(sc.lastCommit)]
    else if maxRetries < 1 then trace == []
    else exists c :: StopsAfter(sc, sc.attempts[..maxRetries], c, trace)
  }

  lemma StopsLater(sc: Script, a: Attempt, rest: seq<Attempt>, c: nat, trace: seq<Effect>)
    requires a.result == Retryable && StopsAfter(sc, rest, c, trace)
    ensures StopsAfter(sc, [a] + rest, c + 1, [Handled(a)] + trace)
  {
    var allowed := [a] + rest;
    forall i | 0 <= i < c ensures allowed[i].result == Retryable { assert i > 0 ==> allowed[i] == rest[i - 1]; }
    assert allowed[..c + 1] == [a] + rest[..c];
    assert Calls([a] + rest[..c]) == [Handled(a)] + Calls(rest[..c]);
    assert allowed[c] == rest[c - 1];
  }

  lemma {:induction false} AttemptsStop(sc: Script, n: nat, maxRetries: int) returns (c: nat)
    requires 1 <= n <= maxRetries <= |sc.attempts|
    ensures StopsAfter(sc, sc.attempts[n - 1..maxRetries], c, FromAttempt(sc, n, maxRetries))
    decreases maxRetries - n
  {
    var a, allowed := sc.attempts[n - 1], sc.attempts[n - 1..maxRetries];
    if TriesAgain(sc, n, maxRetries) {
      hide FromAttempt;
      c := AttemptsStop(sc, n + 1, maxRetries);
      hide StopsAfter;
      assert allowed == [a] + sc.attempts[n..maxRetries];
      StopsLater(sc, a, sc.attempts[n..maxRetries], c, FromAttempt(sc, n + 1, maxRetries));
      FromAttemptStep(sc, n, maxRetries);
      c := c + 1;
    } else {
      c := 1;
      assert allowed[..1] == [a] && Calls([a]) == [Handled(a)];
    }
  }

  lemma FromAttemptStep(sc: Script, n: nat, maxRetries: int)
    requires 1 <= n <= maxRetries <= |sc.attempts| && TriesAgain(sc, n, maxRetries)
    ensures FromAttempt(sc, n, maxRetries) == [Handled(sc.attempts[n - 1])] + FromAttempt(sc, n + 1, maxRetries)
  {
  }

  /** The policy leaves nothing open. */
  lemma PolicyDeterminesTrace(record: Record, sc: Script, maxRetries: int, t: seq<Effect>, u: seq<Effect>)
    requires |sc.attempts| >= maxRetries
    requires FollowsPolicy(record, sc, maxRetries, t) && FollowsPolicy(record, sc, maxRetries, u)
    ensures t == u
  {
    if record.Event? && maxRetries >= 1 {
      var allowed := sc.attempts[..maxRetries];
      var j :| StopsAfter(sc, allowed, j, t);
      var k :| StopsAfter(sc, allowed, k, u);
      SameStop(sc, allowed, j, k, t, u);
    }
  }

  lemma SameStop(sc: Script, allowed: seq<Attempt>, j: nat, k: nat, t: seq<Effect>, u: seq<Effect>)
    requires StopsAfter(sc, allowed, j, t) && StopsAfter(sc, allowed, k, u)
    ensures j == k && t == u
  {
    assert allowed[if j < k then j - 1 else k - 1].result == Retryable || j == k;
  }

  /** Every record is treated as the policy says. */
  lemma TraceFollowsPolicy(record: Record, sc: Script, maxRetries: int)
    requires |sc.attempts| >= maxRetries
    ensures FollowsPolicy(record, sc, maxRetries, Trace(record, sc, maxRetries))
  {
    if record.Event? && maxRetries >= 1 {
      var c := AttemptsStop(sc, 1, maxRetries);
      assert sc.attempts[0..maxRetries] == sc.attempts[..maxRetries];
    }
  }

  class Consumer {
    const maxRetries: int
    var healthy: bool
    var processed: nat
    var rejected: nat

    constructor (maxRetries: int)
      ensures this.maxRetries == maxRetries && !healthy && processed == 0 && rejected == 0
    {
      this.maxRetries := maxRetries;
      healthy, processed, rejected := false, 0, 0;
    }

    method DeadLetter(sc: Script, trace0: seq<Effect>) returns (trace: seq<Effect>, raised: bool)
      modifies this`rejected
      ensures trace == trace0 + DlqAndCommit(sc)
      ensures raised == EndsRaised(trace)
      ensures rejected == old(rejected) + One(EndsAfter(trace, true)) && !EndsAfter(trace, false)
    {
      trace := trace0 + [DlqOffered];
      trace := trace + [Committed(sc.lastCommit)];
      raised := sc.lastCommit.Raised?;
      if !raised { rejected := rejected + 1; }
      assert trace == trace0 + DlqAndCommit(sc);
    }

    method TryOnce(sc: Script, n: int, trace0: seq<Effect>) returns (trace: seq<Effect>, raised: bool, again: bool)
      requires 1 <= n <= |sc.attempts| && n <= maxRetries
      modifies this`processed, this`rejected
      ensures trace == trace0 + AttemptEffects(sc, n, maxRetries)
      ensures again == TriesAgain(sc, n, maxRetries)
      ensures again ==> processed == old(processed) && rejected == old(rejected)
      ensures !again ==> raised == EndsRaised(trace) && processed == old(processed) + One(EndsAfter(trace, false))
      ensures !again ==> rejected == old(rejected) + One(EndsAfter(trace, true))
    {
      var a := sc.attempts[n - 1];
      trace := trace0 + [Handled(a)];
      raised, again := false, false;
      if a.result == Returned {
        trace := trace + [Committed(sc.commit)];
        if sc.commit.Acknowledged? {
          processed := processed + 1;
        } else {
          trace, raised := DeadLetter(sc, trace);
        }
      } else if a.result == Retryable && n != maxRetries {
        again := true;
      } else {
        trace, raised := DeadLetter(sc, trace);
      }
    }

    /** Handles one record: at most `maxRetries` attempts, then the dead-letter topic. */
    method ProcessOne(record: Record, sc: Script) returns (trace: seq<Effect>, raised: bool)
      requires |sc.attempts| >= maxRetries
      modifies this`processed, this`rejected
      ensures FollowsPolicy(record, sc, maxRetries, trace) && trace == Trace(record, sc, maxRetries)
      ensures raised == EndsRaised(trace)
      ensures processed == old(processed) + One(EndsAfter(trace, false))
      ensures rejected == old(rejected) + One(EndsAfter(trace, true))
    {
      hide AttemptEffects, EndsAfter, EndsRaised, FollowsPolicy;
      TraceFollowsPolicy(record, sc, maxRetries);
      trace, raised := [], false;
      if record.Malformed? {
        trace, raised := DeadLetter(sc, trace);
        assert DlqAndCommit(sc) == [] + DlqAndCommit(sc);
        return;
      }
      var n := 1;
      while n <= maxRetries
        invariant 1 <= n && (n == 1 || n <= maxRetries)
        invariant n == 1 ==> trace == []
        invariant trace + FromAttempt(sc, n, maxRetries) == FromAttempt(sc, 1, maxRetries)
        invariant processed == old(processed) && rejected == old(rejected)
        decreases maxRetries - n
      {
        var again;
        ghost var before := trace;
        trace, raised, again := TryOnce(sc, n, trace);
        if !again { return; }
        assert trace + FromAttempt(sc, n + 1, maxRetries) == before + FromAttempt(sc, n, maxRetries);
        n := n + 1;
      }
      raised := false;
      NothingEnds();
    }

    /**
     Runs over the records of a session in order until it is told to stop, which it notices before a
     record, or a commit raises out of it. Either way it is no longer healthy.
     */
    method Run(records: seq<Record>, scripts: seq<Script>, stopAt: nat) returns (traces: seq<seq<Effect>>, raised: bool)
      requires |scripts| == |records| && forall i | 0 <= i < |scripts| :: |scripts[i].attempts| >= maxRetries
      modifies this
      ensures !healthy && |traces| <= |records|
      ensures forall i | 0 <= i < |traces| :: traces[i] == Trace(records[i], scripts[i], maxRetries)
      ensures forall i | 0 <= i < |traces| - 1 :: !EndsRaised(traces[i])
      ensures raised <==> traces != [] && EndsRaised(traces[|traces| - 1])
      ensures !raised ==> |traces| == if stopAt < |records| then stopAt else |records|
    {
      hide Trace, EndsRaised;
      healthy := true;
      traces, raised := [], false;
      while |traces| < |records| && |traces| != stopAt && !raised
        invariant |traces| <= |records| && |traces| <= stopAt
        invariant forall i | 0 <= i < |traces| :: traces[i] == Trace(records[i], scripts[i], maxRetries)
        invariant forall i | 0 <= i < |traces| - 1 :: !EndsRaised(traces[i])
        invariant raised <==> traces != [] && EndsRaised(traces[|traces| - 1])
        decreases |records| - |traces|
      {
        var trace;
        trace, raised := ProcessOne(records[|traces|], scripts[|traces|]);
        traces := traces + [trace];
      }
      healthy := false;
    }
  }

  // ---------------------------------------------------------------- the partition, with crashes

  /** An event that took effect on the store: from the record at `offset`, or from outside this partition. */
  datatype Entry = Entry(offset: Option<nat>, event: SerialStore.Event)

  /** `entries` lists what took effect, in order, and `states` the stores from the empty one to `store`. */
  datatype World = World(
    committed: nat, store: Store, handled: set<nat>, offered: set<nat>, entries: seq<Entry>, states: seq<Store>)
  {
    function Record(offset: Option<nat>, event: SerialStore.Event, st: Store): (r: World) {
      this.(store := st, entries := entries + [Entry(offset, event)], states := states + [st])
    }

    function Handle(offset: nat): (r: World) { this.(handled := handled + {offset}) }
  }

  predicate Knows(w: World, id: string) {
    id in w.store.db.eventIds
  }

  /** Handling a record whose event is known changes nothing; otherwise it is one serial step on the store. */
  ghost predicate Handles(w: World, p: nat, s: Signal, a: Attempt, cfg: Config, w': World) {
    if Knows(w, s.obs.eventId) then w' == w.Handle(p)
    else
      var e := Anomaly(s, a.newId, a.t);
      Next(w.store, e, cfg, w'.store) && w' == w.Record(Some(p), e, w'.store).Handle(p)
  }

  ghost predicate Affects(w: World, p: nat, record: Record, e: Effect, cfg: Config, w': World) {
    match e
    case Handled(a) => if a.applied && record.Event? then Handles(w, p, record.s, a, cfg, w') else w' == w
    case DlqOffered => w' == w.(offered := w.offered + {p})
    case Committed(r) => w' == if r == Raised(false) then w else w.(committed := p + 1)
  }

  /** Another partition's event or a transition through the API, as one serial step. */
  ghost predicate Intrudes(w: World, e: SerialStore.Event, cfg: Config, w': World) {
    if e.Anomaly? && Knows(w, e.s.obs.eventId) then w' == w
    else Next(w.store, e, cfg, w'.store) && w' == w.Record(None, e, w'.store)
  }

  /** `pending` are the effects still to come for the record at `position`; a dead session only restarts. */
  datatype Session = Session(w: World, position: nat, pending: seq<Effect>, alive: bool)

  datatype Move = Poll(sc: Script) | Advance | Restart | Outside(e: SerialStore.Event)

  ghost predicate Step(log: seq<Record>, x: Session, m: Move, maxRetries: int, cfg: Config, x': Session) {
    match m
    case Poll(sc) =>
      && x.alive && x.pending == [] && x.position < |log| && ValidScript(sc, maxRetries)
      && var trace := Trace(log[x.position], sc, maxRetries);
      && x' == if trace == [] then x.(position := x.position + 1) else x.(pending := trace)
    case Advance =>
      && x.alive && x.pending != [] && x.position < |log|
      && Affects(x.w, x.position, log[x.position], x.pending[0], cfg, x'.w)
      && x' == if |x.pending| > 1 then Session(x'.w, x.position, x.pending[1..], true)
               else if EndsRaised(x.pending) then Session(x'.w, x.position, [], false)
               else Session(x'.w, x.position + 1, [], true)
    case Restart => x' == Session(x.w, x.w.committed, [], true)
    case Outside(e) => Intrudes(x.w, e, cfg, x'.w) && x' == x.(w := x'.w)
  }

  const Initial := Session(World(0, EmptyStore, {}, {}, [], [EmptyStore]), 0, [], true)

  ghost predicate IsRun(log: seq<Record>, xs: seq<Session>, ms: seq<Move>, maxRetries: int, cfg: Config) {
    && |xs| == |ms| + 1 && xs[0] == Initial
    && forall i | 0 <= i < |ms| :: Step(log, xs[i], ms[i], maxRetries, cfg, xs[i + 1])
  }

  // ---------------------------------------------------------------- what a run keeps

  /** An offset is committed only once the record has been handled or offered to the dead-letter topic. */
  predicate CommitsCovered(pending: seq<Effect>, covered: bool) {
    pending == [] ||
    match pending[0]
    case Handled(a) => CommitsCovered(pending[1..], covered || a.applied)
    case DlqOffered => CommitsCovered(pending[1..], true)
    case Committed(_) => covered && CommitsCovered(pending[1..], covered)
  }

  lemma DlqCovered(sc: Script, covered: bool)
    ensures CommitsCovered(DlqAndCommit(sc), covered)
  {
    var tail := DlqAndCommit(sc);
    assert tail[1..] == [Committed(sc.lastCommit)] && tail[1..][1..] == [];
    assert CommitsCovered(tail[1..], true);
  }

  /** Splits off the first effect of a trace. */
  lemma CoveredStep(first: Effect, rest: seq<Effect>, covered: bool)
    requires !first.Committed? || covered
    requires CommitsCovered(rest, covered || first.DlqOffered? || (first.Handled? && first.a.applied))
    ensures CommitsCovered([first] + rest, covered)
  {
    assert ([first] + rest)[1..] == rest;
  }

  ghost predicate EndsCommitted(trace: seq<Effect>) {
    trace != [] && trace[|trace| - 1].Committed?
  }

  lemma AttemptCovered(sc: Script, n: int, maxRetries: int, covered: bool, rest: seq<Effect>)
    requires 1 <= n <= maxRetries && ValidScript(sc, maxRetries)
    requires CommitsCovered(rest, covered || sc.attempts[n - 1].applied) && EndsCommitted(rest)
    ensures TriesAgain(sc, n, maxRetries) ==> CommitsCovered(AttemptEffects(sc, n, maxRetries) + rest, covered)
    ensures !TriesAgain(sc, n, maxRetries) ==>
      CommitsCovered(AttemptEffects(sc, n, maxRetries), covered) && EndsCommitted(AttemptEffects(sc, n, maxRetries))
  {
    hide CommitsCovered, DlqAndCommit;
    var a := sc.attempts[n - 1];
    assert a in sc.attempts;
    var c := covered || a.applied;
    var tail := DlqAndCommit(sc);
    DlqCovered(sc, c);
    DlqEnds(sc);
    CoveredStep(Handled(a), rest, covered);
    CoveredStep(Handled(a), tail, covered);
    if a.result == Returned {
      NothingCovered(c);
      CoveredStep(Committed(sc.commit), [], c);
      CoveredStep(Committed(sc.commit), tail, c);
      assert [Committed(sc.commit)] + [] == [Committed(sc.commit)];
      assert [Handled(a)] + [Committed(sc.commit)] == [Handled(a), Committed(sc.commit)];
      assert [Handled(a), Committed(sc.commit)] + tail == [Handled(a)] + ([Committed(sc.commit)] + tail);
      CoveredStep(Handled(a), [Committed(sc.commit)], covered);
      CoveredStep(Handled(a), [Committed(sc.commit)] + tail, covered);
    }
  }

  lemma NothingCovered(covered: bool)
    ensures CommitsCovered([], covered)
  {
  }

  lemma DlqEnds(sc: Script)
    ensures EndsCommitted(DlqAndCommit(sc))
  {
  }

  lemma {:induction false} AttemptsCovered(sc: Script, n: int, maxRetries: int, covered: bool)
    requires 1 <= n <= maxRetries && ValidScript(sc, maxRetries)
    ensures CommitsCovered(FromAttempt(sc, n, maxRetries), covered) && EndsCommitted(FromAttempt(sc, n, maxRetries))
    decreases maxRetries - n
  {
    hide CommitsCovered, AttemptEffects;
    var c := covered || sc.attempts[n - 1].applied;
    if TriesAgain(sc, n, maxRetries) {
      AttemptsCovered(sc, n + 1, maxRetries, c);
      AttemptCovered(sc, n, maxRetries, covered, FromAttempt(sc, n + 1, maxRetries));
    } else {
      DlqCovered(sc, c);
      DlqEnds(sc);
      AttemptCovered(sc, n, maxRetries, covered, DlqAndCommit(sc));
    }
  }

  lemma TraceCovered(record: Record, sc: Script, maxRetries: int, covered: bool)
    requires ValidScript(sc, maxRetries) && maxRetries >= 1
    ensures CommitsCovered(Trace(record, sc, maxRetries), covered) && EndsCommitted(Trace(record, sc, maxRetries))
  {
    hide CommitsCovered, FromAttempt, DlqAndCommit;
    DlqCovered(sc, covered);
    DlqEnds(sc);
    AttemptsCovered(sc, 1, maxRetries, covered);
  }

  // ---------------------------------------------------------------- exactly once

  function Events(entries: seq<Entry>): (r: seq<SerialStore.Event>) {
    seq(|entries|, i requires 0 <= i < |entries| => entries[i].event)
  }

  predicate Carries(e: SerialStore.Event, id: string) {
    e.Anomaly? && e.s.obs.eventId == id
  }

  ghost predicate Recorded(entries: seq<Entry>, id: string) {
    exists i :: 0 <= i < |entries| && Carries(entries[i].event, id)
  }

  /** The event was recorded from outside this partition. */
  ghost predicate Foreign(entries: seq<Entry>, id: string) {
    exists i :: 0 <= i < |entries| && entries[i].offset == None && Carries(entries[i].event, id)
  }

  predicate EventAt(log: seq<Record>, o: nat) {
    o < |log| && log[o].Event?
  }

  predicate SameEvent(log: seq<Record>, o: nat, o': nat) {
    EventAt(log, o) && EventAt(log, o') && log[o].s.obs.eventId == log[o'].s.obs.eventId
  }

  /** The first record, among those handled, that carries its event. */
  ghost predicate FirstHandled(log: seq<Record>, handled: set<nat>, o: nat) {
    o in handled && forall o' | o' in handled && o' < o :: !SameEvent(log, o', o)
  }

  /** The record at `o` took effect. */
  ghost predicate IsEffective(entries: seq<Entry>, o: nat) {
    exists i :: 0 <= i < |entries| && entries[i].offset == Some(o)
  }

  /** Own entries come from their records, in log order, and no event is recorded twice. */
  ghost predicate EntriesSound(log: seq<Record>, entries: seq<Entry>) {
    && (forall i | 0 <= i < |entries| && entries[i].offset.Some? ::
          EventAt(log, entries[i].offset.value) && entries[i].event.Anomaly?
          && entries[i].event.s == log[entries[i].offset.value].s)
    && (forall i, j | 0 <= i < j < |entries| && entries[i].offset.Some? && entries[j].offset.Some? ::
          entries[i].offset.value < entries[j].offset.value)
    && (forall i, j | 0 <= i < j < |entries| && entries[i].event.Anomaly? && entries[j].event.Anomaly? ::
          entries[i].event.s.obs.eventId != entries[j].event.s.obs.eventId)
  }

  /**
   Incidents, evidence and relations are those of a serial run over the entries; every event is among
   them at most once, own ones in log order; and a record is among them exactly when it is the first one
   handled of its event and the event did not come from outside.
   */
  ghost predicate ExactlyOnce(log: seq<Record>, w: World, cfg: Config) {
    && SerialStore.IsRun(w.states, Events(w.entries), cfg) && w.store == w.states[|w.entries|]
    && EntriesSound(log, w.entries)
    && (forall o: nat :: IsEffective(w.entries, o) <==>
          FirstHandled(log, w.handled, o) && EventAt(log, o) && !Foreign(w.entries, log[o].s.obs.eventId))
  }

  /** The store knows exactly the recorded events, and the event of every handled record is one. */
  ghost predicate HandledRecorded(log: seq<Record>, w: World) {
    && (forall id :: Knows(w, id) <==> Recorded(w.entries, id))
    && (forall o | o in w.handled :: EventAt(log, o) && Knows(w, log[o].s.obs.eventId))
  }

  ghost predicate HandledUpTo(w: World, position: nat) {
    forall o | o in w.handled :: o <= position
  }

  ghost predicate WorldInv(log: seq<Record>, w: World, position: nat, cfg: Config) {
    ExactlyOnce(log, w, cfg) && HandledRecorded(log, w) && HandledUpTo(w, position)
  }

  /** Every record below the committed offset was handled or offered to the dead-letter topic. */
  ghost predicate Covered(w: World) {
    forall o: nat | o < w.committed :: CoveredAt(w, o)
  }

  ghost predicate CoveredAt(w: World, o: nat) {
    o in w.handled || o in w.offered
  }

  ghost predicate SessionInv(log: seq<Record>, x: Session, cfg: Config) {
    && WorldInv(log, x.w, x.position, cfg) && Covered(x.w)
    && (x.w.committed == x.position || x.w.committed == x.position + 1)
    && (x.alive && x.pending == [] ==> x.w.committed == x.position)
    && (x.pending != [] ==> EndsCommitted(x.pending) && x.alive)
    && CommitsCovered(x.pending, CoveredAt(x.w, x.position))
    && (x.pending != [] ==> x.position < |log| && HandlesOnlyEvents(log[x.position], x.pending))
  }

  ghost predicate HandlesOnlyEvents(record: Record, pending: seq<Effect>) {
    record.Malformed? ==> forall e | e in pending :: !e.Handled?
  }

  // ---------------------------------------------------------------- one more entry

  lemma RunGrows(w: World, offset: Option<nat>, e: SerialStore.Event, st: Store, cfg: Config)
    requires SerialStore.IsRun(w.states, Events(w.entries), cfg) && w.store == w.states[|w.entries|]
    requires Next(w.store, e, cfg, st)
    ensures var w' := w.Record(offset, e, st);
      SerialStore.IsRun(w'.states, Events(w'.entries), cfg) && w'.store == w'.states[|w'.entries|]
  {
    hide Next;
    var w' := w.Record(offset, e, st);
    var events := Events(w'.entries);
    forall i | 0 <= i < |events| ensures Next(w'.states[i], events[i], cfg, w'.states[i + 1]) {
      if i < |w.entries| {
        assert Next(w.states[i], Events(w.entries)[i], cfg, w.states[i + 1]);
        assert w'.states[i] == w.states[i] && w'.states[i + 1] == w.states[i + 1];
      }
    }
  }

  /** An anomaly new to the store adds its event; a transition adds none. */
  lemma StepRecords(st: Store, e: SerialStore.Event, cfg: Config, st': Store)
    requires Next(st, e, cfg, st') && (e.Anomaly? ==> e.s.obs.eventId !in st.db.eventIds)
    ensures st'.db.eventIds == st.db.eventIds + if e.Anomaly? then {e.s.obs.eventId} else {}
  {
    hide NewIncident, AppendTo, LinksTo, ApplyTransition;
  }

  lemma RecordedGrows(entries: seq<Entry>, entry: Entry, id: string)
    ensures Recorded(entries + [entry], id) <==> Recorded(entries, id) || Carries(entry.event, id)
    ensures Foreign(entries + [entry], id) <==>
      Foreign(entries, id) || (entry.offset == None && Carries(entry.event, id))
  {
    var more := entries + [entry];
    assert more[|entries|] == entry;
    assert forall i | 0 <= i < |entries| :: more[i] == entries[i];
  }

  lemma EffectiveGrows(entries: seq<Entry>, entry: Entry, o: nat)
    ensures IsEffective(entries + [entry], o) <==> IsEffective(entries, o) || entry.offset == Some(o)
  {
    var more := entries + [entry];
    assert more[|entries|] == entry;
    assert forall i | 0 <= i < |entries| :: more[i] == entries[i];
  }

  /** The store's index of events follows the entries. */
  lemma KnownFollows(w: World, offset: Option<nat>, e: SerialStore.Event, st: Store, cfg: Config)
    requires forall id :: Knows(w, id) <==> Recorded(w.entries, id)
    requires Next(w.store, e, cfg, st) && (e.Anomaly? ==> !Knows(w, e.s.obs.eventId))
    ensures var w' := w.Record(offset, e, st);
      forall id :: (Knows(w', id) <==> Recorded(w'.entries, id)) && (Knows(w', id) <==> Knows(w, id) || Carries(e, id))
  {
    hide Recorded, Next;
    var w' := w.Record(offset, e, st);
    StepRecords(w.store, e, cfg, st);
    forall id ensures (Knows(w', id) <==> Recorded(w'.entries, id)) &&
      (Knows(w', id) <==> Knows(w, id) || Carries(e, id)) {
      RecordedGrows(w.entries, Entry(offset, e), id);
    }
  }

  /** A new event keeps the entries sound. */
  lemma EntriesStaySound(log: seq<Record>, entries: seq<Entry>, entry: Entry)
    requires EntriesSound(log, entries) && (entry.event.Anomaly? ==> !Recorded(entries, entry.event.s.obs.eventId))
    requires entry.offset.Some? ==>
      && EventAt(log, entry.offset.value) && entry.event.Anomaly? && entry.event.s == log[entry.offset.value].s
      && forall o: nat | IsEffective(entries, o) :: o < entry.offset.value
    ensures EntriesSound(log, entries + [entry])
  {
    forall i | 0 <= i < |entries| && entry.event.Anomaly? && entries[i].event.Anomaly?
      ensures entries[i].event.s.obs.eventId != entry.event.s.obs.eventId
    {
      assert !Carries(entries[i].event, entry.event.s.obs.eventId);
    }
    forall i | 0 <= i < |entries| && entry.offset.Some? && entries[i].offset.Some?
      ensures entries[i].offset.value < entry.offset.value
    {
      assert IsEffective(entries, entries[i].offset.value);
    }
  }

  // ---------------------------------------------------------------- effects

  /** A redelivered or repeated event is not the first of its kind, or came from outside. */
  lemma DuplicateKeeps(log: seq<Record>, w: World, p: nat, cfg: Config)
    requires WorldInv(log, w, p, cfg) && EventAt(log, p) && Knows(w, log[p].s.obs.eventId)
    ensures WorldInv(log, w.Handle(p), p, cfg)
  {
    hide SerialStore.IsRun, EntriesSound, Knows, Recorded, Foreign, FirstHandled, IsEffective;
    var w' := w.Handle(p);
    HandlingIsSeparate(w, p);
    forall o: nat ensures IsEffective(w.entries, o) <==>
      FirstHandled(log, w'.handled, o) && EventAt(log, o) && !Foreign(w.entries, log[o].s.obs.eventId)
    {
      if o == p && p !in w.handled {
        NotFirst(log, w, p, cfg);
      } else {
        FirstUnchanged(log, w, p, o);
      }
    }
  }

  lemma FirstUnchanged(log: seq<Record>, w: World, p: nat, o: nat)
    requires HandledUpTo(w, p) && (o != p || p in w.handled)
    ensures FirstHandled(log, w.Handle(p).handled, o) <==> FirstHandled(log, w.handled, o)
  {
    if o in w.handled {
      assert forall o' | o' < o :: o' in w.Handle(p).handled <==> o' in w.handled;
    }
  }

  lemma NotFirst(log: seq<Record>, w: World, p: nat, cfg: Config)
    requires WorldInv(log, w, p, cfg) && EventAt(log, p) && Knows(w, log[p].s.obs.eventId) && p !in w.handled
    ensures !IsEffective(w.entries, p)
    ensures FirstHandled(log, w.Handle(p).handled, p) ==> Foreign(w.entries, log[p].s.obs.eventId)
  {
    hide SerialStore.IsRun, Knows;
    var id := log[p].s.obs.eventId;
    var i :| 0 <= i < |w.entries| && Carries(w.entries[i].event, id);
    if w.entries[i].offset.Some? {
      var o := w.entries[i].offset.value;
      assert IsEffective(w.entries, o);
      assert SameEvent(log, o, p);
    }
  }

  lemma NewEventKeeps(log: seq<Record>, w: World, p: nat, e: SerialStore.Event, st: Store, cfg: Config)
    requires WorldInv(log, w, p, cfg) && EventAt(log, p) && e.Anomaly? && e.s == log[p].s
    requires !Knows(w, e.s.obs.eventId) && Next(w.store, e, cfg, st)
    ensures WorldInv(log, w.Record(Some(p), e, st).Handle(p), p, cfg)
  {
    hide Next, SerialStore.IsRun, EntriesSound, Knows, Recorded, Foreign, FirstHandled, IsEffective;
    var w' := w.Record(Some(p), e, st).Handle(p);
    RunGrows(w, Some(p), e, st, cfg);
    KnownFollows(w, Some(p), e, st, cfg);
    assert p !in w.handled;
    assert forall id :: Knows(w', id) <==>
      Knows(w.Record(Some(p), e, st), id) by { HandlingIsSeparate(w.Record(Some(p), e, st), p); }
    forall o: nat | IsEffective(w.entries, o) ensures o < p { FirstIsHandled(log, w.handled, o); }
    EntriesStaySound(log, w.entries, Entry(Some(p), e));
    forall o: nat ensures IsEffective(w'.entries, o) <==>
      FirstHandled(log, w'.handled, o) && EventAt(log, o) && !Foreign(w'.entries, log[o].s.obs.eventId)
    {
      EffectiveGrows(w.entries, Entry(Some(p), e), o);
      if EventAt(log, o) { RecordedGrows(w.entries, Entry(Some(p), e), log[o].s.obs.eventId); }
      FirstGrows(log, w, p, o, cfg);
    }
  }

  lemma HandlingIsSeparate(w: World, p: nat)
    ensures forall id :: Knows(w.Handle(p), id) <==> Knows(w, id)
  {
  }

  lemma FirstIsHandled(log: seq<Record>, handled: set<nat>, o: nat)
    ensures FirstHandled(log, handled, o) ==> o in handled
  {
  }

  /** Handling a record of a new event makes it the first of its kind and changes no other. */
  lemma FirstGrows(log: seq<Record>, w: World, p: nat, o: nat, cfg: Config)
    requires WorldInv(log, w, p, cfg) && EventAt(log, p) && !Knows(w, log[p].s.obs.eventId)
    ensures FirstHandled(log, w.handled + {p}, o) <==> o == p || FirstHandled(log, w.handled, o)
    ensures !Foreign(w.entries, log[p].s.obs.eventId)
  {
    hide SerialStore.IsRun, Knows, EntriesSound;
    assert !Recorded(w.entries, log[p].s.obs.eventId);
    if o != p && o in w.handled {
      assert forall o' | o' < o :: o' in w.handled + {p} <==> o' in w.handled;
    }
  }

  /** Handling the record at the current position keeps the exactly-once invariant. */
  lemma HandleKeeps(log: seq<Record>, w: World, p: nat, a: Attempt, cfg: Config, w': World)
    requires WorldInv(log, w, p, cfg) && EventAt(log, p) && Handles(w, p, log[p].s, a, cfg, w')
    ensures WorldInv(log, w', p, cfg)
  {
    hide WorldInv, Next, Knows;
    if Knows(w, log[p].s.obs.eventId) {
      DuplicateKeeps(log, w, p, cfg);
    } else {
      NewEventKeeps(log, w, p, Anomaly(log[p].s, a.newId, a.t), w'.store, cfg);
    }
  }

  lemma OtherEffectKeeps(log: seq<Record>, w: World, w': World, p: nat, cfg: Config)
    requires WorldInv(log, w, p, cfg) && w' == w.(committed := w'.committed, offered := w'.offered)
    ensures WorldInv(log, w', p, cfg)
  {
    hide SerialStore.IsRun, EntriesSound, FirstHandled, IsEffective, Foreign, Recorded;
    assert forall id :: Knows(w', id) <==> Knows(w, id);
  }

  lemma AdvanceKeeps(log: seq<Record>, w: World, p: nat, e: Effect, cfg: Config, w': World)
    requires WorldInv(log, w, p, cfg) && p < |log| && Affects(w, p, log[p], e, cfg, w')
    ensures WorldInv(log, w', p, cfg)
  {
    hide WorldInv, Handles;
    if e.Handled? && e.a.applied && log[p].Event? {
      HandleKeeps(log, w, p, e.a, cfg, w');
    } else {
      OtherEffectKeeps(log, w, w', p, cfg);
    }
  }

  /** What others do to the store leaves this partition's promise intact. */
  lemma IntrusionKeeps(log: seq<Record>, w: World, p: nat, e: SerialStore.Event, cfg: Config, w': World)
    requires WorldInv(log, w, p, cfg) && Intrudes(w, e, cfg, w')
    ensures WorldInv(log, w', p, cfg)
  {
    hide Next, SerialStore.IsRun, EntriesSound, Knows, Recorded, Foreign, FirstHandled, IsEffective;
    if !(e.Anomaly? && Knows(w, e.s.obs.eventId)) {
      RunGrows(w, None, e, w'.store, cfg);
      KnownFollows(w, None, e, w'.store, cfg);
      EntriesStaySound(log, w.entries, Entry(None, e));
      forall o: nat ensures IsEffective(w'.entries, o) <==>
        FirstHandled(log, w'.handled, o) && EventAt(log, o) && !Foreign(w'.entries, log[o].s.obs.eventId)
      {
        EffectiveGrows(w.entries, Entry(None, e), o);
        FirstIsHandled(log, w.handled, o);
        if EventAt(log, o) { RecordedGrows(w.entries, Entry(None, e), log[o].s.obs.eventId); }
      }
    }
  }

  lemma WorldInvLater(log: seq<Record>, w: World, p: nat, q: nat, cfg: Config)
    requires WorldInv(log, w, p, cfg) && p <= q
    ensures WorldInv(log, w, q, cfg)
  {
    hide ExactlyOnce, HandledRecorded;
  }

  /** One effect keeps every offset below the committed one covered. */
  lemma EffectCovers(log: seq<Record>, w: World, p: nat, pending: seq<Effect>, cfg: Config, w': World)
    requires Covered(w) && (w.committed == p || w.committed == p + 1) && p < |log| && pending != []
    requires CommitsCovered(pending, CoveredAt(w, p)) && (pending[0].Handled? && pending[0].a.applied ==> log[p].Event?)
    requires Affects(w, p, log[p], pending[0], cfg, w')
    ensures Covered(w') && (w'.committed == w.committed || w'.committed == p + 1)
    ensures CommitsCovered(pending[1..], CoveredAt(w', p))
    ensures pending[0].Committed? && pending[0].r.Acknowledged? ==> w'.committed == p + 1
  {
    hide Next;
    assert forall o: nat :: CoveredAt(w, o) ==> CoveredAt(w', o);
    if pending[0].Committed? {
      forall o: nat | o < p + 1 ensures CoveredAt(w', o) { assert o < p ==> CoveredAt(w, o); }
    }
  }

  lemma PollKeeps(log: seq<Record>, x: Session, sc: Script, maxRetries: int, cfg: Config, x': Session)
    requires SessionInv(log, x, cfg) && maxRetries >= 1 && Step(log, x, Poll(sc), maxRetries, cfg, x')
    ensures SessionInv(log, x', cfg)
  {
    hide WorldInv, Covered, CommitsCovered, Trace;
    TraceCovered(log[x.position], sc, maxRetries, CoveredAt(x.w, x.position));
    MalformedIsNotHandled(log[x.position], sc, maxRetries);
  }

  lemma MalformedIsNotHandled(record: Record, sc: Script, maxRetries: int)
    requires |sc.attempts| >= maxRetries
    ensures HandlesOnlyEvents(record, Trace(record, sc, maxRetries))
  {
    hide FromAttempt;
  }

  lemma AdvanceKeepsSession(log: seq<Record>, x: Session, maxRetries: int, cfg: Config, x': Session)
    requires SessionInv(log, x, cfg) && Step(log, x, Advance, maxRetries, cfg, x')
    ensures SessionInv(log, x', cfg)
  {
    hide WorldInv, Covered, CommitsCovered, Affects, CoveredAt;
    var e := x.pending[0];
    EffectCovers(log, x.w, x.position, x.pending, cfg, x'.w);
    AdvanceKeeps(log, x.w, x.position, e, cfg, x'.w);
    WorldInvLater(log, x'.w, x.position, x'.position, cfg);
    if |x.pending| == 1 {
      assert x'.pending == [];
      NothingCovered(CoveredAt(x'.w, x'.position));
    } else {
      assert x.pending[1..][|x.pending| - 2] == x.pending[|x.pending| - 1];
    }
  }

  lemma RestartKeeps(log: seq<Record>, x: Session, cfg: Config, x': Session)
    requires SessionInv(log, x, cfg) && x' == Session(x.w, x.w.committed, [], true)
    ensures SessionInv(log, x', cfg)
  {
    hide WorldInv, Covered;
    WorldInvLater(log, x.w, x.position, x'.position, cfg);
  }

  lemma OutsideKeeps(log: seq<Record>, x: Session, e: SerialStore.Event, maxRetries: int, cfg: Config, x': Session)
    requires SessionInv(log, x, cfg) && Step(log, x, Outside(e), maxRetries, cfg, x')
    ensures SessionInv(log, x', cfg)
  {
    hide WorldInv, CommitsCovered, Next;
    IntrusionKeeps(log, x.w, x.position, e, cfg, x'.w);
    assert forall o: nat :: CoveredAt(x'.w, o) <==> CoveredAt(x.w, o);
  }

  lemma InitialInv(log: seq<Record>, cfg: Config)
    ensures SessionInv(log, Initial, cfg)
  {
    hide ProcessDb, Next;
    assert Events([]) == [];
  }

  lemma {:induction false} RunKeepsSession(log: seq<Record>, xs: seq<Session>, ms: seq<Move>, maxRetries: int,
                                           cfg: Config, n: nat)
    requires maxRetries >= 1 && IsRun(log, xs, ms, maxRetries, cfg) && n < |xs|
    ensures SessionInv(log, xs[n], cfg)
  {
    hide WorldInv, Covered, CommitsCovered, Affects, Intrudes, CoveredAt, Trace, ExactlyOnce, HandledRecorded,
      SessionInv;
    if n == 0 {
      InitialInv(log, cfg);
    } else {
      RunKeepsSession(log, xs, ms, maxRetries, cfg, n - 1);
      assert Step(log, xs[n - 1], ms[n - 1], maxRetries, cfg, xs[n]);
      match ms[n - 1] {
        case Poll(sc) => PollKeeps(log, xs[n - 1], sc, maxRetries, cfg, xs[n]);
        case Advance => AdvanceKeepsSession(log, xs[n - 1], maxRetries, cfg, xs[n]);
        case Restart => RestartKeeps(log, xs[n - 1], cfg, xs[n]);
        case Outside(e) => OutsideKeeps(log, xs[n - 1], e, maxRetries, cfg, xs[n]);
      }
    }
  }

  /**
   For any log, any schedule of handler outcomes, commit failures, crashes, redeliveries and steps of
   others on the store, and at least one attempt a record: the store is that of a serial run in which
   each handled event takes effect once, this partition's in log order; and every record below the
   committed offset was handled or offered to the dead-letter topic.
   */
  lemma ExactlyOnceEffect(log: seq<Record>, xs: seq<Session>, ms: seq<Move>, maxRetries: int, cfg: Config, n: nat)
    requires maxRetries >= 1 && IsRun(log, xs, ms, maxRetries, cfg) && n < |xs|
    ensures ExactlyOnce(log, xs[n].w, cfg) && HandledRecorded(log, xs[n].w) && Covered(xs[n].w)
    ensures SerialStore.Inv(xs[n].w.store, cfg)
  {
    hide IsRun, SerialStore.Inv, SerialStore.IsRun, ExactlyOnce, HandledRecorded, Covered, SessionInv;
    RunKeepsSession(log, xs, ms, maxRetries, cfg, n);
    SessionInvParts(log, xs[n], cfg);
    StoreInv(log, xs[n].w, cfg);
  }

  lemma StoreInv(log: seq<Record>, w: World, cfg: Config)
    requires ExactlyOnce(log, w, cfg)
    ensures SerialStore.Inv(w.store, cfg)
  {
    hide SerialStore.Inv, Next;
    RunInv(w.states, Events(w.entries), cfg, |w.entries|);
  }

  lemma SessionInvParts(log: seq<Record>, x: Session, cfg: Config)
    requires SessionInv(log, x, cfg)
    ensures ExactlyOnce(log, x.w, cfg) && HandledRecorded(log, x.w) && Covered(x.w)
  {
    hide ExactlyOnce, HandledRecorded, Covered, CommitsCovered;
  }

  /** Every run over every log leaves no uncovered record below the committed offset. */
  ghost predicate AlwaysCovered(maxRetries: int, cfg: Config) {
    forall log, xs: seq<Session>, ms, n: nat | IsRun(log, xs, ms, maxRetries, cfg) && n < |xs| :: Covered(xs[n].w)
  }

  /** No record is lost, in any run, exactly when at least one attempt a record is configured. */
  lemma CoveredExactlyWhenRetrying(maxRetries: int, cfg: Config)
    ensures AlwaysCovered(maxRetries, cfg) <==> maxRetries >= 1
  {
    hide IsRun, Covered;
    if maxRetries >= 1 {
      forall log, xs: seq<Session>, ms, n: nat | IsRun(log, xs, ms, maxRetries, cfg) && n < |xs|
        ensures Covered(xs[n].w) {
        ExactlyOnceEffect(log, xs, ms, maxRetries, cfg, n);
      }
    } else {
      var log, xs, ms := NoAttemptLosesRecord(maxRetries, cfg);
      assert !Covered(xs[4].w);
    }
  }

  /** Without attempts a well-formed record is skipped, and the commit of a later malformed one passes it. */
  lemma NoAttemptLosesRecord(maxRetries: int, cfg: Config) returns (log: seq<Record>, xs: seq<Session>, ms: seq<Move>)
    requires maxRetries < 1
    ensures IsRun(log, xs, ms, maxRetries, cfg) && |xs| == 5 && !Covered(xs[4].w)
  {
    hide Next;
    var s: Signal :| true;
    log := [Event(s), Malformed];
    var sc := Script([], CommitResult.Acknowledged, CommitResult.Acknowledged);
    var w0 := World(0, EmptyStore, {}, {}, [], [EmptyStore]);
    var w1 := w0.(offered := {1});
    var w2 := w1.(committed := 2);
    var last := [Committed(CommitResult.Acknowledged)];
    var tail := DlqAndCommit(sc);
    assert tail[1..] == last;
    xs := [Initial, Session(w0, 1, [], true), Session(w0, 1, tail, true), Session(w1, 1, last, true),
      Session(w2, 2, [], true)];
    ms := [Poll(sc), Poll(sc), Advance, Advance];
    assert Trace(log[0], sc, maxRetries) == [];
    assert Step(log, xs[0], ms[0], maxRetries, cfg, xs[1]);
    assert Step(log, xs[1], ms[1], maxRetries, cfg, xs[2]);
    assert Step(log, xs[2], ms[2], maxRetries, cfg, xs[3]);
    assert Step(log, xs[3], ms[3], maxRetries, cfg, xs[4]);
    assert !CoveredAt(xs[4].w, 0);
  }
}
