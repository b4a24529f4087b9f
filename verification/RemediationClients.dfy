/**
 Concurrent service calls on the remediation tables.

 A call reads the record once, checks its guards on that read, and then performs one or two
 transactions; between any two of its steps other calls run. It can stop at any point. Policy engine,
 catalogue, executor, verifier and clocks answer arbitrarily.
 */
module RemediationClients {
  import opened Prelude
  import opened RemediationDomain
  import opened RemediationRepository

  /** One real call of the executor. */
  datatype Run = Run(remediationId: string, executionId: string, startedAt: real)

  /** How far a call has come, with what it remembers. */
  datatype Call =
    | DecidePending(stale: Record, approval: Approval)
    | ExecutePending(stale: Record, pending: Execution)
    | Claimed(remediationId: string, pending: Execution)
    | Ran(remediationId: string, result: Execution, final: Status)
    | VerifyPending(stale: Record, check: Verification)
    | Checking(remediationId: string, check: Verification)

  datatype World = World(tables: Tables, calls: map<nat, Call>, runs: seq<Run>)

  datatype ExecutorAnswer = Finished(status: ExecutionStatus) | ExecutorError | Crashed

  datatype Action =
    | Propose(proposal: Proposal, allowed: bool)
    | StartDecide(id: string, decision: Decision, role: Role, identity: string, now: real)
    | CommitDecision
    | DryRun(id: string, listed: bool, now: real)
    | StartExecute(id: string, executionId: string, listed: bool, now: real)
    | Claim
    | CallExecutor(answer: ExecutorAnswer)
    | CommitExecution
    | StartVerify(id: string, verificationId: string, now: real)
    | ClaimVerification
    | CommitVerification(recovered: bool)
    | Stop

  function Next(w: World, c: nat, call: Call): (r: World) { w.(calls := w.calls[c := call]) }

  function End(w: World, c: nat): (r: World) { w.(calls := w.calls - {c}) }

  /** After a transaction: on success the call goes on as `call`, or ends; on an error it ends. */
  function After(w: World, c: nat, o: Outcome<Tables>, call: Option<Call>): (r: World) {
    match o
    case Err(_) => End(w, c)
    case Ok(t) => if call.Some? then Next(w.(tables := t), c, call.value) else End(w.(tables := t), c)
  }

  function NewRecord(p: Proposal, allowed: bool): (r: Record) {
    Record(p.(status := if allowed then PendingApproval else Blocked), allowed, None, None, None)
  }

  /** Reads and guards of `decide`. */
  function StartDecision(w: World, c: nat, id: string, d: Decision, role: Role, identity: string,
                         now: real): (r: World) {
    if id !in w.tables.records then w else
    var r := w.tables.records[id];
    if CheckDecidable(r, d, role, now).Some? || !CanTransition(r.Status(), DecisionStatus(d)) then w
    else Next(w, c, DecidePending(r, Approval(id, d, role, identity, now)))
  }

  function StartExecution(w: World, c: nat, id: string, executionId: string, listed: bool, now: real): (r: World) {
    if id !in w.tables.records then w else
    var r := w.tables.records[id];
    if CheckExecutable(r, listed, now).Some? then w
    else Next(w, c, ExecutePending(r, Execution(executionId, id, Started, now)))
  }

  /** A verdict already stored is returned as it is; a verification in progress is refused. */
  function StartVerification(w: World, c: nat, id: string, verificationId: string, now: real): (r: World) {
    if id !in w.tables.records then w else
    var r := w.tables.records[id];
    if CheckVerifiable(r).Some? then w
    else Next(w, c, VerifyPending(r, Verification(verificationId, id, r.execution.value.executionId, None, now)))
  }

  function RunExecutor(w: World, c: nat, id: string, pending: Execution, answer: ExecutorAnswer): (r: World) {
    var w1 := w.(runs := w.runs + [Run(id, pending.executionId, pending.startedAt)]);
    match answer
    case Finished(s) => Next(w1, c, Ran(id, pending.(status := s), Executed))
    case ExecutorError => Next(w1, c, Ran(id, pending.(status := Failed), ExecutionFailed))
    case Crashed => End(w1, c)
  }

  /** One step of call `c`; a step that does not apply changes nothing. */
  function Step(w: World, c: nat, a: Action): (r: World) {
    match a
    case Propose(p, allowed) =>
      var o := Create(w.tables, NewRecord(p, allowed), ProposalEvents(p.remediationId, allowed));
      if o.Ok? then w.(tables := o.value) else w
    case StartDecide(id, d, role, identity, now) =>
      if c in w.calls then w else StartDecision(w, c, id, d, role, identity, now)
    case StartExecute(id, executionId, listed, now) =>
      if c in w.calls then w else StartExecution(w, c, id, executionId, listed, now)
    case StartVerify(id, verificationId, now) =>
      if c in w.calls then w else StartVerification(w, c, id, verificationId, now)
    case DryRun(id, listed, now) => w
    case Stop => End(w, c)
    case _ => if c in w.calls then Proceed(w, c, w.calls[c], a) else w
  }

  function Proceed(w: World, c: nat, call: Call, a: Action): (r: World) {
    match (call, a)
    case (DecidePending(r, approval), CommitDecision) =>
      var s := DecisionStatus(approval.decision);
      After(w, c, RecordDecision(w.tables, r.Id(), r.proposal.(status := s), approval,
                                 DecisionEvents(r.Id(), approval.decision, r.Status())), None)
    case (ExecutePending(r, pending), Claim) =>
      After(w, c, BeginExecution(w.tables, r.Id(), pending, ClaimEvents(r.Id())), Some(Claimed(r.Id(), pending)))
    case (Claimed(id, pending), CallExecutor(answer)) => RunExecutor(w, c, id, pending, answer)
    case (Ran(id, result, final), CommitExecution) =>
      After(w, c, FinishExecution(w.tables, id, result, final, FinishEvents(id, final)), None)
    case (VerifyPending(r, check), ClaimVerification) =>
      After(w, c, BeginVerification(w.tables, r.Id(), check, VerifyEvents(r.Id())), Some(Checking(r.Id(), check)))
    case (Checking(id, check), CommitVerification(recovered)) =>
      var final := if recovered then Recovered else RecoveryFailed;
      After(w, c, FinishVerification(w.tables, id, check.(outcome := Some(recovered)), final,
        VerdictEvents(id, final)), None)
    case _ => w
  }

  const Initial := World(EmptyTables, map[], [])

  predicate IsRun(ws: seq<World>, cs: seq<nat>, acts: seq<Action>) {
    && |ws| == |acts| + 1 && |cs| == |acts| && ws[0] == Initial
    && forall i | 0 <= i < |acts| :: ws[i + 1] == Step(ws[i], cs[i], acts[i])
  }

  // ---------------------------------------------------------------- one record

  /** An approval by a role entitled to the catalogue risk of the action, given before expiry. */
  predicate ValidApproval(r: Record) {
    && r.approval.Some? && r.approval.value.decision == Approve && r.approval.value.remediationId == r.Id()
    && CanApprove(r.approval.value.role, r.proposal.action) && r.approval.value.decidedAt < r.proposal.expiresAt
  }

  /** The execution started before expiry. */
  predicate ValidExecution(r: Record) {
    r.execution.Some? && r.execution.value.startedAt < r.proposal.expiresAt && r.execution.value.remediationId == r.Id()
  }

  /** Approved and run: the execution's outcome is not known from the status alone. */
  predicate HasRunLawfully(r: Record) {
    r.policyAllows && ValidApproval(r) && ValidExecution(r)
  }

  /** Its execution succeeded and its verification says `outcome`. */
  predicate HasVerification(r: Record, outcome: Option<bool>) {
    && HasRunLawfully(r) && r.execution.value.status == Succeeded
    && r.verification.Some? && r.verification.value.outcome == outcome
  }

  /** What the status says about approval, execution and verification. */
  predicate StatusMeans(r: Record) {
    match r.Status()
    case Blocked => !r.policyAllows && r.approval == None && r.execution == None && r.verification == None
    case PendingApproval => r.policyAllows && r.approval == None && r.execution == None && r.verification == None
    case Rejected =>
      && r.policyAllows && r.approval.Some? && r.approval.value.decision == Reject
      && r.execution == None && r.verification == None
    case Approved => r.policyAllows && ValidApproval(r) && r.execution == None && r.verification == None
    case Executing => HasRunLawfully(r) && r.verification == None
    case Executed => HasRunLawfully(r) && r.verification == None
    case ExecutionFailed => HasRunLawfully(r) && r.verification == None
    case Verifying => HasVerification(r, None)
    case Recovered => HasVerification(r, Some(true))
    case RecoveryFailed => HasVerification(r, Some(false))
    case _ => false
  }

  /** A stored record is filed under its id, and its side rows are those it carries. */
  predicate SideRows(t: Tables, id: string)
    requires id in t.records
  {
    var r := t.records[id];
    && r.Id() == id
    && (if r.execution.Some? then id in t.executions && t.executions[id] == r.execution.value else id !in t.executions)
    && (if r.verification.Some? then id in t.verifications && t.verifications[id] == r.verification.value
        else id !in t.verifications)
  }

  /** Row, side tables and audit trail of one remediation agree. */
  predicate RecordInv(t: Tables, id: string)
    requires id in t.records
  {
    var r := t.records[id];
    SideRows(t, id) && StatusMeans(r) && Stored(r.Status()) && TrailOf(t.audit, id) == LifecycleWord(id, r.Status())
  }

  /** The statuses a remediation may still reach. */
  function Onward(s: Status): (r: set<Status>)
    decreases 5 - Depth(s)
  {
    match s
    case PendingApproval => {PendingApproval, Rejected} + Onward(Approved)
    case Approved => {Approved} + Onward(Executing)
    case Executing => {Executing, ExecutionFailed} + Onward(Executed)
    case Executed => {Executed} + Onward(Verifying)
    case Verifying => {Verifying, Recovered, RecoveryFailed}
    case _ => {s}
  }

  lemma OnwardTransitive(a: Status, b: Status, c: Status)
    requires b in Onward(a) && c in Onward(b)
    ensures c in Onward(a)
  {
  }

  /** How a record may change: identity, policy verdict and any approval stay; a finished execution stays. */
  predicate Evolves(r: Record, r': Record) {
    && r'.proposal.(status := r.Status()) == r.proposal && r'.policyAllows == r.policyAllows
    && (r.approval.Some? ==> r'.approval == r.approval)
    && (r.approval == None && r'.approval == None ==> r' == r)
    && (r.execution.Some? ==> r'.execution.Some? && r'.execution.value.executionId == r.execution.value.executionId
                              && r'.execution.value.startedAt == r.execution.value.startedAt)
    && r'.Status() in Onward(r.Status())
    && (r.Status() in {Executed, ExecutionFailed, Verifying, Recovered, RecoveryFailed} ==> r'.execution == r.execution)
    && (r.verification.Some? ==>
          r'.verification.Some? && r'.verification.value.verificationId == r.verification.value.verificationId)
  }

  predicate AllEvolve(t: Tables, t': Tables) {
    && (forall id | id in t.records :: id in t'.records && Evolves(t.records[id], t'.records[id]))
    && t.audit <= t'.audit
  }

  // ---------------------------------------------------------------- calls

  predicate HasRun(runs: seq<Run>, id: string) {
    exists i :: 0 <= i < |runs| && runs[i].remediationId == id
  }

  /** What a call in progress may rely on, whatever the others do. */
  predicate CallInv(w: World, call: Call) {
    match call
    case DecidePending(stale, approval) =>
      && stale.Id() in w.tables.records && Evolves(stale, w.tables.records[stale.Id()])
      && stale.approval == None && stale.Status() == PendingApproval && approval.remediationId == stale.Id()
      && approval.decidedAt < stale.proposal.expiresAt
      && (approval.decision == Approve ==> CanApprove(approval.role, stale.proposal.action))
    case ExecutePending(stale, pending) =>
      && stale.Id() in w.tables.records && Evolves(stale, w.tables.records[stale.Id()])
      && pending.remediationId == stale.Id() && pending.startedAt < stale.proposal.expiresAt
    case Claimed(id, pending) => Owns(w, id, pending) && !HasRun(w.runs, id)
    case Ran(id, result, final) =>
      && Owns(w, id, result) && (final == Executed || final == ExecutionFailed)
    case VerifyPending(stale, check) =>
      && stale.Id() in w.tables.records && Evolves(stale, w.tables.records[stale.Id()])
      && stale.Status() == Executed && stale.execution.Some? && stale.execution.value.status == Succeeded
      && check.outcome == None && check.remediationId == stale.Id()
    case Checking(id, check) =>
      && id in w.tables.records && w.tables.records[id].Status() == Verifying
      && w.tables.records[id].verification == Some(check)
  }

  /** The call holds the one execution of `id`, which has not been finished. */
  predicate Owns(w: World, id: string, e: Execution) {
    && id in w.tables.records && w.tables.records[id].Status() == Executing && w.tables.records[id].execution.Some?
    && w.tables.records[id].execution.value.executionId == e.executionId
    && w.tables.records[id].execution.value.startedAt == e.startedAt && e.remediationId == id
  }

  /** The remediation whose execution, or verification, a call has claimed. */
  function ClaimOf(call: Call): (r: Option<(bool, string)>) {
    match call
    case Claimed(id, _) => Some((true, id))
    case Ran(id, _, _) => Some((true, id))
    case Checking(id, _) => Some((false, id))
    case _ => None
  }

  predicate Exclusive(calls: map<nat, Call>) {
    forall j, k | j in calls && k in calls && ClaimOf(calls[j]).Some? && ClaimOf(calls[j]) == ClaimOf(calls[k]) ::
      j == k
  }

  /** A real executor call belongs to an approved remediation, with decision and start before expiry. */
  predicate RunAllowed(t: Tables, run: Run) {
    && run.remediationId in t.records
    && var r := t.records[run.remediationId];
    && ValidApproval(r) && r.execution.Some? && r.execution.value.executionId == run.executionId
    && r.execution.value.startedAt == run.startedAt && run.startedAt < r.proposal.expiresAt
  }

  predicate RunOnce(runs: seq<Run>) {
    forall i, j | 0 <= i < j < |runs| :: runs[i].remediationId != runs[j].remediationId
  }

  ghost predicate TablesInv(t: Tables) {
    && (forall id | id in t.records :: RecordInv(t, id))
    && (forall id | id !in t.records :: TrailOf(t.audit, id) == [] && id !in t.executions && id !in t.verifications)
  }

  ghost predicate Inv(w: World) {
    && TablesInv(w.tables)
    && (forall c | c in w.calls :: CallInv(w, w.calls[c]))
    && Exclusive(w.calls)
    && (forall i | 0 <= i < |w.runs| :: RunAllowed(w.tables, w.runs[i]))
    && RunOnce(w.runs)
  }

  // ---------------------------------------------------------------- transactions

  /** Tables that differ at most at `id`, with the rows of one transaction on it. */
  ghost predicate OnlyAt(t: Tables, t': Tables, id: string, events: seq<AuditEvent>) {
    && id in t'.records && t'.audit == t.audit + events
    && (forall e | e in events :: e.remediationId == id)
    && (forall k | k != id :: (k in t.records <==> k in t'.records) && (k in t.executions <==> k in t'.executions)
                              && (k in t.verifications <==> k in t'.verifications))
    && (forall k | k != id && k in t.records :: t'.records[k] == t.records[k])
    && (forall k | k != id && k in t.executions :: t'.executions[k] == t.executions[k])
    && (forall k | k != id && k in t.verifications :: t'.verifications[k] == t.verifications[k])
  }

  lemma EvolvesReflexive(r: Record)
    ensures Evolves(r, r)
  {
  }

  lemma EvolvesTransitive(a: Record, b: Record, c: Record)
    requires Evolves(a, b) && Evolves(b, c) && StatusMeans(b)
    ensures Evolves(a, c)
  {
    OnwardTransitive(a.Status(), b.Status(), c.Status());
  }

  /** A transaction on one remediation that keeps that record right keeps all the tables right. */
  lemma OnlyAtInv(t: Tables, t': Tables, id: string, events: seq<AuditEvent>)
    requires TablesInv(t) && OnlyAt(t, t', id, events) && RecordInv(t', id)
    requires id in t.records ==> Evolves(t.records[id], t'.records[id])
    ensures TablesInv(t') && AllEvolve(t, t')
  {
    hide StatusMeans, LifecycleWord, Evolves;
    forall k | k in t'.records ensures RecordInv(t', k) {
      if k != id {
        assert RecordInv(t, k);
        TrailOfOther(t.audit, events, k);
      }
    }
    forall k | k !in t'.records ensures TrailOf(t'.audit, k) == [] && k !in t'.executions && k !in t'.verifications {
      TrailOfOther(t.audit, events, k);
    }
    forall k | k in t.records ensures Evolves(t.records[k], t'.records[k]) {
      EvolvesReflexive(t.records[k]);
    }
  }

  /** The trail of `id` once the rows of the transaction entering `s` are appended. */
  lemma TrailEnters(t: Tables, id: string, s: Status)
    requires Stored(s) &&
      (Predecessor(s).Some? ==> id in t.records && RecordInv(t, id) && t.records[id].Status() == Predecessor(s).value)
    requires Predecessor(s).None? ==> TrailOf(t.audit, id) == []
    ensures TrailOf(t.audit + EnteringRows(id, s), id) == LifecycleWord(id, s)
  {
    hide StatusMeans, EnteringRows, TrailOf, SideRows;
    EnteringRowsBelong(id, s);
    TrailConcat(t.audit, EnteringRows(id, s), id);
    WordUnfolds(id, s);
  }

  lemma NewRecordInv(t: Tables, p: Proposal, allowed: bool)
    requires p.remediationId in t.records && t.records[p.remediationId] == NewRecord(p, allowed)
    requires p.remediationId !in t.executions && p.remediationId !in t.verifications
    requires TrailOf(t.audit, p.remediationId) == LifecycleWord(p.remediationId, NewRecord(p, allowed).Status())
    ensures RecordInv(t, p.remediationId)
  {
    hide LifecycleWord, TrailOf;
  }

  lemma CreateInv(t: Tables, p: Proposal, allowed: bool)
    requires TablesInv(t) && p.remediationId !in t.records
    ensures var o := Create(t, NewRecord(p, allowed), ProposalEvents(p.remediationId, allowed));
      o.Ok? && TablesInv(o.value) && AllEvolve(t, o.value) &&
        OnlyAt(t, o.value, p.remediationId, ProposalEvents(p.remediationId, allowed))
  {
    hide Evolves, LifecycleWord, TrailOf, RecordInv;
    var id, r := p.remediationId, NewRecord(p, allowed);
    var t' := Create(t, r, ProposalEvents(id, allowed)).value;
    TrailEnters(t, id, r.Status());
    NewRecordInv(t', p, allowed);
    OnlyAtInv(t, t', id, ProposalEvents(id, allowed));
  }

  lemma RecordParts(t: Tables, id: string)
    requires TablesInv(t) && id in t.records
    ensures RecordInv(t, id) && SideRows(t, id) && StatusMeans(t.records[id])
  {
    hide StatusMeans, TrailOf, LifecycleWord;
    assert RecordInv(t, id);
  }

  /** The tables after record `id` has become `r`, with its side rows and the rows of the transaction. */
  function Rewritten(t: Tables, id: string, r: Record, events: seq<AuditEvent>): (res: Tables) {
    t.(records := t.records[id := r], audit := t.audit + events,
       executions := if r.execution.Some? then t.executions[id := r.execution.value] else t.executions,
       verifications := if r.verification.Some? then t.verifications[id := r.verification.value] else t.verifications)
  }

  /** `r` is a lawful next version of record `id`. */
  predicate NextVersion(t: Tables, id: string, r: Record) {
    && id in t.records && r.Id() == id && StatusMeans(r) && Stored(r.Status())
    && Predecessor(r.Status()) == Some(t.records[id].Status()) && Evolves(t.records[id], r)
    && (t.records[id].execution.Some? ==> r.execution.Some?) &&
      (t.records[id].verification.Some? ==> r.verification.Some?)
  }

  lemma RewrittenTrail(t: Tables, id: string, r: Record)
    requires TablesInv(t) && NextVersion(t, id, r)
    ensures var t' := Rewritten(t, id, r, EnteringRows(id, r.Status()));
      TrailOf(t'.audit, id) == LifecycleWord(id, r.Status()) && SideRows(t', id)
  {
    hide StatusMeans, Evolves, LifecycleWord, TrailOf, RecordInv;
    RecordParts(t, id);
    TrailEnters(t, id, r.Status());
  }

  lemma EnteringRowsBelong(id: string, s: Status)
    requires Stored(s)
    ensures forall e | e in EnteringRows(id, s) :: e.remediationId == id
  {
  }

  lemma RewrittenOnlyAt(t: Tables, id: string, r: Record, events: seq<AuditEvent>)
    requires forall e | e in events :: e.remediationId == id
    ensures OnlyAt(t, Rewritten(t, id, r, events), id, events)
  {
  }

  /** A lawful next version keeps all tables right. */
  lemma TransactionInv(t: Tables, id: string, r: Record)
    requires TablesInv(t) && NextVersion(t, id, r)
    ensures var events := EnteringRows(id, r.Status());
      var t' := Rewritten(t, id, r, events);
      TablesInv(t') && AllEvolve(t, t') && OnlyAt(t, t', id, events)
  {
    hide StatusMeans, Evolves, LifecycleWord, TrailOf, TablesInv, AllEvolve, OnlyAt, SideRows, EnteringRows;
    var events := EnteringRows(id, r.Status());
    RewrittenTrail(t, id, r);
    EnteringRowsBelong(id, r.Status());
    RewrittenOnlyAt(t, id, r, events);
    OnlyAtInv(t, Rewritten(t, id, r, events), id, events);
  }

  /** The decided version of the record as it is now, although the caller wrote what it had read. */
  lemma DecidedRecord(w: World, stale: Record, approval: Approval)
    requires CallInv(w, DecidePending(stale, approval)) && StatusMeans(w.tables.records[stale.Id()])
    requires w.tables.records[stale.Id()].approval == None
    ensures var r, s := w.tables.records[stale.Id()], DecisionStatus(approval.decision);
      var r' := r.(proposal := stale.proposal.(status := s)).(approval := Some(approval));
      && r == stale && r.Status() == PendingApproval && StatusMeans(r') && Evolves(r, r') && Stored(s)
      && Predecessor(s) == Some(PendingApproval)
      && r'.Id() == stale.Id() && r.execution == None && r.verification == None
  {
  }

  lemma DecisionInv(w: World, stale: Record, approval: Approval)
    requires TablesInv(w.tables) && CallInv(w, DecidePending(stale, approval))
    ensures var id, events := stale.Id(), DecisionEvents(stale.Id(), approval.decision, stale.Status());
      var o := RecordDecision(w.tables, id, stale.proposal.(status := DecisionStatus(approval.decision)), approval,
        events);
      o.Ok? ==> && TablesInv(o.value) && AllEvolve(w.tables, o.value) && OnlyAt(w.tables, o.value, id, events)
                && w.tables.records[id].Status() == PendingApproval
  {
    hide LifecycleWord, TrailOf, StatusMeans, Evolves, TablesInv, AllEvolve, OnlyAt, RecordInv;
    var id, s := stale.Id(), DecisionStatus(approval.decision);
    RecordParts(w.tables, id);
    if w.tables.records[id].approval == None {
      DecidedRecord(w, stale, approval);
      TransactionInv(w.tables, id,
        w.tables.records[id].(proposal := stale.proposal.(status := s)).(approval := Some(approval)));
    }
  }

  lemma ClaimedRecord(w: World, stale: Record, pending: Execution)
    requires CallInv(w, ExecutePending(stale, pending)) && StatusMeans(w.tables.records[stale.Id()])
    ensures var r := w.tables.records[stale.Id()];
      var r' := r.WithStatus(Executing).(execution := Some(pending));
      r.Status() == Approved ==> StatusMeans(r') && Evolves(r, r') && r.verification == None
  {
  }

  lemma ClaimInv(w: World, stale: Record, pending: Execution)
    requires TablesInv(w.tables) && CallInv(w, ExecutePending(stale, pending))
    ensures var id := stale.Id();
      var o := BeginExecution(w.tables, id, pending, ClaimEvents(id));
      o.Ok? ==> && TablesInv(o.value) && AllEvolve(w.tables, o.value) && OnlyAt(w.tables, o.value, id, ClaimEvents(id))
                && w.tables.records[id].Status() == Approved && Owns(World(o.value, w.calls, w.runs), id, pending)
  {
    hide LifecycleWord, TrailOf, StatusMeans, Evolves, TablesInv, AllEvolve, OnlyAt, RecordInv;
    var id := stale.Id();
    RecordParts(w.tables, id);
    ClaimedRecord(w, stale, pending);
    if w.tables.records[id].Status() == Approved {
      TransactionInv(w.tables, id, w.tables.records[id].WithStatus(Executing).(execution := Some(pending)));
    }
  }

  lemma FinishedRecord(w: World, id: string, result: Execution, final: Status)
    requires CallInv(w, Ran(id, result, final)) && StatusMeans(w.tables.records[id]) && w.tables.records[id].Id() == id
    ensures var r := w.tables.records[id];
      var r' := r.WithStatus(final).(execution := Some(result));
      StatusMeans(r') && Evolves(r, r') && r.verification == None && Predecessor(final) == Some(Executing)
  {
  }

  lemma FinishInv(w: World, id: string, result: Execution, final: Status)
    requires TablesInv(w.tables) && CallInv(w, Ran(id, result, final))
    ensures var o := FinishExecution(w.tables, id, result, final, FinishEvents(id, final));
      o.Ok? && TablesInv(o.value) && AllEvolve(w.tables, o.value) &&
        OnlyAt(w.tables, o.value, id, FinishEvents(id, final))
  {
    hide LifecycleWord, TrailOf, StatusMeans, Evolves, TablesInv, AllEvolve, OnlyAt, RecordInv;
    RecordParts(w.tables, id);
    FinishedRecord(w, id, result, final);
    TransactionInv(w.tables, id, w.tables.records[id].WithStatus(final).(execution := Some(result)));
  }

  lemma CheckingRecord(w: World, stale: Record, check: Verification)
    requires CallInv(w, VerifyPending(stale, check)) && StatusMeans(w.tables.records[stale.Id()])
    ensures var r := w.tables.records[stale.Id()];
      var r' := r.WithStatus(Verifying).(verification := Some(check));
      r.Status() == Executed ==> StatusMeans(r') && Evolves(r, r') && r.execution.Some?
  {
  }

  lemma BeginCheckInv(w: World, stale: Record, check: Verification)
    requires TablesInv(w.tables) && CallInv(w, VerifyPending(stale, check))
    ensures var id := stale.Id();
      var o := BeginVerification(w.tables, id, check, VerifyEvents(id));
      o.Ok? ==> && TablesInv(o.value) && AllEvolve(w.tables, o.value) && OnlyAt(w.tables, o.value, id, VerifyEvents(id))
                && w.tables.records[id].Status() == Executed && o.value.records[id].verification == Some(check)
                && o.value.records[id].Status() == Verifying
  {
    hide LifecycleWord, TrailOf, StatusMeans, Evolves, TablesInv, AllEvolve, OnlyAt, RecordInv;
    var id := stale.Id();
    RecordParts(w.tables, id);
    CheckingRecord(w, stale, check);
    if w.tables.records[id].Status() == Executed {
      var r := w.tables.records[id].WithStatus(Verifying).(verification := Some(check));
      SameExecution(w.tables, id, r);
      TransactionInv(w.tables, id, r);
    }
  }

  /** An execution that is not rewritten stays as it is. */
  lemma SameExecution(t: Tables, id: string, r: Record)
    requires id in t.records && SideRows(t, id) && r.execution == t.records[id].execution
    ensures (if r.execution.Some? then t.executions[id := r.execution.value] else t.executions) == t.executions
  {
  }

  lemma CheckedRecord(w: World, id: string, check: Verification, recovered: bool)
    requires CallInv(w, Checking(id, check)) && StatusMeans(w.tables.records[id])
    ensures var r, final := w.tables.records[id], if recovered then Recovered else RecoveryFailed;
      var r' := r.WithStatus(final).(verification := Some(check.(outcome := Some(recovered))));
      StatusMeans(r') && Evolves(r, r') && r.execution.Some? && Predecessor(final) == Some(Verifying)
  {
  }

  lemma FinishCheckInv(w: World, id: string, check: Verification, recovered: bool)
    requires TablesInv(w.tables) && CallInv(w, Checking(id, check))
    ensures var final := if recovered then Recovered else RecoveryFailed;
      var o := FinishVerification(w.tables, id, check.(outcome := Some(recovered)), final, VerdictEvents(id, final));
      o.Ok? && TablesInv(o.value) && AllEvolve(w.tables, o.value) &&
        OnlyAt(w.tables, o.value, id, VerdictEvents(id, final))
  {
    hide LifecycleWord, TrailOf, StatusMeans, Evolves, TablesInv, AllEvolve, OnlyAt, RecordInv;
    var final := if recovered then Recovered else RecoveryFailed;
    RecordParts(w.tables, id);
    CheckedRecord(w, id, check, recovered);
    var r := w.tables.records[id].WithStatus(final).(verification := Some(check.(outcome := Some(recovered))));
    SameExecution(w.tables, id, r);
    TransactionInv(w.tables, id, r);
  }

  // ---------------------------------------------------------------- the other calls

  /** A call that claimed nothing at `id` keeps what it relies on across a transaction at `id`. */
  lemma OtherCallKeeps(w: World, t': Tables, id: string, events: seq<AuditEvent>, call: Call)
    requires Inv(w) && CallInv(w, call) && AllEvolve(w.tables, t') && OnlyAt(w.tables, t', id, events)
    requires ClaimOf(call).Some? ==> ClaimOf(call).value.1 != id
    ensures CallInv(w.(tables := t'), call)
  {
    hide Evolves, LifecycleWord, TrailOf;
    if ClaimOf(call).None? {
      var stale := call.stale;
      assert RecordInv(w.tables, stale.Id());
      EvolvesTransitive(stale, w.tables.records[stale.Id()], t'.records[stale.Id()]);
    }
  }

  lemma RunsKeep(w: World, t': Tables)
    requires Inv(w) && AllEvolve(w.tables, t')
    ensures forall i | 0 <= i < |w.runs| :: RunAllowed(t', w.runs[i])
  {
    hide RecordInv;
    forall i | 0 <= i < |w.runs| ensures RunAllowed(t', w.runs[i]) {
      assert RunAllowed(w.tables, w.runs[i]);
      assert Evolves(w.tables.records[w.runs[i].remediationId], t'.records[w.runs[i].remediationId]);
    }
  }

  /** No other call holds the claim that call `c` holds, or that the status of the record rules out. */
  predicate Unclaimed(w: World, c: nat, id: string) {
    forall k | k in w.calls && k != c && ClaimOf(w.calls[k]).Some? :: ClaimOf(w.calls[k]).value.1 != id
  }

  lemma IdleStatusUnclaimed(w: World, c: nat, id: string)
    requires Inv(w) && id in w.tables.records && w.tables.records[id].Status() !in {Executing, Verifying}
    ensures Unclaimed(w, c, id)
  {
    hide TablesInv;
    forall k | k in w.calls && k != c && ClaimOf(w.calls[k]).Some? ensures ClaimOf(w.calls[k]).value.1 != id {
      assert CallInv(w, w.calls[k]);
    }
  }

  lemma ClaimantUnclaimed(w: World, c: nat, id: string)
    requires Inv(w) && c in w.calls && ClaimOf(w.calls[c]).Some? && ClaimOf(w.calls[c]).value.1 == id
    ensures Unclaimed(w, c, id)
  {
    hide TablesInv;
    assert CallInv(w, w.calls[c]);
    forall k | k in w.calls && k != c && ClaimOf(w.calls[k]).Some? ensures ClaimOf(w.calls[k]).value.1 != id {
      assert CallInv(w, w.calls[k]);
    }
  }

  /** A transaction of call `c` at `id`, after which the call ends. */
  lemma TransactionEnds(w: World, c: nat, t': Tables, id: string, events: seq<AuditEvent>)
    requires Inv(w) && TablesInv(t') && AllEvolve(w.tables, t') && OnlyAt(w.tables, t', id, events) &&
      Unclaimed(w, c, id)
    ensures Inv(End(w.(tables := t'), c))
  {
    hide TablesInv, CallInv, AllEvolve, OnlyAt, RunAllowed;
    var w' := End(w.(tables := t'), c);
    RunsKeep(w, t');
    forall k | k in w'.calls ensures CallInv(w', w'.calls[k]) {
      OtherCallKeeps(w, t', id, events, w.calls[k]);
      CallIgnoresCalls(w.(tables := t'), w', w.calls[k]);
    }
  }

  lemma CallIgnoresCalls(w: World, w': World, call: Call)
    requires w'.tables == w.tables && w'.runs == w.runs && CallInv(w, call)
    ensures CallInv(w', call)
  {
  }

  /** A transaction of call `c` that claims `id`. */
  lemma TransactionClaims(w: World, c: nat, t': Tables, id: string, events: seq<AuditEvent>, call: Call)
    requires Inv(w) && TablesInv(t') && AllEvolve(w.tables, t') && OnlyAt(w.tables, t', id, events) &&
      Unclaimed(w, c, id)
    requires ClaimOf(call).Some? && ClaimOf(call).value.1 == id && CallInv(w.(tables := t'), call)
    ensures Inv(Next(w.(tables := t'), c, call))
  {
    hide TablesInv, CallInv, AllEvolve, OnlyAt, RunAllowed;
    var w' := Next(w.(tables := t'), c, call);
    RunsKeep(w, t');
    forall k | k in w'.calls ensures CallInv(w', w'.calls[k]) {
      if k != c { OtherCallKeeps(w, t', id, events, w.calls[k]); }
      CallIgnoresCalls(w.(tables := t'), w', w'.calls[k]);
    }
  }

  /** A step that only changes what call `c` remembers, to something that claims nothing. */
  lemma CallChanges(w: World, c: nat, call: Option<Call>)
    requires Inv(w) && (call.Some? ==> CallInv(w, call.value) && ClaimOf(call.value).None?)
    ensures Inv(if call.Some? then Next(w, c, call.value) else End(w, c))
  {
    hide TablesInv, CallInv, RunAllowed;
    var w' := if call.Some? then Next(w, c, call.value) else End(w, c);
    forall k | k in w'.calls ensures CallInv(w', w'.calls[k]) {
      CallIgnoresCalls(w, w', w'.calls[k]);
    }
  }

  // ---------------------------------------------------------------- steps

  /** Calling the executor adds the one run of a claimed remediation. */
  lemma ExecutorInv(w: World, c: nat, answer: ExecutorAnswer)
    requires Inv(w) && c in w.calls && w.calls[c].Claimed?
    ensures var w' := RunExecutor(w, c, w.calls[c].remediationId, w.calls[c].pending, answer);
      Inv(w') && w'.tables == w.tables
  {
    hide RunAllowed, Owns, HasRun, TablesInv, Evolves;
    var id, pending := w.calls[c].remediationId, w.calls[c].pending;
    var w' := RunExecutor(w, c, id, pending, answer);
    CallHolds(w, c);
    ClaimantUnclaimed(w, c, id);
    OwnerMayRun(w, id, pending);
    forall k | k in w'.calls ensures CallInv(w', w'.calls[k]) {
      if k != c { RunOfOther(w, w', w.calls[k], Run(id, pending.executionId, pending.startedAt)); }
    }
    forall i | 0 <= i < |w.runs| ensures w.runs[i].remediationId != id { NotRun(w.runs, id, i); }
  }

  lemma NotRun(runs: seq<Run>, id: string, i: nat)
    requires !HasRun(runs, id) && i < |runs|
    ensures runs[i].remediationId != id
  {
  }

  /** The run about to be recorded is allowed, and what it leaves behind still owns the execution. */
  lemma OwnerMayRun(w: World, id: string, pending: Execution)
    requires TablesInv(w.tables) && Owns(w, id, pending)
    ensures RunAllowed(w.tables, Run(id, pending.executionId, pending.startedAt))
    ensures forall w': World, s | w'.tables == w.tables :: Owns(w', id, pending.(status := s))
  {
    hide LifecycleWord, TrailOf;
    assert RecordInv(w.tables, id);
  }

  lemma RunOfOther(w: World, w': World, call: Call, run: Run)
    requires CallInv(w, call) && w'.tables == w.tables && w'.runs == w.runs + [run]
    requires ClaimOf(call).Some? ==> ClaimOf(call).value.1 != run.remediationId
    ensures CallInv(w', call)
  {
    hide Evolves;
    if call.Claimed? {
      assert !HasRun(w'.runs, call.remediationId);
    }
  }

  lemma StartInv(w: World, c: nat, a: Action)
    requires Inv(w) && c !in w.calls && (a.StartDecide? || a.StartExecute? || a.StartVerify?)
    ensures Inv(Step(w, c, a)) && Step(w, c, a).tables == w.tables
  {
    hide TablesInv, RunAllowed, Evolves;
    if a.id in w.tables.records {
      var r := w.tables.records[a.id];
      assert r.Id() == a.id by { IdMatches(w.tables, a.id); }
      EvolvesReflexive(r);
      var w' := Step(w, c, a);
      if c in w'.calls { CallChanges(w, c, Some(w'.calls[c])); }
    }
  }

  lemma IdMatches(t: Tables, id: string)
    requires TablesInv(t) && id in t.records
    ensures t.records[id].Id() == id
  {
    assert RecordInv(t, id);
  }

  lemma ProposeInv(w: World, c: nat, p: Proposal, allowed: bool)
    requires Inv(w)
    ensures Inv(Step(w, c, Propose(p, allowed))) && AllEvolve(w.tables, Step(w, c, Propose(p, allowed)).tables)
  {
    hide TablesInv, CallInv, AllEvolve, OnlyAt, RunAllowed;
    var id := p.remediationId;
    NothingEvolves(w.tables);
    if id !in w.tables.records {
      CreateInv(w.tables, p, allowed);
      var w' := Step(w, c, Propose(p, allowed));
      RunsKeep(w, w'.tables);
      forall k | k in w'.calls ensures CallInv(w', w'.calls[k]) {
        if ClaimOf(w.calls[k]).Some? { ClaimExists(w, w.calls[k]); }
        OtherCallKeeps(w, w'.tables, id, ProposalEvents(id, allowed), w.calls[k]);
      }
    }
  }

  lemma ClaimExists(w: World, call: Call)
    requires CallInv(w, call) && ClaimOf(call).Some?
    ensures ClaimOf(call).value.1 in w.tables.records
  {
  }

  lemma NothingEvolves(t: Tables)
    ensures AllEvolve(t, t)
  {
  }

  lemma AllEvolveTransitive(a: Tables, b: Tables, c: Tables)
    requires AllEvolve(a, b) && AllEvolve(b, c) && TablesInv(b)
    ensures AllEvolve(a, c)
  {
    hide Evolves, StatusMeans, LifecycleWord, TrailOf;
    forall id | id in a.records ensures id in c.records && Evolves(a.records[id], c.records[id]) {
      assert RecordInv(b, id);
      EvolvesTransitive(a.records[id], b.records[id], c.records[id]);
    }
  }

  lemma CommitDecisionInv(w: World, c: nat)
    requires Inv(w) && c in w.calls && w.calls[c].DecidePending?
    ensures Inv(Step(w, c, CommitDecision)) && AllEvolve(w.tables, Step(w, c, CommitDecision).tables)
  {
    hide TablesInv, CallInv, AllEvolve, OnlyAt, RunAllowed, Evolves, RecordDecision, Inv;
    var stale, approval := w.calls[c].stale, w.calls[c].approval;
    CallHolds(w, c);
    var id, events := stale.Id(), DecisionEvents(stale.Id(), approval.decision, stale.Status());
    var o := RecordDecision(w.tables, id, stale.proposal.(status := DecisionStatus(approval.decision)), approval,
      events);
    if o.Ok? {
      DecisionInv(w, stale, approval);
      RefusedIfAbsent(w, id, stale.proposal.(status := DecisionStatus(approval.decision)), approval, events);
      IdleStatusUnclaimed(w, c, id);
      TransactionEnds(w, c, o.value, id, events);
    } else {
      CallChanges(w, c, None);
      NothingEvolves(w.tables);
    }
  }

  lemma RefusedIfAbsent(w: World, id: string, p: Proposal, approval: Approval, events: seq<AuditEvent>)
    ensures RecordDecision(w.tables, id, p, approval, events).Ok? ==> id in w.tables.records
  {
  }

  lemma CallHolds(w: World, c: nat)
    requires Inv(w) && c in w.calls
    ensures CallInv(w, w.calls[c]) && TablesInv(w.tables)
  {
    hide TablesInv, CallInv, RunAllowed;
  }

  lemma ClaimStepInv(w: World, c: nat)
    requires Inv(w) && c in w.calls && w.calls[c].ExecutePending?
    ensures Inv(Step(w, c, Claim)) && AllEvolve(w.tables, Step(w, c, Claim).tables)
  {
    hide TablesInv, AllEvolve, OnlyAt, RunAllowed, Evolves, Inv, Owns;
    var stale, pending := w.calls[c].stale, w.calls[c].pending;
    CallHolds(w, c);
    var id := stale.Id();
    var o := BeginExecution(w.tables, id, pending, ClaimEvents(id));
    if o.Ok? {
      ClaimInv(w, stale, pending);
      OwnsIgnoresCalls(World(o.value, w.calls, w.runs), w.(tables := o.value), id, pending);
      IdleStatusUnclaimed(w, c, id);
      NoRunBefore(w, id);
      TransactionClaims(w, c, o.value, id, ClaimEvents(id), Claimed(id, pending));
    } else {
      CallChanges(w, c, None);
      NothingEvolves(w.tables);
    }
  }

  lemma OwnsIgnoresCalls(w: World, w': World, id: string, e: Execution)
    requires w.tables == w'.tables && Owns(w, id, e)
    ensures Owns(w', id, e)
  {
  }

  /** An approved remediation has not run yet. */
  lemma NoRunBefore(w: World, id: string)
    requires Inv(w) && id in w.tables.records && w.tables.records[id].Status() == Approved
    ensures !HasRun(w.runs, id)
  {
    assert RecordInv(w.tables, id);
    forall i | 0 <= i < |w.runs| ensures w.runs[i].remediationId != id {
      assert RunAllowed(w.tables, w.runs[i]);
    }
  }

  lemma CommitExecutionInv(w: World, c: nat)
    requires Inv(w) && c in w.calls && w.calls[c].Ran?
    ensures Inv(Step(w, c, CommitExecution)) && AllEvolve(w.tables, Step(w, c, CommitExecution).tables)
  {
    hide TablesInv, CallInv, AllEvolve, OnlyAt, RunAllowed, Inv, FinishExecution;
    var id, result, final := w.calls[c].remediationId, w.calls[c].result, w.calls[c].final;
    CallHolds(w, c);
    FinishInv(w, id, result, final);
    ClaimantUnclaimed(w, c, id);
    TransactionEnds(w, c, FinishExecution(w.tables, id, result, final, FinishEvents(id, final)).value, id,
      FinishEvents(id, final));
  }

  lemma ClaimVerificationInv(w: World, c: nat)
    requires Inv(w) && c in w.calls && w.calls[c].VerifyPending?
    ensures Inv(Step(w, c, ClaimVerification)) && AllEvolve(w.tables, Step(w, c, ClaimVerification).tables)
  {
    hide TablesInv, AllEvolve, OnlyAt, RunAllowed, Evolves, Inv, Owns;
    var stale, check := w.calls[c].stale, w.calls[c].check;
    CallHolds(w, c);
    var id := stale.Id();
    var o := BeginVerification(w.tables, id, check, VerifyEvents(id));
    if o.Ok? {
      BeginCheckInv(w, stale, check);
      IdleStatusUnclaimed(w, c, id);
      TransactionClaims(w, c, o.value, id, VerifyEvents(id), Checking(id, check));
    } else {
      CallChanges(w, c, None);
      NothingEvolves(w.tables);
    }
  }

  lemma CommitVerificationInv(w: World, c: nat, recovered: bool)
    requires Inv(w) && c in w.calls && w.calls[c].Checking?
    ensures Inv(Step(w, c, CommitVerification(recovered))) &&
      AllEvolve(w.tables, Step(w, c, CommitVerification(recovered)).tables)
  {
    hide TablesInv, CallInv, AllEvolve, OnlyAt, RunAllowed, Inv, FinishVerification;
    var id, check := w.calls[c].remediationId, w.calls[c].check;
    var final := if recovered then Recovered else RecoveryFailed;
    CallHolds(w, c);
    FinishCheckInv(w, id, check, recovered);
    ClaimantUnclaimed(w, c, id);
    TransactionEnds(w, c,
      FinishVerification(w.tables, id, check.(outcome := Some(recovered)), final, VerdictEvents(id, final)).value,
                    id, VerdictEvents(id, final));
  }

  lemma StepInv(w: World, c: nat, a: Action)
    requires Inv(w)
    ensures Inv(Step(w, c, a)) && AllEvolve(w.tables, Step(w, c, a).tables)
  {
    hide AllEvolve;
    NothingEvolves(w.tables);
    hide Inv, TablesInv, CallInv, RunAllowed, RecordDecision, BeginExecution, FinishExecution, BeginVerification,
      FinishVerification;
    hide StartDecision, StartExecution, StartVerification, RunExecutor, Create;
    match a {
      case Propose(p, allowed) => ProposeInv(w, c, p, allowed);
      case StartDecide(_, _, _, _, _) => if c !in w.calls { StartInv(w, c, a); }
      case StartExecute(_, _, _, _) => if c !in w.calls { StartInv(w, c, a); }
      case StartVerify(_, _, _) => if c !in w.calls { StartInv(w, c, a); }
      case DryRun(_, _, _) =>
      case Stop => CallChanges(w, c, None);
      case CommitDecision => if c in w.calls && w.calls[c].DecidePending? { CommitDecisionInv(w, c); }
      case Claim => if c in w.calls && w.calls[c].ExecutePending? { ClaimStepInv(w, c); }
      case CallExecutor(answer) => if c in w.calls && w.calls[c].Claimed? { ExecutorInv(w, c, answer); }
      case CommitExecution => if c in w.calls && w.calls[c].Ran? { CommitExecutionInv(w, c); }
      case ClaimVerification => if c in w.calls && w.calls[c].VerifyPending? { ClaimVerificationInv(w, c); }
      case CommitVerification(recovered) =>
        if c in w.calls && w.calls[c].Checking? { CommitVerificationInv(w, c, recovered); }
    }
  }

  lemma {:induction false} RunInv(ws: seq<World>, cs: seq<nat>, acts: seq<Action>, n: nat)
    requires IsRun(ws, cs, acts) && n < |ws|
    ensures Inv(ws[n])
  {
    hide Step, TablesInv, CallInv, RunAllowed;
    if n == 0 {
      InitialInv();
    } else {
      RunInv(ws, cs, acts, n - 1);
      assert ws[n - 1 + 1] == Step(ws[n - 1], cs[n - 1], acts[n - 1]);
      StepInv(ws[n - 1], cs[n - 1], acts[n - 1]);
    }
  }

  lemma InitialInv()
    ensures Inv(Initial)
  {
  }

  // ---------------------------------------------------------------- what every run promises

  /**
   However calls interleave: the executor is called for real at most once a remediation, with the
   execution recorded for it, and only for a remediation holding an APPROVE by a role whose matrix
   covers the catalogue risk, with decision and start both before expiry.
   */
  lemma RunsOnceAndOnlyApproved(ws: seq<World>, cs: seq<nat>, acts: seq<Action>, n: nat)
    requires IsRun(ws, cs, acts) && n < |ws|
    ensures RunOnce(ws[n].runs)
    ensures forall i | 0 <= i < |ws[n].runs| :: RunAllowed(ws[n].tables, ws[n].runs[i])
  {
    hide IsRun, TablesInv, CallInv, RunAllowed, RunOnce;
    RunInv(ws, cs, acts, n);
  }

  /** The record a run belongs to was approved by someone entitled to approve that very action. */
  predicate ApprovedByEntitled(t: Tables, run: Run) {
    && run.remediationId in t.records && t.records[run.remediationId].approval.Some?
    && var r, a := t.records[run.remediationId], t.records[run.remediationId].approval.value;
    && a.decision == Approve
    && (r.proposal.action == RollBackDeployment ==> a.role == Administrator)
    && (r.proposal.action in {RestartService, ScaleService} ==> a.role != Operator)
    && a.decidedAt < r.proposal.expiresAt && run.startedAt < r.proposal.expiresAt
  }

  /**
   However calls interleave: a deployment was really rolled back only with an administrator's APPROVE,
   and a service restarted or scaled only with an incident responder's or administrator's; an operator's
   APPROVE is only ever stored for disabling a feature flag, an incident responder's never for a rollback.
   */
  lemma EveryRunEntitled(ws: seq<World>, cs: seq<nat>, acts: seq<Action>, n: nat)
    requires IsRun(ws, cs, acts) && n < |ws|
    ensures forall i | 0 <= i < |ws[n].runs| :: ApprovedByEntitled(ws[n].tables, ws[n].runs[i])
    ensures forall id | id in ws[n].tables.records :: ApprovalEntitled(ws[n].tables.records[id])
  {
    hide IsRun, CallInv, RunOnce, Exclusive, RecordInv;
    RunInv(ws, cs, acts, n);
    forall i | 0 <= i < |ws[n].runs| ensures ApprovedByEntitled(ws[n].tables, ws[n].runs[i]) {
      RunEntitled(ws[n].tables, ws[n].runs[i]);
    }
    forall id | id in ws[n].tables.records ensures ApprovalEntitled(ws[n].tables.records[id]) {
      RecordParts(ws[n].tables, id);
      StatusEntitled(ws[n].tables.records[id]);
    }
  }

  /** A stored APPROVE is by an entitled role and came before expiry. */
  predicate ApprovalEntitled(r: Record) {
    r.approval.Some? && r.approval.value.decision == Approve ==>
      && (r.approval.value.role == Operator ==> r.proposal.action == DisableFeatureFlag)
      && (r.approval.value.role == IncidentResponder ==> r.proposal.action != RollBackDeployment)
      && r.approval.value.decidedAt < r.proposal.expiresAt
  }

  lemma RunEntitled(t: Tables, run: Run)
    requires RunAllowed(t, run)
    ensures ApprovedByEntitled(t, run)
  {
    var r := t.records[run.remediationId];
    MatrixPairs(r.approval.value.role, r.proposal.action);
    hide CanApprove;
  }

  lemma StatusEntitled(r: Record)
    requires StatusMeans(r)
    ensures ApprovalEntitled(r)
  {
    if r.approval.Some? { MatrixPairs(r.approval.value.role, r.proposal.action); }
    hide CanApprove;
  }

  /**
   The rows of one remediation are exactly the lifecycle of its status, transaction by transaction;
   replaying them yields that status; and a verification verdict, or one in progress, means the
   execution succeeded.
   */
  lemma AuditReplaysToStatus(ws: seq<World>, cs: seq<nat>, acts: seq<Action>, n: nat, id: string)
    requires IsRun(ws, cs, acts) && n < |ws|
    ensures var t := ws[n].tables;
      if id !in t.records then TrailOf(t.audit, id) == [] else
      && StatusMeans(t.records[id]) && Stored(t.records[id].Status())
      && TrailOf(t.audit, id) == LifecycleWord(id, t.records[id].Status())
      && Replay(TrailOf(t.audit, id)) == Some(t.records[id].Status())
      && (t.records[id].Status() in {Verifying, Recovered, RecoveryFailed} ==>
            t.records[id].execution.Some? && t.records[id].execution.value.status == Succeeded)
  {
    hide IsRun, CallInv, RunAllowed, Replay, LifecycleWord, TrailOf, Exclusive, RunOnce, StatusMeans, RecordInv;
    RunInv(ws, cs, acts, n);
    if id in ws[n].tables.records {
      RecordParts(ws[n].tables, id);
      RecordTrail(ws[n].tables, id);
      WordReplays(id, ws[n].tables.records[id].Status());
    }
  }

  lemma RecordTrail(t: Tables, id: string)
    requires id in t.records && RecordInv(t, id)
    ensures Stored(t.records[id].Status()) && TrailOf(t.audit, id) == LifecycleWord(id, t.records[id].Status())
    ensures t.records[id].Status() in {Verifying, Recovered, RecoveryFailed} ==>
      t.records[id].execution.Some? && t.records[id].execution.value.status == Succeeded
  {
    hide TrailOf, LifecycleWord, SideRows;
  }

  /**
   From any moment of a run to any later one: no remediation disappears, its proposal and policy
   verdict stay, an approval once given is never changed, an execution or verification keeps its
   identity, a finished execution stays as it is, status only moves onward, and the audit list grows
   at its end.
   */
  lemma {:induction false} RecordsOnlyEvolve(ws: seq<World>, cs: seq<nat>, acts: seq<Action>, m: nat, n: nat)
    requires IsRun(ws, cs, acts) && m <= n < |ws|
    ensures AllEvolve(ws[m].tables, ws[n].tables)
  {
    hide Step, TablesInv, CallInv, RunAllowed, AllEvolve;
    if m == n {
      NothingEvolves(ws[n].tables);
    } else {
      RecordsOnlyEvolve(ws, cs, acts, m, n - 1);
      RunInv(ws, cs, acts, n - 1);
      assert ws[n - 1 + 1] == Step(ws[n - 1], cs[n - 1], acts[n - 1]);
      StepInv(ws[n - 1], cs[n - 1], acts[n - 1]);
      AllEvolveTransitive(ws[m].tables, ws[n - 1].tables, ws[n].tables);
    }
  }
}
