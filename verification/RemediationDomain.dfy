/** Remediations: lifecycle, approval matrix, the guards of the service calls, and audit events. */
module RemediationDomain {
  import opened Prelude

  datatype Status =
    | Proposed | PolicyEvaluation | PendingApproval | Approved | Executing | Executed | Verifying
    | Blocked | Rejected | Expired | ExecutionFailed | Recovered | RecoveryFailed

  function AllowedTransitions(s: Status): (r: set<Status>) {
    match s
    case Proposed => {PolicyEvaluation, Blocked}
    case PolicyEvaluation => {PendingApproval, Blocked}
    case PendingApproval => {Approved, Rejected, Expired}
    case Approved => {Executing, Expired}
    case Executing => {Executed, ExecutionFailed}
    case Executed => {Verifying}
    case Verifying => {Recovered, RecoveryFailed}
    case _ => {}
  }

  predicate CanTransition(current: Status, target: Status) {
    target in AllowedTransitions(current)
  }

  // ---------------------------------------------------------------- authorization

  datatype ActionType = RestartService | ScaleService | RollBackDeployment | DisableFeatureFlag

  datatype Risk = Low | Medium | High

  datatype Role = Operator | IncidentResponder | Administrator

  function CatalogueRisk(a: ActionType): (r: Risk) {
    match a
    case RestartService => Medium
    case ScaleService => Medium
    case RollBackDeployment => High
    case DisableFeatureFlag => Low
  }

  function ApprovalMatrix(role: Role): (r: set<Risk>) {
    match role
    case Operator => {Low}
    case IncidentResponder => {Low, Medium}
    case Administrator => {Low, Medium, High}
  }

  predicate CanApprove(role: Role, a: ActionType) {
    CatalogueRisk(a) in ApprovalMatrix(role)
  }

  /** Who may approve what, pair by pair. */
  predicate MayApprove(role: Role, a: ActionType) {
    match role
    case Operator => a == DisableFeatureFlag
    case IncidentResponder => a != RollBackDeployment
    case Administrator => true
  }

  /** The matrix of roles over the risks of the catalogue comes to these pairs. */
  lemma MatrixPairs(role: Role, a: ActionType)
    ensures CanApprove(role, a) <==> MayApprove(role, a)
  {
  }

  // ---------------------------------------------------------------- records

  datatype Decision = Approve | Reject

  datatype Approval = Approval(remediationId: string, decision: Decision, role: Role, identity: string, decidedAt: real)

  datatype ExecutionStatus = Started | Succeeded | Failed

  datatype Execution = Execution(executionId: string, remediationId: string, status: ExecutionStatus, startedAt: real)

  /** Verification outcomes other than STARTED are whatever the verifier reports. */
  datatype Verification = Verification(verificationId: string, remediationId: string, executionId: string,
    outcome: Option<bool>, startedAt: real)

  datatype Proposal = Proposal(
    remediationId: string, incidentId: string, action: ActionType, target: string, expiresAt: real, status: Status)

  datatype Record = Record(
    proposal: Proposal, policyAllows: bool,
    approval: Option<Approval>, execution: Option<Execution>, verification: Option<Verification>)
  {
    function Status(): (r: Status) { proposal.status }

    function Id(): (r: string) { proposal.remediationId }

    function WithStatus(s: Status): (r: Record) { this.(proposal := proposal.(status := s)) }
  }

  // ---------------------------------------------------------------- guards

  datatype Error =
    | NotFound | AlreadyExists | AlreadyDecided | InvalidState | PolicyBlocked | TooLate | Unauthorized
    | NotApproved | NotInCatalogue | ExecutionConflict | VerificationConflict | InvalidTransition
    | Interrupted

  /** Whether a human decision may be recorded; `None` lets it pass. */
  function CheckDecidable(r: Record, decision: Decision, role: Role, now: real): (res: Option<Error>) {
    if r.approval.Some? then Some(InvalidState)
    else if r.Status() != PendingApproval then Some(InvalidState)
    else if !r.policyAllows then Some(PolicyBlocked)
    else if now >= r.proposal.expiresAt then Some(TooLate)
    else if decision == Approve && !CanApprove(role, r.proposal.action) then Some(Unauthorized)
    else None
  }

  /** An approved proposal with a matching affirmative approval. */
  function AuthorizeExecution(p: Proposal, approval: Option<Approval>): (r: Option<Error>) {
    if p.status != Approved then Some(NotApproved)
    else match approval
      case None => Some(NotApproved)
      case Some(a) => if a.remediationId != p.remediationId || a.decision != Approve then Some(NotApproved) else None
  }

  /** `listed` is the answer of the closed catalogue on action, target and parameters. */
  function CheckExecutable(r: Record, listed: bool, now: real): (res: Option<Error>) {
    if r.Status() != Approved then Some(InvalidState)
    else if AuthorizeExecution(r.proposal, r.approval).Some? then AuthorizeExecution(r.proposal, r.approval)
    else if !listed then Some(NotInCatalogue)
    else if now >= r.proposal.expiresAt then Some(TooLate)
    else None
  }

  function CheckVerifiable(r: Record): (res: Option<Error>) {
    if r.Status() != Executed then Some(InvalidState)
    else if r.execution.None? || r.execution.value.status != Succeeded then Some(InvalidState)
    else None
  }

  // ---------------------------------------------------------------- audit events

  datatype AuditKind =
    | ProposalCreated | PolicyEvaluated | RemediationBlocked | DecisionApproved | DecisionRejected
    | ExecutionRequested | ExecutionStarted | ExecutionSucceeded | ExecutionFailedEvent
    | VerificationStarted | VerificationSucceeded | VerificationFailed

  datatype AuditEvent = AuditEvent(remediationId: string, kind: AuditKind, previous: Option<Status>, next: Status)

  function ProposalEvents(id: string, allowed: bool): (r: seq<AuditEvent>) {
    var status := if allowed then PendingApproval else Blocked;
    [AuditEvent(id, ProposalCreated, None, Proposed), AuditEvent(id, PolicyEvaluated, Some(PolicyEvaluation), status)]
    + if allowed then [] else [AuditEvent(id, RemediationBlocked, Some(PolicyEvaluation), Blocked)]
  }

  function DecisionStatus(d: Decision): (r: Status) {
    if d == Approve then Approved else Rejected
  }

  function DecisionEvents(id: string, d: Decision, previous: Status): (r: seq<AuditEvent>) {
    [AuditEvent(id, if d == Approve then DecisionApproved else DecisionRejected, Some(previous), DecisionStatus(d))]
  }

  function ClaimEvents(id: string): (r: seq<AuditEvent>) {
    [AuditEvent(id, ExecutionRequested, Some(Approved), Approved),
      AuditEvent(id, ExecutionStarted, Some(Approved), Executing)]
  }

  function FinishEvents(id: string, final: Status): (r: seq<AuditEvent>) {
    [AuditEvent(id, if final == Executed then ExecutionSucceeded else ExecutionFailedEvent, Some(Executing), final)]
  }

  function VerifyEvents(id: string): (r: seq<AuditEvent>) {
    [AuditEvent(id, VerificationStarted, Some(Executed), Verifying)]
  }

  function VerdictEvents(id: string, final: Status): (r: seq<AuditEvent>) {
    [AuditEvent(id, if final == Recovered then VerificationSucceeded else VerificationFailed, Some(Verifying), final)]
  }

  // ---------------------------------------------------------------- replaying the trail

  /** The rows of one remediation, oldest first. */
  function TrailOf(audit: seq<AuditEvent>, id: string): (r: seq<AuditEvent>) {
    if audit == [] then [] else
    var init, last := TrailOf(audit[..|audit| - 1], id), audit[|audit| - 1];
    if last.remediationId == id then init + [last] else init
  }

  lemma TrailAppend(audit: seq<AuditEvent>, e: AuditEvent, id: string)
    ensures TrailOf(audit + [e], id) == TrailOf(audit, id) + if e.remediationId == id then [e] else []
  {
    assert (audit + [e])[..|audit|] == audit;
  }

  /** Appending the rows of one transaction. */
  lemma {:induction false} TrailConcat(audit: seq<AuditEvent>, events: seq<AuditEvent>, id: string)
    requires forall e | e in events :: e.remediationId == id
    ensures TrailOf(audit + events, id) == TrailOf(audit, id) + events
  {
    hide TrailOf;
    if events == [] {
      assert audit + events == audit;
    } else {
      var init, last := events[..|events| - 1], events[|events| - 1];
      assert events == init + [last] && audit + events == (audit + init) + [last];
      assert TrailOf(audit, id) + events == (TrailOf(audit, id) + init) + [last];
      TrailConcat(audit, init, id);
      TrailAppend(audit + init, last, id);
    }
  }

  lemma {:induction false} TrailOfOther(audit: seq<AuditEvent>, events: seq<AuditEvent>, id: string)
    requires forall e | e in events :: e.remediationId != id
    ensures TrailOf(audit + events, id) == TrailOf(audit, id)
  {
    hide TrailOf;
    if events == [] {
      assert audit + events == audit;
    } else {
      var init, last := events[..|events| - 1], events[|events| - 1];
      assert events == init + [last] && audit + events == (audit + init) + [last];
      TrailOfOther(audit, init, id);
      TrailAppend(audit + init, last, id);
    }
  }

  /** What a row of each kind says happened to the status. */
  predicate Describes(kind: AuditKind, previous: Option<Status>, next: Status) {
    match kind
    case ProposalCreated => previous == None && next == Proposed
    case PolicyEvaluated => previous == Some(PolicyEvaluation) && next in {PendingApproval, Blocked}
    case RemediationBlocked => previous == Some(PolicyEvaluation) && next == Blocked
    case DecisionApproved => previous == Some(PendingApproval) && next == Approved
    case DecisionRejected => previous == Some(PendingApproval) && next == Rejected
    case ExecutionRequested => previous == Some(Approved) && next == Approved
    case ExecutionStarted => previous == Some(Approved) && next == Executing
    case ExecutionSucceeded => previous == Some(Executing) && next == Executed
    case ExecutionFailedEvent => previous == Some(Executing) && next == ExecutionFailed
    case VerificationStarted => previous == Some(Executed) && next == Verifying
    case VerificationSucceeded => previous == Some(Verifying) && next == Recovered
    case VerificationFailed => previous == Some(Verifying) && next == RecoveryFailed
  }

  /**
   The status after one more row, or none when the row cannot follow: each row starts where the last
   one ended, takes an allowed transition or stays,
     and is of the kind that says so. Policy evaluation is entered silently, and a
   denial has a second row recording the block.
   */
  function ReplayRow(current: Option<Status>, e: AuditEvent): (r: Option<Status>) {
    if !Describes(e.kind, e.previous, e.next) then None else
    match current
    case None => if e.kind == ProposalCreated && e.previous == None && e.next == Proposed then Some(Proposed) else None
    case Some(s) =>
      if e.previous == None then None
      else if s == Proposed && e.kind == PolicyEvaluated && CanTransition(s, e.previous.value) &&
        CanTransition(e.previous.value, e.next)
      then Some(e.next)
      else if s == Blocked && e.kind == RemediationBlocked && e.next == Blocked &&
        CanTransition(e.previous.value, e.next) then Some(Blocked)
      else if e.previous == Some(s) && (e.next == s || CanTransition(s, e.next)) then Some(e.next)
      else None
  }

  function Replay(trail: seq<AuditEvent>): (r: Option<Status>) {
    if trail == [] then None else
    var before := Replay(trail[..|trail| - 1]);
    if |trail| > 1 && before == None then None else ReplayRow(before, trail[|trail| - 1])
  }

  lemma ReplayAppend(trail: seq<AuditEvent>, e: AuditEvent)
    requires trail == [] || Replay(trail).Some?
    ensures Replay(trail + [e]) == ReplayRow(Replay(trail), e)
  {
    assert (trail + [e])[..|trail|] == trail;
  }

  /** The status from which each status is entered. */
  function Predecessor(s: Status): (r: Option<Status>) {
    match s
    case PendingApproval => None
    case Blocked => None
    case Approved => Some(PendingApproval)
    case Rejected => Some(PendingApproval)
    case Executing => Some(Approved)
    case Executed => Some(Executing)
    case ExecutionFailed => Some(Executing)
    case Verifying => Some(Executed)
    case Recovered => Some(Verifying)
    case RecoveryFailed => Some(Verifying)
    case _ => None
  }

  predicate Stored(s: Status) {
    s !in {Proposed, PolicyEvaluation, Expired}
  }

  /** The rows of the one transaction that enters `s`. */
  function EnteringRows(id: string, s: Status): (r: seq<AuditEvent>)
    requires Stored(s)
  {
    match s
    case PendingApproval => ProposalEvents(id, true)
    case Blocked => ProposalEvents(id, false)
    case Approved => DecisionEvents(id, Approve, PendingApproval)
    case Rejected => DecisionEvents(id, Reject, PendingApproval)
    case Executing => ClaimEvents(id)
    case Executed => FinishEvents(id, s)
    case ExecutionFailed => FinishEvents(id, s)
    case Verifying => VerifyEvents(id)
    case Recovered => VerdictEvents(id, s)
    case RecoveryFailed => VerdictEvents(id, s)
  }

  function Depth(s: Status): (r: nat) {
    match s
    case Approved => 1
    case Rejected => 1
    case Executing => 2
    case Executed => 3
    case ExecutionFailed => 3
    case Verifying => 4
    case Recovered => 5
    case RecoveryFailed => 5
    case _ => 0
  }

  /** The whole lifecycle of a remediation in status `s`: the transactions that led to it, in order. */
  function LifecycleWord(id: string, s: Status): (r: seq<AuditEvent>)
    requires Stored(s)
    decreases Depth(s)
  {
    (if Predecessor(s).Some? then LifecycleWord(id, Predecessor(s).value) else []) + EnteringRows(id, s)
  }

  lemma ReplayTwo(trail: seq<AuditEvent>, a: AuditEvent, b: AuditEvent)
    requires trail == [] || Replay(trail).Some?
    requires ReplayRow(Replay(trail), a).Some?
    ensures Replay(trail + [a, b]) == ReplayRow(ReplayRow(Replay(trail), a), b)
  {
    ReplayAppend(trail, a);
    ReplayAppend(trail + [a], b);
    assert trail + [a] + [b] == trail + [a, b];
  }

  /** The rows of one transaction lead from the status before it to the one after. */
  lemma LaterRowsLead(id: string, s: Status)
    requires Stored(s) && Predecessor(s).Some?
    ensures var rows, p := EnteringRows(id, s), Predecessor(s);
      if s == Executing then |rows| == 2 && ReplayRow(p, rows[0]) == p && ReplayRow(p, rows[1]) == Some(s)
      else |rows| == 1 && ReplayRow(p, rows[0]) == Some(s)
  {
  }

  lemma FirstRowsLead(id: string, s: Status)
    requires Stored(s) && Predecessor(s) == None
    ensures var rows := EnteringRows(id, s);
      && |rows| == (if s == Blocked then 3 else 2) && ReplayRow(None, rows[0]) == Some(Proposed)
      && ReplayRow(Some(Proposed), rows[1]) == Some(s)
      && (s == Blocked ==> ReplayRow(Some(s), rows[2]) == Some(s))
  {
  }

  lemma WordUnfolds(id: string, s: Status)
    requires Stored(s)
    ensures LifecycleWord(id, s)
         == (if Predecessor(s).Some? then LifecycleWord(id, Predecessor(s).value) else []) + EnteringRows(id, s)
  {
    hide EnteringRows;
  }

  /** Replaying a lifecycle word yields its status. */
  lemma {:induction false} WordReplays(id: string, s: Status)
    requires Stored(s)
    ensures LifecycleWord(id, s) != [] && Replay(LifecycleWord(id, s)) == Some(s)
    decreases Depth(s)
  {
    hide Replay, ReplayRow, EnteringRows, LifecycleWord;
    var rows := EnteringRows(id, s);
    WordUnfolds(id, s);
    if Predecessor(s).Some? {
      var before := LifecycleWord(id, Predecessor(s).value);
      WordReplays(id, Predecessor(s).value);
      LaterRowsLead(id, s);
      if s == Executing {
        ReplayTwo(before, rows[0], rows[1]);
        assert rows == [rows[0], rows[1]];
      } else {
        ReplayAppend(before, rows[0]);
        assert rows == [rows[0]];
      }
    } else {
      NothingReplayed();
      FirstRowsLead(id, s);
      ReplayTwo([], rows[0], rows[1]);
      assert [] + rows == rows && [] + [rows[0], rows[1]] == [rows[0], rows[1]];
      if s == Blocked {
        ReplayAppend([rows[0], rows[1]], rows[2]);
        assert rows == [rows[0], rows[1]] + [rows[2]];
      } else {
        assert rows == [rows[0], rows[1]];
      }
    }
  }

  lemma NothingReplayed()
    ensures Replay([]) == None
  {
  }
}
