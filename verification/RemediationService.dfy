/** The service calls as written, running undisturbed; each is the composition of its steps. */
module RemediationService {
  import opened Prelude
  import opened RemediationDomain
  import opened RemediationRepository
  import opened RemediationClients

  predicate FiledUnderItsId(records: map<string, Record>, id: string) {
    id in records ==> records[id].Id() == id
  }

  /** A world with no call in progress. */
  function Idle(t: Tables, runs: seq<Run>): (r: World) { World(t, map[], runs) }

  function DecideCall(w: World, id: string, d: Decision, role: Role, identity: string, now: real): (r: World) {
    Step(Step(w, 0, StartDecide(id, d, role, identity, now)), 0, CommitDecision)
  }

  function ExecuteCall(w: World, id: string, executionId: string, listed: bool, now: real,
                       answer: ExecutorAnswer): (r: World) {
    var claimed := Step(Step(w, 0, StartExecute(id, executionId, listed, now)), 0, Claim);
    Step(Step(claimed, 0, CallExecutor(answer)), 0, CommitExecution)
  }

  function VerifyCall(w: World, id: string, verificationId: string, now: real, recovered: bool): (r: World) {
    Step(Step(Step(w, 0, StartVerify(id, verificationId, now)), 0, ClaimVerification), 0, CommitVerification(recovered))
  }

  lemma ClaimStep(w: World, r: Record, pending: Execution)
    requires w.calls == map[]
    ensures var o := BeginExecution(w.tables, r.Id(), pending, ClaimEvents(r.Id()));
      Step(Next(w, 0, ExecutePending(r, pending)), 0, Claim)
      == if o.Ok? then Next(w.(tables := o.value), 0, Claimed(r.Id(), pending)) else w
  {
    hide BeginExecution;
    var w' := Next(w, 0, ExecutePending(r, pending));
    assert End(w', 0) == w;
  }

  lemma ExecutorStep(w: World, id: string, pending: Execution, answer: ExecutorAnswer)
    requires w.calls == map[]
    ensures var w' := w.(runs := w.runs + [Run(id, pending.executionId, pending.startedAt)]);
      Step(Next(w, 0, Claimed(id, pending)), 0, CallExecutor(answer))
      == match answer
         case Finished(s) => Next(w', 0, Ran(id, pending.(status := s), Executed))
         case ExecutorError => Next(w', 0, Ran(id, pending.(status := Failed), ExecutionFailed))
         case Crashed => w'
  {
    var w' := Next(w, 0, Claimed(id, pending));
    assert End(w', 0) == w;
  }

  lemma FinishStep(w: World, id: string, result: Execution, final: Status)
    requires w.calls == map[]
    ensures var o := FinishExecution(w.tables, id, result, final, FinishEvents(id, final));
      Step(Next(w, 0, Ran(id, result, final)), 0, CommitExecution) == if o.Ok? then w.(tables := o.value) else w
  {
    hide FinishExecution;
    assert End(Next(w, 0, Ran(id, result, final)), 0) == w;
  }

  /** The claim just taken lets the execution be finished. */
  lemma ClaimCanFinish(t: Tables, id: string, pending: Execution, result: Execution, final: Status)
    requires final in {Executed, ExecutionFailed}
    ensures var o := BeginExecution(t, id, pending, ClaimEvents(id));
      o.Ok? ==> FinishExecution(o.value, id, result, final, FinishEvents(id, final)).Ok?
  {
  }

  /** Why `execute` refuses, from the record as it is. */
  function ExecuteRefusal(t: Tables, id: string, listed: bool, now: real): (refusal: Option<Error>)
    ensures refusal == None ==> id in t.records
  {
    if id !in t.records then Some(NotFound) else CheckExecutable(t.records[id], listed, now)
  }

  /** What a real execution answers: a conflict when there was one already, else the record it leaves behind. */
  function RunReply(before: Tables, after: Tables, id: string, answer: ExecutorAnswer): (r: Outcome<Record>) {
    if id in before.executions then Err(ExecutionConflict)
    else if answer == Crashed || id !in after.records then Err(Interrupted)
    else Ok(after.records[id])
  }

  /** Why `verify_recovery` refuses a remediation that has no verdict to replay. */
  function VerifyRefusal(t: Tables, id: string): (refusal: Option<Error>)
    ensures refusal == None ==> id in t.records && t.records[id].Status() == Executed
  {
    if id !in t.records then Some(NotFound)
    else if t.records[id].Status() == Verifying then Some(VerificationConflict)
    else if CheckVerifiable(t.records[id]).Some? then CheckVerifiable(t.records[id])
    else if id in t.verifications then Some(VerificationConflict)
    else None
  }

  lemma VerifyRefused(w: World, id: string, verificationId: string, now: real, recovered: bool)
    requires w.calls == map[] && (id !in w.tables.records || CheckVerifiable(w.tables.records[id]).Some?)
    ensures VerifyCall(w, id, verificationId, now, recovered) == w
  {
    hide BeginVerification, FinishVerification;
  }

  lemma VerifyAccepted(w: World, id: string, verificationId: string, now: real, recovered: bool)
    requires w.calls == map[] && id in w.tables.records && CheckVerifiable(w.tables.records[id]) == None
    ensures var r := w.tables.records[id];
      r.Status() == Executed && r.execution.Some?
      && VerifyCall(w, id, verificationId, now, recovered)
         == Step(Step(Next(w, 0,
           VerifyPending(r, Verification(verificationId, id, r.execution.value.executionId, None, now))),
                      0, ClaimVerification), 0, CommitVerification(recovered))
  {
    hide BeginVerification, FinishVerification;
  }

  lemma ExecuteRefused(w: World, id: string, executionId: string, listed: bool, now: real, answer: ExecutorAnswer)
    requires w.calls == map[] && ExecuteRefusal(w.tables, id, listed, now).Some?
    ensures ExecuteCall(w, id, executionId, listed, now, answer) == w
  {
    hide CheckExecutable, BeginExecution, FinishExecution;
  }

  lemma ExecuteAccepted(w: World, id: string, executionId: string, listed: bool, now: real, answer: ExecutorAnswer)
    requires w.calls == map[] && ExecuteRefusal(w.tables, id, listed, now) == None
    ensures w.tables.records[id].Status() == Approved
    ensures var r := w.tables.records[id];
      ExecuteCall(w, id, executionId, listed, now, answer)
      == Step(Step(Step(Next(w, 0, ExecutePending(r, Execution(executionId, id, Started, now))), 0, Claim), 0,
        CallExecutor(answer)),
              0, CommitExecution)
  {
    hide AuthorizeExecution, BeginExecution, FinishExecution;
  }

  /** A claim goes through exactly when the record is approved and nothing has been claimed. */
  lemma ClaimOutcome(t: Tables, id: string, pending: Execution)
    requires id in t.records && t.records[id].Status() == Approved
    ensures BeginExecution(t, id, pending, ClaimEvents(id)).Ok? <==> id !in t.executions
    ensures id in t.executions ==> BeginExecution(t, id, pending, ClaimEvents(id)) == Err(ExecutionConflict)
  {
  }

  lemma CheckOutcome(t: Tables, id: string, check: Verification, recovered: bool)
    requires id in t.records && t.records[id].Status() == Executed
    ensures var o := BeginVerification(t, id, check, VerifyEvents(id));
      var final := if recovered then Recovered else RecoveryFailed;
      if id in t.verifications then o == Err(VerificationConflict)
      else o.Ok? && FinishVerification(o.value, id, check.(outcome := Some(recovered)), final,
        VerdictEvents(id, final)).Ok?
  {
  }

  /** A step on a world without calls, other than one that starts a call or a proposal, does nothing. */
  lemma NothingInProgress(w: World, a: Action)
    requires w.calls == map[] && (a.CommitExecution? || a.CallExecutor? || a.CommitVerification?)
    ensures Step(w, 0, a) == w
  {
  }

  lemma BeginCheckStep(w: World, r: Record, check: Verification)
    requires w.calls == map[]
    ensures var o := BeginVerification(w.tables, r.Id(), check, VerifyEvents(r.Id()));
      Step(Next(w, 0, VerifyPending(r, check)), 0, ClaimVerification)
      == if o.Ok? then Next(w.(tables := o.value), 0, Checking(r.Id(), check)) else w
  {
    hide BeginVerification;
    assert End(Next(w, 0, VerifyPending(r, check)), 0) == w;
  }

  lemma FinishCheckStep(w: World, id: string, check: Verification, recovered: bool)
    requires w.calls == map[]
    ensures var final := if recovered then Recovered else RecoveryFailed;
      var o := FinishVerification(w.tables, id, check.(outcome := Some(recovered)), final, VerdictEvents(id, final));
      Step(Next(w, 0, Checking(id, check)), 0, CommitVerification(recovered)) == if o.Ok? then w.(tables := o.value)
        else w
  {
    hide FinishVerification;
    assert End(Next(w, 0, Checking(id, check)), 0) == w;
  }

  // ---------------------------------------------------------------- what the calls mean

  /** Undecided, allowed by policy and in time. */
  predicate OpenForDecision(r: Record, now: real) {
    r.approval == None && r.Status() == PendingApproval && r.policyAllows && now < r.proposal.expiresAt
  }

  /** Approved in its own name and in time. */
  predicate Runnable(r: Record, now: real) {
    && r.Status() == Approved && r.approval.Some? && r.approval.value.decision == Approve
    && r.approval.value.remediationId == r.Id() && now < r.proposal.expiresAt
  }

  /** A decision goes through exactly on an open record, for a rejection or an entitled role. */
  lemma DecideMeaning(w: World, id: string, d: Decision, role: Role, identity: string, now: real)
    requires w.calls == map[] && FiledUnderItsId(w.tables.records, id)
    ensures var w' := DecideCall(w, id, d, role, identity, now);
      if id in w.tables.records && OpenForDecision(w.tables.records[id], now) &&
        (d == Reject || MayApprove(role, w.tables.records[id].proposal.action))
      then
        var r := w.tables.records[id];
        && w'.tables.records == w.tables.records[id :=
             Record(r.proposal.(status := if d == Approve then Approved else Rejected), r.policyAllows,
                    Some(Approval(id, d, role, identity, now)), r.execution, r.verification)]
        && w'.runs == w.runs && w'.calls == map[]
      else w' == w
  {
    if id in w.tables.records { MatrixPairs(role, w.tables.records[id].proposal.action); }
    hide CanApprove, MayApprove;
    var w1 := Step(w, 0, StartDecide(id, d, role, identity, now));
    if w1.calls != map[] { assert End(w1, 0).calls == map[]; }
  }

  /** Refusals, error by error left aside: who passes the guards. */
  lemma RefusalMeaning(t: Tables, id: string, listed: bool, now: real)
    ensures ExecuteRefusal(t, id, listed, now) == None <==>
      id in t.records && listed && Runnable(t.records[id], now)
  {
  }

  /** What the executor's answer leaves behind. */
  function AfterRun(r: Record, executionId: string, now: real, answer: ExecutorAnswer): (res: Record) {
    match answer
    case Finished(s) => r.WithStatus(Executed).(execution := Some(Execution(executionId, r.Id(), s, now)))
    case ExecutorError => r.WithStatus(ExecutionFailed).(execution := Some(Execution(executionId, r.Id(), Failed, now)))
    case Crashed => r.WithStatus(Executing).(execution := Some(Execution(executionId, r.Id(), Started, now)))
  }

  /**
   A real execution reaches the executor, once, exactly for a listed and runnable remediation that has no
   execution yet; success, failure and interruption leave their own status and execution behind.
   */
  lemma ExecuteMeaning(w: World, id: string, executionId: string, listed: bool, now: real, answer: ExecutorAnswer)
    requires w.calls == map[] && FiledUnderItsId(w.tables.records, id)
    ensures var w' := ExecuteCall(w, id, executionId, listed, now, answer);
      if id in w.tables.records && listed && Runnable(w.tables.records[id], now) && id !in w.tables.executions then
        && w'.runs == w.runs + [Run(id, executionId, now)]
        && w'.tables.records == w.tables.records[id := AfterRun(w.tables.records[id], executionId, now, answer)]
      else w' == w
  {
    RefusalMeaning(w.tables, id, listed, now);
    if ExecuteRefusal(w.tables, id, listed, now).Some? {
      hide ExecuteCall, Runnable;
      ExecuteRefused(w, id, executionId, listed, now, answer);
    } else {
      hide Runnable, CheckExecutable, ExecuteCall, Step;
      ExecuteAccepted(w, id, executionId, listed, now, answer);
      var r, pending := w.tables.records[id], Execution(executionId, id, Started, now);
      ClaimStep(w, r, pending);
      ClaimOutcome(w.tables, id, pending);
      NothingInProgress(w, CallExecutor(answer));
      NothingInProgress(w, CommitExecution);
      if id !in w.tables.executions { ClaimedRunMeaning(w, r, pending, answer); }
    }
  }

  lemma ClaimedRunMeaning(w: World, r: Record, pending: Execution, answer: ExecutorAnswer)
    requires w.calls == map[] && r.Id() in w.tables.records && r == w.tables.records[r.Id()] && r.Status() == Approved
    requires r.Id() !in w.tables.executions &&
      pending == Execution(pending.executionId, r.Id(), Started, pending.startedAt)
    ensures var id := r.Id();
      var o := BeginExecution(w.tables, id, pending, ClaimEvents(id));
      && o.Ok?
      && var w' := Step(Step(Next(w.(tables := o.value), 0, Claimed(id, pending)), 0, CallExecutor(answer)), 0,
        CommitExecution);
      && w'.runs == w.runs + [Run(id, pending.executionId, pending.startedAt)]
      && w'.tables.records == w.tables.records[id := AfterRun(r, pending.executionId, pending.startedAt, answer)]
  {
    var id := r.Id();
    var claimed := w.(tables := BeginExecution(w.tables, id, pending, ClaimEvents(id)).value);
    hide Step;
    ExecutorStep(claimed, id, pending, answer);
    var ran := claimed.(runs := claimed.runs + [Run(id, pending.executionId, pending.startedAt)]);
    match answer {
      case Finished(s) => FinishStep(ran, id, pending.(status := s), Executed);
      case ExecutorError => FinishStep(ran, id, pending.(status := Failed), ExecutionFailed);
      case Crashed => NothingInProgress(ran, CommitExecution);
    }
  }

  /** A verification goes through exactly for a succeeded execution that has not been verified. */
  lemma VerifyMeaning(w: World, id: string, verificationId: string, now: real, recovered: bool)
    requires w.calls == map[] && FiledUnderItsId(w.tables.records, id)
    ensures var w' := VerifyCall(w, id, verificationId, now, recovered);
      if && id in w.tables.records && w.tables.records[id].Status() == Executed && w.tables.records[id].execution.Some?
         && w.tables.records[id].execution.value.status == Succeeded && id !in w.tables.verifications
      then
        var r := w.tables.records[id];
        w'.tables.records == w.tables.records[id :=
          r.WithStatus(if recovered then Recovered else RecoveryFailed).(verification :=
            Some(Verification(verificationId, id, r.execution.value.executionId, Some(recovered), now)))]
      else w' == w
  {
    if id !in w.tables.records || CheckVerifiable(w.tables.records[id]).Some? {
      hide VerifyCall;
      VerifyRefused(w, id, verificationId, now, recovered);
    } else {
      hide VerifyCall, Step;
      VerifyAccepted(w, id, verificationId, now, recovered);
      var r := w.tables.records[id];
      var check := Verification(verificationId, id, r.execution.value.executionId, None, now);
      BeginCheckStep(w, r, check);
      CheckOutcome(w.tables, id, check, recovered);
      NothingInProgress(w, CommitVerification(recovered));
      if id !in w.tables.verifications {
        FinishCheckStep(w.(tables := BeginVerification(w.tables, id, check, VerifyEvents(id)).value), id, check,
          recovered);
      }
    }
  }

  class Service {
    const repo: InMemoryRepository
    var runs: seq<Run>

    constructor (repo: InMemoryRepository)
      ensures this.repo == repo && runs == []
    {
      this.repo := repo;
      runs := [];
    }

    function World(): (r: World)
      reads this, repo
    {
      Idle(repo.State(), runs)
    }

    /** Maps a recommendation, already evaluated by policy, to a stored record. */
    method Propose(p: Proposal, allowed: bool) returns (reply: Outcome<Record>)
      modifies repo
      ensures World() == Step(old(World()), 0, Action.Propose(p, allowed))
      ensures reply == if p.remediationId in old(repo.records) then Err(AlreadyExists) else Ok(NewRecord(p, allowed))
    {
      reply := repo.CreateRecord(NewRecord(p, allowed), ProposalEvents(p.remediationId, allowed));
    }

    method Decide(id: string, d: Decision, role: Role, identity: string, now: real) returns (reply: Outcome<Record>)
      modifies repo
      ensures World() == DecideCall(old(World()), id, d, role, identity, now)
      ensures reply.Err? ==> repo.State() == old(repo.State())
      ensures FiledUnderItsId(old(repo.records), id) ==>
        reply == if id !in old(repo.records) then Err(NotFound)
                 else match CheckDecidable(old(repo.records)[id], d, role, now)
                   case Some(refusal) => Err(refusal)
                   case None => Ok(repo.records[id])
      ensures FiledUnderItsId(old(repo.records), id) ==>
        (reply.Ok? <==>
          && id in old(repo.records) && OpenForDecision(old(repo.records)[id], now)
          && (d == Reject || MayApprove(role, old(repo.records)[id].proposal.action)))
    {
      var current := repo.Get(id);
      if current == None { return Err(NotFound); }
      var r := current.value;
      MatrixPairs(role, r.proposal.action);
      hide CanApprove, MayApprove;
      var refusal := CheckDecidable(r, d, role, now);
      if refusal.Some? { return Err(refusal.value); }
      if !CanTransition(r.Status(), DecisionStatus(d)) { return Err(InvalidTransition); }
      var approval := Approval(id, d, role, identity, now);
      reply := repo.Decide(r.Id(), r.proposal.(status := DecisionStatus(d)), approval,
        DecisionEvents(r.Id(), d, r.Status()));
    }

    /** A dry run answers without touching the tables or the target. */
    method Execute(id: string, executionId: string, listed: bool, dryRun: bool, now: real, answer: ExecutorAnswer)
      returns (reply: Outcome<Record>)
      modifies this`runs, repo
      ensures dryRun ==> repo.State() == old(repo.State()) && runs == old(runs)
      ensures !dryRun ==> World() == ExecuteCall(old(World()), id, executionId, listed, now, answer)
      ensures reply.Err? && reply.error != Interrupted ==> runs == old(runs)
      ensures FiledUnderItsId(old(repo.records), id) ==>
        match ExecuteRefusal(old(repo.State()), id, listed, now)
        case Some(refusal) => reply == Err(refusal)
        case None =>
          if dryRun then reply == Ok(old(repo.records)[id])
          else reply == RunReply(old(repo.State()), repo.State(), id, answer)
    {
      hide CheckExecutable, ExecuteCall, Step, RunReply, Next;
      var current := repo.Get(id);
      if current == None {
        ExecuteRefused(World(), id, executionId, listed, now, answer);
        return Err(NotFound);
      }
      var r := current.value;
      var refusal := CheckExecutable(r, listed, now);
      if refusal.Some? {
        ExecuteRefused(World(), id, executionId, listed, now, answer);
        return Err(refusal.value);
      }
      if dryRun { return Ok(r); }
      ExecuteAccepted(World(), id, executionId, listed, now, answer);
      reply := RunClaimed(r, Execution(executionId, id, Started, now), answer);
    }

    method RunClaimed(r: Record, pending: Execution, answer: ExecutorAnswer) returns (reply: Outcome<Record>)
      modifies this`runs, repo
      ensures World() ==
        var claimed := Step(Next(old(World()), 0, ExecutePending(r, pending)), 0, Claim);
        Step(Step(claimed, 0, CallExecutor(answer)), 0, CommitExecution)
      ensures reply.Err? && reply.error != Interrupted ==> runs == old(runs)
      ensures r.Id() in old(repo.records) && old(repo.records)[r.Id()].Status() == Approved ==>
        reply == RunReply(old(repo.State()), repo.State(), r.Id(), answer)
    {
      hide Step, BeginExecution, FinishExecution, CanTransition;
      var id := r.Id();
      ClaimStep(World(), r, pending);
      NothingInProgress(World(), CallExecutor(answer));
      NothingInProgress(World(), CommitExecution);
      if id in repo.records && repo.records[id].Status() == Approved { ClaimOutcome(repo.State(), id, pending); }
      var begun := repo.BeginRun(id, pending, ClaimEvents(id));
      if begun.Err? { return begun; }
      ExecutorStep(World(), id, pending, answer);
      runs := runs + [Run(id, pending.executionId, pending.startedAt)];
      var result, final;
      match answer {
        case Finished(s) => result, final := pending.(status := s), Executed;
        case ExecutorError => result, final := pending.(status := Failed), ExecutionFailed;
        case Crashed =>
          NothingInProgress(World(), CommitExecution);
          return Err(Interrupted);
      }
      FinishStep(World(), id, result, final);
      ClaimCanFinish(old(repo.State()), id, pending, result, final);
      reply := repo.FinishRun(id, result, final, FinishEvents(id, final));
    }

    /** A verdict already stored is returned as it is; a verification in progress is a conflict. */
    method VerifyRecovery(id: string, verificationId: string, now: real, recovered: bool)
      returns (reply: Outcome<Record>, replayed: bool)
      modifies repo
      ensures World() == VerifyCall(old(World()), id, verificationId, now, recovered)
      ensures replayed ==> repo.State() == old(repo.State()) && id in repo.records && reply == Ok(repo.records[id])
      ensures replayed <==> id in old(repo.records) && old(repo.records)[id].Status() in {Recovered, RecoveryFailed}
                            && old(repo.records)[id].verification.Some?
      ensures !replayed && FiledUnderItsId(old(repo.records), id) ==>
        match VerifyRefusal(old(repo.State()), id)
        case Some(refusal) => reply == Err(refusal)
        case None => id in repo.records && reply == Ok(repo.records[id])
    {
      hide VerifyCall, Step, Next;
      replayed := false;
      var current := repo.Get(id);
      if current == None || CheckVerifiable(current.value).Some? {
        VerifyRefused(World(), id, verificationId, now, recovered);
      }
      if current == None { return Err(NotFound), false; }
      var r := current.value;
      if r.Status() == Recovered || r.Status() == RecoveryFailed {
        if r.verification == None { return Err(InvalidState), false; }
        return Ok(r), true;
      }
      if r.Status() == Verifying { return Err(VerificationConflict), false; }
      var refusal := CheckVerifiable(r);
      if refusal.Some? { return Err(refusal.value), false; }
      VerifyAccepted(World(), id, verificationId, now, recovered);
      var check := Verification(verificationId, id, r.execution.value.executionId, None, now);
      reply := CheckClaimed(r, check, recovered);
    }

    method CheckClaimed(r: Record, check: Verification, recovered: bool) returns (reply: Outcome<Record>)
      modifies repo
      ensures World() ==
        Step(Step(Next(old(World()), 0, VerifyPending(r, check)), 0, ClaimVerification), 0,
          CommitVerification(recovered))
      ensures r.Id() in old(repo.records) && old(repo.records)[r.Id()].Status() == Executed ==>
        if r.Id() in old(repo.verifications) then reply == Err(VerificationConflict)
        else r.Id() in repo.records && reply == Ok(repo.records[r.Id()])
    {
      hide Step, BeginVerification, FinishVerification;
      var id := r.Id();
      BeginCheckStep(World(), r, check);
      NothingInProgress(World(), CommitVerification(recovered));
      if id in repo.records && repo.records[id].Status() == Executed {
        CheckOutcome(repo.State(), id, check, recovered);
      }
      var begun := repo.BeginCheck(id, check, VerifyEvents(id));
      if begun.Err? { return begun; }
      FinishCheckStep(World(), id, check, recovered);
      var final := if recovered then Recovered else RecoveryFailed;
      reply := repo.FinishCheck(id, check.(outcome := Some(recovered)), final, VerdictEvents(id, final));
    }
  }
}
