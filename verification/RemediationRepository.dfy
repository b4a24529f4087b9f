/**
 The remediation tables. Every operation is one transaction: it checks the row as it is now, writes
 row, execution or verification and the audit rows together, or changes nothing.
 */
module RemediationRepository {
  import opened Prelude
  import opened RemediationDomain

  datatype Tables = Tables(
    records: map<string, Record>,
    order: seq<string>,
    executions: map<string, Execution>,
    verifications: map<string, Verification>,
    audit: seq<AuditEvent>)

  const EmptyTables := Tables(map[], [], map[], map[], [])

  datatype Outcome<T> = Ok(value: T) | Err(error: Error)

  // ---------------------------------------------------------------- what each transaction does

  function Put(t: Tables, id: string, r: Record, events: seq<AuditEvent>): (res: Tables) {
    t.(records := t.records[id := r], audit := t.audit + events)
  }

  function Create(t: Tables, r: Record, events: seq<AuditEvent>): (res: Outcome<Tables>) {
    if r.Id() in t.records then Err(AlreadyExists) else Ok(Put(t, r.Id(), r, events).(order := t.order + [r.Id()]))
  }

  /** The proposal is written as the caller read it; only an earlier decision stops the write. */
  function RecordDecision(t: Tables, id: string, proposal: Proposal, approval: Approval,
                          events: seq<AuditEvent>): (r: Outcome<Tables>)
  {
    if id !in t.records then Err(NotFound)
    else if t.records[id].approval.Some? then Err(AlreadyDecided)
    else Ok(Put(t, id, t.records[id].(proposal := proposal, approval := Some(approval)), events))
  }

  function BeginExecution(t: Tables, id: string, pending: Execution, events: seq<AuditEvent>): (r: Outcome<Tables>)
  {
    if id !in t.records then Err(NotFound)
    else if t.records[id].Status() != Approved || id in t.executions then Err(ExecutionConflict)
    else
      var r := t.records[id].WithStatus(Executing).(execution := Some(pending));
      Ok(Put(t, id, r, events).(executions := t.executions[id := pending]))
  }

  function FinishExecution(t: Tables, id: string, result: Execution, final: Status,
                           events: seq<AuditEvent>): (r: Outcome<Tables>)
  {
    if id !in t.records then Err(NotFound)
    else if t.records[id].Status() != Executing then Err(ExecutionConflict)
    else if !CanTransition(Executing, final) then Err(InvalidTransition)
    else
      var r := t.records[id].WithStatus(final).(execution := Some(result));
      Ok(Put(t, id, r, events).(executions := t.executions[id := result]))
  }

  function BeginVerification(t: Tables, id: string, pending: Verification,
                             events: seq<AuditEvent>): (r: Outcome<Tables>)
  {
    if id !in t.records then Err(NotFound)
    else if t.records[id].Status() != Executed || id in t.verifications then Err(VerificationConflict)
    else
      var r := t.records[id].WithStatus(Verifying).(verification := Some(pending));
      Ok(Put(t, id, r, events).(verifications := t.verifications[id := pending]))
  }

  function FinishVerification(t: Tables, id: string, result: Verification, final: Status,
                              events: seq<AuditEvent>): (r: Outcome<Tables>)
  {
    if id !in t.records then Err(NotFound)
    else if t.records[id].Status() != Verifying then Err(VerificationConflict)
    else if !CanTransition(Verifying, final) then Err(InvalidTransition)
    else
      var r := t.records[id].WithStatus(final).(verification := Some(result));
      Ok(Put(t, id, r, events).(verifications := t.verifications[id := result]))
  }

  // ---------------------------------------------------------------- the in-memory store

  class InMemoryRepository {
    var records: map<string, Record>
    var order: seq<string>
    var executions: map<string, Execution>
    var verifications: map<string, Verification>
    var audit: seq<AuditEvent>

    constructor ()
      ensures State() == EmptyTables
    {
      records, order, executions, verifications, audit := map[], [], map[], map[], [];
    }

    function State(): (r: Tables)
      reads this
    {
      Tables(records, order, executions, verifications, audit)
    }

    method AppendAudit(events: seq<AuditEvent>)
      modifies this`audit
      ensures audit == old(audit) + events
    {
      audit := audit + events;
    }

    method CreateRecord(r: Record, events: seq<AuditEvent>) returns (reply: Outcome<Record>)
      modifies this
      ensures var o := Create(old(State()), r, events);
        if o.Ok? then State() == o.value && reply == Ok(r) else State() == old(State()) && reply == Err(o.error)
    {
      if r.Id() in records { return Err(AlreadyExists); }
      records := records[r.Id() := r];
      order := order + [r.Id()];
      AppendAudit(events);
      return Ok(r);
    }

    method Get(id: string) returns (reply: Option<Record>)
      ensures reply == if id in records then Some(records[id]) else None
    {
      if id in records { return Some(records[id]); }
      return None;
    }

    method Decide(id: string, proposal: Proposal, approval: Approval, events: seq<AuditEvent>)
      returns (reply: Outcome<Record>)
      modifies this
      ensures var o := RecordDecision(old(State()), id, proposal, approval, events);
        if o.Ok? then State() == o.value && id in records && reply == Ok(records[id])
        else State() == old(State()) && reply == Err(o.error)
    {
      if id !in records { return Err(NotFound); }
      var rec := records[id];
      if rec.approval.Some? { return Err(AlreadyDecided); }
      var updated := rec.(proposal := proposal).(approval := Some(approval));
      records := records[id := updated];
      AppendAudit(events);
      return Ok(updated);
    }

    method BeginRun(id: string, pending: Execution, events: seq<AuditEvent>) returns (reply: Outcome<Record>)
      modifies this
      ensures var o := BeginExecution(old(State()), id, pending, events);
        if o.Ok? then State() == o.value && id in records && reply == Ok(records[id])
        else State() == old(State()) && reply == Err(o.error)
    {
      if id !in records { return Err(NotFound); }
      if records[id].Status() != Approved || id in executions { return Err(ExecutionConflict); }
      var updated := records[id].WithStatus(Executing).(execution := Some(pending));
      records := records[id := updated];
      executions := executions[id := pending];
      AppendAudit(events);
      return Ok(updated);
    }

    method FinishRun(id: string, result: Execution, final: Status, events: seq<AuditEvent>)
      returns (reply: Outcome<Record>)
      modifies this
      ensures var o := FinishExecution(old(State()), id, result, final, events);
        if o.Ok? then State() == o.value && id in records && reply == Ok(records[id])
        else State() == old(State()) && reply == Err(o.error)
    {
      if id !in records { return Err(NotFound); }
      if records[id].Status() != Executing { return Err(ExecutionConflict); }
      if !CanTransition(Executing, final) { return Err(InvalidTransition); }
      var updated := records[id].WithStatus(final).(execution := Some(result));
      records := records[id := updated];
      executions := executions[id := result];
      AppendAudit(events);
      return Ok(updated);
    }

    method BeginCheck(id: string, pending: Verification, events: seq<AuditEvent>) returns (reply: Outcome<Record>)
      modifies this
      ensures var o := BeginVerification(old(State()), id, pending, events);
        if o.Ok? then State() == o.value && id in records && reply == Ok(records[id])
        else State() == old(State()) && reply == Err(o.error)
    {
      if id !in records { return Err(NotFound); }
      if records[id].Status() != Executed || id in verifications { return Err(VerificationConflict); }
      var updated := records[id].WithStatus(Verifying).(verification := Some(pending));
      records := records[id := updated];
      verifications := verifications[id := pending];
      AppendAudit(events);
      return Ok(updated);
    }

    method FinishCheck(id: string, result: Verification, final: Status, events: seq<AuditEvent>)
      returns (reply: Outcome<Record>)
      modifies this
      ensures var o := FinishVerification(old(State()), id, result, final, events);
        if o.Ok? then State() == o.value && id in records && reply == Ok(records[id])
        else State() == old(State()) && reply == Err(o.error)
    {
      if id !in records { return Err(NotFound); }
      if records[id].Status() != Verifying { return Err(VerificationConflict); }
      if !CanTransition(Verifying, final) { return Err(InvalidTransition); }
      var updated := records[id].WithStatus(final).(verification := Some(result));
      records := records[id := updated];
      verifications := verifications[id := result];
      AppendAudit(events);
      return Ok(updated);
    }

    /** A page of one remediation's rows, oldest first. */
    method ListAuditEvents(id: string, limit: nat, offset: nat) returns (page: seq<AuditEvent>)
      ensures var trail := TrailOf(audit, id);
        page == if offset <= |trail| then trail[offset..if offset + limit <= |trail| then offset + limit else |trail|]
          else []
    {
      var events, i := [], 0;
      while i < |audit|
        invariant 0 <= i <= |audit|
        invariant events == TrailOf(audit[..i], id)
      {
        TrailAppend(audit[..i], audit[i], id);
        assert audit[..i + 1] == audit[..i] + [audit[i]];
        if audit[i].remediationId == id { events := events + [audit[i]]; }
        i := i + 1;
      }
      assert audit[..i] == audit;
      if offset > |events| { return []; }
      return events[offset..if offset + limit <= |events| then offset + limit else |events|];
    }
  }
}
