/**
 * The per-command audit trail of src/lib/agents/BaseAgent.ts: every agent call
 * logs an execution record (PENDING), starts it (RUNNING) and finishes it
 * (COMPLETED or FAILED). The persisted table is a map from record id to record.
 */
module Tracker {
  import opened Common
  import opened Responses
  import Store

  datatype AgentType = ORCHESTRATOR | COMMAND | LLM | TASK | CALENDAR | EMAIL | DOC | WEB_SEARCH

  datatype ExecutionStatus = PENDING | RUNNING | COMPLETED | FAILED

  /** What an agent stores as the result of an execution. */
  datatype Payload =
    | ResponsePayload(response: Response)
    | CommandPayload(processed: Command)
    | LlmPayload(result: string)

  datatype ExecutionRecord = ExecutionRecord(
    id: string,
    agentType: AgentType,
    userId: string,
    command: string,
    intent: Option<string>,
    parameters: Option<Fields>,
    result: Option<Payload>,
    status: ExecutionStatus,
    error: Option<string>,
    startedAt: Option<int>,
    completedAt: Option<int>,
    createdAt: int)

  predicate Terminal(s: ExecutionStatus)
  {
    s == COMPLETED || s == FAILED
  }

  /** A record carries a completion time exactly when its status is terminal. */
  predicate WellFormed(r: ExecutionRecord)
  {
    r.completedAt.Some? <==> Terminal(r.status)
  }

  /** The record `logExecution` creates: pending, with nothing started, finished or stored yet. */
  function Pending(id: string, agent: AgentType, userId: string, command: string,
                   intent: Option<string>, parameters: Option<Fields>, now: int): (r: ExecutionRecord)
    ensures r.status == PENDING && WellFormed(r)
    ensures r.id == id && r.agentType == agent && r.userId == userId && r.command == command
    ensures r.intent == intent && r.parameters == parameters && r.createdAt == now
    ensures r.result == None && r.error == None && r.startedAt == None && r.completedAt == None
  {
    ExecutionRecord(id, agent, userId, command, intent, parameters, None, PENDING, None, None, None, now)
  }

  /** `startExecution`'s write: RUNNING, started now; every other field is kept. */
  function Started(r: ExecutionRecord, now: int): (s: ExecutionRecord)
    ensures s.status == RUNNING && s.startedAt == Some(now)
    ensures s.(status := r.status, startedAt := r.startedAt) == r
    ensures WellFormed(s) <==> r.completedAt.None?
  {
    r.(status := RUNNING, startedAt := Some(now))
  }

  /**
   * `updateExecution`'s write: the status, the result (null when absent), the error when one
   * is given (an absent error leaves the stored one), and a completion time set exactly for
   * COMPLETED and FAILED. Any status may be written over any other.
   */
  function Finished(r: ExecutionRecord, status: ExecutionStatus, result: Option<Payload>,
                    error: Option<string>, now: int): (f: ExecutionRecord)
    ensures WellFormed(f)
    ensures f.status == status && f.result == result
    ensures f.completedAt == (if Terminal(status) then Some(now) else None)
    ensures f.error == (if error.Some? then error else r.error)
    ensures f.(status := r.status, result := r.result, error := r.error, completedAt := r.completedAt) == r
  {
    r.(status := status, result := result,
       error := if error.Some? then error else r.error,
       completedAt := if Terminal(status) then Some(now) else None)
  }

  /** The table of execution records. */
  class ExecutionLog {
    var records: map<string, ExecutionRecord>

    /** Every stored record carries a completion time exactly when it is finished. */
    predicate Valid()
      reads this
    {
      forall id | id in records :: WellFormed(records[id])
    }

    constructor ()
      ensures records == map[] && Valid()
    {
      records := map[];
    }

    /**
     * `logExecution`: creates a pending record under the store-chosen id `id` and returns the id.
     * A failed create (the id already in use) is rethrown and stores nothing.
     */
    method LogExecution(id: string, agent: AgentType, userId: string, command: string,
                        intent: Option<string>, parameters: Option<Fields>, now: int)
      returns (r: Result<string>)
      modifies this
      ensures r.Ok? <==> id !in old(records)
      ensures r.Ok? ==> r.value == id
      ensures r.Err? ==> r.message == Store.StoreFailure
      ensures records == if r.Ok? then old(records)[id := Pending(id, agent, userId, command, intent, parameters, now)]
                         else old(records)
      ensures old(Valid()) ==> Valid()
    {
      if id in records {
        r := Err(Store.StoreFailure);
      } else {
        records := records[id := Pending(id, agent, userId, command, intent, parameters, now)];
        r := Ok(id);
      }
    }

    /**
     * `startExecution`: marks the record RUNNING and started now. A failed update (no such
     * record) is swallowed and changes nothing. Validity survives unless the record had finished.
     */
    method StartExecution(id: string, now: int)
      modifies this
      ensures records == if id in old(records) then old(records)[id := Started(old(records)[id], now)]
                         else old(records)
      ensures old(Valid()) && (id in old(records) ==> old(records)[id].completedAt.None?) ==> Valid()
    {
      if id in records {
        records := records[id := Started(records[id], now)];
      }
    }

    /**
     * `updateExecution`: writes the status, result and error, and the completion time. A failed
     * update (no such record) is swallowed and changes nothing. Always keeps the table valid.
     */
    method UpdateExecution(id: string, status: ExecutionStatus, result: Option<Payload>,
                           error: Option<string>, now: int)
      modifies this
      ensures records == if id in old(records)
                         then old(records)[id := Finished(old(records)[id], status, result, error, now)]
                         else old(records)
      ensures old(Valid()) ==> Valid()
    {
      if id in records {
        records := records[id := Finished(records[id], status, result, error, now)];
      }
    }

    /**
     * `withErrorHandling`, applied to the outcome of an operation that has already run: the
     * outcome is passed on unchanged; a thrown error also marks the record FAILED with its
     * message when an execution id is given.
     */
    method WithErrorHandling<T>(outcome: Result<T>, id: string, now: int) returns (r: Result<T>)
      modifies this
      ensures r == outcome
      ensures records == if outcome.Err? && id != "" && id in old(records)
                         then old(records)[id := Finished(old(records)[id], FAILED, None, Some(outcome.message), now)]
                         else old(records)
      ensures old(Valid()) ==> Valid()
    {
      if outcome.Err? && id != "" {
        UpdateExecution(id, FAILED, None, Some(outcome.message), now);
      }
      r := outcome;
    }
  }

  /**
   * The record an agent's `execute` leaves when it runs to the end: logged for the command,
   * started and completed at `now`, with the agent's result.
   */
  function CompletedRecord(id: string, agent: AgentType, userId: string, command: Command,
                           result: Payload, now: int): (f: ExecutionRecord)
    ensures WellFormed(f) && f.status == COMPLETED && f.completedAt == Some(now) && f.startedAt == Some(now)
    ensures f.id == id && f.agentType == agent && f.userId == userId && f.error == None
    ensures f.command == command.text && f.intent == command.intent && f.parameters == command.parameters
    ensures f.result == Some(result) && f.createdAt == now
  {
    Finished(Started(Pending(id, agent, userId, command.text, command.intent, command.parameters, now), now),
             COMPLETED, Some(result), None, now)
  }

  /**
   * The table after the log, start and finish writes on a fresh id: one new record, the logged
   * one started and finished, and every other record as it was.
   */
  lemma {:induction false} LifecycleTable(records: map<string, ExecutionRecord>, id: string, pending: ExecutionRecord,
                                          t1: int, status: ExecutionStatus, result: Option<Payload>,
                                          error: Option<string>, t2: int)
    requires id !in records
    ensures var logged := records[id := pending];
            var started := logged[id := Started(logged[id], t1)];
            started[id := Finished(started[id], status, result, error, t2)]
              == records[id := Finished(Started(pending, t1), status, result, error, t2)]
  {
    var logged := records[id := pending];
    assert logged[id] == pending;
    var started := logged[id := Started(logged[id], t1)];
    assert started[id] == Started(pending, t1);
  }

  /**
   * The lifecycle the callers follow (log, start, finish) ends in a well-formed terminal record
   * that keeps what was logged; a record started again after it finished loses well-formedness,
   * because nothing guards the transitions.
   */
  lemma {:induction false} LifecycleEndsWellFormed(id: string, agent: AgentType, userId: string, command: string,
                                                   intent: Option<string>, parameters: Option<Fields>,
                                                   t0: int, t1: int, t2: int, status: ExecutionStatus,
                                                   result: Option<Payload>, error: Option<string>)
    requires Terminal(status)
    ensures var f := Finished(Started(Pending(id, agent, userId, command, intent, parameters, t0), t1),
                              status, result, error, t2);
            WellFormed(f) && f.status == status && f.completedAt == Some(t2) && f.startedAt == Some(t1)
            && f.command == command && f.intent == intent && f.parameters == parameters && f.createdAt == t0
            && !WellFormed(Started(f, t2))
  {
    var p := Pending(id, agent, userId, command, intent, parameters, t0);
    var s := Started(p, t1);
    assert s.completedAt == None;
    var f := Finished(s, status, result, error, t2);
    assert f.completedAt == Some(t2);
  }
}
