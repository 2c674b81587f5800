/**
 * `AuditEventRepository`: the append-only `audit_events` table as a row
 * sequence, the seven lifecycle observers that each persist one mapped event,
 * and the three reads.
 */
module Repository {
  import opened Wrappers
  import opened AuditModel
  import opened AuditTable
  import opened Seqs
  import opened AuditEventMapper
  import opened AuditQueries
  import opened AuditStatistics
  import opened Interactions
  import LC = LifecycleEvents

  function CreatedOnOf(): Row -> int
  {
    (r: Row) => r.createdOn
  }

  function BelongsTo(id: Uuid): Row -> bool
  {
    (r: Row) => r.interactionId == id
  }

  class AuditEventRepository {
    /** The table's rows in insertion order. */
    var rows: seq<Row>

    constructor ()
      ensures rows == []
    {
      rows := [];
    }

    /** `persist`: the event becomes one new row stamped `createdOn`. */
    method Append(event: AuditEvent, createdOn: int)
      modifies this
      ensures rows == old(rows) + [ToRow(event, createdOn)]
    {
      rows := rows + [ToRow(event, createdOn)];
    }

    /** `serviceStarted`: the log line reads the user message's text, so a null user message throws first. */
    method ServiceStarted(e: LC.AiServiceStartedEvent, createdOn: int) returns (outcome: Outcome<Failure>)
      modifies this
      ensures outcome == if e.userMessage.None? then Fail(NullPointerException) else Pass
      ensures outcome.Pass? ==> rows == old(rows) + [ToRow(StartedToAuditEvent(e), createdOn)]
      ensures outcome.Fail? ==> rows == old(rows)
    {
      if e.userMessage.None? {
        return Fail(NullPointerException);
      }
      Append(StartedToAuditEvent(e), createdOn);
      outcome := Pass;
    }

    /** `serviceCompleted`: a result the serialiser rejects throws and persists nothing. */
    method ServiceCompleted<O>(e: LC.AiServiceCompletedEvent<O>, toJson: O -> Result<string, string>, createdOn: int)
      returns (outcome: Outcome<Failure>)
      modifies this
      ensures outcome.Fail? <==> toJson(e.result).Err?
      ensures outcome.Fail? ==> outcome.error == SerializationFailure(toJson(e.result).error) && rows == old(rows)
      ensures outcome.Pass? ==> rows == old(rows) + [ToRow(CompletedToAuditEvent(e, toJson).value, createdOn)]
    {
      var mapped := CompletedToAuditEvent(e, toJson);
      if mapped.Err? {
        return Fail(mapped.error);
      }
      Append(mapped.value, createdOn);
      outcome := Pass;
    }

    /** `serviceFailed`: the log line reads the error's message, so a null error throws first. */
    method ServiceFailed(e: LC.AiServiceErrorEvent, createdOn: int) returns (outcome: Outcome<Failure>)
      modifies this
      ensures outcome == if e.error.None? then Fail(NullPointerException) else Pass
      ensures outcome.Pass? ==> rows == old(rows) + [ToRow(ErrorToAuditEvent(e), createdOn)]
      ensures outcome.Fail? ==> rows == old(rows)
    {
      if e.error.None? {
        return Fail(NullPointerException);
      }
      Append(ErrorToAuditEvent(e), createdOn);
      outcome := Pass;
    }

    /**
     * `responseReceived`: the log line reads the response's text, so a null
     * response throws first; a response without both token counts throws in
     * the mapper. Either way nothing is persisted.
     */
    method ResponseReceived(e: LC.AiServiceResponseReceivedEvent, createdOn: int) returns (outcome: Outcome<Failure>)
      modifies this
      ensures outcome == if e.response.None? || !e.response.value.HasTokenCounts() then Fail(NullPointerException) else Pass
      ensures outcome.Pass? ==> rows == old(rows) + [ToRow(ResponseReceivedToAuditEvent(e).value, createdOn)]
      ensures outcome.Fail? ==> rows == old(rows)
    {
      if e.response.None? {
        return Fail(NullPointerException);
      }
      var mapped := ResponseReceivedToAuditEvent(e);
      if mapped.Err? {
        return Fail(mapped.error);
      }
      Append(mapped.value, createdOn);
      outcome := Pass;
    }

    /** `toolExecuted`: always persists one row. */
    method ToolExecuted(e: LC.ToolExecutedEvent, createdOn: int)
      modifies this
      ensures rows == old(rows) + [ToRow(ToolExecutedToAuditEvent(e), createdOn)]
    {
      Append(ToolExecutedToAuditEvent(e), createdOn);
    }

    /** `inputGuardrailExecuted`: the log line reads the rewritten message's text, so a null one throws first. */
    method InputGuardrailExecuted(e: LC.InputGuardrailExecutedEvent, createdOn: int) returns (outcome: Outcome<Failure>)
      modifies this
      ensures outcome == if e.rewrittenUserMessage.None? then Fail(NullPointerException) else Pass
      ensures outcome.Pass? ==> rows == old(rows) + [ToRow(InputGuardrailToAuditEvent(e), createdOn)]
      ensures outcome.Fail? ==> rows == old(rows)
    {
      if e.rewrittenUserMessage.None? {
        return Fail(NullPointerException);
      }
      Append(InputGuardrailToAuditEvent(e), createdOn);
      outcome := Pass;
    }

    /** `outputGuardrailExecuted`: the log line reads the guarded response's text, so a null response throws first. */
    method OutputGuardrailExecuted(e: LC.OutputGuardrailExecutedEvent, createdOn: int) returns (outcome: Outcome<Failure>)
      modifies this
      ensures outcome == if e.request.responseFromLLM.None? then Fail(NullPointerException) else Pass
      ensures outcome.Pass? ==> rows == old(rows) + [ToRow(OutputGuardrailToAuditEvent(e), createdOn)]
      ensures outcome.Fail? ==> rows == old(rows)
    {
      if e.request.responseFromLLM.None? {
        return Fail(NullPointerException);
      }
      Append(OutputGuardrailToAuditEvent(e), createdOn);
      outcome := Pass;
    }

    /** `getAllForInteractionId`: exactly the interaction's rows, each as often as stored, by ascending `createdOn`. */
    method GetAllForInteractionId(id: Uuid) returns (found: seq<Row>)
      ensures forall r :: multiset(found)[r] == if r.interactionId == id then multiset(rows)[r] else 0
      ensures forall i, j :: 0 <= i < j < |found| ==> found[i].createdOn <= found[j].createdOn
    {
      var matching := Filter(rows, BelongsTo(id));
      found := SortBy(matching, CreatedOnOf());
      SortByCorrect(matching, CreatedOnOf());
      forall r
        ensures multiset(found)[r] == if r.interactionId == id then multiset(rows)[r] else 0
      {
        FilterMultiset(rows, BelongsTo(id), r);
      }
      assert SortedBy(found, CreatedOnOf());
    }

    /** `getAuditStats` over the resolved window. */
    method GetAuditStats(dates: AuditDates) returns (stats: AuditStats)
      ensures stats == StatsQuery(rows, dates)
      ensures stats.auditDates == dates
    {
      stats := StatsQuery(rows, dates);
    }

    /** `getLLMInteractions` over the resolved window. */
    method GetLLMInteractions(dates: AuditDates) returns (interactions: Interactions)
      ensures interactions == InteractionsQuery(rows, dates)
      ensures interactions.auditDates == dates
    {
      interactions := InteractionsQuery(rows, dates);
    }
  }
}
