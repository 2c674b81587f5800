/**
 * End-to-end runs of the repository: lifecycle events go through the
 * observers into the table, and the interactions query reads them back.
 */
module Scenarios {
  import opened Wrappers
  import opened AuditModel
  import opened AuditTable
  import opened Seqs
  import opened AuditEventMapper
  import opened AuditQueries
  import opened Interactions
  import opened Repository
  import opened JavaText
  import LC = LifecycleEvents

  /** Rows as persisted for Started("hello"), then a tool call, then Completed, all of interaction `id`. */
  predicate SuccessRows(started: Row, tool: Row, completed: Row, id: Uuid, result: string)
  {
    && started.eventType == Discriminator(SERVICE_STARTED) && tool.eventType == Discriminator(TOOL_EXECUTED)
    && completed.eventType == Discriminator(SERVICE_COMPLETED)
    && started.interactionId == id && tool.interactionId == id && completed.interactionId == id
    && started.systemMessage == Some("") && started.userMessage == Some("hello") && completed.result == Some(result)
    && started.createdOn <= tool.createdOn <= completed.createdOn
  }

  lemma SuccessTexts(started: Row, tool: Row, completed: Row, id: Uuid, result: string)
    requires SuccessRows(started, tool, completed, id, result)
    ensures var rows := [started, tool, completed];
            MaxColumn(rows, id, SERVICE_STARTED, SystemMessageColumn) == Some("") &&
            MaxColumn(rows, id, SERVICE_STARTED, UserMessageColumn) == Some("hello") &&
            MaxColumn(rows, id, SERVICE_COMPLETED, ResultColumn) == Some(result)
  {
    var rows := [started, tool, completed];
    ParseDiscriminator(SERVICE_STARTED); ParseDiscriminator(TOOL_EXECUTED); ParseDiscriminator(SERVICE_COMPLETED);
    assert forall r :: r in rows ==> r == started || r == tool || r == completed;
    assert started in rows && completed in rows;
    assert !Candidate(tool, id, SERVICE_STARTED) && !Candidate(completed, id, SERVICE_STARTED);
    assert !Candidate(started, id, SERVICE_COMPLETED) && !Candidate(tool, id, SERVICE_COMPLETED);
    SoleCandidate(rows, started, id, SERVICE_STARTED, SystemMessageColumn);
    SoleCandidate(rows, started, id, SERVICE_STARTED, UserMessageColumn);
    SoleCandidate(rows, completed, id, SERVICE_COMPLETED, ResultColumn);
  }

  lemma SuccessDate(started: Row, tool: Row, completed: Row, id: Uuid, result: string)
    requires SuccessRows(started, tool, completed, id, result)
    ensures InteractionDate([started, tool, completed], id) == started.createdOn
  {
    assert started in [started, tool, completed];
  }

  lemma SuccessNoError(started: Row, tool: Row, completed: Row, id: Uuid, result: string)
    requires SuccessRows(started, tool, completed, id, result)
    ensures MaxColumn([started, tool, completed], id, SERVICE_ERROR, ErrorMessageColumn) == None
    ensures MaxColumn([started, tool, completed], id, SERVICE_ERROR, CauseErrorMessageColumn) == None
  {
    var rows := [started, tool, completed];
    assert forall r :: r in rows ==> r == started || r == tool || r == completed;
    assert !Candidate(started, id, SERVICE_ERROR) && !Candidate(tool, id, SERVICE_ERROR) && !Candidate(completed, id, SERVICE_ERROR);
  }

  /** The three rows of a started, tool-executed, completed interaction aggregate to one successful interaction. */
  lemma SuccessGroup(started: Row, tool: Row, completed: Row, id: Uuid, result: string)
    requires SuccessRows(started, tool, completed, id, result)
    ensures GroupInteraction([started, tool, completed], id) ==
            Interaction(id, started.createdOn, Some(""), Some("hello"), Some(result), None, None)
    ensures GroupInteraction([started, tool, completed], id).GetStatus() == SUCCESS
  {
    SuccessTexts(started, tool, completed, id, result);
    SuccessNoError(started, tool, completed, id, result);
    SuccessDate(started, tool, completed, id, result);
  }

  /** The rows the observers persist for Started("hello"), a tool call and Completed. */
  function SuccessScenarioRows<O>(context: LC.InvocationContext, tool: LC.ToolExecutionRequest, answer: O,
                                  toJson: O -> Result<string, string>, t1: int, t2: int, t3: int): seq<Row>
    requires toJson(answer).Ok?
  {
    [ToRow(StartedToAuditEvent(LC.AiServiceStartedEvent(context, None, Some(LC.UserMessage("hello")))), t1),
     ToRow(ToolExecutedToAuditEvent(LC.ToolExecutedEvent(context, tool, Some("ok"))), t2),
     ToRow(CompletedToAuditEvent(LC.AiServiceCompletedEvent(context, answer), toJson).value, t3)]
  }

  /** Those rows, queried over a window holding the first, report one successful interaction. */
  lemma SuccessScenarioReport<O>(context: LC.InvocationContext, tool: LC.ToolExecutionRequest, answer: O,
                                 toJson: O -> Result<string, string>, dates: AuditDates, t1: int, t2: int, t3: int)
    requires toJson(answer).Ok?
    requires InWindow(t1, dates) && t1 <= t2 <= t3
    ensures InteractionsQuery(SuccessScenarioRows(context, tool, answer, toJson, t1, t2, t3), dates).interactions ==
            [Interaction(context.invocationId, t1, Some(""), Some("hello"), Some(toJson(answer).value), None, None)]
  {
    var rows := SuccessScenarioRows(context, tool, answer, toJson, t1, t2, t3);
    var id := context.invocationId;
    assert SuccessRows(rows[0], rows[1], rows[2], id, toJson(answer).value);
    assert rows == [rows[0], rows[1], rows[2]];
    SuccessGroup(rows[0], rows[1], rows[2], id, toJson(answer).value);
    SuccessDate(rows[0], rows[1], rows[2], id, toJson(answer).value);
    assert forall r :: r in rows ==> r.interactionId == id;
    OneInteractionReportedOnce(rows, id, dates);
  }

  /**
   * Started("hello"), a tool call and Completed on one interaction, with the
   * first inside the window, report one interaction with the user message,
   * the serialised result, no error, and status SUCCESS.
   */
  method StartedToolCompleted<O>(context: LC.InvocationContext, tool: LC.ToolExecutionRequest, answer: O,
                                 toJson: O -> Result<string, string>, dates: AuditDates, t1: int, t2: int, t3: int)
    returns (report: Interactions)
    requires toJson(answer) == Ok("{\"a\":1}")
    requires InWindow(t1, dates) && t1 <= t2 <= t3
    ensures report.auditDates == dates
    ensures report.interactions ==
            [Interaction(context.invocationId, t1, Some(""), Some("hello"), Some("{\"a\":1}"), None, None)]
    ensures report.interactions[0].GetStatus() == SUCCESS
  {
    var repo := new AuditEventRepository();
    var started := repo.ServiceStarted(LC.AiServiceStartedEvent(context, None, Some(LC.UserMessage("hello"))), t1);
    repo.ToolExecuted(LC.ToolExecutedEvent(context, tool, Some("ok")), t2);
    var completed := repo.ServiceCompleted(LC.AiServiceCompletedEvent(context, answer), toJson, t3);
    assert repo.rows == SuccessScenarioRows(context, tool, answer, toJson, t1, t2, t3);
    report := repo.GetLLMInteractions(dates);
    SuccessScenarioReport(context, tool, answer, toJson, dates, t1, t2, t3);
    assert report.interactions[0].GetStatus() == SUCCESS by {
      assert !HasNonWhitespace("") ;
    }
  }

  /** The rows persisted for Started(question) and then an error "boom" caused by "root cause". */
  function FailureScenarioRows(context: LC.InvocationContext, question: string, t1: int, t2: int): seq<Row>
  {
    var cause := LC.Throwable(Some("root cause"), None);
    [ToRow(StartedToAuditEvent(LC.AiServiceStartedEvent(context, None, Some(LC.UserMessage(question)))), t1),
     ToRow(ErrorToAuditEvent(LC.AiServiceErrorEvent(context, Some(LC.Throwable(Some("boom"), Some(cause))))), t2)]
  }

  /** Rows as persisted for Started(question), then an error "boom" caused by "root cause", of interaction `id`. */
  predicate FailureRows(started: Row, failed: Row, id: Uuid, question: string)
  {
    && started.eventType == Discriminator(SERVICE_STARTED) && failed.eventType == Discriminator(SERVICE_ERROR)
    && started.interactionId == id && failed.interactionId == id
    && started.userMessage == Some(question)
    && failed.errorMessage == Some("boom") && failed.causeErrorMessage == Some("root cause")
    && started.createdOn <= failed.createdOn
  }

  /** Of two rows, when exactly one is a candidate, its column is the maximum, whichever position it holds. */
  lemma OneOfTwoCandidates(w: Row, other: Row, id: Uuid, eventType: AuditEventType, c: Column)
    requires Candidate(w, id, eventType) && !Candidate(other, id, eventType)
    ensures MaxColumn([w, other], id, eventType, c) == Get(w, c)
    ensures MaxColumn([other, w], id, eventType, c) == Get(w, c)
  {
    assert forall r :: r in [w, other] ==> r == w || r == other;
    SoleCandidate([w, other], w, id, eventType, c);
    assert forall r :: r in [other, w] ==> r == w || r == other;
    SoleCandidate([other, w], w, id, eventType, c);
  }

  lemma FailureTexts(started: Row, failed: Row, id: Uuid, question: string)
    requires FailureRows(started, failed, id, question)
    ensures var rows := [started, failed];
            MaxColumn(rows, id, SERVICE_ERROR, ErrorMessageColumn) == Some("boom") &&
            MaxColumn(rows, id, SERVICE_ERROR, CauseErrorMessageColumn) == Some("root cause") &&
            MaxColumn(rows, id, SERVICE_STARTED, UserMessageColumn) == Some(question)
  {
    ParseDiscriminator(SERVICE_STARTED); ParseDiscriminator(SERVICE_ERROR);
    assert Candidate(started, id, SERVICE_STARTED) && !Candidate(failed, id, SERVICE_STARTED);
    assert Candidate(failed, id, SERVICE_ERROR) && !Candidate(started, id, SERVICE_ERROR);
    OneOfTwoCandidates(failed, started, id, SERVICE_ERROR, ErrorMessageColumn);
    OneOfTwoCandidates(failed, started, id, SERVICE_ERROR, CauseErrorMessageColumn);
    OneOfTwoCandidates(started, failed, id, SERVICE_STARTED, UserMessageColumn);
  }

  lemma FailureDate(started: Row, failed: Row, id: Uuid, question: string)
    requires FailureRows(started, failed, id, question)
    ensures InteractionDate([started, failed], id) == started.createdOn
  {
    assert started in [started, failed];
  }

  /** A started row and an error row aggregate to one interaction carrying both messages, reported as a FAILURE. */
  lemma FailureGroup(started: Row, failed: Row, id: Uuid, question: string)
    requires FailureRows(started, failed, id, question)
    ensures var g := GroupInteraction([started, failed], id);
            g.interactionDate == started.createdOn && g.userMessage == Some(question) &&
            g.errorMessage == Some("boom") && g.causeErrorMessage == Some("root cause") &&
            g.GetStatus() == FAILURE
  {
    FailureTexts(started, failed, id, question);
    FailureDate(started, failed, id, question);
    assert HasNonWhitespace("boom") by { assert !IsWhitespace("boom"[0]); }
  }

  /** The observers' rows for that scenario have the shape `FailureRows` describes. */
  lemma FailureScenarioShape(context: LC.InvocationContext, question: string, t1: int, t2: int)
    requires t1 <= t2
    ensures var rows := FailureScenarioRows(context, question, t1, t2);
            |rows| == 2 && rows[0].createdOn == t1 && FailureRows(rows[0], rows[1], context.invocationId, question)
  {
    var rows := FailureScenarioRows(context, question, t1, t2);
    assert rows[1].errorMessage == Some("boom");
    assert rows[1].causeErrorMessage == Some("root cause");
  }

  /** Two rows of that shape, the first inside the window, are reported as their one group. */
  lemma FailureRowsQueried(started: Row, failed: Row, id: Uuid, question: string, dates: AuditDates)
    requires FailureRows(started, failed, id, question) && InWindow(started.createdOn, dates)
    ensures InteractionsQuery([started, failed], dates).interactions == [GroupInteraction([started, failed], id)]
  {
    FailureDate(started, failed, id, question);
    assert forall r :: r in [started, failed] ==> r.interactionId == id;
    OneInteractionReportedOnce([started, failed], id, dates);
  }

  /** Two rows of that shape, the first inside the window, report one failed interaction. */
  lemma FailureRowsReport(started: Row, failed: Row, id: Uuid, question: string, dates: AuditDates)
    requires FailureRows(started, failed, id, question) && InWindow(started.createdOn, dates)
    ensures var r := InteractionsQuery([started, failed], dates).interactions;
            |r| == 1 && r[0].interactionId == id && r[0].interactionDate == started.createdOn &&
            r[0].userMessage == Some(question) &&
            r[0].errorMessage == Some("boom") && r[0].causeErrorMessage == Some("root cause") &&
            r[0].GetStatus() == FAILURE
  {
    FailureRowsQueried(started, failed, id, question, dates);
    FailureGroup(started, failed, id, question);
  }

  /** Those rows, queried over a window holding the first, report one failed interaction. */
  lemma FailureScenarioReport(context: LC.InvocationContext, question: string, dates: AuditDates, t1: int, t2: int)
    requires InWindow(t1, dates) && t1 <= t2
    ensures var r := InteractionsQuery(FailureScenarioRows(context, question, t1, t2), dates).interactions;
            |r| == 1 && r[0].interactionId == context.invocationId && r[0].interactionDate == t1 &&
            r[0].userMessage == Some(question) &&
            r[0].errorMessage == Some("boom") && r[0].causeErrorMessage == Some("root cause") &&
            r[0].GetStatus() == FAILURE
  {
    var rows := FailureScenarioRows(context, question, t1, t2);
    FailureScenarioShape(context, question, t1, t2);
    assert rows == [rows[0], rows[1]];
    FailureRowsReport(rows[0], rows[1], context.invocationId, question, dates);
  }

  /**
   * Started then an error "boom" caused by "root cause", with the first event
   * inside the window, report one interaction carrying both messages, with
   * status FAILURE.
   */
  method StartedThenError(context: LC.InvocationContext, question: string, dates: AuditDates, t1: int, t2: int)
    returns (report: Interactions)
    requires InWindow(t1, dates) && t1 <= t2
    ensures |report.interactions| == 1
    ensures report.interactions[0].interactionId == context.invocationId
    ensures report.interactions[0].userMessage == Some(question)
    ensures report.interactions[0].errorMessage == Some("boom")
    ensures report.interactions[0].causeErrorMessage == Some("root cause")
    ensures report.interactions[0].GetStatus() == FAILURE
  {
    var repo := new AuditEventRepository();
    var cause := LC.Throwable(Some("root cause"), None);
    var started := repo.ServiceStarted(LC.AiServiceStartedEvent(context, None, Some(LC.UserMessage(question))), t1);
    var failed := repo.ServiceFailed(LC.AiServiceErrorEvent(context, Some(LC.Throwable(Some("boom"), Some(cause)))), t2);
    assert repo.rows == FailureScenarioRows(context, question, t1, t2);
    report := repo.GetLLMInteractions(dates);
    FailureScenarioReport(context, question, dates, t1, t2);
  }
}
