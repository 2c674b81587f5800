/**
 * The `audit_events` table: one wide row per persisted audit event, with the
 * discriminator in `eventType` and a nullable column per variant field. A
 * row holds exactly the columns of its own kind; the others are null.
 */
module AuditTable {
  import opened Wrappers
  import opened JavaInt
  import opened AuditModel

  datatype Row = Row(
    eventType: string,
    interactionId: Uuid,
    interfaceName: Str,
    methodName: Str,
    createdOn: int,
    systemMessage: Str,
    userMessage: Str,
    rewrittenUserMessage: Str,
    result: Str,
    errorMessage: Str,
    causeErrorMessage: Str,
    response: Str,
    modelName: Str,
    inputTokenCount: Option<int32>,
    outputTokenCount: Option<int32>,
    toolName: Str,
    toolArgs: Str,
    toolResult: Str,
    guardrailResult: Str,
    guardrailClass: Str)

  /** A row of the given kind and context whose variant columns are all null. */
  function BlankRow(eventType: AuditEventType, context: InvocationContext, createdOn: int): Row
  {
    Row(Discriminator(eventType), context.interactionId, context.interfaceName, context.methodName, createdOn,
        None, None, None, None, None, None, None, None, None, None, None, None, None, None, None)
  }

  /** The row persisted for `event` at time `createdOn`. */
  function ToRow(event: AuditEvent, createdOn: int): (r: Row)
    ensures r.eventType == Discriminator(event.payload.EventType())
    ensures r.interactionId == event.invocationContext.interactionId
    ensures r.interfaceName == event.invocationContext.interfaceName
    ensures r.methodName == event.invocationContext.methodName
    ensures r.createdOn == createdOn
    ensures !event.payload.ServiceStarted? ==> r.systemMessage.None?
    ensures !event.payload.ServiceStarted? && !event.payload.InputGuardrailExecuted? ==> r.userMessage.None?
    ensures !event.payload.InputGuardrailExecuted? ==> r.rewrittenUserMessage.None?
    ensures !event.payload.ServiceCompleted? && !event.payload.InputGuardrailExecuted? ==> r.result.None?
    ensures !event.payload.ServiceError? ==> r.errorMessage.None? && r.causeErrorMessage.None?
    ensures !event.payload.ResponseReceived? && !event.payload.OutputGuardrailExecuted? ==> r.response.None?
    ensures !event.payload.ResponseReceived? ==>
              r.modelName.None? && r.inputTokenCount.None? && r.outputTokenCount.None?
    ensures !event.payload.ToolExecuted? ==> r.toolName.None? && r.toolArgs.None? && r.toolResult.None?
    ensures !event.payload.OutputGuardrailExecuted? ==> r.guardrailResult.None?
    ensures !event.payload.InputGuardrailExecuted? && !event.payload.OutputGuardrailExecuted? ==> r.guardrailClass.None?
  {
    var blank := BlankRow(event.payload.EventType(), event.invocationContext, createdOn);
    match event.payload
    case ServiceStarted(systemMessage, userMessage) =>
      blank.(systemMessage := systemMessage, userMessage := userMessage)
    case ServiceCompleted(result) =>
      blank.(result := result)
    case ServiceError(errorMessage, causeErrorMessage) =>
      blank.(errorMessage := errorMessage, causeErrorMessage := causeErrorMessage)
    case ResponseReceived(response, modelName, inputTokenCount, outputTokenCount) =>
      blank.(response := response, modelName := modelName,
             inputTokenCount := Some(inputTokenCount), outputTokenCount := Some(outputTokenCount))
    case ToolExecuted(toolName, toolArgs, toolResult) =>
      blank.(toolName := toolName, toolArgs := toolArgs, toolResult := toolResult)
    case InputGuardrailExecuted(userMessage, rewrittenUserMessage, result, guardrailClass) =>
      blank.(userMessage := userMessage, rewrittenUserMessage := rewrittenUserMessage,
             result := result, guardrailClass := guardrailClass)
    case OutputGuardrailExecuted(response, guardrailResult, guardrailClass) =>
      blank.(response := response, guardrailResult := guardrailResult, guardrailClass := guardrailClass)
  }

  /**
   * Reading a row back into an event, dispatching on the discriminator as the
   * persistence layer does; an unknown discriminator or a missing token count
   * reads nothing.
   */
  function FromRow(r: Row): (event: Option<AuditEvent>)
    ensures event.None? <==>
              ParseEventType(r.eventType).None? ||
              (r.eventType == "RESPONSE_RECEIVED" && (r.inputTokenCount.None? || r.outputTokenCount.None?))
    ensures event.Some? ==> Discriminator(event.value.payload.EventType()) == r.eventType
    ensures event.Some? ==> event.value.invocationContext == InvocationContext(r.interactionId, r.interfaceName, r.methodName)
  {
    var context := InvocationContext(r.interactionId, r.interfaceName, r.methodName);
    match ParseEventType(r.eventType)
    case None => None
    case Some(SERVICE_STARTED) =>
      Some(AuditEvent(context, ServiceStarted(r.systemMessage, r.userMessage)))
    case Some(SERVICE_COMPLETED) =>
      Some(AuditEvent(context, ServiceCompleted(r.result)))
    case Some(SERVICE_ERROR) =>
      Some(AuditEvent(context, ServiceError(r.errorMessage, r.causeErrorMessage)))
    case Some(RESPONSE_RECEIVED) =>
      if r.inputTokenCount.Some? && r.outputTokenCount.Some? then
        Some(AuditEvent(context, ResponseReceived(r.response, r.modelName, r.inputTokenCount.value, r.outputTokenCount.value)))
      else None
    case Some(TOOL_EXECUTED) =>
      Some(AuditEvent(context, ToolExecuted(r.toolName, r.toolArgs, r.toolResult)))
    case Some(INPUT_GUARDRAIL_EXECUTED) =>
      Some(AuditEvent(context, InputGuardrailExecuted(r.userMessage, r.rewrittenUserMessage, r.result, r.guardrailClass)))
    case Some(OUTPUT_GUARDRAIL_EXECUTED) =>
      Some(AuditEvent(context, OutputGuardrailExecuted(r.response, r.guardrailResult, r.guardrailClass)))
  }

  /** Every persisted event reads back as itself: the wide-row encoding loses nothing. */
  lemma RowRoundTrip(event: AuditEvent, createdOn: int)
    ensures FromRow(ToRow(event, createdOn)) == Some(event)
  {
    ParseDiscriminator(event.payload.EventType());
  }
}
