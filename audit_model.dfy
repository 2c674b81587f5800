/**
 * The audit-event model shared by the mapper, the event classes and the
 * repository: the invocation context every event carries, the event types
 * with their discriminator strings, the variant payloads of the seven event
 * kinds and the resolved reporting window.
 */
module AuditModel {
  import opened Wrappers
  import opened JavaInt

  /** A `java.util.UUID`; the model only compares them for equality. */
  type Uuid = nat

  /** The identity of one logical interaction, copied onto each of its events. */
  datatype InvocationContext = InvocationContext(interactionId: Uuid, interfaceName: Str, methodName: Str)

  /** `AuditEventType`: one value per event kind. */
  datatype AuditEventType =
    | SERVICE_STARTED
    | SERVICE_COMPLETED
    | SERVICE_ERROR
    | RESPONSE_RECEIVED
    | TOOL_EXECUTED
    | INPUT_GUARDRAIL_EXECUTED
    | OUTPUT_GUARDRAIL_EXECUTED

  /** The value stored in the `event_type` discriminator column for each event kind. */
  function Discriminator(t: AuditEventType): string
  {
    match t
    case SERVICE_STARTED => "SERVICE_STARTED"
    case SERVICE_COMPLETED => "SERVICE_COMPLETED"
    case SERVICE_ERROR => "SERVICE_ERROR"
    case RESPONSE_RECEIVED => "RESPONSE_RECEIVED"
    case TOOL_EXECUTED => "TOOL_EXECUTED"
    case INPUT_GUARDRAIL_EXECUTED => "INPUT_GUARDRAIL_EXECUTED"
    case OUTPUT_GUARDRAIL_EXECUTED => "OUTPUT_GUARDRAIL_EXECUTED"
  }

  /** The event kind a discriminator string names, if any (`AuditEventType.valueOf`). */
  function ParseEventType(s: string): (t: Option<AuditEventType>)
    ensures t.Some? ==> Discriminator(t.value) == s
  {
    if s == "SERVICE_STARTED" then Some(SERVICE_STARTED)
    else if s == "SERVICE_COMPLETED" then Some(SERVICE_COMPLETED)
    else if s == "SERVICE_ERROR" then Some(SERVICE_ERROR)
    else if s == "RESPONSE_RECEIVED" then Some(RESPONSE_RECEIVED)
    else if s == "TOOL_EXECUTED" then Some(TOOL_EXECUTED)
    else if s == "INPUT_GUARDRAIL_EXECUTED" then Some(INPUT_GUARDRAIL_EXECUTED)
    else if s == "OUTPUT_GUARDRAIL_EXECUTED" then Some(OUTPUT_GUARDRAIL_EXECUTED)
    else None
  }

  /** Every discriminator parses back to its own kind, so distinct kinds are stored as distinct strings. */
  lemma ParseDiscriminator(t: AuditEventType)
    ensures ParseEventType(Discriminator(t)) == Some(t)
  {
  }

  /** The variant-specific fields of each event kind (the audit event as a tagged union). */
  datatype AuditPayload =
    | ServiceStarted(systemMessage: Str, userMessage: Str)
    | ServiceCompleted(result: Str)
    | ServiceError(errorMessage: Str, causeErrorMessage: Str)
    | ResponseReceived(response: Str, modelName: Str, inputTokenCount: int32, outputTokenCount: int32)
    | ToolExecuted(toolName: Str, toolArgs: Str, toolResult: Str)
    | InputGuardrailExecuted(userMessage: Str, rewrittenUserMessage: Str, result: Str, guardrailClass: Str)
    | OutputGuardrailExecuted(response: Str, guardrailResult: Str, guardrailClass: Str)
  {
    /** The `getEventType()` of the class holding this payload. */
    function EventType(): AuditEventType
    {
      match this
      case ServiceStarted(_, _) => SERVICE_STARTED
      case ServiceCompleted(_) => SERVICE_COMPLETED
      case ServiceError(_, _) => SERVICE_ERROR
      case ResponseReceived(_, _, _, _) => RESPONSE_RECEIVED
      case ToolExecuted(_, _, _) => TOOL_EXECUTED
      case InputGuardrailExecuted(_, _, _, _) => INPUT_GUARDRAIL_EXECUTED
      case OutputGuardrailExecuted(_, _, _) => OUTPUT_GUARDRAIL_EXECUTED
    }
  }

  /** One audit event before it is persisted. */
  datatype AuditEvent = AuditEvent(invocationContext: InvocationContext, payload: AuditPayload)

  /** A resolved reporting window `[start, end]` (instants as integers). */
  datatype AuditDates = AuditDates(start: int, end: int)

  /** SQL `date BETWEEN start AND end`: both bounds inclusive. */
  predicate InWindow(date: int, dates: AuditDates)
  {
    dates.start <= date <= dates.end
  }
}
