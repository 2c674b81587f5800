/**
 * The orchestration layer's lifecycle events, reduced to the fields the audit
 * mapper and the repository's observers read. Reference-typed fields that the
 * code tests for null, or that can be null in practice, are `Option`s.
 */
module LifecycleEvents {
  import opened Wrappers
  import opened JavaInt
  import AuditModel

  datatype InvocationContext = InvocationContext(invocationId: AuditModel.Uuid, interfaceName: Str, methodName: Str)

  datatype SystemMessage = SystemMessage(text: string)

  /** A user message; `singleText` is what `singleText()` returns for it. */
  datatype UserMessage = UserMessage(singleText: string)

  datatype ToolExecutionRequest = ToolExecutionRequest(name: Str, arguments: Str)

  /** A model message: its text (null when the model only asks for tools) and its tool requests. */
  datatype AiMessage = AiMessage(text: Str, toolExecutionRequests: seq<ToolExecutionRequest>)

  /** Token usage of one response; either count may be a null `Integer`. */
  datatype TokenUsage = TokenUsage(inputTokenCount: Option<int32>, outputTokenCount: Option<int32>)

  /** A model response; a response built without token usage has a null `tokenUsage`. */
  datatype ChatResponse = ChatResponse(aiMessage: AiMessage, modelName: Str, tokenUsage: Option<TokenUsage>)
  {
    /** Both token counts can be read as Java `int`s without a NullPointerException. */
    predicate HasTokenCounts()
    {
      tokenUsage.Some? && tokenUsage.value.inputTokenCount.Some? && tokenUsage.value.outputTokenCount.Some?
    }
  }

  /** A Java throwable: its message and its cause, either of which may be null. */
  datatype Throwable = Throwable(message: Str, cause: Option<Throwable>)

  /** The result kind of a guardrail check. */
  datatype GuardrailResult = SUCCESS | SUCCESS_WITH_RESULT | FAILURE | FATAL
  {
    /** Java `Enum.name()`. */
    function Name(): string
    {
      match this
      case SUCCESS => "SUCCESS"
      case SUCCESS_WITH_RESULT => "SUCCESS_WITH_RESULT"
      case FAILURE => "FAILURE"
      case FATAL => "FATAL"
    }
  }

  datatype AiServiceStartedEvent = AiServiceStartedEvent(
    invocationContext: InvocationContext,
    systemMessage: Option<SystemMessage>,
    userMessage: Option<UserMessage>)

  /** A completed call; its result is an arbitrary object of type `O`. */
  datatype AiServiceCompletedEvent<O> = AiServiceCompletedEvent(invocationContext: InvocationContext, result: O)

  datatype AiServiceErrorEvent = AiServiceErrorEvent(invocationContext: InvocationContext, error: Option<Throwable>)

  datatype AiServiceResponseReceivedEvent = AiServiceResponseReceivedEvent(
    invocationContext: InvocationContext,
    response: Option<ChatResponse>)

  datatype ToolExecutedEvent = ToolExecutedEvent(
    invocationContext: InvocationContext,
    request: ToolExecutionRequest,
    resultText: Str)

  datatype InputGuardrailRequest = InputGuardrailRequest(userMessage: Option<UserMessage>)

  datatype InputGuardrailExecutedEvent = InputGuardrailExecutedEvent(
    invocationContext: InvocationContext,
    request: InputGuardrailRequest,
    rewrittenUserMessage: Option<UserMessage>,
    result: GuardrailResult,
    guardrailClassName: string)

  datatype OutputGuardrailRequest = OutputGuardrailRequest(responseFromLLM: Option<ChatResponse>)

  datatype OutputGuardrailExecutedEvent = OutputGuardrailExecutedEvent(
    invocationContext: InvocationContext,
    request: OutputGuardrailRequest,
    result: GuardrailResult,
    guardrailClassName: string)
}
