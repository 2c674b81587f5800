/**
 * `AuditEventMapper`: one translation per lifecycle-event kind into the audit
 * event that is persisted for it, with the null-safe extraction of messages
 * the mapper performs. Where the Java code throws, the translation returns
 * `Err`.
 */
module AuditEventMapper {
  import opened Wrappers
  import opened JavaInt
  import opened JavaText
  import opened AuditModel
  import LC = LifecycleEvents
  import ServiceStartedEvents
  import ServiceCompleteEvents
  import ServiceErrorEvents
  import ResponseReceivedEvents

  /** The exceptions a translation can raise. */
  datatype Failure =
    | NullPointerException
      /** `toJson` wraps the serialiser's failure in a RuntimeException. */
    | SerializationFailure(message: string)

  /** `toInvocationContext`: the audit context of a lifecycle context. */
  function ToInvocationContext(context: LC.InvocationContext): (r: InvocationContext)
    ensures r.interactionId == context.invocationId
    ensures r.interfaceName == context.interfaceName && r.methodName == context.methodName
  {
    InvocationContext(context.invocationId, context.interfaceName, context.methodName)
  }

  /** `fromSystemMessage`: the system message's text, or "" when there is none; never null. */
  function FromSystemMessage(systemMessage: Option<LC.SystemMessage>): (r: string)
    ensures systemMessage.None? ==> r == ""
    ensures systemMessage.Some? ==> r == systemMessage.value.text
  {
    match systemMessage
    case None => ""
    case Some(m) => m.text
  }

  /** `fromUserMessage`: null for a null message, its single text otherwise. */
  function FromUserMessage(userMessage: Option<LC.UserMessage>): (r: Str)
    ensures r.None? <==> userMessage.None?
    ensures userMessage.Some? ==> r.value == userMessage.value.singleText
  {
    match userMessage
    case None => None
    case Some(m) => Some(m.singleText)
  }

  /**
   * The `EXECUTE TOOL: name(args)` text shown for a response that only
   * requests a tool: the fixed prefix, the name as `%s` prints it, the
   * arguments as `%s` prints them between parentheses.
   */
  function ToolPlaceholder(request: LC.ToolExecutionRequest): (r: string)
    ensures var name, args := FormatArg(request.name), FormatArg(request.arguments);
            && |r| == |"EXECUTE TOOL: "| + |name| + |args| + 2
            && r[..14] == "EXECUTE TOOL: "
            && r[14..14 + |name|] == name
            && r[14 + |name|] == '('
            && r[15 + |name|..|r| - 1] == args
            && r[|r| - 1] == ')'
  {
    "EXECUTE TOOL: " + FormatArg(request.name) + "(" + FormatArg(request.arguments) + ")"
  }

  /**
   * When neither tool name contains a parenthesis, equal placeholders come from
   * equal printed names and equal printed arguments.
   */
  lemma ToolPlaceholderInjective(a: LC.ToolExecutionRequest, b: LC.ToolExecutionRequest)
    requires '(' !in FormatArg(a.name) && '(' !in FormatArg(b.name)
    requires ToolPlaceholder(a) == ToolPlaceholder(b)
    ensures FormatArg(a.name) == FormatArg(b.name)
    ensures FormatArg(a.arguments) == FormatArg(b.arguments)
  {
  }

  /**
   * `fromResponse`: the AI message's text when it has one (an empty text
   * included); otherwise the placeholder of its FIRST tool request; otherwise
   * null. A null response throws: the fallback branch dereferences it.
   */
  function FromResponse(response: Option<LC.ChatResponse>): (r: Result<Str, Failure>)
    ensures response.None? ==> r == Err(NullPointerException)
    ensures response.Some? ==> r.Ok?
    ensures response.Some? && response.value.aiMessage.text.Some? ==>
              r.value == response.value.aiMessage.text
    ensures response.Some? && response.value.aiMessage.text.None? ==>
              var requests := response.value.aiMessage.toolExecutionRequests;
              r.value == if requests == [] then None else Some(ToolPlaceholder(requests[0]))
  {
    match response
    case None => Err(NullPointerException)
    case Some(chat) =>
      if chat.aiMessage.text.Some? then Ok(chat.aiMessage.text)
      else if chat.aiMessage.toolExecutionRequests == [] then Ok(None)
      else Ok(Some(ToolPlaceholder(chat.aiMessage.toolExecutionRequests[0])))
  }

  /** `getMessage`: null for a null throwable, its (possibly null) message otherwise. */
  function GetMessage(error: Option<LC.Throwable>): (r: Str)
    ensures error.None? ==> r.None?
    ensures error.Some? ==> r == error.value.message
  {
    match error
    case None => None
    case Some(t) => t.message
  }

  /** `getCauseMessage`: the cause's message; null when there is no throwable or no cause. */
  function GetCauseMessage(error: Option<LC.Throwable>): (r: Str)
    ensures error.None? || error.value.cause.None? ==> r.None?
    ensures error.Some? && error.value.cause.Some? ==> r == error.value.cause.value.message
  {
    match error
    case None => None
    case Some(t) => GetMessage(t.cause)
  }

  /** `toJson`: the serialiser's text, or its failure wrapped as a SerializationFailure. */
  function ToJson<O>(toJson: O -> Result<string, string>, value: O): (r: Result<string, Failure>)
    ensures toJson(value).Ok? ==> r == Ok(toJson(value).value)
    ensures toJson(value).Err? ==> r == Err(SerializationFailure(toJson(value).error))
  {
    match toJson(value)
    case Ok(text) => Ok(text)
    case Err(message) => Err(SerializationFailure(message))
  }

  function StartedToAuditEvent(e: LC.AiServiceStartedEvent): (a: AuditEvent)
    ensures a.invocationContext == ToInvocationContext(e.invocationContext)
    ensures a.payload == ServiceStarted(Some(FromSystemMessage(e.systemMessage)), FromUserMessage(e.userMessage))
  {
    AuditEvent(
      ToInvocationContext(e.invocationContext),
      ServiceStarted(Some(FromSystemMessage(e.systemMessage)), FromUserMessage(e.userMessage)))
  }

  function CompletedToAuditEvent<O>(e: LC.AiServiceCompletedEvent<O>, toJson: O -> Result<string, string>): (r: Result<AuditEvent, Failure>)
    ensures r.Err? <==> toJson(e.result).Err?
    ensures r.Err? ==> r.error == SerializationFailure(toJson(e.result).error)
    ensures r.Ok? ==> r.value.invocationContext == ToInvocationContext(e.invocationContext)
    ensures r.Ok? ==> r.value.payload == ServiceCompleted(Some(toJson(e.result).value))
  {
    match ToJson(toJson, e.result)
    case Err(failure) => Err(failure)
    case Ok(json) => Ok(AuditEvent(ToInvocationContext(e.invocationContext), ServiceCompleted(Some(json))))
  }

  function ErrorToAuditEvent(e: LC.AiServiceErrorEvent): (a: AuditEvent)
    ensures a.invocationContext == ToInvocationContext(e.invocationContext)
    ensures a.payload == ServiceError(GetMessage(e.error), GetCauseMessage(e.error))
  {
    AuditEvent(ToInvocationContext(e.invocationContext), ServiceError(GetMessage(e.error), GetCauseMessage(e.error)))
  }

  /**
   * The response-received overload. A null response throws in `fromResponse`;
   * a response without token usage, or with a null count, throws when the
   * count is unboxed into the builder's `int`.
   */
  function ResponseReceivedToAuditEvent(e: LC.AiServiceResponseReceivedEvent): (r: Result<AuditEvent, Failure>)
    ensures r.Err? <==> e.response.None? || !e.response.value.HasTokenCounts()
    ensures r.Err? ==> r.error == NullPointerException
    ensures r.Ok? ==> r.value.invocationContext == ToInvocationContext(e.invocationContext)
    ensures r.Ok? ==> r.value.payload == ResponseReceived(
                        FromResponse(e.response).value,
                        e.response.value.modelName,
                        e.response.value.tokenUsage.value.inputTokenCount.value,
                        e.response.value.tokenUsage.value.outputTokenCount.value)
  {
    match FromResponse(e.response)
    case Err(failure) => Err(failure)
    case Ok(text) =>
      var chat := e.response.value;
      if !chat.HasTokenCounts() then Err(NullPointerException)
      else
        var usage := chat.tokenUsage.value;
        Ok(AuditEvent(
             ToInvocationContext(e.invocationContext),
             ResponseReceived(text, chat.modelName, usage.inputTokenCount.value, usage.outputTokenCount.value)))
  }

  function ToolExecutedToAuditEvent(e: LC.ToolExecutedEvent): (a: AuditEvent)
    ensures a.invocationContext == ToInvocationContext(e.invocationContext)
    ensures a.payload == ToolExecuted(e.request.name, e.request.arguments, e.resultText)
  {
    AuditEvent(ToInvocationContext(e.invocationContext), ToolExecuted(e.request.name, e.request.arguments, e.resultText))
  }

  function InputGuardrailToAuditEvent(e: LC.InputGuardrailExecutedEvent): (a: AuditEvent)
    ensures a.invocationContext == ToInvocationContext(e.invocationContext)
    ensures a.payload == InputGuardrailExecuted(
                           FromUserMessage(e.request.userMessage),
                           FromUserMessage(e.rewrittenUserMessage),
                           Some(e.result.Name()),
                           Some(e.guardrailClassName))
  {
    AuditEvent(
      ToInvocationContext(e.invocationContext),
      InputGuardrailExecuted(
        FromUserMessage(e.request.userMessage),
        FromUserMessage(e.rewrittenUserMessage),
        Some(e.result.Name()),
        Some(e.guardrailClassName)))
  }

  /** The output guardrail's response text; null when the guarded response is itself null. */
  function OutputGuardrailToAuditEvent(e: LC.OutputGuardrailExecutedEvent): (a: AuditEvent)
    ensures a.invocationContext == ToInvocationContext(e.invocationContext)
    ensures a.payload.OutputGuardrailExecuted?
    ensures e.request.responseFromLLM.None? ==> a.payload.response == None
    ensures e.request.responseFromLLM.Some? ==> a.payload.response == e.request.responseFromLLM.value.aiMessage.text
    ensures a.payload.guardrailResult == Some(e.result.Name())
    ensures a.payload.guardrailClass == Some(e.guardrailClassName)
  {
    var response := match e.request.responseFromLLM
      case None => None
      case Some(chat) => chat.aiMessage.text;
    AuditEvent(
      ToInvocationContext(e.invocationContext),
      OutputGuardrailExecuted(response, Some(e.result.Name()), Some(e.guardrailClassName)))
  }

  /** The mapped response-received event keeps the token counts, so its total is their Java sum. */
  lemma ResponseTokensCopied(e: LC.AiServiceResponseReceivedEvent, input: int32, output: int32)
    requires e.response.Some? && e.response.value.tokenUsage == Some(LC.TokenUsage(Some(input), Some(output)))
    ensures ResponseReceivedToAuditEvent(e).Ok?
    ensures var p := ResponseReceivedToAuditEvent(e).value.payload;
            p.modelName == e.response.value.modelName &&
            p.inputTokenCount == input && p.outputTokenCount == output &&
            Add(p.inputTokenCount, p.outputTokenCount) == Add(input, output)
  {
  }

  /** A response with no text whose first tool request is doX(1) is recorded as "EXECUTE TOOL: doX(1)". */
  lemma ToolRequestPlaceholderExample(context: LC.InvocationContext, input: int32, output: int32)
    ensures var usage := Some(LC.TokenUsage(Some(input), Some(output)));
            var requests := [LC.ToolExecutionRequest(Some("doX"), Some("1")), LC.ToolExecutionRequest(Some("other"), None)];
            var chat := LC.ChatResponse(LC.AiMessage(None, requests), Some("model"), usage);
            var r := ResponseReceivedToAuditEvent(LC.AiServiceResponseReceivedEvent(context, Some(chat)));
            r.Ok? && r.value.payload.response == Some("EXECUTE TOOL: doX(1)")
  {
    var request := LC.ToolExecutionRequest(Some("doX"), Some("1"));
    assert FormatArg(request.name) == "doX" && FormatArg(request.arguments) == "1";
    assert ToolPlaceholder(request) == "EXECUTE TOOL: " + "doX" + "(" + "1" + ")";
    assert "EXECUTE TOOL: " + "doX" + "(" + "1" + ")" == "EXECUTE TOOL: doX(1)";
  }

  /** An empty (non-null) text is kept as it is; tool requests are then ignored. */
  lemma EmptyTextIsKept(context: LC.InvocationContext, input: int32, output: int32, request: LC.ToolExecutionRequest)
    ensures var usage := Some(LC.TokenUsage(Some(input), Some(output)));
            var chat := LC.ChatResponse(LC.AiMessage(Some(""), [request]), None, usage);
            var r := ResponseReceivedToAuditEvent(LC.AiServiceResponseReceivedEvent(context, Some(chat)));
            r.Ok? && r.value.payload.response == Some("")
  {
  }

  /**
   * A response built with only an AI message carries no token usage; mapping
   * it throws, whatever its text, and so does a response whose usage lacks a count.
   */
  lemma MissingTokenUsageThrows(context: LC.InvocationContext, message: LC.AiMessage, count: int32)
    ensures var chat := LC.ChatResponse(message, None, None);
            ResponseReceivedToAuditEvent(LC.AiServiceResponseReceivedEvent(context, Some(chat))) == Err(NullPointerException)
    ensures var chat := LC.ChatResponse(message, None, Some(LC.TokenUsage(Some(count), None)));
            ResponseReceivedToAuditEvent(LC.AiServiceResponseReceivedEvent(context, Some(chat))) == Err(NullPointerException)
  {
  }

  /**
   * The started overload written as the builder chain the Java code runs:
   * the resulting entity holds the mapped payload.
   */
  method BuildServiceStarted(e: LC.AiServiceStartedEvent) returns (event: ServiceStartedEvents.ServiceStartedAuditEvent)
    ensures fresh(event)
    ensures event.Payload() == StartedToAuditEvent(e).payload
  {
    var builder := new ServiceStartedEvents.Builder();
    builder := builder.SystemMessage(Some(FromSystemMessage(e.systemMessage)));
    builder := builder.UserMessage(FromUserMessage(e.userMessage));
    event := builder.Build();
  }

  /** The completed overload as a builder chain; a serialisation failure builds nothing. */
  method BuildServiceCompleted<O>(e: LC.AiServiceCompletedEvent<O>, toJson: O -> Result<string, string>)
    returns (r: Result<ServiceCompleteEvents.ServiceCompleteAuditEvent, Failure>)
    ensures r.Err? <==> CompletedToAuditEvent(e, toJson).Err?
    ensures r.Err? ==> r.error == CompletedToAuditEvent(e, toJson).error
    ensures r.Ok? ==> fresh(r.value) && r.value.Payload() == CompletedToAuditEvent(e, toJson).value.payload
  {
    var json := ToJson(toJson, e.result);
    if json.Err? {
      return Err(json.error);
    }
    var builder := new ServiceCompleteEvents.Builder();
    builder := builder.Result(Some(json.value));
    var event := builder.Build();
    r := Ok(event);
  }

  /** The error overload as a builder chain. */
  method BuildServiceError(e: LC.AiServiceErrorEvent) returns (event: ServiceErrorEvents.ServiceErrorAuditEvent)
    ensures fresh(event)
    ensures event.Payload() == ErrorToAuditEvent(e).payload
  {
    var builder := new ServiceErrorEvents.Builder();
    builder := builder.ErrorMessage(GetMessage(e.error));
    builder := builder.CauseErrorMessage(GetCauseMessage(e.error));
    event := builder.Build();
  }

  /** The response-received overload as a builder chain; a null response or a missing count builds nothing. */
  method BuildResponseReceived(e: LC.AiServiceResponseReceivedEvent)
    returns (r: Result<ResponseReceivedEvents.ResponseReceivedAuditEvent, Failure>)
    ensures r.Err? <==> ResponseReceivedToAuditEvent(e).Err?
    ensures r.Err? ==> r.error == NullPointerException
    ensures r.Ok? ==> fresh(r.value) && r.value.Payload() == ResponseReceivedToAuditEvent(e).value.payload
  {
    var text := FromResponse(e.response);
    if text.Err? {
      return Err(text.error);
    }
    var chat := e.response.value;
    if !chat.HasTokenCounts() {
      return Err(NullPointerException);
    }
    var builder := new ResponseReceivedEvents.Builder();
    builder := builder.Response(text.value);
    builder := builder.ModelName(chat.modelName);
    builder := builder.InputTokenCount(chat.tokenUsage.value.inputTokenCount.value);
    builder := builder.OutputTokenCount(chat.tokenUsage.value.outputTokenCount.value);
    var event := builder.Build();
    r := Ok(event);
  }
}
