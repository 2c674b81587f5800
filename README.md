# Audit trail of the Parasol claims assistant, in Dafny

`parasol-app` records every step of a call to its AI service in one table of
audit events. These steps are: the service started, a model response
arrived, a tool ran, an input or output guardrail ran, the service completed,
and the service failed. Two reports are built from that table:

- the list of interactions whose first event lies in a date window;
- per-interaction statistics about service errors and output-guardrail
  failures.

This project models that audit trail and proves what its parts promise.

- **Mapping** (`AuditEventMapper`, `audit_event_mapper.dfy`). The seven
  lifecycle-event translations are pure functions. Each one returns the
  audit event (an invocation context plus a tagged payload). Where the Java
  code throws, it returns `Err`. A null chat response, or one without both
  token counts, gives a NullPointerException. A serialiser failure gives a
  SerializationFailure. The JSON serialiser is a function parameter that
  may fail. The four builder chains are also written as methods over the
  entity classes, and each is proved to build the same payload.
- **Audit entities** (the `*_audit_event.dfy` files). `ServiceStartedAuditEvent`,
  `ServiceCompleteAuditEvent`, `ServiceErrorAuditEvent` and
  `ResponseReceivedAuditEvent` are classes with mutable fields. Each has
  setters, a fluent `Builder` class, `toBuilder`, and a constant event type
  whose discriminator string is the class's `EVENT_TYPE`. The token total
  is Java's wrapping 32-bit `int` addition (`java_int.dfy`).
- **Table** (`audit_table.dfy`). The `audit_events` table is a sequence of
  wide rows, one nullable column per variant field. `ToRow` and `FromRow`
  are proved to round-trip every event.
- **Repository** (`audit_event_repository.dfy`). `AuditEventRepository` is a
  class holding the row sequence.
  - Each of the seven observers either appends exactly one mapped row or
    throws and appends nothing. Their log lines dereference a field of the
    event before `persist`.
  - `getAllForInteractionId` is a filter followed by a stable sort on
    `createdOn`.
  - The two reports are the pure query functions below.
- **Queries** (`audit_queries.dfy`, `audit_stats.dfy`). Both native SQL
  queries are functions of the row sequence. They work as follows:
  1. Group by interaction id.
  2. Take `MIN(created_on)` over all the group's rows.
  3. Keep groups whose date is inside the inclusive window.
  4. Order by that date.
  5. Compute `MAX … FILTER` over the text columns and `COUNT … FILTER` per
     group.
  6. Compute the two window averages. They are exact `real`s, or NULL over
     an empty window.
- **Status** (`interactions.dfy`). An interaction is FAILURE exactly when its
  error message is non-null and not blank after `strip()`, and SUCCESS
  otherwise.
- **Supporting modules**:
  - `wrappers.dfy` holds Option, Result and Outcome.
  - `java_text.dfy` holds `Character.isWhitespace`, `strip()` and the `%s`
    rendering of null.
  - `collation.dfy` holds the text order that `MAX` uses.
  - `seqs.dfy` holds filter and stable insertion sort, with their
    permutation and ordering lemmas.
  - `lifecycle_events.dfy` holds the lifecycle-event types, reduced to the
    fields the mapper reads.
- **Scenarios** (`audit_scenarios.dfy`). These are end-to-end scenarios
  proved for the repository class: observers, then the interactions report.

Java `null` is `None` of `Option`. A UUID is a `nat` and an `Instant` is an
`int`. Paths in the table are relative to the repository root.

## Model

| member | source | states |
|---|---|---|
| JavaInt.Add | parasol-app/src/main/java/org/parasol/model/audit/ResponseReceivedAuditEvent.java:60-62 | Java `int + int`: the result is congruent to the exact sum modulo 2^32, and equals it whenever the sum fits in 32 bits |
| JavaInt.AddOverflowWraps | parasol-app/src/main/java/org/parasol/model/audit/ResponseReceivedAuditEvent.java:60-62 | Integer.MAX_VALUE + 1 wraps to Integer.MIN_VALUE |
| JavaText.StripLeading | parasol-app/src/main/java/org/parasol/model/audit/Interactions.java:41 | a suffix of the input, and everything removed before it is whitespace; empty iff the input is all whitespace; otherwise it starts with non-whitespace |
| JavaText.StripTrailing | parasol-app/src/main/java/org/parasol/model/audit/Interactions.java:41 | a prefix of the input, and everything removed after it is whitespace; empty iff the input is all whitespace; otherwise it ends with non-whitespace |
| JavaText.Strip | parasol-app/src/main/java/org/parasol/model/audit/Interactions.java:41-42 | `String.strip()`: an infix of the input with only whitespace before and after it; empty exactly when the input is blank; otherwise neither end is whitespace; never longer than the input |
| JavaText.StripInfix | parasol-app/src/main/java/org/parasol/model/audit/Interactions.java:41-42 | stripping the trailing whitespace of the leading-stripped text leaves an infix of the original bordered by whitespace on both sides, with non-whitespace at both ends |
| JavaText.FormatArg | parasol-app/src/main/java/org/parasol/mapping/AuditEventMapper.java:115 | `%s` renders null as "null" and a string as itself |
| AuditModel.ParseEventType | parasol-app/src/main/java/org/parasol/model/audit/ResponseReceivedAuditEvent.java:12 | a parsed discriminator names a kind whose discriminator is exactly that string |
| AuditModel.ParseDiscriminator | parasol-app/src/main/java/org/parasol/model/audit/ResponseReceivedAuditEvent.java:12 | every kind's discriminator parses back to that kind, so the seven discriminators are distinct |
| ServiceStartedEvents.ServiceStartedAuditEvent.GetEventType | parasol-app/src/main/java/org/parasol/model/audit/ServiceStartedAuditEvent.java:12-35 | always SERVICE_STARTED, whose discriminator is "SERVICE_STARTED" |
| ServiceStartedEvents.ServiceStartedAuditEvent.Empty | parasol-app/src/main/java/org/parasol/model/audit/ServiceStartedAuditEvent.java:21-23 | the no-argument entity has both messages null |
| ServiceStartedEvents.ServiceStartedAuditEvent.FromBuilder | parasol-app/src/main/java/org/parasol/model/audit/ServiceStartedAuditEvent.java:26-30 | copies both messages from the builder |
| ServiceStartedEvents.ServiceStartedAuditEvent.SetSystemMessage | parasol-app/src/main/java/org/parasol/model/audit/ServiceStartedAuditEvent.java:41-43 | sets the system message and leaves the user message unchanged |
| ServiceStartedEvents.ServiceStartedAuditEvent.SetUserMessage | parasol-app/src/main/java/org/parasol/model/audit/ServiceStartedAuditEvent.java:49-51 | sets the user message and leaves the system message unchanged |
| ServiceStartedEvents.ServiceStartedAuditEvent.ToBuilder | parasol-app/src/main/java/org/parasol/model/audit/ServiceStartedAuditEvent.java:57-59 | a new builder holding the event's two messages |
| ServiceStartedEvents.Builder.constructor | parasol-app/src/main/java/org/parasol/model/audit/ServiceStartedAuditEvent.java:53-55 | `builder()` starts with both messages null |
| ServiceStartedEvents.Builder.FromEvent | parasol-app/src/main/java/org/parasol/model/audit/ServiceStartedAuditEvent.java:80-84 | the `toBuilder` builder copies both messages of its source |
| ServiceStartedEvents.Builder.SystemMessage | parasol-app/src/main/java/org/parasol/model/audit/ServiceStartedAuditEvent.java:86-89 | overwrites the system message only and returns the same builder |
| ServiceStartedEvents.Builder.UserMessage | parasol-app/src/main/java/org/parasol/model/audit/ServiceStartedAuditEvent.java:91-94 | overwrites the user message only and returns the same builder |
| ServiceStartedEvents.Builder.Build | parasol-app/src/main/java/org/parasol/model/audit/ServiceStartedAuditEvent.java:96-99 | a new entity holding the builder's two messages |
| ServiceStartedEvents.CopyThroughBuilder | parasol-app/src/main/java/org/parasol/model/audit/ServiceStartedAuditEvent.java:57-59 | `toBuilder().build()` is a distinct entity with the same messages |
| ServiceCompleteEvents.ServiceCompleteAuditEvent.GetEventType | parasol-app/src/main/java/org/parasol/model/audit/ServiceCompleteAuditEvent.java:13-30 | always SERVICE_COMPLETED, whose discriminator is "SERVICE_COMPLETED" |
| ServiceCompleteEvents.ServiceCompleteAuditEvent.Empty | parasol-app/src/main/java/org/parasol/model/audit/ServiceCompleteAuditEvent.java:18-20 | the no-argument entity has a null result |
| ServiceCompleteEvents.ServiceCompleteAuditEvent.FromBuilder | parasol-app/src/main/java/org/parasol/model/audit/ServiceCompleteAuditEvent.java:22-25 | copies the result from the builder |
| ServiceCompleteEvents.ServiceCompleteAuditEvent.SetResult | parasol-app/src/main/java/org/parasol/model/audit/ServiceCompleteAuditEvent.java:36-38 | sets the result, the entity's only field |
| ServiceCompleteEvents.ServiceCompleteAuditEvent.ToBuilder | parasol-app/src/main/java/org/parasol/model/audit/ServiceCompleteAuditEvent.java:40-42 | a new builder holding the event's result |
| ServiceCompleteEvents.Builder.constructor | parasol-app/src/main/java/org/parasol/model/audit/ServiceCompleteAuditEvent.java:44-46 | `builder()` starts with a null result |
| ServiceCompleteEvents.Builder.FromEvent | parasol-app/src/main/java/org/parasol/model/audit/ServiceCompleteAuditEvent.java:64-67 | the `toBuilder` builder copies the source's result |
| ServiceCompleteEvents.Builder.Result | parasol-app/src/main/java/org/parasol/model/audit/ServiceCompleteAuditEvent.java:69-72 | overwrites the result and returns the same builder |
| ServiceCompleteEvents.Builder.Build | parasol-app/src/main/java/org/parasol/model/audit/ServiceCompleteAuditEvent.java:74-77 | a new entity holding the builder's result |
| ServiceCompleteEvents.CopyThroughBuilder | parasol-app/src/main/java/org/parasol/model/audit/ServiceCompleteAuditEvent.java:40-42 | `toBuilder().build()` is a distinct entity with the same result |
| ServiceErrorEvents.ServiceErrorAuditEvent.GetEventType | parasol-app/src/main/java/org/parasol/model/audit/ServiceErrorAuditEvent.java:12-33 | always SERVICE_ERROR, whose discriminator is "SERVICE_ERROR" |
| ServiceErrorEvents.ServiceErrorAuditEvent.Empty | parasol-app/src/main/java/org/parasol/model/audit/ServiceErrorAuditEvent.java:20-22 | the no-argument entity has both messages null |
| ServiceErrorEvents.ServiceErrorAuditEvent.FromBuilder | parasol-app/src/main/java/org/parasol/model/audit/ServiceErrorAuditEvent.java:24-28 | copies both messages from the builder |
| ServiceErrorEvents.ServiceErrorAuditEvent.SetErrorMessage | parasol-app/src/main/java/org/parasol/model/audit/ServiceErrorAuditEvent.java:55-57 | sets the error message and leaves the cause message unchanged |
| ServiceErrorEvents.ServiceErrorAuditEvent.SetCauseErrorMessage | parasol-app/src/main/java/org/parasol/model/audit/ServiceErrorAuditEvent.java:47-49 | sets the cause message and leaves the error message unchanged |
| ServiceErrorEvents.ServiceErrorAuditEvent.ToBuilder | parasol-app/src/main/java/org/parasol/model/audit/ServiceErrorAuditEvent.java:35-37 | a new builder holding both messages |
| ServiceErrorEvents.Builder.constructor | parasol-app/src/main/java/org/parasol/model/audit/ServiceErrorAuditEvent.java:39-41 | `builder()` starts with both messages null |
| ServiceErrorEvents.Builder.FromEvent | parasol-app/src/main/java/org/parasol/model/audit/ServiceErrorAuditEvent.java:78-82 | the `toBuilder` builder copies both messages of its source |
| ServiceErrorEvents.Builder.ErrorMessage | parasol-app/src/main/java/org/parasol/model/audit/ServiceErrorAuditEvent.java:84-87 | overwrites the error message only and returns the same builder |
| ServiceErrorEvents.Builder.CauseErrorMessage | parasol-app/src/main/java/org/parasol/model/audit/ServiceErrorAuditEvent.java:89-92 | overwrites the cause message only and returns the same builder |
| ServiceErrorEvents.Builder.Build | parasol-app/src/main/java/org/parasol/model/audit/ServiceErrorAuditEvent.java:94-97 | a new entity holding both of the builder's messages |
| ServiceErrorEvents.CopyThroughBuilder | parasol-app/src/main/java/org/parasol/model/audit/ServiceErrorAuditEvent.java:35-37 | `toBuilder().build()` is a distinct entity with the same messages |
| ResponseReceivedEvents.ResponseReceivedAuditEvent.GetEventType | parasol-app/src/main/java/org/parasol/model/audit/ResponseReceivedAuditEvent.java:12-42 | always RESPONSE_RECEIVED, whose discriminator is "RESPONSE_RECEIVED" |
| ResponseReceivedEvents.ResponseReceivedAuditEvent.GetTokenCount | parasol-app/src/main/java/org/parasol/model/audit/ResponseReceivedAuditEvent.java:60-62 | input + output tokens under 32-bit wrap-around: congruent to the exact sum, and equal to it when the sum fits |
| ResponseReceivedEvents.ResponseReceivedAuditEvent.Empty | parasol-app/src/main/java/org/parasol/model/audit/ResponseReceivedAuditEvent.java:27-29 | the no-argument entity has null texts and zero counts |
| ResponseReceivedEvents.ResponseReceivedAuditEvent.FromBuilder | parasol-app/src/main/java/org/parasol/model/audit/ResponseReceivedAuditEvent.java:31-37 | copies response, model name and both token counts from the builder |
| ResponseReceivedEvents.ResponseReceivedAuditEvent.SetInputTokenCount | parasol-app/src/main/java/org/parasol/model/audit/ResponseReceivedAuditEvent.java:56-58 | sets the input count; the other three fields are unchanged |
| ResponseReceivedEvents.ResponseReceivedAuditEvent.SetModelName | parasol-app/src/main/java/org/parasol/model/audit/ResponseReceivedAuditEvent.java:68-70 | sets the model name; the other three fields are unchanged |
| ResponseReceivedEvents.ResponseReceivedAuditEvent.SetOutputTokenCount | parasol-app/src/main/java/org/parasol/model/audit/ResponseReceivedAuditEvent.java:76-78 | sets the output count; the other three fields are unchanged |
| ResponseReceivedEvents.ResponseReceivedAuditEvent.SetResponse | parasol-app/src/main/java/org/parasol/model/audit/ResponseReceivedAuditEvent.java:84-86 | sets the response; the other three fields are unchanged |
| ResponseReceivedEvents.ResponseReceivedAuditEvent.ToBuilder | parasol-app/src/main/java/org/parasol/model/audit/ResponseReceivedAuditEvent.java:44-46 | a new builder holding all four fields |
| ResponseReceivedEvents.Builder.constructor | parasol-app/src/main/java/org/parasol/model/audit/ResponseReceivedAuditEvent.java:48-50 | `builder()` starts with null texts and zero counts |
| ResponseReceivedEvents.Builder.FromEvent | parasol-app/src/main/java/org/parasol/model/audit/ResponseReceivedAuditEvent.java:111-117 | the `toBuilder` builder copies all four fields of its source |
| ResponseReceivedEvents.Builder.Response | parasol-app/src/main/java/org/parasol/model/audit/ResponseReceivedAuditEvent.java:119-122 | overwrites the response only and returns the same builder |
| ResponseReceivedEvents.Builder.ModelName | parasol-app/src/main/java/org/parasol/model/audit/ResponseReceivedAuditEvent.java:124-127 | overwrites the model name only and returns the same builder |
| ResponseReceivedEvents.Builder.InputTokenCount | parasol-app/src/main/java/org/parasol/model/audit/ResponseReceivedAuditEvent.java:129-132 | overwrites the input count only and returns the same builder |
| ResponseReceivedEvents.Builder.OutputTokenCount | parasol-app/src/main/java/org/parasol/model/audit/ResponseReceivedAuditEvent.java:134-137 | overwrites the output count only and returns the same builder |
| ResponseReceivedEvents.Builder.Build | parasol-app/src/main/java/org/parasol/model/audit/ResponseReceivedAuditEvent.java:139-142 | a new entity holding the builder's four fields |
| ResponseReceivedEvents.CopyThroughBuilder | parasol-app/src/main/java/org/parasol/model/audit/ResponseReceivedAuditEvent.java:44-46 | `toBuilder().build()` is a distinct entity with the same fields and therefore the same token total |
| Interactions.Interaction.GetStatus | parasol-app/src/main/java/org/parasol/model/audit/Interactions.java:28-45 | FAILURE iff the error message is non-null and contains a non-whitespace character; never UNKNOWN; nothing but the error message is read |
| Interactions.Interaction.IsFailure | parasol-app/src/main/java/org/parasol/model/audit/Interactions.java:47-50 | `isFailure()` holds iff the error message is non-null and contains a non-whitespace character |
| Interactions.Interaction.IsSuccess | parasol-app/src/main/java/org/parasol/model/audit/Interactions.java:52-55 | `isSuccess()` holds iff the error message is null or blank |
| Interactions.ExactlyOneOutcome | parasol-app/src/main/java/org/parasol/model/audit/Interactions.java:47-55 | exactly one of `isFailure()` and `isSuccess()` holds |
| Interactions.Success | parasol-app/src/main/java/org/parasol/model/audit/Interactions.java:30-32 | both error fields are null, the other fields are the arguments, and the status is SUCCESS |
| Interactions.Failure | parasol-app/src/main/java/org/parasol/model/audit/Interactions.java:34-36 | the result is null and the other fields are the arguments; the status is FAILURE iff the given error message is non-blank |
| Interactions.Empty | parasol-app/src/main/java/org/parasol/model/audit/Interactions.java:15-17 | carries the given window and no interactions |
| Interactions.BlankErrorIsSuccess | parasol-app/src/main/java/org/parasol/model/audit/Interactions.java:39-45 | a failure built with a whitespace-only error message still reports SUCCESS |
| Collation.TextLeReflexive | parasol-app/src/main/java/org/parasol/repository/AuditEventRepository.java:73-77 | the text order that `MAX` uses is reflexive |
| Collation.TextLeTotal | parasol-app/src/main/java/org/parasol/repository/AuditEventRepository.java:73-77 | the order is total |
| Collation.TextLeTransitive | parasol-app/src/main/java/org/parasol/repository/AuditEventRepository.java:73-77 | the order is transitive |
| Collation.TextLeAntisymmetric | parasol-app/src/main/java/org/parasol/repository/AuditEventRepository.java:73-77 | the order is antisymmetric |
| Collation.Greatest | parasol-app/src/main/java/org/parasol/repository/AuditEventRepository.java:73-77 | SQL `MAX` of two nullable texts: one of them; null iff both are null; no smaller than either non-null one |
| Seqs.Filter | parasol-app/src/main/java/org/parasol/repository/AuditEventRepository.java:100-102 | an element is kept iff it is in the input and satisfies the predicate; never longer than the input |
| Seqs.FilterMultiset | parasol-app/src/main/java/org/parasol/repository/AuditEventRepository.java:100-102 | each element occurs in the filtered sequence as often as in the input if it passes, and not at all otherwise |
| Seqs.FilterDistinct | parasol-app/src/main/java/org/parasol/repository/AuditEventRepository.java:64 | filtering keeps a duplicate-free sequence duplicate-free |
| Seqs.Insert | parasol-app/src/main/java/org/parasol/repository/AuditEventRepository.java:65 | one step of the stable insertion sort: one element longer, holding `x` and the input's elements |
| Seqs.InsertMultiset | parasol-app/src/main/java/org/parasol/repository/AuditEventRepository.java:65 | inserting adds exactly one occurrence of `x` |
| Seqs.InsertSorted | parasol-app/src/main/java/org/parasol/repository/AuditEventRepository.java:65 | inserting into a sorted sequence keeps it sorted |
| Seqs.InsertDistinct | parasol-app/src/main/java/org/parasol/repository/AuditEventRepository.java:65 | inserting a new element keeps a sequence duplicate-free |
| Seqs.SortBy | parasol-app/src/main/java/org/parasol/repository/AuditEventRepository.java:65 | `ORDER BY key`: same length and same elements as the input (permutation and order in `SortByCorrect`) |
| Seqs.SortByCorrect | parasol-app/src/main/java/org/parasol/repository/AuditEventRepository.java:65 | the sort's output is a permutation of its input and non-decreasing in the key |
| Seqs.SortByDistinct | parasol-app/src/main/java/org/parasol/repository/AuditEventRepository.java:65 | sorting keeps a duplicate-free sequence duplicate-free |
| Seqs.DistinctSingleton | parasol-app/src/main/java/org/parasol/repository/AuditEventRepository.java:55-60 | a duplicate-free sequence whose only element is `x` is `[x]` |
| AuditEventMapper.ToInvocationContext | parasol-app/src/main/java/org/parasol/mapping/AuditEventMapper.java:100-106 | interactionId is the invocation id; interface and method names are copied unchanged |
| AuditEventMapper.FromSystemMessage | parasol-app/src/main/java/org/parasol/mapping/AuditEventMapper.java:120-122 | an absent system message gives "", a present one its text; never null |
| AuditEventMapper.FromUserMessage | parasol-app/src/main/java/org/parasol/mapping/AuditEventMapper.java:124-128 | null iff the message is null; otherwise its single text |
| AuditEventMapper.ToolPlaceholder | parasol-app/src/main/java/org/parasol/mapping/AuditEventMapper.java:115 | "EXECUTE TOOL: ", then the name as `%s` prints it, "(", the arguments as `%s` prints them, ")"; its length is the sum of those parts |
| AuditEventMapper.ToolPlaceholderInjective | parasol-app/src/main/java/org/parasol/mapping/AuditEventMapper.java:115 | when no tool name contains "(", equal placeholders come from equal printed names and equal printed arguments |
| AuditEventMapper.FromResponse | parasol-app/src/main/java/org/parasol/mapping/AuditEventMapper.java:108-118 | the AI text when non-null (an empty text kept); else the "EXECUTE TOOL: name(args)" text of the first tool request; else null; a null response throws |
| AuditEventMapper.GetMessage | parasol-app/src/main/java/org/parasol/mapping/AuditEventMapper.java:151-155 | null for a null throwable, its message otherwise |
| AuditEventMapper.GetCauseMessage | parasol-app/src/main/java/org/parasol/mapping/AuditEventMapper.java:157-162 | the cause's message; null when there is no throwable or no cause |
| AuditEventMapper.ToJson | parasol-app/src/main/java/org/parasol/mapping/AuditEventMapper.java:130-136 | the serialiser's text, or its failure wrapped as a serialisation failure |
| AuditEventMapper.StartedToAuditEvent | parasol-app/src/main/java/org/parasol/mapping/AuditEventMapper.java:39-45 | the mapped context, the system message defaulting to "", and the nullable user text |
| AuditEventMapper.CompletedToAuditEvent | parasol-app/src/main/java/org/parasol/mapping/AuditEventMapper.java:47-52 | fails exactly when serialisation fails, with that failure; otherwise the context and the JSON result |
| AuditEventMapper.ErrorToAuditEvent | parasol-app/src/main/java/org/parasol/mapping/AuditEventMapper.java:54-60 | the context, the error's message and its cause's message (null when absent) |
| AuditEventMapper.ResponseReceivedToAuditEvent | parasol-app/src/main/java/org/parasol/mapping/AuditEventMapper.java:62-70 | throws a NullPointerException iff the chat response is null, its token usage is null, or either token count is null; otherwise the response text, the model name and both token counts |
| AuditEventMapper.ToolExecutedToAuditEvent | parasol-app/src/main/java/org/parasol/mapping/AuditEventMapper.java:72-79 | tool name, arguments and result text copied unchanged |
| AuditEventMapper.InputGuardrailToAuditEvent | parasol-app/src/main/java/org/parasol/mapping/AuditEventMapper.java:81-89 | user and rewritten messages through the null-safe extraction; the result's enum name; the guardrail class name |
| AuditEventMapper.OutputGuardrailToAuditEvent | parasol-app/src/main/java/org/parasol/mapping/AuditEventMapper.java:91-98 | response text null when the guarded response is null; the result's enum name; the guardrail class name |
| AuditEventMapper.ResponseTokensCopied | parasol-app/src/test/java/org/parasol/mapping/AuditEventMapperTests.java:161-168 | a response with both token counts maps successfully and keeps the model name and both counts, so its token total is their Java sum |
| AuditEventMapper.ToolRequestPlaceholderExample | parasol-app/src/main/java/org/parasol/mapping/AuditEventMapper.java:112-116 | a text-less response whose first tool request is doX(1) is recorded as "EXECUTE TOOL: doX(1)"; later requests are ignored |
| AuditEventMapper.EmptyTextIsKept | parasol-app/src/main/java/org/parasol/mapping/AuditEventMapper.java:108-118 | an empty non-null AI text is recorded as "", even when tool requests exist |
| AuditEventMapper.MissingTokenUsageThrows | parasol-app/src/main/java/org/parasol/mapping/AuditEventMapper.java:67-68 | a response built with only an AI message (no token usage), or with a null output count, throws on mapping |
| AuditEventMapper.BuildServiceStarted | parasol-app/src/main/java/org/parasol/mapping/AuditEventMapper.java:39-45 | the builder chain yields an entity holding the mapped payload |
| AuditEventMapper.BuildServiceCompleted | parasol-app/src/main/java/org/parasol/mapping/AuditEventMapper.java:47-52 | the builder chain fails exactly as the mapping does, and otherwise yields its payload |
| AuditEventMapper.BuildServiceError | parasol-app/src/main/java/org/parasol/mapping/AuditEventMapper.java:54-60 | the builder chain yields an entity holding the mapped payload |
| AuditEventMapper.BuildResponseReceived | parasol-app/src/main/java/org/parasol/mapping/AuditEventMapper.java:62-70 | the builder chain throws exactly as the mapping does (null response, missing token usage or count), and otherwise yields its payload |
| AuditTable.ToRow | parasol-app/src/main/java/org/parasol/repository/AuditEventRepository.java:138 | the persisted row carries the kind's discriminator, the context and the timestamp; every column that belongs only to other kinds (system, user and rewritten messages, result, error and cause, response, model name, both token counts, tool name, arguments and result, guardrail result and class) is null |
| AuditTable.FromRow | parasol-app/src/main/java/org/parasol/repository/AuditEventRepository.java:100-102 | loading a row: no event iff the discriminator is unknown, or a RESPONSE_RECEIVED row lacks a token count; otherwise an event of the kind the discriminator names, with the row's context |
| AuditTable.RowRoundTrip | parasol-app/src/test/java/org/parasol/repository/AuditEventRepositoryTests.java:172-175 | reading back a persisted row gives the same event |
| AuditQueries.DistinctIds | parasol-app/src/main/java/org/parasol/repository/AuditEventRepository.java:78-79 | `GROUP BY interaction_id`: every id of the table, each once |
| AuditQueries.InteractionDate | parasol-app/src/main/java/org/parasol/repository/AuditEventRepository.java:72 | `MIN(created_on)` over ALL the interaction's rows: attained by one of them and no later than any |
| AuditQueries.WindowIds | parasol-app/src/main/java/org/parasol/repository/AuditEventRepository.java:88-91 | an id is kept iff it has rows and start <= its date <= end; each once; by non-decreasing date |
| AuditQueries.MaxColumn | parasol-app/src/main/java/org/parasol/repository/AuditEventRepository.java:73-77 | `MAX(col) FILTER (WHERE event_type = …)`: null iff no row of that kind has a non-null value, else one of those values |
| AuditQueries.MaxColumnIsGreatest | parasol-app/src/main/java/org/parasol/repository/AuditEventRepository.java:73-77 | no non-null candidate is above the maximum |
| AuditQueries.MaxColumnSingleValue | parasol-app/src/main/java/org/parasol/repository/AuditEventRepository.java:73-77 | when all non-null candidates hold the same text, that text is the maximum |
| AuditQueries.SoleCandidate | parasol-app/src/main/java/org/parasol/repository/AuditEventRepository.java:73-77 | a group with one row of the kind takes that row's value, null or not |
| AuditQueries.GroupInteraction | parasol-app/src/main/java/org/parasol/repository/AuditEventRepository.java:71-79 | the group's date; system and user messages from SERVICE_STARTED rows; result from SERVICE_COMPLETED; error and cause from SERVICE_ERROR |
| AuditQueries.InteractionsQuery | parasol-app/src/main/java/org/parasol/repository/AuditEventRepository.java:68-92 | the window, and one aggregated group per window id, in window order |
| AuditQueries.InteractionsQueryCorrect | parasol-app/src/main/java/org/parasol/repository/AuditEventRepository.java:68-92 | every reported interaction has its date in the window and is its own group; every such interaction is reported; no id twice; dates non-decreasing |
| AuditQueries.EarlierEventExcludes | parasol-app/src/main/java/org/parasol/repository/AuditEventRepository.java:90 | one event before the window start excludes its whole interaction, even if later events are inside |
| AuditQueries.NoErrorMessageMeansSuccess | parasol-app/src/main/java/org/parasol/repository/AuditEventRepository.java:76 | a group without a non-null SERVICE_ERROR message reports SUCCESS |
| AuditQueries.NonBlankErrorMeansFailure | parasol-app/src/main/java/org/parasol/repository/AuditEventRepository.java:76 | a group whose non-null SERVICE_ERROR messages are all non-blank, with at least one, reports FAILURE |
| AuditQueries.InteractionDateAppendOther | parasol-app/src/main/java/org/parasol/repository/AuditEventRepository.java:72 | a new row of another interaction leaves a group's date unchanged |
| AuditQueries.MaxColumnAppendOther | parasol-app/src/main/java/org/parasol/repository/AuditEventRepository.java:73-77 | a new row of another interaction leaves a group's texts unchanged |
| AuditQueries.GroupInteractionAppendOther | parasol-app/src/main/java/org/parasol/repository/AuditEventRepository.java:71-79 | persisting an event of one interaction never changes what is reported for another |
| AuditQueries.DistinctIdsOfOneInteraction | parasol-app/src/main/java/org/parasol/repository/AuditEventRepository.java:78-79 | a table holding one interaction groups to that single id |
| AuditQueries.OneInteractionReportedOnce | parasol-app/src/main/java/org/parasol/repository/AuditEventRepository.java:68-92 | the events of one interaction dated inside the window are reported as exactly one group |
| AuditStatistics.CountEvents | parasol-app/src/main/java/org/parasol/repository/AuditEventRepository.java:41-42 | `COUNT(*) FILTER (WHERE event_type = …)`: zero iff the group has no row of that kind |
| AuditStatistics.CountGuardrailFailures | parasol-app/src/main/java/org/parasol/repository/AuditEventRepository.java:43 | zero iff no OUTPUT_GUARDRAIL_EXECUTED row of the group has result FATAL or FAILURE |
| AuditStatistics.CountGuardrailFailuresAppend | parasol-app/src/main/java/org/parasol/repository/AuditEventRepository.java:43 | a new row adds one to its group's failure count exactly when it is an OUTPUT_GUARDRAIL_EXECUTED row of that group with result FATAL or FAILURE, and nothing otherwise |
| AuditStatistics.OutputGuardrailFailureRow | parasol-app/src/main/java/org/parasol/repository/AuditEventRepository.java:43 | the row persisted for an output guardrail counts as a failure iff the guardrail's result is FATAL or FAILURE |
| AuditStatistics.FailuresAtMostExecutions | parasol-app/src/main/java/org/parasol/repository/AuditEventRepository.java:42-43 | failed output-guardrail executions never exceed executions |
| AuditStatistics.CountEventsAppend | parasol-app/src/main/java/org/parasol/repository/AuditEventRepository.java:41-42 | a new row adds one to the count of its own group and kind, and nothing elsewhere |
| AuditStatistics.FailingIds | parasol-app/src/main/java/org/parasol/repository/AuditEventRepository.java:53-62 | the rows the window averages range over: in-window interactions with at least one failure, each once |
| AuditStatistics.Mean | parasol-app/src/main/java/org/parasol/repository/AuditEventRepository.java:53-62 | SQL `AVG`: NULL iff there are no rows; otherwise mean × count = exact sum |
| AuditStatistics.GroupStats | parasol-app/src/main/java/org/parasol/repository/AuditEventRepository.java:38-62 | one statistics row: the date, three counts, and each `CASE` (0 when the row's own count is 0, otherwise the window average) |
| AuditStatistics.StatsQuery | parasol-app/src/main/java/org/parasol/repository/AuditEventRepository.java:36-66 | the window, and one statistics row per window id, in window order, with the two window means over the failing interactions |
| AuditStatistics.StatsQueryRows | parasol-app/src/main/java/org/parasol/repository/AuditEventRepository.java:36-66 | exactly the in-window interactions, each once, by non-decreasing date |
| AuditStatistics.StatsQueryAverages | parasol-app/src/main/java/org/parasol/repository/AuditEventRepository.java:41-62 | counts as stated; failures <= executions; zero count gives 0; otherwise failures average = mean failures, and executions average = mean EXECUTIONS, both over the failing interactions |
| AuditStatistics.StatsAveragesShared | parasol-app/src/main/java/org/parasol/repository/AuditEventRepository.java:53-62 | every row with a positive count carries the same window average |
| AuditStatistics.MeanOfOne | parasol-app/src/main/java/org/parasol/repository/AuditEventRepository.java:53-62 | `AVG` over one interaction is its own count |
| AuditStatistics.OneFailingInteraction | parasol-app/src/main/java/org/parasol/repository/AuditEventRepository.java:53-62 | with one failing interaction, both averages are its own counts, even on non-failing rows with executions |
| AuditStatistics.GuardrailAveragesExample | parasol-app/src/main/java/org/parasol/repository/AuditEventRepository.java:53-62 | A (2 executions, 1 failure), B (3, 0), C (0): the executions average is 2 on A and B, not 2.5 or 5/3; the failures average is 1 on A and 0 on B and C |
| Repository.AuditEventRepository.constructor | parasol-app/src/main/java/org/parasol/repository/AuditEventRepository.java:34 | a new table is empty |
| Repository.AuditEventRepository.Append | parasol-app/src/main/java/org/parasol/repository/AuditEventRepository.java:138 | `persist` adds exactly the event's row at the end |
| Repository.AuditEventRepository.ServiceStarted | parasol-app/src/main/java/org/parasol/repository/AuditEventRepository.java:130-139 | a null user message throws before persisting; otherwise exactly the mapped row is appended |
| Repository.AuditEventRepository.ServiceCompleted | parasol-app/src/main/java/org/parasol/repository/AuditEventRepository.java:147-155 | fails iff serialisation fails, leaving the table unchanged; otherwise exactly the mapped row is appended |
| Repository.AuditEventRepository.ServiceFailed | parasol-app/src/main/java/org/parasol/repository/AuditEventRepository.java:163-171 | a null error throws before persisting; otherwise exactly the mapped row is appended |
| Repository.AuditEventRepository.ResponseReceived | parasol-app/src/main/java/org/parasol/repository/AuditEventRepository.java:179-187 | a null response, or one without both token counts, throws and persists nothing; otherwise exactly the mapped row is appended |
| Repository.AuditEventRepository.ToolExecuted | parasol-app/src/main/java/org/parasol/repository/AuditEventRepository.java:195-205 | always appends exactly the mapped row |
| Repository.AuditEventRepository.InputGuardrailExecuted | parasol-app/src/main/java/org/parasol/repository/AuditEventRepository.java:213-221 | a null rewritten message throws before persisting; otherwise exactly the mapped row is appended |
| Repository.AuditEventRepository.OutputGuardrailExecuted | parasol-app/src/main/java/org/parasol/repository/AuditEventRepository.java:229-236 | a null guarded response throws before persisting; otherwise exactly the mapped row is appended |
| Repository.AuditEventRepository.GetAllForInteractionId | parasol-app/src/main/java/org/parasol/repository/AuditEventRepository.java:100-102 | exactly the interaction's rows, each as many times as stored, by ascending createdOn |
| Repository.AuditEventRepository.GetAuditStats | parasol-app/src/main/java/org/parasol/repository/AuditEventRepository.java:104-112 | the statistics query over the current table, wrapped with the window |
| Repository.AuditEventRepository.GetLLMInteractions | parasol-app/src/main/java/org/parasol/repository/AuditEventRepository.java:114-122 | the interactions query over the current table, wrapped with the window |
| Scenarios.SuccessGroup | parasol-app/src/test/java/org/parasol/repository/AuditEventRepositoryTests.java:60-65 | started, tool and completed rows aggregate to one interaction with the user message and result, no error, SUCCESS |
| Scenarios.SuccessScenarioReport | parasol-app/src/test/java/org/parasol/repository/AuditEventRepositoryTests.java:56-65 | the rows those three observers persist report exactly that one successful interaction |
| Scenarios.StartedToolCompleted | parasol-app/src/test/java/org/parasol/repository/AuditEventRepositoryTests.java:56-65 | through the repository class: the report holds one interaction, SUCCESS, with "" system message, the user text and the JSON result |
| Scenarios.FailureTexts | parasol-app/src/test/java/org/parasol/repository/AuditEventRepositoryTests.java:66-72 | the group takes the error and cause messages from the error row and the user message from the started row |
| Scenarios.FailureGroup | parasol-app/src/test/java/org/parasol/repository/AuditEventRepositoryTests.java:66-72 | a started row and an error row aggregate to one interaction dated by the started row, with both messages, FAILURE |
| Scenarios.FailureRowsReport | parasol-app/src/test/java/org/parasol/repository/AuditEventRepositoryTests.java:66-72 | any started row and error row of that shape, the first inside the window, report one interaction with both messages, dated by the started row, FAILURE |
| Scenarios.FailureScenarioReport | parasol-app/src/test/java/org/parasol/repository/AuditEventRepositoryTests.java:66-72 | the started and error rows report one interaction carrying both messages, status FAILURE |
| Scenarios.StartedThenError | parasol-app/src/test/java/org/parasol/repository/AuditEventRepositoryTests.java:66-72 | through the repository class: one interaction, error "boom", cause "root cause", FAILURE |

## Left out

- Date-window resolution (`AuditDates.from`) is not part of this model. The queries take the resolved window as input.
- Id generation and the assignment of `createdOn` by the `AuditEvent` base class are not part of this model. An observer receives its row's timestamp as a parameter.
- The entity classes hold only their own fields. The base class's id is not modelled. Its invocation context lives on the `AuditEvent` value, and its creation time lives on the table row.
- Logging (`Log.infof`) is modelled only through its effect. The log line dereferences a field of the event, so a null there throws before `persist`.
- Metrics, `@Transactional`, flushing and concurrent appends are left out. The table is an in-memory sequence appended in call order.
- Jackson serialisation is a function parameter that may fail. Its output format is not modelled.
- Database collation for `MAX` on text is modelled as code-point order, the "C" collation. Under another collation, the lemmas that need only "one of the candidates" (`MaxColumn`, `SoleCandidate`, `MaxColumnSingleValue`) still describe the query. `MaxColumnIsGreatest` describes it only for code-point order.
- SQL leaves the order of ties in `ORDER BY interaction_date` unspecified. The model fixes one: grouping keeps the last row of each id, and a stable sort then orders tied ids by the table position of their last row.
- `InteractionStats` and `AuditStats` are not part of this model as Java types. The statistics row keeps SQL's values: exact `real` averages, NULL as `None`, counts as `nat`.
- `ToolExecutedAuditEvent`, the guardrail audit event classes and `AuditEventType` are not part of this model. They are stand-ins: one payload variant each, and a column layout chosen for the wide row. The input guardrail's result shares the `result` column with SERVICE_COMPLETED, the tool result is in `toolResult`, and the output guardrail's result is in `guardrailResult`.
- langchain4j types are reduced to the fields the mapper reads. Token usage and each of its two counts are nullable, as `Integer`s are.
  - `UserMessage.singleText()` throws on a multi-part message. That case is not modelled: a user message has one text.
  - `Character.isWhitespace` is written out for the BMP code points it accepts.
- Mail sending, claimant lookup and the politeness services are outside the audit trail and are not modelled.
- In these places the model follows the code as written, which a reader may not expect:
  - The executions average is taken over interactions with at least one output-guardrail FAILURE, not over those with executions. It is NULL when no in-window interaction failed.
  - A row whose own count is 0 reports average 0, not the window average.
  - An empty (non-null) AI text is stored as "" rather than as a tool placeholder.
  - An error message that is blank after `strip()` yields SUCCESS.
