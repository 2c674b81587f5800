/**
 * `ResponseReceivedAuditEvent`: the audit record of one model response, with
 * its token counts (Java `int`s), the derived total, its setters and fluent
 * Builder. The fields inherited from the `AuditEvent` base class are not part
 * of this module.
 */
module ResponseReceivedEvents {
  import opened Wrappers
  import opened JavaInt
  import opened AuditModel

  /** The discriminator value of this entity. */
  const EVENT_TYPE: string := "RESPONSE_RECEIVED"

  class ResponseReceivedAuditEvent {
    var response: Str
    var modelName: Str
    var inputTokenCount: int32
    var outputTokenCount: int32

    /** The no-argument constructor the persistence layer uses: null strings, zero counts. */
    constructor Empty()
      ensures response == None && modelName == None
      ensures inputTokenCount == 0 && outputTokenCount == 0
    {
      response := None;
      modelName := None;
      inputTokenCount := 0;
      outputTokenCount := 0;
    }

    /** The private constructor behind `Builder.Build`: copies the builder's fields. */
    constructor FromBuilder(builder: Builder)
      ensures response == builder.response && modelName == builder.modelName
      ensures inputTokenCount == builder.inputTokenCount && outputTokenCount == builder.outputTokenCount
    {
      response := builder.response;
      modelName := builder.modelName;
      inputTokenCount := builder.inputTokenCount;
      outputTokenCount := builder.outputTokenCount;
    }

    /** Always RESPONSE_RECEIVED, whose discriminator is this entity's EVENT_TYPE. */
    function GetEventType(): (t: AuditEventType)
      reads this
      ensures Discriminator(t) == EVENT_TYPE
      ensures t == Payload().EventType()
    {
      RESPONSE_RECEIVED
    }

    /**
     * The total of the two token counts as Java computes it: congruent to the
     * exact sum modulo 2^32, and equal to it whenever the sum fits in an int.
     */
    function GetTokenCount(): (total: int32)
      reads this
      ensures (total as int - (inputTokenCount as int + outputTokenCount as int)) % 0x1_0000_0000 == 0
      ensures var sum := inputTokenCount as int + outputTokenCount as int;
        INT_MIN <= sum <= INT_MAX ==> total as int == sum
    {
      Add(inputTokenCount, outputTokenCount)
    }

    /** This event's fields as a payload of the event union. */
    function Payload(): AuditPayload
      reads this
    {
      ResponseReceived(response, modelName, inputTokenCount, outputTokenCount)
    }

    method SetInputTokenCount(inputTokenCount': int32)
      modifies this
      ensures inputTokenCount == inputTokenCount'
      ensures response == old(response) && modelName == old(modelName) && outputTokenCount == old(outputTokenCount)
    {
      inputTokenCount := inputTokenCount';
    }

    method SetModelName(modelName': Str)
      modifies this
      ensures modelName == modelName'
      ensures response == old(response) && inputTokenCount == old(inputTokenCount) && outputTokenCount == old(outputTokenCount)
    {
      modelName := modelName';
    }

    method SetOutputTokenCount(outputTokenCount': int32)
      modifies this
      ensures outputTokenCount == outputTokenCount'
      ensures response == old(response) && modelName == old(modelName) && inputTokenCount == old(inputTokenCount)
    {
      outputTokenCount := outputTokenCount';
    }

    method SetResponse(response': Str)
      modifies this
      ensures response == response'
      ensures modelName == old(modelName) && inputTokenCount == old(inputTokenCount) && outputTokenCount == old(outputTokenCount)
    {
      response := response';
    }

    /** A new builder holding a copy of this event's fields. */
    method ToBuilder() returns (builder: Builder)
      ensures fresh(builder)
      ensures builder.response == response && builder.modelName == modelName
      ensures builder.inputTokenCount == inputTokenCount && builder.outputTokenCount == outputTokenCount
    {
      builder := new Builder.FromEvent(this);
    }
  }

  class Builder {
    var response: Str
    var modelName: Str
    var inputTokenCount: int32
    var outputTokenCount: int32

    /** `ResponseReceivedAuditEvent.builder()`: null strings and zero counts. */
    constructor ()
      ensures response == None && modelName == None
      ensures inputTokenCount == 0 && outputTokenCount == 0
    {
      response := None;
      modelName := None;
      inputTokenCount := 0;
      outputTokenCount := 0;
    }

    /** The builder `toBuilder()` creates from an existing event. */
    constructor FromEvent(source: ResponseReceivedAuditEvent)
      ensures response == source.response && modelName == source.modelName
      ensures inputTokenCount == source.inputTokenCount && outputTokenCount == source.outputTokenCount
    {
      response := source.response;
      modelName := source.modelName;
      inputTokenCount := source.inputTokenCount;
      outputTokenCount := source.outputTokenCount;
    }

    method Response(response': Str) returns (self: Builder)
      modifies this
      ensures self == this && response == response'
      ensures modelName == old(modelName) && inputTokenCount == old(inputTokenCount) && outputTokenCount == old(outputTokenCount)
    {
      response := response';
      self := this;
    }

    method ModelName(modelName': Str) returns (self: Builder)
      modifies this
      ensures self == this && modelName == modelName'
      ensures response == old(response) && inputTokenCount == old(inputTokenCount) && outputTokenCount == old(outputTokenCount)
    {
      modelName := modelName';
      self := this;
    }

    method InputTokenCount(inputTokenCount': int32) returns (self: Builder)
      modifies this
      ensures self == this && inputTokenCount == inputTokenCount'
      ensures response == old(response) && modelName == old(modelName) && outputTokenCount == old(outputTokenCount)
    {
      inputTokenCount := inputTokenCount';
      self := this;
    }

    method OutputTokenCount(outputTokenCount': int32) returns (self: Builder)
      modifies this
      ensures self == this && outputTokenCount == outputTokenCount'
      ensures response == old(response) && modelName == old(modelName) && inputTokenCount == old(inputTokenCount)
    {
      outputTokenCount := outputTokenCount';
      self := this;
    }

    /** A new event holding the builder's fields; the builder is left as it was. */
    method Build() returns (event: ResponseReceivedAuditEvent)
      ensures fresh(event)
      ensures event.response == response && event.modelName == modelName
      ensures event.inputTokenCount == inputTokenCount && event.outputTokenCount == outputTokenCount
    {
      event := new ResponseReceivedAuditEvent.FromBuilder(this);
    }
  }

  /** `event.toBuilder().build()`: a distinct event with the same fields, hence the same token total. */
  method CopyThroughBuilder(event: ResponseReceivedAuditEvent) returns (copy: ResponseReceivedAuditEvent)
    ensures fresh(copy) && copy != event
    ensures copy.Payload() == event.Payload()
    ensures copy.GetTokenCount() == event.GetTokenCount()
  {
    var builder := event.ToBuilder();
    copy := builder.Build();
  }
}
