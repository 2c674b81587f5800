/**
 * `ServiceCompleteAuditEvent`: the audit record of a completed service call,
 * holding the JSON form of its result, with its setter and fluent Builder.
 * The fields inherited from the `AuditEvent` base class are not part of this
 * module.
 */
module ServiceCompleteEvents {
  import opened Wrappers
  import opened AuditModel

  /** The discriminator value of this entity. */
  const EVENT_TYPE: string := "SERVICE_COMPLETED"

  class ServiceCompleteAuditEvent {
    var result: Str

    /** The no-argument constructor the persistence layer uses: the result is null. */
    constructor Empty()
      ensures result == None
    {
      result := None;
    }

    /** The private constructor behind `Builder.Build`: copies the builder's result. */
    constructor FromBuilder(builder: Builder)
      ensures result == builder.result
    {
      result := builder.result;
    }

    /** Always SERVICE_COMPLETED, whose discriminator is this entity's EVENT_TYPE. */
    function GetEventType(): (t: AuditEventType)
      reads this
      ensures Discriminator(t) == EVENT_TYPE
      ensures t == Payload().EventType()
    {
      SERVICE_COMPLETED
    }

    /** This event's field as a payload of the event union. */
    function Payload(): AuditPayload
      reads this
    {
      ServiceCompleted(result)
    }

    method SetResult(result': Str)
      modifies this
      ensures result == result'
    {
      result := result';
    }

    /** A new builder holding a copy of this event's result. */
    method ToBuilder() returns (builder: Builder)
      ensures fresh(builder)
      ensures builder.result == result
    {
      builder := new Builder.FromEvent(this);
    }
  }

  class Builder {
    var result: Str

    /** `ServiceCompleteAuditEvent.builder()`: a builder whose result is null. */
    constructor ()
      ensures result == None
    {
      result := None;
    }

    /** The builder `toBuilder()` creates from an existing event. */
    constructor FromEvent(source: ServiceCompleteAuditEvent)
      ensures result == source.result
    {
      result := source.result;
    }

    method Result(result': Str) returns (self: Builder)
      modifies this
      ensures self == this
      ensures result == result'
    {
      result := result';
      self := this;
    }

    /** A new event holding the builder's result; the builder is left as it was. */
    method Build() returns (event: ServiceCompleteAuditEvent)
      ensures fresh(event)
      ensures event.result == result
    {
      event := new ServiceCompleteAuditEvent.FromBuilder(this);
    }
  }

  /** `event.toBuilder().build()`: a distinct event with the same result. */
  method CopyThroughBuilder(event: ServiceCompleteAuditEvent) returns (copy: ServiceCompleteAuditEvent)
    ensures fresh(copy) && copy != event
    ensures copy.Payload() == event.Payload()
  {
    var builder := event.ToBuilder();
    copy := builder.Build();
  }
}
