/**
 * `ServiceErrorAuditEvent`: the audit record of a failed service call, with
 * its mutable fields, setters and fluent Builder. The fields inherited from
 * the `AuditEvent` base class are not part of this module.
 */
module ServiceErrorEvents {
  import opened Wrappers
  import opened AuditModel

  /** The discriminator value of this entity. */
  const EVENT_TYPE: string := "SERVICE_ERROR"

  class ServiceErrorAuditEvent {
    var errorMessage: Str
    var causeErrorMessage: Str

    /** The no-argument constructor the persistence layer uses: both fields null. */
    constructor Empty()
      ensures errorMessage == None && causeErrorMessage == None
    {
      errorMessage := None;
      causeErrorMessage := None;
    }

    /** The private constructor behind `Builder.Build`: copies the builder's fields. */
    constructor FromBuilder(builder: Builder)
      ensures errorMessage == builder.errorMessage && causeErrorMessage == builder.causeErrorMessage
    {
      errorMessage := builder.errorMessage;
      causeErrorMessage := builder.causeErrorMessage;
    }

    /** Always SERVICE_ERROR, whose discriminator is this entity's EVENT_TYPE. */
    function GetEventType(): (t: AuditEventType)
      reads this
      ensures Discriminator(t) == EVENT_TYPE
      ensures t == Payload().EventType()
    {
      SERVICE_ERROR
    }

    /** This event's fields as a payload of the event union. */
    function Payload(): AuditPayload
      reads this
    {
      ServiceError(errorMessage, causeErrorMessage)
    }

    method SetErrorMessage(errorMessage': Str)
      modifies this
      ensures errorMessage == errorMessage' && causeErrorMessage == old(causeErrorMessage)
    {
      errorMessage := errorMessage';
    }

    method SetCauseErrorMessage(causeErrorMessage': Str)
      modifies this
      ensures causeErrorMessage == causeErrorMessage' && errorMessage == old(errorMessage)
    {
      causeErrorMessage := causeErrorMessage';
    }

    /** A new builder holding a copy of this event's fields. */
    method ToBuilder() returns (builder: Builder)
      ensures fresh(builder)
      ensures builder.errorMessage == errorMessage && builder.causeErrorMessage == causeErrorMessage
    {
      builder := new Builder.FromEvent(this);
    }
  }

  class Builder {
    var errorMessage: Str
    var causeErrorMessage: Str

    /** `ServiceErrorAuditEvent.builder()`: a builder with both fields null. */
    constructor ()
      ensures errorMessage == None && causeErrorMessage == None
    {
      errorMessage := None;
      causeErrorMessage := None;
    }

    /** The builder `toBuilder()` creates from an existing event. */
    constructor FromEvent(source: ServiceErrorAuditEvent)
      ensures errorMessage == source.errorMessage && causeErrorMessage == source.causeErrorMessage
    {
      errorMessage := source.errorMessage;
      causeErrorMessage := source.causeErrorMessage;
    }

    method ErrorMessage(errorMessage': Str) returns (self: Builder)
      modifies this
      ensures self == this
      ensures errorMessage == errorMessage' && causeErrorMessage == old(causeErrorMessage)
    {
      errorMessage := errorMessage';
      self := this;
    }

    method CauseErrorMessage(causeErrorMessage': Str) returns (self: Builder)
      modifies this
      ensures self == this
      ensures causeErrorMessage == causeErrorMessage' && errorMessage == old(errorMessage)
    {
      causeErrorMessage := causeErrorMessage';
      self := this;
    }

    /** A new event holding the builder's fields; the builder is left as it was. */
    method Build() returns (event: ServiceErrorAuditEvent)
      ensures fresh(event)
      ensures event.errorMessage == errorMessage && event.causeErrorMessage == causeErrorMessage
    {
      event := new ServiceErrorAuditEvent.FromBuilder(this);
    }
  }

  /** `event.toBuilder().build()`: a distinct event with the same fields. */
  method CopyThroughBuilder(event: ServiceErrorAuditEvent) returns (copy: ServiceErrorAuditEvent)
    ensures fresh(copy) && copy != event
    ensures copy.Payload() == event.Payload()
  {
    var builder := event.ToBuilder();
    copy := builder.Build();
  }
}
