/**
 * `ServiceStartedAuditEvent`: the audit record of a service start, with its
 * mutable fields, setters and fluent Builder. The fields inherited from the
 * `AuditEvent` base class (id, invocation context, creation time) are not
 * part of this module.
 */
module ServiceStartedEvents {
  import opened Wrappers
  import opened AuditModel

  /** The discriminator value of this entity. */
  const EVENT_TYPE: string := "SERVICE_STARTED"

  class ServiceStartedAuditEvent {
    var systemMessage: Str
    var userMessage: Str

    /** The no-argument constructor the persistence layer uses: both fields null. */
    constructor Empty()
      ensures systemMessage == None && userMessage == None
    {
      systemMessage := None;
      userMessage := None;
    }

    /** The private constructor behind `Builder.Build`: copies the builder's fields. */
    constructor FromBuilder(builder: Builder)
      ensures systemMessage == builder.systemMessage && userMessage == builder.userMessage
    {
      systemMessage := builder.systemMessage;
      userMessage := builder.userMessage;
    }

    /** Always SERVICE_STARTED, whose discriminator is this entity's EVENT_TYPE. */
    function GetEventType(): (t: AuditEventType)
      reads this
      ensures Discriminator(t) == EVENT_TYPE
      ensures t == Payload().EventType()
    {
      SERVICE_STARTED
    }

    /** This event's fields as a payload of the event union. */
    function Payload(): AuditPayload
      reads this
    {
      ServiceStarted(systemMessage, userMessage)
    }

    method SetSystemMessage(systemMessage': Str)
      modifies this
      ensures systemMessage == systemMessage' && userMessage == old(userMessage)
    {
      systemMessage := systemMessage';
    }

    method SetUserMessage(userMessage': Str)
      modifies this
      ensures userMessage == userMessage' && systemMessage == old(systemMessage)
    {
      userMessage := userMessage';
    }

    /** A new builder holding a copy of this event's fields. */
    method ToBuilder() returns (builder: Builder)
      ensures fresh(builder)
      ensures builder.systemMessage == systemMessage && builder.userMessage == userMessage
    {
      builder := new Builder.FromEvent(this);
    }
  }

  class Builder {
    var systemMessage: Str
    var userMessage: Str

    /** `ServiceStartedAuditEvent.builder()`: a builder with both fields null. */
    constructor ()
      ensures systemMessage == None && userMessage == None
    {
      systemMessage := None;
      userMessage := None;
    }

    /** The builder `toBuilder()` creates from an existing event. */
    constructor FromEvent(source: ServiceStartedAuditEvent)
      ensures systemMessage == source.systemMessage && userMessage == source.userMessage
    {
      systemMessage := source.systemMessage;
      userMessage := source.userMessage;
    }

    method SystemMessage(systemMessage': Str) returns (self: Builder)
      modifies this
      ensures self == this
      ensures systemMessage == systemMessage' && userMessage == old(userMessage)
    {
      systemMessage := systemMessage';
      self := this;
    }

    method UserMessage(userMessage': Str) returns (self: Builder)
      modifies this
      ensures self == this
      ensures userMessage == userMessage' && systemMessage == old(systemMessage)
    {
      userMessage := userMessage';
      self := this;
    }

    /** A new event holding the builder's fields; the builder is left as it was. */
    method Build() returns (event: ServiceStartedAuditEvent)
      ensures fresh(event)
      ensures event.systemMessage == systemMessage && event.userMessage == userMessage
    {
      event := new ServiceStartedAuditEvent.FromBuilder(this);
    }
  }

  /** `event.toBuilder().build()`: a distinct event with the same fields. */
  method CopyThroughBuilder(event: ServiceStartedAuditEvent) returns (copy: ServiceStartedAuditEvent)
    ensures fresh(copy) && copy != event
    ensures copy.Payload() == event.Payload()
  {
    var builder := event.ToBuilder();
    copy := builder.Build();
  }
}
