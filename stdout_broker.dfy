/** The log-only broker of pkg/brokers/stdout/stdout.go. */
module Stdout {
  import opened Wrappers
  import opened Errors
  import opened Events
  import opened Envelopes
  import opened Brokers

  const EventTypeHeaderKey: string := "event_type"

  /**
   * One `event_type` header holding the event type's string, the event's content as message,
   * and never an error.
   */
  function BuildEnvelope(event: Event): (r: Result<Envelope, Error>)
    ensures r.Success?
    ensures r.value.header == Some(Header(map[EventTypeHeaderKey := event.EventType().String()]))
    ensures r.value.message == event.Content()
  {
    var envelope := EmptyEnvelope.AddHeader(EventTypeHeaderKey, event.EventType().String());
    Success(envelope.(message := event.Content()))
  }

  /** Writing the encoded envelope to the log always succeeds; the envelope is only read. */
  function SendMessage(envelope: Envelope): (err: Option<Error>)
    ensures err.None?
  {
    None
  }

  function StdoutBroker(): (b: Broker)
    ensures forall e :: b.BuildEnvelope(e).Success? && CanPublish(b, e)
    ensures forall env :: b.SendMessage.requires(env) && b.SendMessage(env).None?
  {
    Broker(BuildEnvelope, SendMessage)
  }
}
