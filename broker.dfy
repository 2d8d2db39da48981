/**
 * The broker contract (pkg/brokers/broker.go): build an envelope for an event, then send it.
 * A broker is the pair of its two operations. Sending may be undefined on some envelopes (the
 * topic-routed adapters dereference the Header), hence the partial arrow.
 */
module Brokers {
  import opened Wrappers
  import opened Errors
  import opened Events
  import opened Envelopes

  datatype Broker = Broker(
    BuildEnvelope: Event -> Result<Envelope, Error>,
    SendMessage: Envelope --> Option<Error>)

  /** Publishing `event` through `b` cannot panic: whatever envelope is built can be sent. */
  ghost predicate CanPublish(b: Broker, event: Event) {
    b.BuildEnvelope(event).Success? ==> b.SendMessage.requires(b.BuildEnvelope(event).value)
  }
}
