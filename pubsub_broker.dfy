/**
 * The Pub/Sub broker of pkg/brokers/pubsub/pubsub.go. The Cloud Pub/Sub client is replaced by
 * oracles: whether a topic exists, the JSON encoder, and the result of a blocking publish.
 */
module PubSub {
  import opened Wrappers
  import opened Errors
  import opened Events
  import opened Envelopes
  import opened Brokers

  const EventTypeHeaderKey: string := "event_type"
  const ProjectIDHeaderKey: string := "project_id"
  const TopicIDHeaderKey: string := "topic_id"
  /** The one topic every event is routed to (per-source topics are not configurable). */
  const DefaultTopicID: string := "gameserver.events"

  const TopicIDMissing: string := "topicID is not present on the envelope header"

  datatype Config = Config(ProjectID: string)

  /**
   * The transport: `Topic(id).Exists(ctx)`, `EncodedEnvelope` (json.Marshal) and
   * `Topic(id).Publish(ctx, msg).Get(ctx)`, which blocks until the server assigns a message id.
   */
  datatype Client = Client(
    TopicExists: string -> Result<bool, Error>,
    Encode: Encoder,
    Publish: (string, seq<bv8>) -> Result<string, Error>)

  /**
   * `(topicID, ok)` from the `topic_id` header: present exactly when the key is, whatever the
   * other keys; ("", false) otherwise. The Header must be allocated (Go dereferences it).
   */
  function GetTopicIDFromHeader(envelope: Envelope): (r: (string, bool))
    requires envelope.header.Some?
    ensures r.1 <==> TopicIDHeaderKey in envelope.header.value.headers
    ensures r.1 ==> r.0 == envelope.header.value.headers[TopicIDHeaderKey]
    ensures !r.1 ==> r.0 == ""
  {
    var headers := envelope.header.value.headers;
    if TopicIDHeaderKey in headers then (headers[TopicIDHeaderKey], true) else ("", false)
  }

  /**
   * The error for a topic that does not exist as its format string intends it: the topic, then
   * the project. The sender passes the two values the other way round (MissingTopicErrorAsWritten).
   */
  function MissingTopicError(topicID: string, projectID: string): (e: Error)
    ensures |e.message| == 6 + |topicID| + 15 + |projectID| + 15
    ensures e.message[..6] == "topic " && e.message[6..6 + |topicID|] == topicID
    ensures e.message[6 + |topicID|..6 + |topicID| + 15] == " for projectID "
    ensures e.message[6 + |topicID| + 15..] == projectID + " does not exist"
  {
    Error("topic " + topicID + " for projectID " + projectID + " does not exist")
  }

  /**
   * The error the sender returns for a topic that does not exist: the project id fills the topic
   * slot of the format and the topic id the project slot.
   */
  function MissingTopicErrorAsWritten(projectID: string, topicID: string): (e: Error)
    ensures e == MissingTopicError(projectID, topicID)
    ensures |e.message| >= 6 + |projectID| && e.message[6..6 + |projectID|] == projectID
  {
    Error("topic " + projectID + " for projectID " + topicID + " does not exist")
  }

  /** With distinct ids, the message as written names the project where the topic belongs. */
  lemma MissingTopicMessageSwapsArguments()
    ensures MissingTopicErrorAsWritten("calm-weather-345673", "none") != MissingTopicError("none", "calm-weather-345673")
  {
    assert MissingTopicError("none", "calm-weather-345673").message[6] == 'n';
  }

  datatype PubSubBroker = PubSubBroker(config: Config, client: Client) {

    /**
     * Exactly the headers `event_type`, `project_id` and `topic_id`: the event's type, the
     * configured project and the fixed topic whatever the event's source; the event's content as
     * message; never an error.
     */
    function BuildEnvelope(event: Event): (r: Result<Envelope, Error>)
      ensures r.Success? && r.value.message == event.Content()
      ensures r.value.header == Some(Header(map[EventTypeHeaderKey := event.EventType().String(),
                                                ProjectIDHeaderKey := config.ProjectID,
                                                TopicIDHeaderKey := DefaultTopicID]))
    {
      var envelope := EmptyEnvelope
        .AddHeader(EventTypeHeaderKey, event.EventType().String())
        .AddHeader(ProjectIDHeaderKey, config.ProjectID)
        .AddHeader(TopicIDHeaderKey, DefaultTopicID);
      Success(envelope.(message := event.Content()))
    }

    /**
     * The topic lookup, then the existence check, then encoding, then the blocking publish; the
     * first failure is returned and no later step is taken. Nil exactly when all four succeed.
     * A topic that does not exist gives the missing-topic error with its arguments swapped.
     */
    function SendMessage(envelope: Envelope): (err: Option<Error>)
      requires envelope.header.Some?
      ensures !GetTopicIDFromHeader(envelope).1 ==> err == Some(Error(TopicIDMissing))
      ensures var (topicID, ok) := GetTopicIDFromHeader(envelope);
              ok && client.TopicExists(topicID) == Success(false) ==>
                err == Some(MissingTopicErrorAsWritten(config.ProjectID, topicID))
      ensures err.None? <==>
                var topicID := GetTopicIDFromHeader(envelope).0;
                && GetTopicIDFromHeader(envelope).1
                && client.TopicExists(topicID) == Success(true)
                && client.Encode(envelope).Success?
                && client.Publish(topicID, client.Encode(envelope).value).Success?
    {
      var (topicID, ok) := GetTopicIDFromHeader(envelope);
      if !ok then Some(Error(TopicIDMissing))
      else match client.TopicExists(topicID)
        case Failure(e) => Some(Errorf("could not check if topic exists: ", e.message))
        case Success(false) => Some(MissingTopicErrorAsWritten(config.ProjectID, topicID))
        case Success(true) =>
          match client.Encode(envelope)
          case Failure(e) => Some(Errorf("error encoding envelope: ", e.message))
          case Success(msg) =>
            match client.Publish(topicID, msg)
            case Failure(e) => Some(Errorf("Get: ", e.message))
            case Success(_) => None
    }

    function AsBroker(): Broker {
      Broker(BuildEnvelope, (envelope: Envelope) requires envelope.header.Some? => SendMessage(envelope))
    }
  }

  /** The topic the envelope builder writes is the one the sender reads back. */
  lemma BuiltEnvelopeCarriesTopic(b: PubSubBroker, event: Event)
    ensures b.BuildEnvelope(event).value.header.Some?
    ensures GetTopicIDFromHeader(b.BuildEnvelope(event).value) == (DefaultTopicID, true)
    ensures |b.BuildEnvelope(event).value.header.value.headers| == 3
  {
    var h := b.BuildEnvelope(event).value.header.value.headers;
    assert h.Keys == {EventTypeHeaderKey, ProjectIDHeaderKey, TopicIDHeaderKey};
    assert EventTypeHeaderKey != ProjectIDHeaderKey && ProjectIDHeaderKey != TopicIDHeaderKey;
    assert EventTypeHeaderKey != TopicIDHeaderKey;
  }

  /**
   * When the topic is missing from the header or does not exist, the result does not depend on
   * the encoder or the publish call: nothing is encoded and nothing is published.
   */
  lemma NoPublishWithoutTopic(config: Config, c1: Client, c2: Client, envelope: Envelope)
    requires envelope.header.Some?
    requires c1.TopicExists == c2.TopicExists
    requires var (topicID, ok) := GetTopicIDFromHeader(envelope);
             !ok || c1.TopicExists(topicID) != Success(true)
    ensures PubSubBroker(config, c1).SendMessage(envelope) == PubSubBroker(config, c2).SendMessage(envelope)
    ensures PubSubBroker(config, c1).SendMessage(envelope).Some?
  {
  }

  /** The sender accepts every envelope the builder produces. */
  lemma AsBrokerCanPublish(b: PubSubBroker, event: Event)
    ensures CanPublish(b.AsBroker(), event)
    ensures b.AsBroker().BuildEnvelope(event) == b.BuildEnvelope(event)
  {
  }
}
