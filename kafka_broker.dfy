/**
 * The Kafka broker of pkg/brokers/kafka/kafka.go: per-source topic routing read from a Config
 * whose unset topics are defaulted in place at construction. The producer is an oracle: the
 * JSON encoder, and the delivery report that `Produce` followed by the wait on `Events()` yields.
 */
module Kafka {
  import opened Wrappers
  import opened Errors
  import opened Events
  import opened Envelopes
  import opened Brokers

  const TopicIDHeaderKey: string := "kafka_topic_id"
  const EventTypeHeaderKey: string := "kafka_event_type"
  const DefaultTopicID: string := "gameserver.events"

  const TopicIDMissing: string := "topicID is not present on the envelope header"

  /** `source` unless it is empty, in which case `newValue`. */
  function CheckEmpty(source: string, newValue: string): (r: string)
    ensures r == newValue || r == source
    ensures r == source <==> (source != "" || newValue == "")
    ensures r != "" <==> (source != "" || newValue != "")
  {
    if source == "" then newValue else source
  }

  /** Defaulting twice is defaulting once. */
  lemma CheckEmptyIdempotent(source: string, newValue: string)
    ensures CheckEmpty(CheckEmpty(source, newValue), newValue) == CheckEmpty(source, newValue)
  {
  }

  /** The four topic fields of a Config. */
  datatype Topics = Topics(Generic: string, OnAdd: string, OnUpdate: string, OnDelete: string)

  /** Every topic field is set, as ApplyDefaults leaves them. */
  predicate AllSet(t: Topics) {
    t.Generic != "" && t.OnAdd != "" && t.OnUpdate != "" && t.OnDelete != ""
  }

  /** `after` is `before` when that was set, the default topic when it was empty. */
  predicate FilledFrom(before: string, after: string) {
    (before == "" ==> after == DefaultTopicID) && (before != "" ==> after == before)
  }

  /** The topics after ApplyDefaults: each empty field becomes the constant default topic. */
  function Defaulted(t: Topics): (d: Topics)
    ensures AllSet(d)
    ensures FilledFrom(t.Generic, d.Generic) && FilledFrom(t.OnAdd, d.OnAdd)
    ensures FilledFrom(t.OnUpdate, d.OnUpdate) && FilledFrom(t.OnDelete, d.OnDelete)
  {
    Topics(CheckEmpty(t.Generic, DefaultTopicID), CheckEmpty(t.OnAdd, DefaultTopicID),
           CheckEmpty(t.OnUpdate, DefaultTopicID), CheckEmpty(t.OnDelete, DefaultTopicID))
  }

  /** A second ApplyDefaults changes nothing; a fully set Config is left as it is. */
  lemma DefaultedIdempotent(t: Topics)
    ensures Defaulted(Defaulted(t)) == Defaulted(t)
    ensures AllSet(t) ==> Defaulted(t) == t
  {
  }

  /**
   * An unset per-source topic falls back to the constant "gameserver.events", not to a
   * configured generic topic.
   */
  lemma UnsetSourceTopicIgnoresGeneric(generic: string)
    ensures Defaulted(Topics(generic, "", "", "")) == Topics(CheckEmpty(generic, DefaultTopicID), DefaultTopicID, DefaultTopicID, DefaultTopicID)
  {
  }

  class Config {
    var GenericTopicID: string
    var OnAddTopicID: string
    var OnUpdateTopicID: string
    var OnDeleteTopicID: string
    var APIKey: string
    var APISecret: string
    var BootstrapServers: string

    constructor (topics: Topics, apiKey: string, apiSecret: string, bootstrapServers: string)
      ensures TopicFields() == topics
      ensures APIKey == apiKey && APISecret == apiSecret && BootstrapServers == bootstrapServers
    {
      GenericTopicID, OnAddTopicID, OnUpdateTopicID, OnDeleteTopicID := topics.Generic, topics.OnAdd, topics.OnUpdate, topics.OnDelete;
      APIKey, APISecret, BootstrapServers := apiKey, apiSecret, bootstrapServers;
    }

    function TopicFields(): Topics
      reads this
    {
      Topics(GenericTopicID, OnAddTopicID, OnUpdateTopicID, OnDeleteTopicID)
    }

    /**
     * Replace each empty topic field with the default topic; non-empty topics and the
     * credentials stay as they were. Afterwards no topic is empty, and a second call is a no-op.
     */
    method ApplyDefaults()
      modifies this
      ensures TopicFields() == Defaulted(old(TopicFields())) && AllSet(TopicFields())
      ensures APIKey == old(APIKey) && APISecret == old(APISecret) && BootstrapServers == old(BootstrapServers)
      ensures AllSet(old(TopicFields())) ==> TopicFields() == old(TopicFields())
    {
      GenericTopicID := CheckEmpty(GenericTopicID, DefaultTopicID);
      OnAddTopicID := CheckEmpty(OnAddTopicID, DefaultTopicID);
      OnUpdateTopicID := CheckEmpty(OnUpdateTopicID, DefaultTopicID);
      OnDeleteTopicID := CheckEmpty(OnDeleteTopicID, DefaultTopicID);
      DefaultedIdempotent(old(TopicFields()));
    }
  }

  /** The delivery report read back from the producer's event channel. */
  datatype DeliveryReport = DeliveryReport(Key: string, PartitionError: Option<string>)

  datatype Producer = Producer(Encode: Encoder, Produce: (string, seq<bv8>) -> DeliveryReport)

  /** `(topicID, ok)` from the `kafka_topic_id` header; the Header must be allocated. */
  function GetTopicIDFromHeader(envelope: Envelope): (r: (string, bool))
    requires envelope.header.Some?
    ensures r.1 <==> TopicIDHeaderKey in envelope.header.value.headers
    ensures r.1 ==> r.0 == envelope.header.value.headers[TopicIDHeaderKey]
    ensures !r.1 ==> r.0 == ""
  {
    var headers := envelope.header.value.headers;
    if TopicIDHeaderKey in headers then (headers[TopicIDHeaderKey], true) else ("", false)
  }

  /** The topic a source routes to: its own topic for the three known sources, else the generic one. */
  function TopicFor(topics: Topics, source: EventSource): (topic: string)
    ensures topic in {topics.Generic, topics.OnAdd, topics.OnUpdate, topics.OnDelete}
    ensures AllSet(topics) ==> topic != ""
  {
    if source == EventSourceOnAdd then topics.OnAdd
    else if source == EventSourceOnUpdate then topics.OnUpdate
    else if source == EventSourceOnDelete then topics.OnDelete
    else topics.Generic
  }

  /** The routing table: each known source to its own topic, any other source to the generic one. */
  lemma TopicRouting(topics: Topics, source: EventSource)
    ensures TopicFor(topics, EventSourceOnAdd) == topics.OnAdd
    ensures TopicFor(topics, EventSourceOnUpdate) == topics.OnUpdate
    ensures TopicFor(topics, EventSourceOnDelete) == topics.OnDelete
    ensures source !in {EventSourceOnAdd, EventSourceOnUpdate, EventSourceOnDelete} ==> TopicFor(topics, source) == topics.Generic
  {
    EventSourcesDistinct();
  }

  /** `NewKafkaBroker`: defaults are applied to the caller's Config before the broker reads it. */
  method NewKafkaBroker(config: Config, producer: Result<Producer, Error>) returns (r: Result<KafkaBroker, Error>)
    modifies config
    ensures config.TopicFields() == Defaulted(old(config.TopicFields()))
    ensures config.APIKey == old(config.APIKey) && config.APISecret == old(config.APISecret)
    ensures config.BootstrapServers == old(config.BootstrapServers)
    ensures producer.Failure? ==> r == Failure(Errorf("failed to create Producer client: ", producer.error.message + "\n"))
    ensures producer.Success? ==> r == Success(KafkaBroker(config.TopicFields(), producer.value))
  {
    config.ApplyDefaults();
    if producer.Failure? {
      return Failure(Errorf("failed to create Producer client: ", producer.error.message + "\n"));
    }
    r := Success(KafkaBroker(config.TopicFields(), producer.value));
  }

  /** A broker with the topics of its (defaulted) Config and its producer. */
  datatype KafkaBroker = KafkaBroker(topics: Topics, producer: Producer) {

    /**
     * Write `kafka_topic_id` (chosen by the event's source) and `kafka_event_type`; every other
     * header and the message stay as they were.
     */
    function SetEnvelopeHeader(event: Event, envelope: Envelope): (e: Envelope)
      ensures e.header.Some? && e.message == envelope.message
      ensures e.Headers() == envelope.Headers()[TopicIDHeaderKey := TopicFor(topics, event.EventSource())]
                                               [EventTypeHeaderKey := event.EventType().String()]
    {
      var topicID := TopicFor(topics, event.EventSource());
      envelope.AddHeader(TopicIDHeaderKey, topicID).AddHeader(EventTypeHeaderKey, event.EventType().String())
    }

    function BuildEnvelope(event: Event): (r: Result<Envelope, Error>)
      ensures r.Success? && r.value.header.Some? && r.value.message == event.Content()
      ensures r.value.Headers() == map[TopicIDHeaderKey := TopicFor(topics, event.EventSource()),
                                       EventTypeHeaderKey := event.EventType().String()]
    {
      Success(SetEnvelopeHeader(event, EmptyEnvelope).(message := event.Content()))
    }

    /** Encode, produce and wait for the delivery report; its key is the message id. */
    function Publish(envelope: Envelope, topicID: string): (r: Result<string, Error>)
      ensures r.Success? <==> producer.Encode(envelope).Success? &&
                              producer.Produce(topicID, producer.Encode(envelope).value).PartitionError.None?
    {
      match producer.Encode(envelope)
      case Failure(e) => Failure(Errorf("error encoding envelope: ", e.message))
      case Success(msg) =>
        var report := producer.Produce(topicID, msg);
        if report.PartitionError.Some? then Failure(Errorf("failed to deliver message: ", report.PartitionError.value + "\n"))
        else Success(report.Key)
    }

    /**
     * Without `kafka_topic_id` the send fails with the missing-topic error and nothing is
     * produced; otherwise the publish error is returned unchanged, nil on delivery.
     */
    function SendMessage(envelope: Envelope): (err: Option<Error>)
      requires envelope.header.Some?
      ensures !GetTopicIDFromHeader(envelope).1 ==> err == Some(Error(TopicIDMissing))
      ensures GetTopicIDFromHeader(envelope).1 ==>
                var published := Publish(envelope, GetTopicIDFromHeader(envelope).0);
                err == (if published.Failure? then Some(published.error) else None)
    {
      var (topicID, ok) := GetTopicIDFromHeader(envelope);
      if !ok then Some(Error(TopicIDMissing))
      else
        match Publish(envelope, topicID)
        case Failure(e) => Some(e)
        case Success(_) => None
    }

    function AsBroker(): Broker {
      Broker(BuildEnvelope, (envelope: Envelope) requires envelope.header.Some? => SendMessage(envelope))
    }
  }

  /** The builder's topic header is the one the sender reads back, and is never empty once defaulted. */
  lemma BuiltEnvelopeCarriesTopic(b: KafkaBroker, event: Event)
    ensures GetTopicIDFromHeader(b.BuildEnvelope(event).value) == (TopicFor(b.topics, event.EventSource()), true)
    ensures AllSet(b.topics) ==> GetTopicIDFromHeader(b.BuildEnvelope(event).value).0 != ""
  {
  }

  /** A send without the topic header never reaches the producer. */
  lemma NoProduceWithoutTopic(topics: Topics, p1: Producer, p2: Producer, envelope: Envelope)
    requires envelope.header.Some? && TopicIDHeaderKey !in envelope.header.value.headers
    ensures KafkaBroker(topics, p1).SendMessage(envelope) == KafkaBroker(topics, p2).SendMessage(envelope)
            == Some(Error(TopicIDMissing))
  {
  }

  lemma AsBrokerCanPublish(b: KafkaBroker, event: Event)
    ensures CanPublish(b.AsBroker(), event)
  {
  }
}
