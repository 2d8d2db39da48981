/**
 * The dispatch path end to end: the registry as package initialisation leaves it, a watch
 * callback resolving through it, and each adapter building and sending the envelope.
 */
module Dispatch {
  import opened Wrappers
  import opened Errors
  import opened Resources
  import opened Events
  import opened Envelopes
  import opened Registry
  import opened Brokers
  import opened Broadcast
  import opened GameServerEvents
  import opened FleetEvents
  import Stdout
  import PubSub
  import Kafka

  /** Package initialisation: both kinds' `init` registrations on an empty registry. */
  method InitRegistry() returns (registry: EventFactoryRegistry)
    ensures fresh(registry)
    ensures registry.factories == map[GameServerKind := GameServerFactory(), FleetKind := FleetFactory()]
  {
    registry := new EventFactoryRegistry();
    RegisterFleetEvents(registry);
    RegisterGameServerEvents(registry);
  }

  /** The registry state after initialisation. */
  ghost predicate Initialised(registry: EventFactoryRegistry)
    reads registry
  {
    && GameServerKind in registry.factories && registry.factories[GameServerKind] == GameServerFactory()
    && FleetKind in registry.factories && registry.factories[FleetKind] == FleetFactory()
  }

  /**
   * A game server added while the log broker is bound: the publish succeeds, and the logged
   * envelope's `event_type` is "gameserver.events.added" and its message is the object itself.
   */
  lemma OnAddGameServerThroughStdout(b: Broadcaster, registry: EventFactoryRegistry, gs: Resource)
    requires b.broker == Some(Stdout.StdoutBroker())
    requires Initialised(registry) && gs.Kind == GameServerKind
    ensures b.OnAdd(registry, Obj(gs)) == None
    ensures var envelope := Stdout.BuildEnvelope(registry.ForAdded(EventMessage(Obj(gs))).value).value;
            && envelope.Headers()[Stdout.EventTypeHeaderKey] == "gameserver.events.added"
            && envelope.message == Obj(gs)
  {
    GameServerKindResolves(registry, gs, Nil);
  }

  /**
   * An update publishes the game-server Updated event whose content is the ordered pair
   * (oldObj, newObj), resolved by the new object alone.
   */
  lemma OnUpdatePublishesPair(b: Broadcaster, registry: EventFactoryRegistry, oldObj: Any, gs: Resource)
    requires b.broker.Some? && Initialised(registry) && gs.Kind == GameServerKind
    requires CanPublish(b.broker.value, GameServerUpdated(EventMessage(Update(oldObj, Obj(gs)))))
    ensures b.OnUpdate(registry, oldObj, Obj(gs)) == b.Publish(GameServerUpdated(EventMessage(Update(oldObj, Obj(gs)))))
    ensures GameServerUpdated(EventMessage(Update(oldObj, Obj(gs)))).Content() == Update(oldObj, Obj(gs))
  {
    GameServerKindResolves(registry, gs, oldObj);
  }

  /** With no broker bound, every callback returns nil, whatever the object and its kind. */
  lemma NoBrokerDropsEverything(b: Broadcaster, registry: EventFactoryRegistry, obj: Any, oldObj: Any)
    requires b.broker.None?
    ensures b.OnAdd(registry, obj) == None
    ensures b.OnUpdate(registry, oldObj, obj) == None
    ensures b.OnDelete(registry, obj) == None
  {
  }

  /**
   * A game server deleted through the Pub/Sub broker while its topic does not exist: the
   * callback fails with the missing-topic error as the sender writes it (project id in the topic
   * slot) and the publish oracle plays no part.
   */
  lemma OnDeleteToMissingTopic(b: Broadcaster, registry: EventFactoryRegistry, gs: Resource, broker: PubSub.PubSubBroker)
    requires b.broker == Some(broker.AsBroker())
    requires Initialised(registry) && gs.Kind == GameServerKind
    requires broker.client.TopicExists(PubSub.DefaultTopicID) == Success(false)
    ensures b.OnDelete(registry, Obj(gs)) == Some(PubSub.MissingTopicErrorAsWritten(broker.config.ProjectID, PubSub.DefaultTopicID))
  {
    GameServerKindResolves(registry, gs, Nil);
    PubSub.BuiltEnvelopeCarriesTopic(broker, GameServerDeleted(EventMessage(Obj(gs))));
  }

  /**
   * Publishing through the Pub/Sub broker succeeds exactly when the topic exists, the envelope
   * encodes and the blocking publish returns a message id.
   */
  lemma PubSubPublishOutcome(b: Broadcaster, broker: PubSub.PubSubBroker, event: Event)
    requires b.broker == Some(broker.AsBroker())
    ensures CanPublish(broker.AsBroker(), event)
    ensures var envelope := broker.BuildEnvelope(event).value;
            var c := broker.client;
            b.Publish(event).None? <==>
              && c.TopicExists(PubSub.DefaultTopicID) == Success(true)
              && c.Encode(envelope).Success?
              && c.Publish(PubSub.DefaultTopicID, c.Encode(envelope).value).Success?
  {
    PubSub.BuiltEnvelopeCarriesTopic(broker, event);
  }

  /**
   * A Kafka broker configured with only an on-add topic: Added events go to that topic, Updated
   * and Deleted events to the default topic, whatever generic topic is configured.
   */
  lemma KafkaRoutingAfterDefaults(generic: string, producer: Kafka.Producer, m: EventMessage)
    ensures var b := Kafka.KafkaBroker(Kafka.Defaulted(Kafka.Topics(generic, "custom.added", "", "")), producer);
            && Kafka.GetTopicIDFromHeader(b.BuildEnvelope(GameServerAdded(m)).value) == ("custom.added", true)
            && Kafka.GetTopicIDFromHeader(b.BuildEnvelope(GameServerUpdated(m)).value) == (Kafka.DefaultTopicID, true)
            && Kafka.GetTopicIDFromHeader(b.BuildEnvelope(FleetDeleted(m)).value) == (Kafka.DefaultTopicID, true)
  {
    var b := Kafka.KafkaBroker(Kafka.Defaulted(Kafka.Topics(generic, "custom.added", "", "")), producer);
    Kafka.BuiltEnvelopeCarriesTopic(b, GameServerAdded(m));
    Kafka.BuiltEnvelopeCarriesTopic(b, GameServerUpdated(m));
    Kafka.BuiltEnvelopeCarriesTopic(b, FleetDeleted(m));
  }
}
