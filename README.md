# Agones event broadcaster: the event and envelope dispatch path

This Dafny project models the core of the Agones event broadcaster. The broadcaster watches Agones
resources (game servers and fleets) and turns every add, update and delete into an *event*. A
registry keyed by resource kind resolves the watched object to that event. One *broker* then packs
the event into an *envelope* (string headers plus the message) and sends it.

Modules, following the Go packages:

- `Wrappers`, `Errors`: Option and Result values. Go's `error` is its message, and nil is `None`.
  `Errors.Wrap` and `Errors.Errorf` stand for `errors.Wrap` and `fmt.Errorf`.
- `Resources`: the fields of Agones objects that the core reads. An object's reflected type name is
  stored in its `Kind` field.
- `Events` (types.go, message.go): event sources, event types, the message wrapper and the shared
  event shape. Go's `interface{}` payloads become the datatype `Any`.
- `Envelopes` (envelope.go): the envelope and `AddHeader`.
- `Registry` (event.go): the registry is a class whose `factories` map goes from kind to the three
  builders. `ForAdded`, `ForUpdated` and `ForDeleted` are functions that read it.
- `GameServerEvents`, `FleetEvents` (gameserver.go, fleet.go): labels, builders and the `init`
  registrations.
- `Brokers` (broker.go): the broker interface, modelled as a record of its two operations.
- `Stdout`, `PubSub`, `Kafka`: the three shipped brokers. Each remote client is an oracle datatype.
- `HttpBroker` (examples/http): the example broker. It keeps a table of Ready game servers and
  updates it in place from the events it is sent.
- `Broadcast` (broadcaster.go): the `Broadcaster` class, with its builder methods and its three
  watch callbacks.
- `Dispatch`: end-to-end lemmas that connect the callbacks, the registry and each broker.

Behaviour of the code that the model keeps as written, and readings the model takes:

- An unregistered kind makes the resolver return nil. The callback passes that nil to `Publish`,
  which dereferences it. So when a broker is set, "kind registered" is a precondition of the
  callbacks, not a skipped event.
- The "no broker" check is in the three callbacks, not in `Publish`.
- In Kafka, an unset per-source topic defaults to the constant `gameserver.events`. It does not
  fall back to the configured generic topic.
- Pub/Sub always publishes to the fixed topic `gameserver.events`.
- `Build` does not report missing controllers when no error was stored before (see Findings).
  The model's `Build` uses the corrected checks; the behaviour as written is `Broadcast.AfterChecks`.
- The Pub/Sub sender keeps the missing-topic message as written, with the project id and the topic
  id swapped (`PubSub.MissingTopicErrorAsWritten`). The intended text is `PubSub.MissingTopicError`
  (see Findings).
- broadcaster.go calls `events.OnAdded`, `OnUpdated` and `OnDeleted`. The model takes them to be
  the resolvers `ForAdded`, `ForUpdated` and `ForDeleted` of pkg/events/event.go.
- fleet.go's `init` writes the fleet builders into three per-source maps. The model takes these
  writes to be one `RegisterEventFactory` of the fleet builders, the registry the resolvers read.
- pubsub.go:41 passes the event type itself to `AddHeader`, whose parameter is a string. The model
  writes the type's string form, the value the Pub/Sub tests expect in the `event_type` header.
- kafka.go:115 formats the whole topic partition of a failed delivery into its error. The model's
  delivery report carries only the partition error, and the error text is built from that.

## Model

| member | source | states |
|---|---|---|
| Events.EventSource.String | pkg/events/types.go:29-31 | The string form gives back the source it came from. |
| Events.EventType.String | pkg/events/types.go:24-26 | The string form gives back the event type it came from. |
| Events.EventSourcesDistinct | pkg/events/types.go:4-6 | The three sources print as "OnAdd", "OnUpdate" and "OnDelete" and are pairwise distinct. |
| Events.EventTypeStringInjective | pkg/events/types.go:24-26 | Two event types print alike exactly when they are equal. |
| Events.EventMessage.Content | pkg/events/message.go:9-11 | The content rebuilds the message it came from. |
| Events.Event.Content | pkg/events/message.go:4-11 | An event's promoted content is the body of its embedded message. |
| Events.ContentIsStable | pkg/events/message.go:9-11 | Content returns the body unchanged, and a nil body gives nil. |
| Events.EventAccessors | pkg/events/gameserver.go:54-62 | `EventSource()`, `EventType()` and the promoted content give back exactly what the event was built with (fleet.go:58-66 alike). |
| Errors.Errorf | pkg/brokers/pubsub/pubsub.go:62 | The error text is the fixed prefix followed by the cause's text. |
| Errors.Wrap | pkg/broadcaster/broadcaster.go:92 | Wrapping nil gives nil. Otherwise the text is "message: cause". |
| Resources.Zero | pkg/events/gameserver.go:22 | The zero object of a kind has that kind and an empty name and namespace. |
| Envelopes.Envelope.AddHeader | pkg/events/envelope.go:18-25 | The Header is allocated, the key maps to the value, other keys keep their values, the key set grows by this key only, and the message is unchanged. |
| Envelopes.AddHeaderAllocates | pkg/events/envelope.go:19-23 | On an envelope without a Header, the new Header holds exactly the one key. |
| Envelopes.AddHeaderLastWriteWins | pkg/events/envelope.go:24 | Two writes of one key equal the last write, and the key set does not grow. |
| Envelopes.AddHeaderIdempotent | pkg/events/envelope.go:18-25 | Repeating the same AddHeader changes nothing. |
| Envelopes.AddHeaderCommutes | pkg/events/envelope.go:24 | Writes to distinct keys commute. |
| Registry.ZeroValueSharesKind | pkg/events/event.go:67-69 | `ResourceMessageKind` of the zero value an `init` registers with equals that of every object of the kind, so registration and lookup use the same key. |
| Registry.EventFactoryRegistry.constructor | pkg/events/event.go:8-10 | The registry starts empty. |
| Registry.EventFactoryRegistry.RegisterEventFactory | pkg/events/event.go:20-27 | The object's kind maps to the new factory. Every other kind keeps its entry, and its absence stays absence. |
| Registry.EventFactoryRegistry.ForAdded | pkg/events/event.go:29-39 | No event exactly when the content's kind is unregistered. Otherwise the event is that kind's OnAdded applied to the message. |
| Registry.EventFactoryRegistry.ForUpdated | pkg/events/event.go:41-53 | No event exactly when the new object's kind is unregistered. Otherwise the event is that kind's OnUpdated applied to the whole message. |
| Registry.EventFactoryRegistry.ForDeleted | pkg/events/event.go:55-65 | No event exactly when the content's kind is unregistered. Otherwise the event is that kind's OnDeleted applied to the message. |
| Registry.ForUpdatedIgnoresOldObject | pkg/events/event.go:41-53 | Two updates with the same new object resolve alike, whatever their old objects. |
| GameServerEvents.GameServerEventType.String | pkg/events/gameserver.go:65-67 | The string form gives back the label it came from. |
| GameServerEvents.RegisterGameServerEvents | pkg/events/gameserver.go:21-23 | `v1.GameServer` maps to the three game-server builders, and other kinds keep their entries. |
| GameServerEvents.GameServerAdded | pkg/events/gameserver.go:26-32 | The event has source OnAdd, type "gameserver.events.added" and the given message. |
| GameServerEvents.GameServerUpdated | pkg/events/gameserver.go:35-41 | The event has source OnUpdate, type "gameserver.events.updated" and the given message. |
| GameServerEvents.GameServerDeleted | pkg/events/gameserver.go:44-50 | The event has source OnDelete, type "gameserver.events.deleted" and the given message. |
| GameServerEvents.GameServerBuildersDistinct | pkg/events/gameserver.go:26-50 | The three builders never produce the same event, and each gives equal events exactly for equal messages. |
| GameServerEvents.GameServerLabelsDistinct | pkg/events/gameserver.go:6-8 | The three game-server labels are pairwise distinct. |
| GameServerEvents.GameServerKindResolves | pkg/events/event.go:29-65 | After registration, a game server resolves to the game-server event of the matching source, built from the given message. |
| FleetEvents.FleetEventType.String | pkg/events/fleet.go:69-71 | The string form gives back the label it came from. |
| FleetEvents.RegisterFleetEvents | pkg/events/fleet.go:22-27 | `v1.Fleet` maps to the three fleet builders, and other kinds keep their entries. |
| FleetEvents.FleetAdded | pkg/events/fleet.go:30-36 | The event has source OnAdd, type "fleet.events.added" and the given message. |
| FleetEvents.FleetUpdated | pkg/events/fleet.go:39-45 | The event has source OnUpdate, type "fleet.events.updated" and the given message. |
| FleetEvents.FleetDeleted | pkg/events/fleet.go:48-54 | The event has source OnDelete, type "fleet.events.deleted" and the given message. |
| FleetEvents.FleetBuildersDistinct | pkg/events/fleet.go:30-54 | A fleet event never equals the game-server event of the same source, and each fleet builder gives equal events exactly for equal messages. |
| FleetEvents.FleetLabelsDistinct | pkg/events/fleet.go:9-11 | The six fleet and game-server labels are pairwise distinct. |
| FleetEvents.KindsResolveIndependently | pkg/events/event.go:29-65 | With both kinds registered, a fleet resolves to the fleet Added, Updated and Deleted events and a game server to the game-server ones; updates resolve by the new object. |
| Stdout.BuildEnvelope | pkg/brokers/stdout/stdout.go:14-20 | Never fails. The header is exactly `event_type` set to the event's type, and the message is the event's content. |
| Stdout.SendMessage | pkg/brokers/stdout/stdout.go:22-27 | Logging never fails. |
| Stdout.StdoutBroker | pkg/brokers/stdout/stdout.go:14-27 | As a broker, building always succeeds, and every built envelope can be sent without error. |
| PubSub.GetTopicIDFromHeader | pkg/brokers/pubsub/pubsub.go:90-96 | Found exactly when `topic_id` is a key. Then it gives that value; otherwise it gives "". |
| PubSub.MissingTopicError | pkg/brokers/pubsub/pubsub.go:65-67 | The corrected message: "topic ", then the topic id, then " for projectID ", then the project id, then " does not exist". |
| PubSub.MissingTopicErrorAsWritten | pkg/brokers/pubsub/pubsub.go:66 | The message the sender returns is the intended message with the project id and topic id swapped: the project id sits where the topic id belongs. |
| PubSub.MissingTopicMessageSwapsArguments | pkg/brokers/pubsub/pubsub.go:66 | For project "calm-weather-345673" and topic "none", the message as written differs from the intended one. |
| PubSub.PubSubBroker.BuildEnvelope | pkg/brokers/pubsub/pubsub.go:39-48 | Never fails. The header is exactly `event_type`, `project_id` and `topic_id`: the event's type, the configured project and the fixed topic. The message is the content. |
| PubSub.PubSubBroker.SendMessage | pkg/brokers/pubsub/pubsub.go:50-88 | A missing topic header gives the missing-topic error. A topic that does not exist gives the message as written, with project and topic ids swapped. The result is nil exactly when the topic exists, encoding succeeds and the publish succeeds. |
| PubSub.BuiltEnvelopeCarriesTopic | pkg/brokers/pubsub/pubsub.go:39-48 | The sender reads back the fixed topic the builder wrote, and the header has exactly three keys. |
| PubSub.NoPublishWithoutTopic | pkg/brokers/pubsub/pubsub.go:53-67 | Without a topic header, or when the topic does not exist, the send fails, and the result does not depend on the encoder or the publish call. |
| PubSub.AsBrokerCanPublish | pkg/brokers/pubsub/pubsub.go:39-96 | Every envelope the builder produces can be sent without a nil dereference. |
| Kafka.CheckEmpty | pkg/brokers/kafka/kafka.go:129-134 | The result is the source unless the source is empty, and then it is the new value. It is non-empty if either is. |
| Kafka.CheckEmptyIdempotent | pkg/brokers/kafka/kafka.go:129-134 | Defaulting twice equals defaulting once. |
| Kafka.Defaulted | pkg/brokers/kafka/kafka.go:137-142 | Every topic is set afterwards. A set topic is kept, and an empty one becomes "gameserver.events". |
| Kafka.DefaultedIdempotent | pkg/brokers/kafka/kafka.go:137-142 | A second defaulting changes nothing, and a fully set configuration is left alone. |
| Kafka.UnsetSourceTopicIgnoresGeneric | pkg/brokers/kafka/kafka.go:138-141 | Empty per-source topics become the constant default, not the configured generic topic. |
| Kafka.Config.constructor | pkg/brokers/kafka/kafka.go:17-25 | The configuration holds the given topics and credentials. |
| Kafka.Config.ApplyDefaults | pkg/brokers/kafka/kafka.go:137-142 | In place, the topics become their defaulted values and the credentials are unchanged. It is a no-op when every topic is set. |
| Kafka.GetTopicIDFromHeader | pkg/brokers/kafka/kafka.go:120-126 | Found exactly when `kafka_topic_id` is a key. Then it gives that value; otherwise it gives "". |
| Kafka.TopicFor | pkg/brokers/kafka/kafka.go:65-74 | The topic is one of the four configured ones, and it is non-empty once all are set. |
| Kafka.TopicRouting | pkg/brokers/kafka/kafka.go:65-74 | OnAdd, OnUpdate and OnDelete each route to their own topic, and any other source routes to the generic topic. |
| Kafka.NewKafkaBroker | pkg/brokers/kafka/kafka.go:33-51 | Defaults are applied to the caller's configuration first, and its credentials are unchanged. A producer failure gives the "failed to create Producer client" error; otherwise the broker has the defaulted topics. |
| Kafka.KafkaBroker.SetEnvelopeHeader | pkg/brokers/kafka/kafka.go:62-78 | The routed topic and the event type are written, and the other headers and the message are unchanged. |
| Kafka.KafkaBroker.BuildEnvelope | pkg/brokers/kafka/kafka.go:52-60 | Never fails. The headers are exactly the routed topic and the event type, and the message is the content. |
| Kafka.KafkaBroker.Publish | pkg/brokers/kafka/kafka.go:99-118 | Succeeds exactly when encoding succeeds and the delivery report has no partition error. |
| Kafka.KafkaBroker.SendMessage | pkg/brokers/kafka/kafka.go:80-96 | A missing topic header gives the missing-topic error. Otherwise the publish error is returned unchanged, and nil on delivery. |
| Kafka.BuiltEnvelopeCarriesTopic | pkg/brokers/kafka/kafka.go:52-78 | The sender reads back the routed topic the builder wrote, and that topic is non-empty once defaults are applied. |
| Kafka.NoProduceWithoutTopic | pkg/brokers/kafka/kafka.go:80-84 | Without the topic header, the send fails and the result does not depend on the producer. |
| Kafka.AsBrokerCanPublish | pkg/brokers/kafka/kafka.go:52-96 | Every envelope the builder produces can be sent without a nil dereference. |
| HttpBroker.GameServerEntry.Namespaced | examples/http/http_broker.go:197-199 | The key is the record's namespace/name key. |
| HttpBroker.NamespacedKey | examples/http/http_broker.go:197-199 | The key is the namespace, then '/', then the name. |
| HttpBroker.NamespacedKeyInjective | examples/http/http_broker.go:197-199 | For namespaces without '/', distinct namespace/name pairs have distinct keys. |
| HttpBroker.GameServer | examples/http/http_broker.go:180-195 | The record copies the object's fields. The port is the first status port, or 0 when there is none. |
| HttpBroker.Reconciled | examples/http/http_broker.go:146-169 | The server's key is present exactly when it is Ready, and then it holds the converted record. No other key changes. |
| HttpBroker.Dispatched | examples/http/http_broker.go:88-104 | Added and updated events give the table reconciled with the (new) game server. A delete removes its key and keeps every other key and record. Other event types leave the table unchanged. |
| HttpBroker.HTTPBroker.constructor | examples/http/http_broker.go:37-42 | The new broker has the address and an empty table. |
| HttpBroker.HTTPBroker.BuildEnvelope | examples/http/http_broker.go:79-86 | Never fails. The header is exactly `event_type`, and the message is the event itself. |
| HttpBroker.HTTPBroker.AddGameServer | examples/http/http_broker.go:121-128 | The record is stored under its key, replacing any earlier record, and nil is returned. |
| HttpBroker.HTTPBroker.DeleteGameServer | examples/http/http_broker.go:130-136 | The key is removed, and an absent key leaves the table as it was. |
| HttpBroker.HTTPBroker.HandleAdded | examples/http/http_broker.go:146-155 | The table becomes the reconciled table, and nil is returned. |
| HttpBroker.HTTPBroker.HandleUpdated | examples/http/http_broker.go:157-169 | The table is reconciled with the new object of the pair, and nil is returned. |
| HttpBroker.HTTPBroker.HandleDeleted | examples/http/http_broker.go:171-178 | The game server's key is removed whatever its state, and nil is returned. |
| HttpBroker.HTTPBroker.SendMessage | examples/http/http_broker.go:88-104 | The table becomes the dispatched table, and nil is always returned. |
| HttpBroker.BuiltEnvelopeDispatch | examples/http/http_broker.go:79-104 | A built game-server envelope can be sent. Added and updated events reconcile the (new) server, and a deleted event removes its key. |
| HttpBroker.ReconcileLeavesOthers | examples/http/http_broker.go:121-136 | Reconciling one game server leaves every other game server's record as it was. |
| Broadcast.AfterChecks | pkg/broadcaster/broadcaster.go:90-104 | As written, the stored error after the checks is nil exactly when it was nil before. |
| Broadcast.AfterChecksAcceptsMissingRequirements | pkg/broadcaster/broadcaster.go:91-97 | With a manager, no controllers and no earlier error, the checks as written report nothing (and without a manager too). |
| Broadcast.WrapOrNew | pkg/broadcaster/broadcaster.go:92 | Always an error: it wraps an existing error or creates a new one. |
| Broadcast.AfterChecksCorrected | pkg/broadcaster/broadcaster.go:89-104 | The intended checks: nil exactly when no error was stored, a manager exists and at least one controller exists. |
| Broadcast.Broadcaster.constructor | pkg/broadcaster/broadcaster.go:41-65 | A new broadcaster holds the broker and no controllers, and exactly one of the manager and the wrapped "error creating manager". |
| Broadcast.Broadcaster.AddController | pkg/broadcaster/broadcaster.go:188-190 | The controller is appended at the end. |
| Broadcast.Broadcaster.WithWatcherFor | pkg/broadcaster/broadcaster.go:70-87 | With a stored error, nothing changes and the broadcaster is returned. A failed controller creation returns nil and stores nothing. Otherwise the controller is appended. |
| Broadcast.Broadcaster.Build | pkg/broadcaster/broadcaster.go:89-104 | With the correction from Findings, the stored error becomes the checks' result, which is returned. It is nil exactly when no error was stored, a manager exists and at least one controller exists. |
| Broadcast.Broadcaster.Publish | pkg/broadcaster/broadcaster.go:173-186 | A build error is returned and nothing is sent. Otherwise the send's error is returned. Nil exactly when both succeed. |
| Broadcast.Broadcaster.OnAdd | pkg/broadcaster/broadcaster.go:117-130 | No broker gives nil. Otherwise the result is Publish of the Added event resolved from the object. |
| Broadcast.Broadcaster.OnUpdate | pkg/broadcaster/broadcaster.go:133-154 | No broker gives nil. Otherwise the result is Publish of the Updated event resolved from the pair (old, new). |
| Broadcast.Broadcaster.OnDelete | pkg/broadcaster/broadcaster.go:157-170 | No broker gives nil. Otherwise the result is Publish of the Deleted event resolved from the object. |
| Broadcast.UnregisteredKindHasNoEvent | pkg/events/event.go:29-65 | For an unregistered kind, all three resolvers yield no event. |
| Dispatch.InitRegistry | pkg/events/gameserver.go:21-23 | After both `init`s, the registry maps exactly `v1.GameServer` and `v1.Fleet` to their factories. |
| Dispatch.OnAddGameServerThroughStdout | pkg/broadcaster/broadcaster.go:117-130 | An added game server through the log broker publishes without error, with type "gameserver.events.added" and the object as message. |
| Dispatch.OnUpdatePublishesPair | pkg/broadcaster/broadcaster.go:133-154 | An update publishes the game-server Updated event whose content is the ordered pair (old, new). |
| Dispatch.NoBrokerDropsEverything | pkg/broadcaster/broadcaster.go:118-120 | Without a broker, every callback returns nil for any object. |
| Dispatch.OnDeleteToMissingTopic | pkg/brokers/pubsub/pubsub.go:64-67 | A delete through Pub/Sub to a topic that does not exist fails with the missing-topic message as written, the project id in the topic slot. |
| Dispatch.PubSubPublishOutcome | pkg/broadcaster/broadcaster.go:173-186 | Publishing through Pub/Sub succeeds exactly when the fixed topic exists, the envelope encodes and the publish succeeds. |
| Dispatch.KafkaRoutingAfterDefaults | pkg/brokers/kafka/kafka.go:62-78 | With only an on-add topic configured, Added goes there, and Updated and Deleted go to the default topic. |

## Left out

- Envelopes are values: `AddHeader` and Kafka's `SetEnvelopeHeader` return the updated envelope
  instead of writing into a shared envelope. Each envelope is built fresh by `BuildEnvelope` and never
  shared, so the model does not capture aliasing of envelopes.
- JSON encoding (`Envelope.Encode`, `EncodedEnvelope`) is an oracle (`Encoder`). No encode/decode
  round trip is stated.
- The Pub/Sub client, the Kafka producer and its `Events()` channel are oracles. The model does not
  cover a non-message value on that channel, the contexts, or network failures beyond an error
  result.
- Logging (logrus, the stdout broker's output) is left out. The stdout send is modelled by its
  result only.
- Creating the manager, the controllers, the Pub/Sub client and the Kafka producer is not modelled.
  Their outcome is a parameter: `created` in WithWatcherFor, `producer` in NewKafkaBroker, and the
  constructor's `manager`/`error` in Broadcaster.
- `Broadcaster.Start`, the HTTP server (`Start`, `Handler`, `ListGameServer`) and the HTTP broker's
  mutex are concurrency and I/O, and are not modelled.
- The HTTP broker is not packaged as a `Brokers.Broker` value, because its send changes its table.
- KafkaBroker keeps a copy of its configuration's topics, taken after defaults are applied, rather
  than a reference to the Config.
- The stdout, Pub/Sub and Kafka brokers are datatypes, not classes, because their methods never
  update their fields.
- One `Event` datatype stands for both GameServerEvent and FleetEvent. The per-kind label type is
  converted to `EventType` when the event is built. JSON field tags are not modelled.
- pkg/events/events.go (an older copy of the event types) is not part of this model.
- The Kafka AdminClient is embedded but never used on this path, so it is not modelled.
- HttpBroker.NamespacedKeyInjective: stated only for namespaces without '/', which Kubernetes
  namespaces never contain.

## Findings

| source | as written | input that shows it | evidently intended | confidence | as-written member | corrected member |
|---|---|---|---|---|---|---|
| pkg/broadcaster/broadcaster.go:89-104 | Each check wraps the stored error. Wrapping a nil error gives nil, so the checks never create an error. | `New` succeeds, so there is a manager and no stored error; the only WithWatcherFor call fails to create its controller and returns nil without storing that error (broadcaster.go:80-82), as examples/http/main.go:64-66 would meet it. Build then returns nil with no controllers. | Build returns an error when the manager or the controllers are missing (its doc comment says so). | not executed | Broadcast.AfterChecksAcceptsMissingRequirements | Broadcast.AfterChecksCorrected |
| pkg/brokers/pubsub/pubsub.go:66 | The missing-topic message fills its topic slot with the project id and its project slot with the topic id. | ProjectID "calm-weather-345673", topic "none": the message reads "topic calm-weather-345673 for projectID none does not exist". | The topic id in the first slot and the project id in the second. | not executed | PubSub.MissingTopicMessageSwapsArguments | PubSub.MissingTopicError |
