/** Game-server events (pkg/events/gameserver.go): three labels, three builders, one registration. */
module GameServerEvents {
  import opened Wrappers
  import opened Resources
  import opened Events
  import opened Registry

  datatype GameServerEventType = GameServerEventType(text: string) {
    function String(): (s: string)
      ensures GameServerEventType(s) == this
    {
      text
    }
  }

  const GameServerEventAdded: GameServerEventType := GameServerEventType("gameserver.events.added")
  const GameServerEventUpdated: GameServerEventType := GameServerEventType("gameserver.events.updated")
  const GameServerEventDeleted: GameServerEventType := GameServerEventType("gameserver.events.deleted")

  /** The Added event: source OnAdd, the "gameserver.events.added" label and the message as given. */
  function GameServerAdded(message: EventMessage): (e: Event)
    ensures e.EventSource() == EventSourceOnAdd && e.EventType().String() == GameServerEventAdded.String()
    ensures e.Message == message && e.Content() == message.Body
  {
    Event(EventSourceOnAdd, EventType(GameServerEventAdded.text), message)
  }

  /** The Updated event: source OnUpdate, the "gameserver.events.updated" label, the message as given. */
  function GameServerUpdated(message: EventMessage): (e: Event)
    ensures e.EventSource() == EventSourceOnUpdate && e.EventType().String() == GameServerEventUpdated.String()
    ensures e.Message == message && e.Content() == message.Body
  {
    Event(EventSourceOnUpdate, EventType(GameServerEventUpdated.text), message)
  }

  /** The Deleted event: source OnDelete, the "gameserver.events.deleted" label, the message as given. */
  function GameServerDeleted(message: EventMessage): (e: Event)
    ensures e.EventSource() == EventSourceOnDelete && e.EventType().String() == GameServerEventDeleted.String()
    ensures e.Message == message && e.Content() == message.Body
  {
    Event(EventSourceOnDelete, EventType(GameServerEventDeleted.text), message)
  }

  /** The factory `init` registers for `v1.GameServer`. */
  function GameServerFactory(): EventFactory {
    EventFactory(GameServerAdded, GameServerUpdated, GameServerDeleted)
  }

  /** `init`: register the game-server builders under the `v1.GameServer` kind. */
  method RegisterGameServerEvents(registry: EventFactoryRegistry)
    modifies registry
    ensures registry.factories == old(registry.factories)[GameServerKind := GameServerFactory()]
  {
    registry.RegisterEventFactory(Zero(GameServerKind), GameServerAdded, GameServerUpdated, GameServerDeleted);
  }

  /**
   * An event tells which builder made it and from which message: the three builders never
   * produce the same event, and each one gives equal events only for equal messages.
   */
  lemma GameServerBuildersDistinct(m1: EventMessage, m2: EventMessage)
    ensures GameServerAdded(m1) != GameServerUpdated(m2)
    ensures GameServerAdded(m1) != GameServerDeleted(m2)
    ensures GameServerUpdated(m1) != GameServerDeleted(m2)
    ensures GameServerAdded(m1) == GameServerAdded(m2) <==> m1 == m2
    ensures GameServerUpdated(m1) == GameServerUpdated(m2) <==> m1 == m2
    ensures GameServerDeleted(m1) == GameServerDeleted(m2) <==> m1 == m2
  {
    EventSourcesDistinct();
  }

  /** The three game-server labels are pairwise distinct. */
  lemma GameServerLabelsDistinct()
    ensures GameServerEventAdded != GameServerEventUpdated
    ensures GameServerEventAdded != GameServerEventDeleted
    ensures GameServerEventUpdated != GameServerEventDeleted
  {
    assert GameServerEventUpdated.text[18] == 'u' && GameServerEventDeleted.text[18] == 'd';
  }

  /**
   * Once the game-server factory is registered, a game-server object resolves to the game-server
   * event of the matching source, built from the very message given.
   */
  lemma GameServerKindResolves(registry: EventFactoryRegistry, gs: Resource, previous: Any)
    requires GameServerKind in registry.factories && registry.factories[GameServerKind] == GameServerFactory()
    requires gs.Kind == GameServerKind
    ensures registry.ForAdded(EventMessage(Obj(gs))) == Some(GameServerAdded(EventMessage(Obj(gs))))
    ensures registry.ForUpdated(EventMessage(Update(previous, Obj(gs))))
            == Some(GameServerUpdated(EventMessage(Update(previous, Obj(gs)))))
    ensures registry.ForDeleted(EventMessage(Obj(gs))) == Some(GameServerDeleted(EventMessage(Obj(gs))))
  {
  }
}
