/**
 * Fleet events (pkg/events/fleet.go). The fleet `init` writes the three builders into three
 * per-source maps; this model treats that as the one registration the game-server kind uses.
 */
module FleetEvents {
  import opened Wrappers
  import opened Resources
  import opened Events
  import opened Registry
  import GameServerEvents

  datatype FleetEventType = FleetEventType(text: string) {
    function String(): (s: string)
      ensures FleetEventType(s) == this
    {
      text
    }
  }

  const FleetEventAdded: FleetEventType := FleetEventType("fleet.events.added")
  const FleetEventUpdated: FleetEventType := FleetEventType("fleet.events.updated")
  const FleetEventDeleted: FleetEventType := FleetEventType("fleet.events.deleted")

  /** The Added event: source OnAdd, the "fleet.events.added" label and the message as given. */
  function FleetAdded(message: EventMessage): (e: Event)
    ensures e.EventSource() == EventSourceOnAdd && e.EventType().String() == FleetEventAdded.String()
    ensures e.Message == message && e.Content() == message.Body
  {
    Event(EventSourceOnAdd, EventType(FleetEventAdded.text), message)
  }

  /** The Updated event: source OnUpdate, the "fleet.events.updated" label, the message as given. */
  function FleetUpdated(message: EventMessage): (e: Event)
    ensures e.EventSource() == EventSourceOnUpdate && e.EventType().String() == FleetEventUpdated.String()
    ensures e.Message == message && e.Content() == message.Body
  {
    Event(EventSourceOnUpdate, EventType(FleetEventUpdated.text), message)
  }

  /** The Deleted event: source OnDelete, the "fleet.events.deleted" label, the message as given. */
  function FleetDeleted(message: EventMessage): (e: Event)
    ensures e.EventSource() == EventSourceOnDelete && e.EventType().String() == FleetEventDeleted.String()
    ensures e.Message == message && e.Content() == message.Body
  {
    Event(EventSourceOnDelete, EventType(FleetEventDeleted.text), message)
  }

  function FleetFactory(): EventFactory {
    EventFactory(FleetAdded, FleetUpdated, FleetDeleted)
  }

  /** `init`: register the fleet builders under the `v1.Fleet` kind. */
  method RegisterFleetEvents(registry: EventFactoryRegistry)
    modifies registry
    ensures registry.factories == old(registry.factories)[FleetKind := FleetFactory()]
  {
    registry.RegisterEventFactory(Zero(FleetKind), FleetAdded, FleetUpdated, FleetDeleted);
  }

  /**
   * A fleet event is never a game-server event of the same source (their labels differ), and
   * each fleet builder gives equal events only for equal messages.
   */
  lemma FleetBuildersDistinct(m1: EventMessage, m2: EventMessage)
    ensures FleetAdded(m1) != GameServerEvents.GameServerAdded(m2)
    ensures FleetUpdated(m1) != GameServerEvents.GameServerUpdated(m2)
    ensures FleetDeleted(m1) != GameServerEvents.GameServerDeleted(m2)
    ensures FleetAdded(m1) == FleetAdded(m2) <==> m1 == m2
    ensures FleetUpdated(m1) == FleetUpdated(m2) <==> m1 == m2
    ensures FleetDeleted(m1) == FleetDeleted(m2) <==> m1 == m2
  {
    FleetLabelsDistinct();
  }

  /**
   * The six labels of the two kinds are pairwise distinct, so an `event_type` header tells the
   * kind and the source apart.
   */
  lemma FleetLabelsDistinct()
    ensures var labels := [FleetEventAdded.String(), FleetEventUpdated.String(), FleetEventDeleted.String(),
                           GameServerEvents.GameServerEventAdded.String(),
                           GameServerEvents.GameServerEventUpdated.String(),
                           GameServerEvents.GameServerEventDeleted.String()];
            forall i, j :: 0 <= i < j < |labels| ==> labels[i] != labels[j]
  {
    GameServerEvents.GameServerLabelsDistinct();
    assert FleetEventUpdated.text[13] == 'u' && FleetEventDeleted.text[13] == 'd';
    assert FleetEventAdded.text[0] == 'f' && GameServerEvents.GameServerEventAdded.text[0] == 'g';
  }

  /**
   * With both kinds registered (in either order), each kind resolves to its own builders, for
   * adds and deletes by the object's kind and for updates by the new object's kind.
   */
  lemma KindsResolveIndependently(registry: EventFactoryRegistry, obj: Resource, previous: Any)
    requires GameServerKind in registry.factories && registry.factories[GameServerKind] == GameServerEvents.GameServerFactory()
    requires FleetKind in registry.factories && registry.factories[FleetKind] == FleetFactory()
    ensures var m := EventMessage(Obj(obj));
            var u := EventMessage(Update(previous, Obj(obj)));
            obj.Kind == FleetKind ==>
              && registry.ForAdded(m) == Some(FleetAdded(m))
              && registry.ForUpdated(u) == Some(FleetUpdated(u))
              && registry.ForDeleted(m) == Some(FleetDeleted(m))
    ensures var m := EventMessage(Obj(obj));
            var u := EventMessage(Update(previous, Obj(obj)));
            obj.Kind == GameServerKind ==>
              && registry.ForAdded(m) == Some(GameServerEvents.GameServerAdded(m))
              && registry.ForUpdated(u) == Some(GameServerEvents.GameServerUpdated(u))
              && registry.ForDeleted(m) == Some(GameServerEvents.GameServerDeleted(m))
  {
  }
}
