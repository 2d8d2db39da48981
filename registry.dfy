/**
 * The kind -> factory registry of pkg/events/event.go. Go keeps it in a package-level map that
 * each resource kind's `init` writes; here it is an object handed to the kinds' registration
 * methods and read by the three resolvers.
 */
module Registry {
  import opened Wrappers
  import opened Resources
  import opened Events

  /** `EventBuilder func(message Message) Event`. */
  type EventBuilder = EventMessage -> Event

  /** The three builders registered for one kind. */
  datatype EventFactory = EventFactory(OnAdded: EventBuilder, OnUpdated: EventBuilder, OnDeleted: EventBuilder)

  /** The type name of an object, the registry key. */
  function ResourceMessageKind(obj: Resource): string {
    obj.Kind
  }

  /**
   * `init` registers a kind through its zero value `&T{}`; every object of that kind looks up the
   * very key the registration wrote.
   */
  lemma ZeroValueSharesKind(obj: Resource)
    ensures ResourceMessageKind(Zero(obj.Kind)) == ResourceMessageKind(obj)
  {
  }

  /** Content the Added and Deleted resolvers accept: `c.(runtime.Object)` must not panic. */
  predicate IsObject(c: Any) {
    c.Obj?
  }

  /** Content the Updated resolver accepts: field 1 of the pair must be an object. */
  predicate IsUpdatePair(c: Any) {
    c.Update? && c.NewObj.Obj?
  }

  /** The kind an Updated message resolves by: that of the new object, never the old one. */
  function UpdatedKind(c: Any): string
    requires IsUpdatePair(c)
  {
    ResourceMessageKind(c.NewObj.resource)
  }

  class EventFactoryRegistry {
    var factories: map<string, EventFactory>

    constructor ()
      ensures factories == map[]
    {
      factories := map[];
    }

    /**
     * Store the three builders under the object's kind. A later registration of the same kind
     * replaces the earlier one; every other kind keeps its factory.
     */
    method RegisterEventFactory(obj: Resource, onAdded: EventBuilder, onUpdated: EventBuilder, onDeleted: EventBuilder)
      modifies this
      ensures factories == old(factories)[ResourceMessageKind(obj) := EventFactory(onAdded, onUpdated, onDeleted)]
      ensures forall k :: k != ResourceMessageKind(obj) ==> (k in factories <==> k in old(factories))
      ensures forall k :: k in old(factories) && k != ResourceMessageKind(obj) ==> factories[k] == old(factories)[k]
    {
      var kind := ResourceMessageKind(obj);
      factories := factories[kind := EventFactory(onAdded, onUpdated, onDeleted)];
    }

    /**
     * Resolve an Added message: the factory of the content's kind builds the event; an
     * unregistered kind yields no event rather than an error.
     */
    function ForAdded(message: EventMessage): (e: Option<Event>)
      reads this
      requires IsObject(message.Content())
      ensures e.None? <==> ResourceMessageKind(message.Content().resource) !in factories
      ensures e.Some? ==> e.value == factories[ResourceMessageKind(message.Content().resource)].OnAdded(message)
    {
      var kind := ResourceMessageKind(message.Content().resource);
      if kind !in factories then None else Some(factories[kind].OnAdded(message))
    }

    /**
     * Resolve an Updated message by the kind of the new object (the pair's second field), with
     * that kind's OnUpdated builder.
     */
    function ForUpdated(message: EventMessage): (e: Option<Event>)
      reads this
      requires IsUpdatePair(message.Content())
      ensures e.None? <==> UpdatedKind(message.Content()) !in factories
      ensures e.Some? ==> e.value == factories[UpdatedKind(message.Content())].OnUpdated(message)
    {
      var kind := ResourceMessageKind(message.Content().NewObj.resource);
      if kind !in factories then None else Some(factories[kind].OnUpdated(message))
    }

    /** Resolve a Deleted message with the OnDeleted builder of the content's kind. */
    function ForDeleted(message: EventMessage): (e: Option<Event>)
      reads this
      requires IsObject(message.Content())
      ensures e.None? <==> ResourceMessageKind(message.Content().resource) !in factories
      ensures e.Some? ==> e.value == factories[ResourceMessageKind(message.Content().resource)].OnDeleted(message)
    {
      var kind := ResourceMessageKind(message.Content().resource);
      if kind !in factories then None else Some(factories[kind].OnDeleted(message))
    }
  }

  /**
   * The old object plays no part in resolving an update: two updates with the same new object
   * resolve alike, each event built from its own message.
   */
  lemma ForUpdatedIgnoresOldObject(registry: EventFactoryRegistry, old1: Any, old2: Any, newObj: Resource)
    ensures var m1 := EventMessage(Update(old1, Obj(newObj)));
            var m2 := EventMessage(Update(old2, Obj(newObj)));
            && (registry.ForUpdated(m1).Some? <==> registry.ForUpdated(m2).Some?)
            && (registry.ForUpdated(m1).Some? ==>
                  registry.ForUpdated(m1).value == registry.factories[newObj.Kind].OnUpdated(m1) &&
                  registry.ForUpdated(m2).value == registry.factories[newObj.Kind].OnUpdated(m2))
  {
  }
}
