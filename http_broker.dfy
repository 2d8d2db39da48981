/**
 * The example HTTP broker (examples/http/http_broker.go): it keeps an in-memory table of the
 * Ready game servers, keyed "namespace/name", and updates it from the events it is sent.
 */
module HttpBroker {
  import opened Wrappers
  import opened Errors
  import opened Resources
  import opened Events
  import opened Envelopes

  const EventTypeHeaderKey: string := "event_type"

  /** The record the broker keeps and serves: the `gameserver` struct. */
  datatype GameServerEntry = GameServerEntry(
    Name: string,
    Namespace: string,
    Labels: map<string, string>,
    Address: string,
    Port: int32,
    State: string,
    NodeName: string)
  {
    /** The store key "namespace/name". */
    function Namespaced(): (key: string)
      ensures key == NamespacedKey(Namespace, Name)
    {
      Namespace + "/" + Name
    }
  }

  /** `fmt.Sprintf("%s/%s", namespace, name)`. */
  function NamespacedKey(namespace: string, name: string): (key: string)
    ensures |key| == |namespace| + 1 + |name|
    ensures key[..|namespace|] == namespace && key[|namespace|] == '/' && key[|namespace| + 1..] == name
  {
    namespace + "/" + name
  }

  /**
   * Keys of objects with slash-free namespaces (Kubernetes namespaces are DNS labels) identify
   * the object: distinct namespace/name pairs never share a key.
   */
  lemma {:induction false} NamespacedKeyInjective(ns1: string, n1: string, ns2: string, n2: string)
    requires '/' !in ns1 && '/' !in ns2
    requires NamespacedKey(ns1, n1) == NamespacedKey(ns2, n2)
    ensures ns1 == ns2 && n1 == n2
  {
  }

  /**
   * `GameServer(gs)`: copy the name, namespace, labels, address, state and node name; the port
   * is the first status port, or 0 when there is none.
   */
  function GameServer(gs: Resource): (entry: GameServerEntry)
    ensures entry.Name == gs.Name && entry.Namespace == gs.Namespace && entry.Labels == gs.Labels
    ensures entry.Address == gs.Status.Address && entry.State == gs.Status.State
    ensures entry.NodeName == gs.Status.NodeName
    ensures entry.Port == if |gs.Status.Ports| > 0 then gs.Status.Ports[0].Port else 0
    ensures entry.Namespaced() == NamespacedKey(gs.Namespace, gs.Name)
  {
    var port: int32 := if |gs.Status.Ports| > 0 then gs.Status.Ports[0].Port else 0;
    GameServerEntry(gs.Name, gs.Namespace, gs.Labels, gs.Status.Address, port, gs.Status.State, gs.Status.NodeName)
  }

  /**
   * The table after a game server was added or updated: a Ready server is stored under its key
   * (replacing an older record), any other state removes the key; no other key changes.
   */
  function Reconciled(store: map<string, GameServerEntry>, gs: Resource): (r: map<string, GameServerEntry>)
    ensures var key := NamespacedKey(gs.Namespace, gs.Name);
            && (key in r <==> gs.Status.State == GameServerStateReady)
            && (key in r ==> r[key] == GameServer(gs))
            && (forall k :: k != key ==> (k in r <==> k in store))
            && (forall k :: k != key && k in r ==> r[k] == store[k])
  {
    var entry := GameServer(gs);
    if gs.Status.State == GameServerStateReady then store[entry.Namespaced() := entry]
    else store - {entry.Namespaced()}
  }

  /** The `event_type` header, "" when absent (Go's zero value for a missing map key). */
  function EventTypeOf(envelope: Envelope): string
    requires envelope.header.Some?
  {
    var headers := envelope.header.value.headers;
    if EventTypeHeaderKey in headers then headers[EventTypeHeaderKey] else ""
  }

  /** A game-server object as the `*v1.GameServer` type assertion demands. */
  predicate IsGameServer(c: Any) {
    c.Obj? && c.resource.Kind == GameServerKind
  }

  /**
   * What SendMessage needs not to panic: an allocated Header, an event as message, and for the
   * three game-server event types the content shape the handler asserts.
   */
  predicate Deliverable(envelope: Envelope) {
    && envelope.header.Some?
    && envelope.message.Evt?
    && var content := envelope.message.event.Content();
       var eventType := EventTypeOf(envelope);
       && (eventType == "gameserver.events.added" ==> IsGameServer(content))
       && (eventType == "gameserver.events.updated" ==> content.Update? && IsGameServer(content.NewObj))
       && (eventType == "gameserver.events.deleted" ==> IsGameServer(content))
  }

  /**
   * The table after SendMessage: added and updated events reconcile the (new) game server,
   * deleted events remove its key whatever its state, any other event type leaves it as it was.
   */
  function Dispatched(store: map<string, GameServerEntry>, envelope: Envelope): (r: map<string, GameServerEntry>)
    requires Deliverable(envelope)
    ensures !(EventTypeOf(envelope) in {"gameserver.events.added", "gameserver.events.updated", "gameserver.events.deleted"})
            ==> r == store
    ensures EventTypeOf(envelope) == "gameserver.events.added" ==>
              r == Reconciled(store, envelope.message.event.Content().resource)
    ensures EventTypeOf(envelope) == "gameserver.events.updated" ==>
              r == Reconciled(store, envelope.message.event.Content().NewObj.resource)
    ensures EventTypeOf(envelope) == "gameserver.events.deleted" ==>
              var gs := envelope.message.event.Content().resource;
              var key := NamespacedKey(gs.Namespace, gs.Name);
              && key !in r
              && (forall k :: k != key ==> (k in r <==> k in store))
              && (forall k :: k != key && k in r ==> r[k] == store[k])
  {
    var content := envelope.message.event.Content();
    match EventTypeOf(envelope)
    case "gameserver.events.added" => Reconciled(store, content.resource)
    case "gameserver.events.updated" => Reconciled(store, content.NewObj.resource)
    case "gameserver.events.deleted" => store - {NamespacedKey(content.resource.Namespace, content.resource.Name)}
    case _ => store
  }

  class HTTPBroker {
    const addr: string
    var Store: map<string, GameServerEntry>

    /** `NewHTTPBroker(addr)`: an empty table. */
    constructor (addr: string)
      ensures this.addr == addr && Store == map[]
    {
      this.addr := addr;
      Store := map[];
    }

    /** One `event_type` header and the event itself as message; never an error. */
    function BuildEnvelope(event: Event): (r: Result<Envelope, Error>)
      ensures r.Success? && r.value.message == Evt(event)
      ensures r.value.header == Some(Header(map[EventTypeHeaderKey := event.EventType().String()]))
    {
      var envelope := EmptyEnvelope.AddHeader(EventTypeHeaderKey, event.EventType().String());
      Success(envelope.(message := Evt(event)))
    }

    /** Store the record under "namespace/name", replacing any previous one. */
    method AddGameServer(gs: GameServerEntry) returns (err: Option<Error>)
      modifies this
      ensures Store == old(Store)[gs.Namespaced() := gs] && err.None?
    {
      var key := NamespacedKey(gs.Namespace, gs.Name);
      Store := Store[key := gs];
      return None;
    }

    /** Remove `key`; an absent key leaves the table as it was. */
    method DeleteGameServer(key: string)
      modifies this
      ensures Store == old(Store) - {key}
      ensures key !in old(Store) ==> Store == old(Store)
    {
      Store := Store - {key};
    }

    method HandleAdded(gsAgones: Resource) returns (err: Option<Error>)
      requires gsAgones.Kind == GameServerKind
      modifies this
      ensures Store == Reconciled(old(Store), gsAgones) && err.None?
    {
      var gs := GameServer(gsAgones);
      if gsAgones.Status.State == GameServerStateReady {
        err := AddGameServer(gs);
        return;
      }
      DeleteGameServer(gs.Namespaced());
      return None;
    }

    /** The game server is field 1 of the update pair: the new object. */
    method HandleUpdated(message: Any) returns (err: Option<Error>)
      requires message.Update? && IsGameServer(message.NewObj)
      modifies this
      ensures Store == Reconciled(old(Store), message.NewObj.resource) && err.None?
    {
      var gsAgones := message.NewObj.resource;
      var gs := GameServer(gsAgones);
      if gsAgones.Status.State == GameServerStateReady {
        err := AddGameServer(gs);
        return;
      }
      DeleteGameServer(gs.Namespaced());
      return None;
    }

    method HandleDeleted(gsAgones: Resource) returns (err: Option<Error>)
      requires gsAgones.Kind == GameServerKind
      modifies this
      ensures Store == old(Store) - {NamespacedKey(gsAgones.Namespace, gsAgones.Name)} && err.None?
    {
      var key := NamespacedKey(gsAgones.Namespace, gsAgones.Name);
      DeleteGameServer(key);
      return None;
    }

    /** Dispatch on the `event_type` header; every path returns nil. */
    method SendMessage(envelope: Envelope) returns (err: Option<Error>)
      requires Deliverable(envelope)
      modifies this
      ensures Store == Dispatched(old(Store), envelope) && err.None?
    {
      var message := envelope.message.event.Content();
      var eventType := EventTypeOf(envelope);
      match eventType
      case "gameserver.events.added" =>
        err := HandleAdded(message.resource);
      case "gameserver.events.updated" =>
        err := HandleUpdated(message);
      case "gameserver.events.deleted" =>
        err := HandleDeleted(message.resource);
      case _ =>
        err := None;
    }
  }

  /**
   * Building then sending a game-server event: Added and Updated reconcile the game server
   * (the new object for an update), Deleted removes its key.
   */
  lemma BuiltEnvelopeDispatch(h: HTTPBroker, store: map<string, GameServerEntry>, event: Event)
    requires event.EventType().String() in {"gameserver.events.added", "gameserver.events.deleted"} ==> IsGameServer(event.Content())
    requires event.EventType().String() == "gameserver.events.updated" ==>
               event.Content().Update? && IsGameServer(event.Content().NewObj)
    ensures Deliverable(h.BuildEnvelope(event).value)
    ensures event.EventType().String() == "gameserver.events.added" ==>
              Dispatched(store, h.BuildEnvelope(event).value) == Reconciled(store, event.Content().resource)
    ensures event.EventType().String() == "gameserver.events.updated" ==>
              Dispatched(store, h.BuildEnvelope(event).value) == Reconciled(store, event.Content().NewObj.resource)
    ensures event.EventType().String() == "gameserver.events.deleted" ==>
              Dispatched(store, h.BuildEnvelope(event).value) == store - {NamespacedKey(event.Content().resource.Namespace, event.Content().resource.Name)}
  {
  }

  /**
   * Reconciling one game server leaves the record of every other game server (another
   * namespace/name) exactly as it was.
   */
  lemma ReconcileLeavesOthers(store: map<string, GameServerEntry>, gs: Resource, other: Resource)
    requires '/' !in gs.Namespace && '/' !in other.Namespace
    requires (gs.Namespace, gs.Name) != (other.Namespace, other.Name)
    ensures var key := NamespacedKey(other.Namespace, other.Name);
            (key in Reconciled(store, gs) <==> key in store) &&
            (key in store ==> Reconciled(store, gs)[key] == store[key])
  {
    if NamespacedKey(other.Namespace, other.Name) == NamespacedKey(gs.Namespace, gs.Name) {
      NamespacedKeyInjective(other.Namespace, other.Name, gs.Namespace, gs.Name);
    }
  }
}
