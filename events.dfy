/**
 * The event vocabulary of pkg/events: event sources and types (types.go), the message wrapper
 * (message.go) and the shape every concrete event shares (source, type, embedded message).
 */
module Events {
  import opened Resources

  /** Which watch callback produced an event. */
  datatype EventSource = EventSource(text: string) {
    /** The routing label; `String` is the identity on labels. */
    function String(): (s: string)
      ensures EventSource(s) == this
    {
      text
    }
  }

  const EventSourceOnAdd: EventSource := EventSource("OnAdd")
  const EventSourceOnUpdate: EventSource := EventSource("OnUpdate")
  const EventSourceOnDelete: EventSource := EventSource("OnDelete")

  /** The broker-routing label of an event. */
  datatype EventType = EventType(text: string) {
    function String(): (s: string)
      ensures EventType(s) == this
    {
      text
    }
  }

  /**
   * Go's `interface{}` payloads as they occur on the dispatch path: nil, an opaque value (the
   * tests use the string "fakeBody"), a watched object, the anonymous `{OldObj, NewObj}` struct
   * built by OnUpdate, or an event stored as an envelope's message.
   */
  datatype Any =
    | Nil
    | Text(text: string)
    | Obj(resource: Resource)
    | Update(OldObj: Any, NewObj: Any)
    | Evt(event: Event)

  /** `EventMessage{Body}`. */
  datatype EventMessage = EventMessage(Body: Any) {
    /** `Content` hands back the body the message was built with. */
    function Content(): (c: Any)
      ensures EventMessage(c) == this
    {
      Body
    }
  }

  /**
   * The common shape of GameServerEvent and FleetEvent: a source, a type and the embedded
   * message; the per-kind type label is converted to `EventType` when the event is built.
   */
  datatype Event = Event(Source: EventSource, Type: EventType, Message: EventMessage) {
    function EventSource(): EventSource { Source }

    function EventType(): EventType { Type }

    /** The embedded Message's `Content`, promoted onto the event. */
    function Content(): (c: Any)
      ensures c == Message.Body
    {
      Message.Content()
    }
  }

  /** The three sources are pairwise distinct labels, so a switch on source takes one branch. */
  lemma EventSourcesDistinct()
    ensures EventSourceOnAdd.String() == "OnAdd"
    ensures EventSourceOnUpdate.String() == "OnUpdate"
    ensures EventSourceOnDelete.String() == "OnDelete"
    ensures EventSourceOnAdd != EventSourceOnUpdate
    ensures EventSourceOnAdd != EventSourceOnDelete
    ensures EventSourceOnUpdate != EventSourceOnDelete
  {
  }

  /** The accessors give back exactly the source, type and message an event was built with. */
  lemma EventAccessors(source: EventSource, eventType: EventType, m: EventMessage)
    ensures Event(source, eventType, m).EventSource() == source
    ensures Event(source, eventType, m).EventType() == eventType
    ensures Event(source, eventType, m).Content() == m.Body
  {
  }

  /** Two event types with the same string are the same type. */
  lemma EventTypeStringInjective(a: EventType, b: EventType)
    ensures a.String() == b.String() <==> a == b
  {
  }

  /** Content hands back the body unchanged: an object stays that object and nil stays nil. */
  lemma ContentIsStable(m: EventMessage)
    ensures m.Content() == m.Body
    ensures m.Body == Nil ==> m.Content() == Nil
  {
  }
}
