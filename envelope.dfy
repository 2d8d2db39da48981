/**
 * Envelopes (pkg/events/envelope.go): a lazily allocated header map plus the published message.
 * Every envelope is freshly built by a broker's BuildEnvelope and never shared, so the in-place
 * header write is modelled as an update of the envelope value.
 */
module Envelopes {
  import opened Wrappers
  import opened Errors
  import opened Events

  datatype Header = Header(headers: map<string, string>)

  /** `Envelope{Header *Header; Message interface{}}`; a nil Header is `None`. */
  datatype Envelope = Envelope(header: Option<Header>, message: Any) {

    /** The header map, empty while no Header is allocated. */
    function Headers(): map<string, string> {
      if header.None? then map[] else header.value.headers
    }

    /**
     * `AddHeader(key, value)`: allocate the Header if needed and write `key` into it. The key now
     * maps to `value`, every other key keeps its entry and the message is untouched.
     */
    function AddHeader(key: string, value: string): (e: Envelope)
      ensures e.header.Some? && e.message == message
      ensures key in e.Headers() && e.Headers()[key] == value
      ensures e.Headers().Keys == Headers().Keys + {key}
      ensures forall k :: k in Headers() && k != key ==> e.Headers()[k] == Headers()[k]
    {
      var h := if header.None? then Header(map[]) else header.value;
      Envelope(Some(Header(h.headers[key := value])), message)
    }
  }

  /** `&events.Envelope{}`: no Header and a nil Message. */
  const EmptyEnvelope: Envelope := Envelope(None, Nil)

  /** `json.Marshal` of an envelope, left to the caller as an oracle. */
  type Encoder = Envelope -> Result<seq<bv8>, Error>

  /** On an envelope without a Header, AddHeader allocates one holding exactly the new key. */
  lemma AddHeaderAllocates(m: Any, key: string, value: string)
    ensures Envelope(None, m).AddHeader(key, value).header == Some(Header(map[key := value]))
  {
  }

  /** Writing an existing key replaces its value: last write wins and the key set does not grow. */
  lemma AddHeaderLastWriteWins(e: Envelope, key: string, v1: string, v2: string)
    ensures e.AddHeader(key, v1).AddHeader(key, v2) == e.AddHeader(key, v2)
    ensures e.AddHeader(key, v1).AddHeader(key, v2).Headers().Keys == e.AddHeader(key, v1).Headers().Keys
  {
    var h := e.Headers();
    assert e.AddHeader(key, v1).AddHeader(key, v2).Headers() == h[key := v1][key := v2] == h[key := v2];
  }

  /** Repeating the same AddHeader changes nothing. */
  lemma AddHeaderIdempotent(e: Envelope, key: string, value: string)
    ensures e.AddHeader(key, value).AddHeader(key, value) == e.AddHeader(key, value)
  {
    AddHeaderLastWriteWins(e, key, value, value);
  }

  /** Writes to distinct keys commute, so the order in which a broker adds its headers is irrelevant. */
  lemma AddHeaderCommutes(e: Envelope, k1: string, v1: string, k2: string, v2: string)
    requires k1 != k2
    ensures e.AddHeader(k1, v1).AddHeader(k2, v2) == e.AddHeader(k2, v2).AddHeader(k1, v1)
  {
    var h := e.Headers();
    assert h[k1 := v1][k2 := v2] == h[k2 := v2][k1 := v1];
  }
}
