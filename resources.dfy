/**
 * The subset of the Agones v1 API objects that the dispatch core looks at. Go recovers an object's
 * kind by reflection (`reflect.TypeOf(obj).Elem().String()`); here every object carries that type
 * name explicitly in `Kind`.
 */
module Resources {

  /** Type name of `*v1.GameServer` as reflection prints it. */
  const GameServerKind: string := "v1.GameServer"
  /** Type name of `*v1.Fleet` as reflection prints it. */
  const FleetKind: string := "v1.Fleet"

  /** `v1.GameServerStateReady`. */
  const GameServerStateReady: string := "Ready"

  newtype int32 = x: int | -0x8000_0000 <= x < 0x8000_0000

  datatype GameServerPort = GameServerPort(Name: string, Port: int32)

  datatype GameServerStatus = GameServerStatus(
    State: string,
    Address: string,
    Ports: seq<GameServerPort>,
    NodeName: string)

  /** A watched object: its kind, its object metadata and, for game servers, its status. */
  datatype Resource = Resource(
    Kind: string,
    Name: string,
    Namespace: string,
    Labels: map<string, string>,
    Status: GameServerStatus)

  /** The zero value `&T{}` of a kind, as passed to the registry at init. */
  function Zero(kind: string): (r: Resource)
    ensures r.Kind == kind && r.Name == "" && r.Namespace == ""
  {
    Resource(kind, "", "", map[], GameServerStatus("", "", [], ""))
  }
}
