/**
 * The values exchanged between the browser, the per-connection sessions and
 * the lobby: what a client may send (ClientInput), what the server sends
 * back (ServerOutput), and the messages a session posts to the lobby
 * (LobbyMessage).  These are kept as values; their JSON text is not part of
 * this model.
 */
module Protocol {
  import opened Wrappers
  import opened GtfsWire
  import RT = RealtimeMessages

  /** A client id (a v4 UUID in the server). */
  type Uuid = nat

  /** The address a session can be sent text on (`Recipient<WsMessage>`). */
  type Socket = nat

  // ---- client -> server ----

  /** A GeoJSON point: its type name and its coordinates (f32 bit patterns). */
  datatype GeoPositionPoint = GeoPositionPoint(positionType: string, coordinates: seq<F32>)

  /** Where a client is looking on the map, and how far around it (in metres) it wants vehicles. */
  datatype GeoPosition = GeoPosition(maxDistance: i32, position: GeoPositionPoint)

  /** The requests a session dispatches on. */
  datatype ClientInput =
    | GetLineInformation(line: string)
    | GetRouteInformation(line: string)
    | GeoPositionUpdate(geo: GeoPosition)
    | GetPassengerInformation(descriptorId: string)
    | ReserveSeat(descriptorId: string)
    | UnreserveSeat

  // ---- server -> client ----

  datatype ErrorType =
    | ServerError
    | UnknownMessage
    | BadData
    | Position
    | LineInfo
    | RouteInfo
    | Reserve
    | Unreserve

  /** A vehicle as sent to clients: the vehicle descriptor id, its line and trip if known, and its position. */
  datatype Vehicle = Vehicle(descriptorId: string, line: Option<string>, tripId: Option<string>, position: RT.Position)

  datatype PassengerInformationOutput = PassengerInformationOutput(capacity: i32, passengers: i32)

  datatype RouteNode = RouteNode(lat: string, lng: string, sequence: i32)

  datatype ServerOutput =
    | Error(errorType: ErrorType, errorMessage: string)
    | VehiclePositions(timestamp: u64, vehicles: seq<Vehicle>)
    | PassengerInformation(info: PassengerInformationOutput)
    | RouteInformation(timestamp: u64, route: seq<RouteNode>)

  // ---- session -> lobby ----

  datatype LobbyMessage =
    | Connect(addr: Socket, selfId: Uuid)
    | Disconnect(selfId: Uuid)
    | PositionUpdate(selfId: Uuid, position: GeoPosition)
    | RouteRequest(selfId: Uuid, lineNumber: string)
    | PassengerInfo(selfId: Uuid, descriptorId: string)
    | ReserveSeat(selfId: Uuid, descriptorId: string)
    | UnreserveSeat(selfId: Uuid)
}
