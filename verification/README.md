# busplus server core in Dafny

A model of the server of busplus, a live bus-tracking service. Browsers
connect over websockets. The server streams nearby vehicle positions to each
browser, answers route-shape requests, and keeps a small in-memory seat
reservation book per vehicle. The model covers four parts:

- **The lobby** (`lobby.dfy`, `lobby_rules.dfy`). The lobby is the shared hub.
  It holds the table of connected clients, the per-vehicle passenger counts
  (`capacity`, `passengers`), and an outbox of `(recipient, message)`
  deliveries. Each message handler is one atomic method of the class
  `LobbyActor.Lobby`. The reservation rules are kept as one invariant,
  `LobbyRules.LobbyInvariant`, which every handler preserves:
  - every client is filed under its own id;
  - every held seat belongs to a known vehicle;
  - capacities are drawn in `[20, 35)`;
  - for every vehicle, the count it was created with plus the number of
    connected clients holding a seat on it is at most `passengers`, and
    `passengers < capacity`.
  The pure parts are separate functions with their own lemmas: the
  visibility and trip-id filters, the classification of route identifiers,
  and the reply to a route request.
- **The client record** (`client.dfy`). The class `Client.ClientData` has
  `new`, `update_position` and `update_last_descriptor`. Each is specified
  by a function on the value `Client.ClientRecord`.
- **The websocket session** (`ws.dfy`). The class `Session.WebsocketClient`
  covers the heartbeat tick over an integer nanosecond clock, `started`,
  `stopping`, the frame dispatch and the relay of lobby messages. The method
  `SessionLobby.TimeoutDisconnectsOnce` puts a session and the lobby
  together.
- **The GTFS Realtime schema mapping** (`gtfs_*.dfy`):
  - the enum conversions `From<i32>`, `From<&str>` and `Default`;
  - the `from_reader` decode loops;
  - the `write_message` writers, which omit default-valued fields;
  - the `get_size` arithmetic.

  These cover FeedMessage, FeedHeader, FeedEntity, VehiclePosition, Position,
  Alert, TripDescriptor and VehicleDescriptor. Bytes are modelled one level
  up, as a sequence of tagged fields `Field(tag, value)` with
  tag = field number · 8 + wire type. This is the numbering of the
  "Message Structure" section of the Protocol Buffers encoding document.
  - Decoding is a fold over these fields (`GtfsWire.Fold`).
  - Each `Read…` method is the source's `while !r.is_eof()` loop, proved
    equal to that fold.
  - Encoding produces the field list a writer emits.
  - Sizes are quick_protobuf's size formulas over that list.

The lobby holds client records as values in a `map<Uuid, ClientRecord>`. In
the source the `HashMap` owns each `ClientData`, so no record is shared
between two places. The lobby updates a record with the same functions
(`Client.FreshRecord`, `Client.Positioned`, `Client.Requested`) that specify
the `ClientData` methods.

Where the source does not compile as shown, the model follows the code as
written:

- `lobby.rs` reads the route request's field as `identifier`, while the
  message type declares `line_number`. `LobbyMessage.RouteRequest` carries
  one string.
- `ws.rs` dispatches on `ClientInput` variants that `client_protocol.rs`
  does not declare. `Protocol.ClientInput` has the variants `ws.rs` matches.
- `only_numbers` is imported by `lobby.rs` but defined nowhere in the
  source. The model assumes it means "every character is an ASCII digit"
  (`LobbyRules.OnlyNumbers`). Under that assumption `len()`, which counts
  bytes, equals the number of characters for the identifiers that reach the
  length test.
- The database helpers return `Option` in the handlers' `match` arms, and
  `LobbyRules.Store` models them so.

## Model

| member | source | states |
|---|---|---|
| Client.FreshRecord | server/src/client.rs:32-40 | a new record stores the given id and address and has no position, no reserved seat and no last descriptor |
| Client.SettersLastWriteWins | server/src/client.rs:43-50 | both setters are last-write-wins, they commute, and neither changes the id, address or reserved seat, nor the other setter's field |
| Client.ClientData.constructor | server/src/client.rs:32-40 | the new object's contents are exactly a fresh record for the id and address |
| Client.ClientData.UpdatePosition | server/src/client.rs:43-45 | the position becomes `Some(p)`; no other field changes |
| Client.ClientData.UpdateLastDescriptor | server/src/client.rs:48-50 | the last descriptor becomes `Some(d)`; no other field changes |
| LobbyActor.Lobby.constructor | server/src/lobby.rs:78-85 | the lobby starts with no clients, no passenger entries and an empty outbox, and satisfies the invariant |
| LobbyActor.Lobby.SendMessage | server/src/lobby.rs:136-142 | a message is delivered to a connected recipient and silently dropped for an unknown one |
| LobbyActor.Lobby.InterestedDeliveries | server/src/lobby.rs:180-188 | the loop over the clients yields one delivery of the message to each client whose last request was for `d`, to no other client, and to none twice |
| LobbyActor.Lobby.SendPassengerUpdate | server/src/lobby.rs:172-189 | the current info for `d` goes exactly once to each client whose last request was `d` and to nobody else |
| LobbyActor.Lobby.VisibleDeliveries | server/src/lobby.rs:203-225 | the loop over the clients yields one delivery to each client with a position that can see some vehicle; the payload is the order-preserving subsequence of the vehicles it can see, stamped with the time `now` |
| LobbyActor.Lobby.SendFilteredPositions | server/src/lobby.rs:202-226 | the outbox grows by one message per watching client and by nothing else; the clients and seats are untouched |
| LobbyActor.WatcherIffSomeVisible | server/src/lobby.rs:205-211 | a client receives a position update iff it has a position and at least one vehicle passes its filter; a client without a position receives nothing |
| LobbyActor.SentExactly | server/src/lobby.rs:180-188 | a fan-out with distinct recipients equal to the target set sends to each member exactly once, so exactly as many messages as members |
| LobbyActor.DistinctRecipientsCount | server/src/lobby.rs:180-188 | deliveries to pairwise distinct recipients are as many as their recipients |
| LobbyActor.Lobby.EchoIntervalTick | server/src/lobby.rs:106-130 | with no clients, nothing is fetched and nothing is echoed; otherwise the feed is fetched, and positions are echoed exactly when the fetch succeeds |
| LobbyActor.Lobby.EnrichAll | server/src/lobby.rs:277-287 | the loop over the vehicles (in place in the source, building a new sequence here) leaves each vehicle with its line looked up, in order |
| LobbyActor.Lobby.EchoPositions | server/src/lobby.rs:229-297 | the feed's vehicles that have a trip id, with their lines filled in, are sent to exactly the clients that can see one of them |
| LobbyRules.Filter | server/src/lobby.rs:206-210 | the kept elements are exactly those of the input the test accepts, each as many times as in the input, and there are no more of them than inputs |
| LobbyRules.FilterPreservesOrder | server/src/lobby.rs:206-210 | filtering keeps input order (the result is a subsequence) and is the identity when every element passes |
| LobbyRules.TripFilter | server/src/lobby.rs:272-275 | after the trip-id filter every vehicle has a trip id, every vehicle with a trip id is kept as many times as it occurs, and feed order is kept |
| LobbyRules.ToVehicle | server/src/lobby.rs:239-263 | a feed entity becomes a vehicle with the entity's descriptor id and position, no line, and a trip id exactly when the entity's trip has one |
| LobbyRules.VehiclesOf | server/src/lobby.rs:236-265 | the feed maps to one vehicle per entity, in order |
| LobbyRules.Enriched | server/src/lobby.rs:277-287 | only the line of a vehicle may change |
| LobbyRules.EnrichedLine | server/src/lobby.rs:278-285 | the line is set exactly when the trip and then its route are found, and it is that route's short name |
| LobbyRules.Enrichment | server/src/lobby.rs:277-287 | every vehicle is enriched, in place and in order |
| LobbyRules.EchoedVehiclesOnTrips | server/src/lobby.rs:236-289 | every vehicle an echo sends is on a trip and comes from an entity of the feed |
| LobbyRules.Classify | server/src/lobby.rs:358-386 | an empty or non-numeric identifier is invalid; one of at most three digits is a line number; a longer one is a trip id (each case stated both ways) |
| LobbyRules.DecimalString | server/src/lobby.rs:390 | the decimal text of a shape id is a non-empty string of digits, a single digit exactly below ten, with no leading zero |
| LobbyRules.DecimalStringCanonical | server/src/lobby.rs:390 | any digit string without a leading zero is the decimal text of the number it reads as, so with the round trip the text is fixed |
| LobbyRules.DecimalRoundTrip | server/src/lobby.rs:390-400 | reading back the decimal text of a shape id gives the same number, so the shapes are looked up under the trip's own shape id |
| LobbyRules.InvalidIdentifierNeedsNoLookup | server/src/lobby.rs:358-363 | a rejected identifier gets a `RouteInfo` error naming it, whatever the database holds |
| LobbyRules.RouteResponseOutcome | server/src/lobby.rs:358-415 | the reply is a route iff a trip and its shapes are found, and then it carries the shapes and the time; it is a `RouteInfo` error iff the identifier is invalid or the line is unknown; it is a `ServerError` otherwise |
| LobbyRules.LongIdentifierIsTrip | server/src/lobby.rs:366-385 | an identifier of more than three digits is looked up only as a trip id |
| LobbyActor.Lobby.RouteRequest | server/src/lobby.rs:342-427 | exactly the computed reply is sent to the requester if it is still connected, and nothing else changes |
| LobbyActor.Lobby.Connect | server/src/lobby.rs:303-309 | a fresh record replaces any record under the same id; the seats and the outbox are untouched; the invariant is kept |
| LobbyActor.Lobby.Disconnect | server/src/lobby.rs:316-321 | the client is removed if present and nothing else changes, so a repeated Disconnect is a no-op; a seat it held stays counted |
| LobbyActor.Lobby.PositionUpdate | server/src/lobby.rs:328-335 | only that client's position changes |
| LobbyActor.Lobby.PassengerInfo | server/src/lobby.rs:434-464 | an entry is created only for an unknown descriptor, with passengers in [0,15) and capacity in [20,35); an existing entry is never altered; the requester receives the entry; its last descriptor becomes `d` |
| LobbyActor.Lobby.TakeSeat | server/src/lobby.rs:486-492 | the count on `d` rises by exactly one and the client holds `d`; nothing else changes |
| LobbyActor.Lobby.ReleaseSeat | server/src/lobby.rs:535-548 | the count on the held descriptor falls by exactly one and the client holds nothing; nothing else changes |
| LobbyActor.Lobby.ReserveSeat | server/src/lobby.rs:471-522 | succeeds iff the descriptor is known and `passengers + 1 != capacity`; on success the count rises by one, the client holds the seat (overwriting any earlier one), and the interested clients get the new info; otherwise the requester gets the matching `Reserve` error and nothing else changes |
| LobbyActor.Lobby.UnreserveSeat | server/src/lobby.rs:529-561 | with no reservation, the requester gets an `Unreserve` error and nothing else changes; with a seat on `d`, the count on `d` falls by one, the reservation is cleared, and the interested clients are told unless `d` is empty |
| LobbyRules.ConnectKeepsAccounts | server/src/lobby.rs:303-306 | connecting, or reconnecting under an id already present, keeps the seat accounts |
| LobbyRules.DisconnectKeepsAccounts | server/src/lobby.rs:318 | dropping a client keeps the seat accounts, since its seat stays counted |
| LobbyRules.RequestKeepsAccounts | server/src/lobby.rs:329-334 | updating a position, or in the same way a last descriptor (lines 460-463), keeps the seat accounts |
| LobbyRules.NewEntryKeepsAccounts | server/src/lobby.rs:441-448 | a new entry in the drawn ranges has no holders and keeps the accounts |
| LobbyRules.ReserveKeepsAccounts | server/src/lobby.rs:480-492 | a reserve that passes the test leaves room (`passengers + 1 < capacity`) and keeps the accounts after the increment |
| LobbyRules.UnreserveKeepsAccounts | server/src/lobby.rs:535-548 | a held seat is on a known descriptor whose count is at least one, and giving it back keeps the accounts, so every decrement pairs with an earlier increment |
| LobbyRules.NeverFull | server/src/lobby.rs:480-492 | under the invariant (capacities drawn in [20,35) at lines 445-446) a bus is never full: `passengers <= capacity - 1` and fewer clients hold a seat than its capacity |
| Session.Elapsed | server/src/ws.rs:50 | the time since the last heartbeat, zero when the clock reads earlier |
| Session.TimeoutThreshold | server/src/ws.rs:50 | a tick within `CLIENT_TIMEOUT` of the last heartbeat never times out, and any later tick does |
| Session.TimeoutDetectedWithinOneInterval | server/src/ws.rs:47-50 | with ticks every 5 s, the first tick that finds a silent session timed out comes more than 10 s and at most 15 s after its last heartbeat; every earlier tick pings |
| Session.RequestFor | server/src/ws.rs:143-173 | each parsed request forwards at most one lobby message, which carries the session's id and matches the request kind; `GetLineInformation` forwards nothing |
| Session.WebsocketClient.constructor | server/src/ws.rs:36-42 | a new session has the given id and its heartbeat set to now, and has sent nothing |
| Session.WebsocketClient.Started | server/src/ws.rs:71-80 | the heartbeat interval starts and the lobby receives `Connect` with the session's id |
| Session.WebsocketClient.Stopping | server/src/ws.rs:83-88 | the lobby receives `Disconnect` with the session's id |
| Session.WebsocketClient.HeartbeatTick | server/src/ws.rs:47-63 | when strictly more than the timeout has passed, the lobby gets `Disconnect`, the session stops and does not ping; otherwise exactly one empty ping is sent |
| Session.WebsocketClient.HandleFrame | server/src/ws.rs:105-183 | Ping and Pong set the heartbeat to now; Ping is answered with a Pong carrying the same payload; Binary is echoed; Close closes and stops; Continuation stops; Nop does nothing; unparsable text gets one `UnknownMessage` error, forwards nothing and keeps the session open; parsed text forwards its lobby request |
| Session.WebsocketClient.Relay | server/src/ws.rs:194-200 | a lobby message is passed to the browser as one text frame |
| SessionLobby.TimeoutDisconnectsOnce | server/src/ws.rs:52-88 | a timeout makes the session send `Disconnect` twice, and delivering both leaves the lobby as one would: only that client removed, the invariant kept |
| GtfsWire.ReadWriteScalars | server/src/gtfs/transit_realtime.rs:27-35 | reading a written bool, int32, uint32 or uint64 gives it back |
| GtfsWire.FoldAppend | server/src/gtfs/transit_realtime.rs:27-35 | decoding a concatenation decodes the first part and carries on from its record, stopping at the first error |
| RealtimeCodecLaws.FoldCommute | server/src/gtfs/transit_realtime.rs:27-35 | an item that cannot fail and commutes with every later item may be moved to the end of the stream without changing the result |
| RealtimeCodecLaws.FoldOverride | server/src/gtfs/transit_realtime.rs:27-35 | an item that never fails, commutes with the items after it and is overridden by a later item can be dropped |
| GtfsWire.EncodedSizeAppend | server/src/gtfs/transit_realtime.rs:40-45 | the size of a concatenation is the sum of the sizes |
| RealtimeEnums.IncrementalityFromI32 | server/src/gtfs/transit_realtime.rs:107-115 | a declared discriminant gives its variant; any other integer gives the default |
| RealtimeEnums.IncrementalityFromStr | server/src/gtfs/transit_realtime.rs:117-125 | a variant's exact name gives that variant; any other string gives the default |
| RealtimeEnums.IncrementalityRoundTrips | server/src/gtfs/transit_realtime.rs:96-125 | each variant survives the integer and the name conversions |
| RealtimeEnums.VehicleStopStatusFromI32 | server/src/gtfs/transit_realtime.rs:439-448 | a declared discriminant gives its variant; any other integer gives the default |
| RealtimeEnums.VehicleStopStatusFromStr | server/src/gtfs/transit_realtime.rs:450-459 | a variant's exact name gives that variant; any other string gives the default |
| RealtimeEnums.VehicleStopStatusRoundTrips | server/src/gtfs/transit_realtime.rs:427-459 | each variant survives the integer and the name conversions |
| RealtimeEnums.CongestionLevelFromI32 | server/src/gtfs/transit_realtime.rs:476-487 | a declared discriminant gives its variant; any other integer gives the default |
| RealtimeEnums.CongestionLevelFromStr | server/src/gtfs/transit_realtime.rs:489-500 | a variant's exact name gives that variant; any other string gives the default |
| RealtimeEnums.CongestionLevelRoundTrips | server/src/gtfs/transit_realtime.rs:462-500 | each variant survives the integer and the name conversions |
| RealtimeEnums.OccupancyStatusFromI32 | server/src/gtfs/transit_realtime.rs:519-532 | a declared discriminant gives its variant; any other integer gives the default |
| RealtimeEnums.OccupancyStatusFromStr | server/src/gtfs/transit_realtime.rs:534-547 | a variant's exact name gives that variant; any other string gives the default |
| RealtimeEnums.OccupancyStatusRoundTrips | server/src/gtfs/transit_realtime.rs:503-547 | each variant survives the integer and the name conversions |
| RealtimeEnums.CauseFromI32 | server/src/gtfs/transit_realtime.rs:635-653 | a declared discriminant gives its variant; any other integer gives the default |
| RealtimeEnums.CauseFromStr | server/src/gtfs/transit_realtime.rs:655-673 | a variant's exact name gives that variant; any other string gives the default |
| RealtimeEnums.CauseRoundTrips | server/src/gtfs/transit_realtime.rs:614-673 | each variant survives the integer and the name conversions |
| RealtimeEnums.EffectFromI32 | server/src/gtfs/transit_realtime.rs:694-709 | a declared discriminant gives its variant; any other integer gives the default |
| RealtimeEnums.EffectFromStr | server/src/gtfs/transit_realtime.rs:711-726 | a variant's exact name gives that variant; any other string gives the default |
| RealtimeEnums.EffectRoundTrips | server/src/gtfs/transit_realtime.rs:676-726 | each variant survives the integer and the name conversions |
| RealtimeEnums.ScheduleRelationshipFromI32 | server/src/gtfs/transit_realtime.rs:881-891 | a declared discriminant gives its variant; any other integer gives the default |
| RealtimeEnums.ScheduleRelationshipFromStr | server/src/gtfs/transit_realtime.rs:893-903 | a variant's exact name gives that variant; any other string gives the default |
| RealtimeEnums.ScheduleRelationshipRoundTrips | server/src/gtfs/transit_realtime.rs:868-903 | each variant survives the integer and the name conversions |
| RealtimeReaders.ReadPosition | server/src/gtfs/transit_realtime.rs:775-789 | the read loop computes the decode fold over the fields |
| RealtimeReaders.ReadVehicleDescriptor | server/src/gtfs/transit_realtime.rs:915-927 | the read loop computes the decode fold over the fields |
| RealtimeReaders.ReadTripDescriptor | server/src/gtfs/transit_realtime.rs:823-838 | the read loop computes the decode fold over the fields |
| RealtimeReaders.ReadVehiclePosition | server/src/gtfs/transit_realtime.rs:370-391 | the read loop computes the decode fold over the fields |
| RealtimeReaders.ReadAlert | server/src/gtfs/transit_realtime.rs:563-582 | the read loop computes the decode fold over the fields, with the TimeRange, EntitySelector and TranslatedString bodies kept raw |
| RealtimeReaders.ReadFeedEntity | server/src/gtfs/transit_realtime.rs:139-153 | the read loop computes the decode fold over the fields, with the TripUpdate body kept raw |
| RealtimeReaders.ReadFeedHeader | server/src/gtfs/transit_realtime.rs:61-73 | the read loop computes the decode fold over the fields |
| RealtimeReaders.ReadFeedMessage | server/src/gtfs/transit_realtime.rs:25-36 | the read loop computes the decode fold over the fields |
| RealtimeCodecLaws.PositionRoundTrip | server/src/gtfs/transit_realtime.rs:775-809 | decoding what the writer emits gives the Position back, so each field is written under the tag its reader matches |
| RealtimeCodecLaws.PositionSizeMatchesEncoding | server/src/gtfs/transit_realtime.rs:793-800 | `get_size` is the size of what the writer emits, and equals 10 plus 5 for a bearing, 9 for an odometer and 5 for a speed |
| RealtimeCodecLaws.PositionEncodingWellFormed | server/src/gtfs/transit_realtime.rs:802-809 | every emitted field's value has the wire type its tag names |
| RealtimeCodecLaws.VehicleDescriptorRoundTrip | server/src/gtfs/transit_realtime.rs:915-943 | decoding what the writer emits gives the VehicleDescriptor back |
| RealtimeCodecLaws.VehicleDescriptorSizeMatchesEncoding | server/src/gtfs/transit_realtime.rs:931-937 | `get_size` is the size of what the writer emits |
| RealtimeCodecLaws.VehicleDescriptorEncodingWellFormed | server/src/gtfs/transit_realtime.rs:938-943 | every emitted field's value has the wire type its tag names |
| RealtimeCodecLaws.TripDescriptorRoundTrip | server/src/gtfs/transit_realtime.rs:823-860 | decoding what the writer emits gives the TripDescriptor back |
| RealtimeCodecLaws.TripDescriptorSizeMatchesEncoding | server/src/gtfs/transit_realtime.rs:842-851 | `get_size` is the size of what the writer emits |
| RealtimeCodecLaws.TripDescriptorEncodingWellFormed | server/src/gtfs/transit_realtime.rs:852-860 | every emitted field's value has the wire type its tag names |
| RealtimeCodecLaws.VehiclePositionRoundTrip | server/src/gtfs/transit_realtime.rs:370-419 | decoding what the writer emits gives the VehiclePosition back, including a `current_status` left out because it equals the decoder's starting value |
| RealtimeCodecLaws.VehiclePositionSizeMatchesEncoding | server/src/gtfs/transit_realtime.rs:395-407 | `get_size` is the size of what the writer emits |
| RealtimeCodecLaws.VehiclePositionEncodingWellFormed | server/src/gtfs/transit_realtime.rs:408-419 | every emitted field's value has the wire type its tag names |
| RealtimeCodecLaws.AlertRoundTrip | server/src/gtfs/transit_realtime.rs:563-606 | decoding what the writer emits gives the Alert back, including an `effect` left out because it equals the decoder's starting value |
| RealtimeCodecLaws.AlertSizeMatchesEncoding | server/src/gtfs/transit_realtime.rs:586-596 | `get_size` is the size of what the writer emits |
| RealtimeCodecLaws.AlertEncodingWellFormed | server/src/gtfs/transit_realtime.rs:597-606 | every emitted field's value has the wire type its tag names |
| RealtimeCodecLaws.FeedEntityRoundTrip | server/src/gtfs/transit_realtime.rs:139-173 | decoding what the writer emits gives the FeedEntity back, including an `is_deleted` of false that is left out |
| RealtimeCodecLaws.FeedEntitySizeMatchesEncoding | server/src/gtfs/transit_realtime.rs:157-165 | `get_size` is the size of what the writer emits |
| RealtimeCodecLaws.FeedEntityEncodingWellFormed | server/src/gtfs/transit_realtime.rs:166-173 | every emitted field's value has the wire type its tag names |
| RealtimeCodecLaws.FeedHeaderRoundTrip | server/src/gtfs/transit_realtime.rs:61-89 | decoding what the writer emits gives the FeedHeader back, including an `incrementality` of FULL_DATASET that is left out |
| RealtimeCodecLaws.FeedHeaderSizeMatchesEncoding | server/src/gtfs/transit_realtime.rs:77-83 | `get_size` is the size of what the writer emits |
| RealtimeCodecLaws.FeedHeaderEncodingWellFormed | server/src/gtfs/transit_realtime.rs:84-89 | every emitted field's value has the wire type its tag names |
| RealtimeCodecLaws.FeedMessageRoundTrip | server/src/gtfs/transit_realtime.rs:25-50 | decoding what the writer emits gives the FeedMessage back |
| RealtimeCodecLaws.FeedMessageSizeMatchesEncoding | server/src/gtfs/transit_realtime.rs:40-45 | `get_size` is the size of what the writer emits |
| RealtimeCodecLaws.FeedMessageEncodingWellFormed | server/src/gtfs/transit_realtime.rs:46-50 | every emitted field's value has the wire type its tag names |
| RealtimeCodecLaws.PositionUnknownField | server/src/gtfs/transit_realtime.rs:784 | a well-formed field with an unknown tag is skipped without changing the record; a malformed one is an error |
| RealtimeCodecLaws.VehicleDescriptorUnknownField | server/src/gtfs/transit_realtime.rs:922 | a well-formed field with an unknown tag is skipped without changing the record; a malformed one is an error |
| RealtimeCodecLaws.TripDescriptorUnknownField | server/src/gtfs/transit_realtime.rs:833 | a well-formed field with an unknown tag is skipped without changing the record; a malformed one is an error |
| RealtimeCodecLaws.VehiclePositionUnknownField | server/src/gtfs/transit_realtime.rs:386 | a well-formed field with an unknown tag is skipped without changing the record; a malformed one is an error |
| RealtimeCodecLaws.AlertUnknownField | server/src/gtfs/transit_realtime.rs:577 | a well-formed field with an unknown tag is skipped without changing the record; a malformed one is an error |
| RealtimeCodecLaws.FeedEntityUnknownField | server/src/gtfs/transit_realtime.rs:148 | a well-formed field with an unknown tag is skipped without changing the record; a malformed one is an error |
| RealtimeCodecLaws.FeedHeaderUnknownField | server/src/gtfs/transit_realtime.rs:68 | a well-formed field with an unknown tag is skipped without changing the record; a malformed one is an error |
| RealtimeCodecLaws.FeedMessageUnknownField | server/src/gtfs/transit_realtime.rs:31 | a well-formed field with an unknown tag is skipped without changing the record; a malformed one is an error |
| RealtimeCodecLaws.PositionLastWins | server/src/gtfs/transit_realtime.rs:775-789 | of two items of one plain field, the later decides the record, whatever items of other fields come between; the earlier one only matters by the error it may raise |
| RealtimeCodecLaws.VehicleDescriptorLastWins | server/src/gtfs/transit_realtime.rs:915-927 | of two items of one plain field, the later decides the record, whatever items of other fields come between; the earlier one only matters by the error it may raise |
| RealtimeCodecLaws.TripDescriptorLastWins | server/src/gtfs/transit_realtime.rs:823-838 | of two items of one plain field, the later decides the record, whatever items of other fields come between; the earlier one only matters by the error it may raise |
| RealtimeCodecLaws.VehiclePositionLastWins | server/src/gtfs/transit_realtime.rs:370-391 | of two items of one plain field, the later decides the record, whatever items of other fields come between; the earlier one only matters by the error it may raise; this holds for the nested trip, vehicle and position too |
| RealtimeCodecLaws.AlertLastWins | server/src/gtfs/transit_realtime.rs:563-582 | of two items of one plain field, the later decides the record, whatever items of other fields come between; the earlier one only matters by the error it may raise; this holds for cause, effect, url, header text and description text |
| RealtimeCodecLaws.FeedEntityLastWins | server/src/gtfs/transit_realtime.rs:139-153 | of two items of one plain field, the later decides the record, whatever items of other fields come between; the earlier one only matters by the error it may raise; this holds for the nested vehicle position and alert too |
| RealtimeCodecLaws.FeedHeaderLastWins | server/src/gtfs/transit_realtime.rs:61-73 | of two items of one plain field, the later decides the record, whatever items of other fields come between; the earlier one only matters by the error it may raise |
| RealtimeCodecLaws.FeedMessageLastHeaderWins | server/src/gtfs/transit_realtime.rs:25-36 | of two header items the later gives the header, whatever entities come between; the earlier only matters by the error it may raise |
| RealtimeCodecLaws.FeedMessageEntityAppends | server/src/gtfs/transit_realtime.rs:30 | a repeated field is appended in stream order |
| RealtimeCodecLaws.AlertActivePeriodAppends | server/src/gtfs/transit_realtime.rs:570 | a further active period (its body kept raw) is appended after those read so far, in stream order |
| RealtimeCodecLaws.AlertInformedEntityAppends | server/src/gtfs/transit_realtime.rs:571 | a further informed entity (its body kept raw) is appended after those read so far, in stream order |
| RealtimeCodecLaws.VehiclePositionEmptyDecode | server/src/gtfs/transit_realtime.rs:371-374 | decoding no fields gives the decoder's starting record, with status IN_TRANSIT_TO, which differs from the derived `Default`, whose status is INCOMING_AT (lines 433-437) |
| RealtimeCodecLaws.AlertEmptyDecode | server/src/gtfs/transit_realtime.rs:564-567 | decoding no fields gives the decoder's starting record, with effect UNKNOWN_EFFECT, which differs from the derived `Default`, whose effect is NO_SERVICE (lines 688-692) |
| RealtimeCodecLaws.FeedMessageEntitySizes | server/src/gtfs/transit_realtime.rs:43 | the size of the repeated entity fields is the sum of one key byte plus length prefix plus body per entity |

## Left out

- I/O: the websocket transport, the actor mailboxes and `do_send` are queues (`toLobby`, `toClient`, the lobby's `outbox`); no bytes are sent.
- Actor concurrency and `ResponseActFuture`: each handler is one atomic step, and the asynchronous database part of EchoPositions and RouteRequest runs inside that step.
- The clock: `Instant::now` and the POSIX timestamp are parameters (`now`).
- LobbyActor.Lobby.VisibleDeliveries: stamps every delivery of one fan-out with the same `now`, where the source reads the clock again for each recipient (`lobby.rs:215`), so its timestamps may differ by the time the loop takes.
- LobbyActor.Lobby.SendFilteredPositions: inherits the single `now` per fan-out of VisibleDeliveries.
- Randomness: the two `gen_range` draws in PassengerInfo are parameters restricted to their ranges.
- The database (`database.rs`, MongoDB): lookups are the function parameters of `LobbyRules.Store`, each of which may find nothing.
- The geodesic distance filter (`util.rs`, floats and a foreign crate): it is the predicate parameter `visible`.
- The Trafiklab fetch (`trafiklab.rs`): EchoIntervalTick takes whether the fetch succeeds as a parameter, and EchoPositions takes the fetched feed.
- JSON text: serde (de)serialisation is not modelled; messages are datatypes, and a text frame's parse is the function parameter `parse`.
- Configuration and `Lobby::new`'s config loading and initial fetch, and their panics.
- The panics on a missing field or client (`unwrap`): they are preconditions (`requires`) of the handlers and of EchoPositions.
- The `Err(e) => panic!` arm of the frame handler (`ws.rs:189`): HandleFrame takes only well-formed frames.
- `send_to_everyone`, `send_to_everyone_except_self` and `send_error`: they are never called.
- Varints, byte layout and float payloads in the GTFS mapping: a field is an abstract `(tag, value)` item, and a varint is read as a whole number (with `read_bool`, `read_uint32` and `read_int32` keeping its low 32 bits); f32/f64 values are opaque bit patterns; a size is quick_protobuf's formula over the items. A length-delimited payload arrives already classified as a string or an embedded message, by the schema of the field it belongs to; the `WrongWireType(2)` a string read gives for a `LenMessage` payload (and the reverse) has no counterpart in the source, where both are the same bytes.
- The GTFS messages outside the eight listed above (TripUpdate, StopTimeEvent, StopTimeUpdate and its ScheduleRelationship, TimeRange, EntitySelector, TranslatedString, Translation): their bodies are kept as raw field lists.
- ReadAlert (RealtimeReaders.ReadAlert, and the fold `DecodeAlert` it computes): the TimeRange, EntitySelector and TranslatedString bodies (tags 10, 42, 66, 82 and 90) are taken as raw field lists without being decoded, so a body that `read_message::<…>(bytes)?` rejects at `transit_realtime.rs:570-576` is accepted here; only a payload that is not length-delimited fails.
- ReadFeedEntity (RealtimeReaders.ReadFeedEntity, and the fold `DecodeFeedEntity` it computes): likewise the TripUpdate body of tag 26 is taken raw, so a malformed one that `transit_realtime.rs:145` rejects is accepted here.
- AlertActivePeriodAppends (RealtimeCodecLaws.AlertActivePeriodAppends): the append holds for every raw TimeRange body, including one the source's `read_message::<TimeRange>(bytes)?` would reject.
- AlertInformedEntityAppends (RealtimeCodecLaws.AlertInformedEntityAppends): the append holds for every raw EntitySelector body, including one the source's `read_message::<EntitySelector>(bytes)?` would reject.
- Client objects inside the lobby are values in a map, not references to `ClientData` objects; since the `HashMap` owns each record, no aliasing is lost.
- Fan-out order: `for_each` over a `HashMap` visits clients in an unspecified order; the model picks one with `:|` and appends the whole batch to the outbox at once.
- LobbyActor.Lobby.EchoPositions: requires every entity to carry a vehicle, a descriptor id and a position, where the source panics instead.
