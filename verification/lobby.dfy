/**
 * The lobby: the shared state of all sessions, changed in place by one
 * handler per message.  Each handler runs as one atomic step; whatever it
 * sends to a client is appended to `outbox`.  The client records are owned
 * by the `clients` table (nothing else refers to them), so the table holds
 * them as values and a handler updates a record with the same functions
 * that `ClientData`'s methods are specified by.
 */
module LobbyActor {
  import opened Wrappers
  import opened GtfsWire
  import opened Protocol
  import opened Client
  import opened LobbyRules
  import RT = RealtimeMessages

  /** One message handed to a client's session. */
  datatype Delivery = Delivery(to: Uuid, msg: ServerOutput)

  function Recipients(ds: seq<Delivery>): set<Uuid> {
    set i | 0 <= i < |ds| :: ds[i].to
  }

  /** No client appears twice among the recipients. */
  predicate DistinctRecipients(ds: seq<Delivery>) {
    forall i, j | 0 <= i < j < |ds| :: ds[i].to != ds[j].to
  }

  lemma RecipientsSnoc(ds: seq<Delivery>, x: Delivery)
    requires DistinctRecipients(ds) && x.to !in Recipients(ds)
    ensures Recipients(ds + [x]) == Recipients(ds) + {x.to}
    ensures DistinctRecipients(ds + [x])
  {
    var ds' := ds + [x];
    forall u | u in Recipients(ds) ensures u in Recipients(ds') {
      var i :| 0 <= i < |ds| && ds[i].to == u;
      assert ds'[i].to == u;
    }
    assert ds'[|ds|].to == x.to;
    forall i | 0 <= i < |ds| ensures ds[i].to in Recipients(ds) {}
  }

  /** One step of a fan-out loop: client `x.to` is taken from `pending` and sent `x` exactly when it is in `to`. */
  lemma FanOutStep(sent: seq<Delivery>, to: set<Uuid>, pending: set<Uuid>, x: Delivery, hit: bool)
    requires DistinctRecipients(sent) && Recipients(sent) == to - pending
    requires x.to in pending && (hit <==> x.to in to)
    ensures var sent' := if hit then sent + [x] else sent;
      DistinctRecipients(sent') && Recipients(sent') == to - (pending - {x.to})
  {
    if hit {
      RecipientsSnoc(sent, x);
    }
  }

  /** Distinct recipients: as many deliveries as clients reached. */
  lemma {:induction false} DistinctRecipientsCount(ds: seq<Delivery>)
    requires DistinctRecipients(ds)
    ensures |Recipients(ds)| == |ds|
    decreases |ds|
  {
    if ds != [] {
      var init := ds[..|ds| - 1];
      assert ds == init + [ds[|ds| - 1]];
      assert DistinctRecipients(init);
      DistinctRecipientsCount(init);
      forall i | 0 <= i < |init| ensures init[i].to != ds[|ds| - 1].to {
        assert init[i] == ds[i];
      }
      assert ds[|ds| - 1].to !in Recipients(init);
      RecipientsSnoc(init, ds[|ds| - 1]);
    }
  }

  /** `after` extends `before` by exactly one delivery to each client of `to`, and to no one else. */
  ghost predicate SentToEachOnce(before: seq<Delivery>, after: seq<Delivery>, to: set<Uuid>) {
    |before| <= |after| && after[..|before|] == before
    && Recipients(after[|before|..]) == to
    && DistinctRecipients(after[|before|..])
  }

  lemma SentExactly(before: seq<Delivery>, sent: seq<Delivery>, to: set<Uuid>)
    requires Recipients(sent) == to && DistinctRecipients(sent)
    ensures SentToEachOnce(before, before + sent, to)
    ensures |sent| == |to|
  {
    assert (before + sent)[..|before|] == before;
    assert (before + sent)[|before|..] == sent;
    DistinctRecipientsCount(sent);
  }

  /** The clients a vehicle update goes to: those with a position that can see at least one vehicle. */
  ghost function Watchers(t: map<Uuid, ClientRecord>, vs: seq<Vehicle>, visible: (GeoPosition, Vehicle) -> bool): set<Uuid> {
    set k | k in t && t[k].position.Some? && |Filter(vs, VisibleFrom(visible, t[k].position.value))| > 0
  }

  /** A client gets a vehicle update exactly when it has a position and some vehicle is visible from it. */
  lemma WatcherIffSomeVisible(t: map<Uuid, ClientRecord>, vs: seq<Vehicle>, visible: (GeoPosition, Vehicle) -> bool, k: Uuid)
    ensures k in Watchers(t, vs, visible) <==>
      k in t && t[k].position.Some? && exists v | v in vs :: visible(t[k].position.value, v)
  {
    if k in t && t[k].position.Some? {
      var f := Filter(vs, VisibleFrom(visible, t[k].position.value));
      if exists v | v in vs :: visible(t[k].position.value, v) {
        var v :| v in vs && visible(t[k].position.value, v);
        assert v in f;
      } else if |f| > 0 {
        assert f[0] in f;
      }
    }
  }

  class Lobby {
    var clients: map<Uuid, ClientRecord>
    var passengerInfo: map<string, PassengerInformationOutput>
    var outbox: seq<Delivery>
    /** The passenger count each entry of `passengerInfo` was created with. */
    ghost var seeded: map<string, int>

    ghost predicate Valid()
      reads this
    {
      LobbyInvariant(clients, passengerInfo, seeded)
    }

    /** A lobby with no clients and no passenger information. */
    constructor ()
      ensures Valid()
      ensures clients == map[] && passengerInfo == map[] && outbox == []
    {
      clients := map[];
      passengerInfo := map[];
      outbox := [];
      seeded := map[];
    }

    /** `send_message`: delivered only if the recipient is still connected. */
    method SendMessage(msg: ServerOutput, to: Uuid)
      modifies this`outbox
      ensures outbox == old(outbox) + (if to in clients then [Delivery(to, msg)] else [])
    {
      if to in clients {
        outbox := outbox + [Delivery(to, msg)];
      }
    }

    /** The deliveries of a passenger update: `msg` once to each client whose last request was for `d`. */
    method InterestedDeliveries(d: string, msg: ServerOutput) returns (sent: seq<Delivery>)
      ensures Recipients(sent) == Interested(clients, d)
      ensures DistinctRecipients(sent)
      ensures forall i | 0 <= i < |sent| :: sent[i].msg == msg
    {
      ghost var to := Interested(clients, d);
      var pending := clients.Keys;
      sent := [];
      while pending != {}
        invariant pending <= clients.Keys
        invariant DistinctRecipients(sent) && Recipients(sent) == to - pending
        invariant forall i | 0 <= i < |sent| :: sent[i].msg == msg
        decreases pending
      {
        var id :| id in pending;
        var hit := clients[id].lastDescriptorRequest == Some(d);
        FanOutStep(sent, to, pending, Delivery(id, msg), hit);
        if hit {
          sent := sent + [Delivery(id, msg)];
        }
        pending := pending - {id};
      }
    }

    /** `send_passenger_update`: the current information on `d` to every client whose last request was for `d`. */
    method SendPassengerUpdate(d: string)
      requires d in passengerInfo
      modifies this`outbox
      ensures SentToEachOnce(old(outbox), outbox, Interested(clients, d))
      ensures forall i | |old(outbox)| <= i < |outbox| :: outbox[i].msg == PassengerInformation(passengerInfo[d])
    {
      var info := passengerInfo[d];
      var sent := InterestedDeliveries(d, PassengerInformation(info));
      outbox := outbox + sent;
      SentExactly(old(outbox), sent, Interested(clients, d));
    }

    /** The deliveries of a vehicle update: to each client with a position, the vehicles visible from it, if any. */
    method VisibleDeliveries(vehicles: seq<Vehicle>, visible: (GeoPosition, Vehicle) -> bool, now: u64) returns (sent: seq<Delivery>)
      ensures Recipients(sent) == Watchers(clients, vehicles, visible)
      ensures DistinctRecipients(sent)
      ensures forall i | 0 <= i < |sent| ::
        sent[i].to in clients && clients[sent[i].to].position.Some?
        && sent[i].msg == VehiclePositions(now, Filter(vehicles, VisibleFrom(visible, clients[sent[i].to].position.value)))
    {
      ghost var to := Watchers(clients, vehicles, visible);
      var pending := clients.Keys;
      sent := [];
      while pending != {}
        invariant pending <= clients.Keys
        invariant DistinctRecipients(sent) && Recipients(sent) == to - pending
        invariant forall i | 0 <= i < |sent| ::
          sent[i].to in clients && clients[sent[i].to].position.Some?
          && sent[i].msg == VehiclePositions(now, Filter(vehicles, VisibleFrom(visible, clients[sent[i].to].position.value)))
        decreases pending
      {
        var id :| id in pending;
        var client := clients[id];
        var filtered := [];
        if client.position.Some? {
          filtered := Filter(vehicles, VisibleFrom(visible, client.position.value));
        }
        var hit := client.position.Some? && |filtered| > 0;
        FanOutStep(sent, to, pending, Delivery(id, VehiclePositions(now, filtered)), hit);
        if hit {
          sent := sent + [Delivery(id, VehiclePositions(now, filtered))];
        }
        pending := pending - {id};
      }
    }

    /**
     * `send_filtered_positions`: each client with a position gets the
     * vehicles visible from it, in the order given, if there is at least one.
     */
    method SendFilteredPositions(vehicles: seq<Vehicle>, visible: (GeoPosition, Vehicle) -> bool, now: u64)
      modifies this`outbox
      ensures SentToEachOnce(old(outbox), outbox, Watchers(clients, vehicles, visible))
      ensures forall i | |old(outbox)| <= i < |outbox| ::
        outbox[i].to in clients && clients[outbox[i].to].position.Some?
        && outbox[i].msg == VehiclePositions(now, Filter(vehicles, VisibleFrom(visible, clients[outbox[i].to].position.value)))
    {
      var sent := VisibleDeliveries(vehicles, visible, now);
      outbox := outbox + sent;
      SentExactly(old(outbox), sent, Watchers(clients, vehicles, visible));
    }

    /**
     * The echo interval: with no clients nothing is fetched; otherwise the
     * feed is fetched, and an echo is scheduled only when that succeeded.
     */
    method EchoIntervalTick(fetchSucceeds: bool) returns (fetched: bool, echo: bool)
      ensures clients == map[] ==> !fetched && !echo
      ensures clients != map[] ==> fetched && (echo <==> fetchSucceeds)
    {
      if clients == map[] {
        return false, false;
      }
      fetched := true;
      if !fetchSucceeds {
        return fetched, false;
      }
      echo := true;
    }

    /** The line lookups of an echo, vehicle by vehicle. */
    method EnrichAll(vs: seq<Vehicle>, store: Store) returns (out: seq<Vehicle>)
      ensures out == Enrichment(vs, store)
    {
      out := [];
      var i := 0;
      while i < |vs|
        invariant 0 <= i <= |vs|
        invariant out == Enrichment(vs[..i], store)
      {
        var v := vs[i];
        if v.tripId.Some? {
          var trip := store.tripById(v.tripId.value);
          if trip.Some? {
            var route := store.routeById(trip.value.routeId);
            if route.Some? {
              v := v.(line := Some(route.value.routeShortName));
            }
          }
        }
        assert v == Enriched(vs[i], store);
        assert vs[..i + 1] == vs[..i] + [vs[i]];
        out := out + [v];
        i := i + 1;
      }
      assert vs[..i] == vs;
    }

    /**
     * `EchoPositions`: the feed's vehicles that are on a trip, with their
     * lines looked up, fanned out to the clients that can see them.
     */
    method EchoPositions(feed: RT.FeedMessage, store: Store, visible: (GeoPosition, Vehicle) -> bool, now: u64)
      requires forall e | e in feed.entity :: Echoable(e)
      modifies this`outbox
      ensures SentToEachOnce(old(outbox), outbox, Watchers(clients, EchoedVehicles(feed.entity, store), visible))
      ensures forall i | |old(outbox)| <= i < |outbox| ::
        outbox[i].to in clients && clients[outbox[i].to].position.Some?
        && outbox[i].msg == VehiclePositions(now,
             Filter(EchoedVehicles(feed.entity, store), VisibleFrom(visible, clients[outbox[i].to].position.value)))
    {
      var vehicles := VehiclesOf(feed.entity);
      vehicles := Filter(vehicles, HasTripId);
      vehicles := EnrichAll(vehicles, store);
      SendFilteredPositions(vehicles, visible, now);
    }

    /** `Connect`: a fresh record under the session's id, replacing any record already there. */
    method Connect(addr: Socket, selfId: Uuid)
      requires Valid()
      modifies this`clients
      ensures Valid()
      ensures clients == old(clients)[selfId := FreshRecord(selfId, addr)]
    {
      ConnectKeepsAccounts(clients, passengerInfo, seeded, selfId, addr);
      clients := clients[selfId := FreshRecord(selfId, addr)];
    }

    /** `Disconnect`: drops the record if present, and leaves any seat it held counted. */
    method Disconnect(selfId: Uuid)
      requires Valid()
      modifies this`clients
      ensures Valid()
      ensures clients == old(clients) - {selfId}
    {
      DisconnectKeepsAccounts(clients, passengerInfo, seeded, selfId);
      if selfId in clients {
        clients := clients - {selfId};
      }
    }

    /** `PositionUpdate`: the client's position becomes `p`. */
    method PositionUpdate(selfId: Uuid, p: GeoPosition)
      requires Valid() && selfId in clients
      modifies this`clients
      ensures Valid()
      ensures clients == old(clients)[selfId := Positioned(old(clients)[selfId], p)]
    {
      RequestKeepsAccounts(clients, passengerInfo, seeded, selfId, p, "");
      clients := clients[selfId := Positioned(clients[selfId], p)];
    }

    /**
     * `PassengerInfo`: an entry is created from the drawn values only when
     * `d` has none; the client is sent the entry and remembers `d` as its
     * last request.
     */
    method PassengerInfo(selfId: Uuid, d: string, drawnPassengers: i32, drawnCapacity: i32)
      requires Valid() && selfId in clients
      requires 0 <= drawnPassengers < 15 && 20 <= drawnCapacity < 35
      modifies this
      ensures Valid()
      ensures d in old(passengerInfo) ==> passengerInfo == old(passengerInfo)
      ensures d !in old(passengerInfo) ==>
        passengerInfo == old(passengerInfo)[d := PassengerInformationOutput(drawnCapacity, drawnPassengers)]
      ensures outbox == old(outbox) + [Delivery(selfId, PassengerInformation(passengerInfo[d]))]
      ensures clients == old(clients)[selfId := Requested(old(clients)[selfId], d)]
    {
      if d !in passengerInfo {
        NewEntryKeepsAccounts(clients, passengerInfo, seeded, d, drawnPassengers, drawnCapacity);
        passengerInfo := passengerInfo[d := PassengerInformationOutput(drawnCapacity, drawnPassengers)];
        seeded := seeded[d := drawnPassengers];
      }
      var info := passengerInfo[d];
      SendMessage(PassengerInformation(info), selfId);
      RequestKeepsAccounts(clients, passengerInfo, seeded, selfId, GeoPosition(0, GeoPositionPoint("", [])), d);
      clients := clients[selfId := Requested(clients[selfId], d)];
    }

    /** The state change of a successful reserve: one more passenger on `d`, and the client holds `d`. */
    method TakeSeat(selfId: Uuid, d: string)
      requires Valid() && selfId in clients && CanReserve(passengerInfo, d)
      modifies this`passengerInfo, this`clients
      ensures Valid()
      ensures d in passengerInfo && passengerInfo == old(passengerInfo)[d := passengerInfo[d]]
      ensures passengerInfo[d].passengers == old(passengerInfo[d].passengers) + 1
      ensures passengerInfo[d].capacity == old(passengerInfo[d].capacity)
      ensures clients == old(clients)[selfId := old(clients)[selfId].(reservedSeat := Some(d))]
    {
      ReserveKeepsAccounts(clients, passengerInfo, seeded, selfId, d);
      var info := passengerInfo[d];
      passengerInfo := passengerInfo[d := info.(passengers := info.passengers + 1)];
      clients := clients[selfId := clients[selfId].(reservedSeat := Some(d))];
    }

    /** The state change of an unreserve by a holder: one passenger fewer on its bus, and the client holds nothing. */
    method ReleaseSeat(selfId: Uuid) returns (d: string)
      requires Valid() && selfId in clients && clients[selfId].reservedSeat.Some?
      modifies this`passengerInfo, this`clients
      ensures Valid()
      ensures d == old(clients[selfId].reservedSeat.value)
      ensures d in passengerInfo && passengerInfo == old(passengerInfo)[d := passengerInfo[d]]
      ensures passengerInfo[d].passengers == old(passengerInfo[d].passengers) - 1
      ensures passengerInfo[d].capacity == old(passengerInfo[d].capacity)
      ensures clients == old(clients)[selfId := old(clients)[selfId].(reservedSeat := None)]
    {
      UnreserveKeepsAccounts(clients, passengerInfo, seeded, selfId);
      d := clients[selfId].reservedSeat.value;
      var info := passengerInfo[d];
      passengerInfo := passengerInfo[d := info.(passengers := info.passengers - 1)];
      clients := clients[selfId := clients[selfId].(reservedSeat := None)];
    }

    /**
     * `ReserveSeat`: succeeds exactly when `d` has an entry and one more
     * passenger would not fill the bus; then the count rises by one, the
     * client holds `d`, and the interested clients are told.  Otherwise
     * the requester gets a `Reserve` error and nothing else changes.
     */
    method ReserveSeat(selfId: Uuid, d: string)
      requires Valid()
      requires CanReserve(passengerInfo, d) ==> selfId in clients
      modifies this`passengerInfo, this`outbox, this`clients
      ensures Valid()
      ensures old(CanReserve(passengerInfo, d)) ==>
        passengerInfo == old(passengerInfo)[d := passengerInfo[d]]
        && passengerInfo[d].passengers == old(passengerInfo[d].passengers) + 1
        && passengerInfo[d].capacity == old(passengerInfo[d].capacity)
        && clients == old(clients)[selfId := old(clients)[selfId].(reservedSeat := Some(d))]
        && SentToEachOnce(old(outbox), outbox, Interested(clients, d))
        && (forall i | |old(outbox)| <= i < |outbox| :: outbox[i].msg == PassengerInformation(passengerInfo[d]))
      ensures !old(CanReserve(passengerInfo, d)) ==>
        passengerInfo == old(passengerInfo) && clients == old(clients)
        && outbox == old(outbox) +
             (if selfId in clients
              then [Delivery(selfId, Error(Reserve,
                      if d in passengerInfo then "The bus with descriptor id '" + d + "' is full"
                      else "A bus with descriptor id '" + d + "' does not exist."))]
              else [])
    {
      var made := false;
      if d in passengerInfo {
        var info := passengerInfo[d];
        if info.passengers + 1 != info.capacity {
          made := true;
          TakeSeat(selfId, d);
        } else {
          SendMessage(Error(Reserve, "The bus with descriptor id '" + d + "' is full"), selfId);
        }
      } else {
        SendMessage(Error(Reserve, "A bus with descriptor id '" + d + "' does not exist."), selfId);
      }
      if made {
        SendPassengerUpdate(d);
      }
    }

    /**
     * `UnreserveSeat`: a client holding `d` gives the seat back (the count
     * on `d` drops by one) and the interested clients are told, unless the
     * descriptor id is empty; a client holding nothing gets an `Unreserve`
     * error and nothing else changes.
     */
    method UnreserveSeat(selfId: Uuid)
      requires Valid() && selfId in clients
      modifies this`passengerInfo, this`outbox, this`clients
      ensures Valid()
      ensures old(clients[selfId].reservedSeat).None? ==>
        passengerInfo == old(passengerInfo) && clients == old(clients)
        && outbox == old(outbox) + [Delivery(selfId, Error(Unreserve, "Cannot unreserve since there is no active reservation."))]
      ensures old(clients[selfId].reservedSeat).Some? ==>
        var d := old(clients[selfId].reservedSeat).value;
        d in old(passengerInfo)
        && passengerInfo == old(passengerInfo)[d := passengerInfo[d]]
        && passengerInfo[d].passengers == old(passengerInfo[d].passengers) - 1
        && passengerInfo[d].capacity == old(passengerInfo[d].capacity)
        && clients == old(clients)[selfId := old(clients)[selfId].(reservedSeat := None)]
        && (d != [] ==> SentToEachOnce(old(outbox), outbox, Interested(clients, d))
                        && forall i | |old(outbox)| <= i < |outbox| :: outbox[i].msg == PassengerInformation(passengerInfo[d]))
        && (d == [] ==> outbox == old(outbox))
    {
      var unreserved := "";
      var seat := clients[selfId].reservedSeat;
      if seat.Some? {
        unreserved := ReleaseSeat(selfId);
      } else {
        SendMessage(Error(Unreserve, "Cannot unreserve since there is no active reservation."), selfId);
      }
      if unreserved != "" {
        SendPassengerUpdate(unreserved);
      }
    }

    /** `RouteRequest`: the reply computed from the identifier goes back to the requester if still connected. */
    method RouteRequest(selfId: Uuid, identifier: string, store: Store, now: u64)
      modifies this`outbox
      ensures outbox == old(outbox) + (if selfId in clients then [Delivery(selfId, RouteResponse(identifier, store, now))] else [])
    {
      var reply := RouteResponse(identifier, store, now);
      SendMessage(reply, selfId);
    }
  }
}
