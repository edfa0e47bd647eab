/**
 * The pure parts of the lobby: the vehicle filters, the classification of
 * a route identifier and the reply to a route request, and the seat
 * accounting that the lobby's handlers keep.
 */
module LobbyRules {
  import opened Wrappers
  import opened GtfsWire
  import opened Protocol
  import opened Client
  import RT = RealtimeMessages

  // ======================= Filtering =======================

  /** The elements of `xs` that `keep` accepts, in their original order. */
  function Filter<T>(xs: seq<T>, keep: T -> bool): (r: seq<T>)
    ensures |r| <= |xs|
    ensures forall x | x in r :: x in xs && keep(x)
    ensures forall x | x in xs && keep(x) :: x in r
    ensures forall x | x in xs :: multiset(r)[x] == if keep(x) then multiset(xs)[x] else 0
  {
    if xs == [] then []
    else
      assert xs == [xs[0]] + xs[1..];
      (if keep(xs[0]) then [xs[0]] else []) + Filter(xs[1..], keep)
  }

  /** `r` is obtained from `xs` by deleting elements. */
  ghost predicate IsSubsequence<T>(r: seq<T>, xs: seq<T>)
    decreases |xs|
  {
    r == [] || (xs != [] && ((r[0] == xs[0] && IsSubsequence(r[1..], xs[1..])) || IsSubsequence(r, xs[1..])))
  }

  /** Filtering keeps the order of the elements it keeps, and keeps everything when everything is accepted. */
  lemma {:induction false} FilterPreservesOrder<T>(xs: seq<T>, keep: T -> bool)
    ensures IsSubsequence(Filter(xs, keep), xs)
    ensures (forall x | x in xs :: keep(x)) ==> Filter(xs, keep) == xs
    decreases |xs|
  {
    if xs != [] {
      FilterPreservesOrder(xs[1..], keep);
      var r := Filter(xs, keep);
      if keep(xs[0]) {
        assert r == [xs[0]] + Filter(xs[1..], keep);
        assert r[1..] == Filter(xs[1..], keep);
      } else {
        assert r == Filter(xs[1..], keep);
      }
      if forall x | x in xs :: keep(x) {
        assert forall x | x in xs[1..] :: keep(x) by {
          forall x | x in xs[1..] ensures keep(x) { assert x in xs; }
        }
        assert xs == [xs[0]] + xs[1..];
      }
    }
  }

  /** `filter_vehicle_position` with the client's position fixed: the geodesic distance test is the parameter `visible`. */
  function VisibleFrom(visible: (GeoPosition, Vehicle) -> bool, pos: GeoPosition): Vehicle -> bool {
    (v: Vehicle) => visible(pos, v)
  }

  /** The test the echo handler filters by: the vehicle is on a trip. */
  function HasTripId(v: Vehicle): bool {
    v.tripId.Some?
  }

  /** Only vehicles with a trip id survive, in feed order, and none of them is dropped. */
  lemma TripFilter(vs: seq<Vehicle>)
    ensures forall v | v in Filter(vs, HasTripId) :: v in vs && v.tripId.Some?
    ensures forall v | v in vs && v.tripId.Some? :: v in Filter(vs, HasTripId)
    ensures IsSubsequence(Filter(vs, HasTripId), vs)
    ensures forall v | v in vs ::
              multiset(Filter(vs, HasTripId))[v] == if v.tripId.Some? then multiset(vs)[v] else 0
  {
    FilterPreservesOrder(vs, HasTripId);
  }

  // ======================= Vehicles from the realtime feed =======================

  /** The fields the echo handler unwraps are present. */
  predicate Echoable(e: RT.FeedEntity) {
    e.vehicle.Some? && e.vehicle.value.vehicle.Some? && e.vehicle.value.vehicle.value.id.Some?
    && e.vehicle.value.position.Some?
  }

  /** The vehicle an entity of the feed becomes, before its line is looked up. */
  function ToVehicle(e: RT.FeedEntity): (v: Vehicle)
    requires Echoable(e)
    ensures v.descriptorId == e.vehicle.value.vehicle.value.id.value
    ensures v.position == e.vehicle.value.position.value
    ensures v.line.None?
    ensures v.tripId.Some? <==> e.vehicle.value.trip.Some? && e.vehicle.value.trip.value.tripId.Some?
    ensures v.tripId.Some? ==> v.tripId == e.vehicle.value.trip.value.tripId
  {
    var vp := e.vehicle.value;
    var tripId := match vp.trip
      case Some(t) => t.tripId
      case None => None;
    Vehicle(vp.vehicle.value.id.value, None, tripId, vp.position.value)
  }

  function VehiclesOf(es: seq<RT.FeedEntity>): (vs: seq<Vehicle>)
    requires forall e | e in es :: Echoable(e)
    ensures |vs| == |es|
    ensures forall i | 0 <= i < |es| :: vs[i] == ToVehicle(es[i])
  {
    seq(|es|, i requires 0 <= i < |es| => ToVehicle(es[i]))
  }

  // ======================= Static data lookups =======================

  type u8 = x: int | 0 <= x < 0x100

  datatype Route = Route(routeId: string, routeShortName: string)

  datatype Trip = Trip(routeId: string, tripId: string, shapeId: u8)

  /** The database queries the lobby makes, each of which may find nothing. */
  datatype Store = Store(
    routeByShortName: string -> Option<Route>,
    routeById: string -> Option<Route>,
    tripById: string -> Option<Trip>,
    tripByRouteId: string -> Option<Trip>,
    shapesById: string -> Option<seq<RouteNode>>)

  /** A vehicle with its line filled in from its trip's route, when both are found. */
  function Enriched(v: Vehicle, store: Store): (r: Vehicle)
    ensures r.descriptorId == v.descriptorId && r.tripId == v.tripId && r.position == v.position
  {
    match v.tripId
    case None => v
    case Some(tripId) =>
      match store.tripById(tripId)
      case None => v
      case Some(trip) =>
        match store.routeById(trip.routeId)
        case None => v
        case Some(route) => v.(line := Some(route.routeShortName))
  }

  /** The line is set exactly when the trip and then its route are found, and is that route's short name. */
  lemma EnrichedLine(v: Vehicle, store: Store)
    ensures var r := Enriched(v, store);
      var found := v.tripId.Some? && store.tripById(v.tripId.value).Some?
                   && store.routeById(store.tripById(v.tripId.value).value.routeId).Some?;
      (found ==> r.line == Some(store.routeById(store.tripById(v.tripId.value).value.routeId).value.routeShortName))
      && (!found ==> r == v)
  {
  }

  function Enrichment(vs: seq<Vehicle>, store: Store): (r: seq<Vehicle>)
    ensures |r| == |vs|
    ensures forall i | 0 <= i < |vs| :: r[i] == Enriched(vs[i], store)
  {
    seq(|vs|, i requires 0 <= i < |vs| => Enriched(vs[i], store))
  }

  /** The vehicles one echo sends out of: the feed's vehicles with a trip id, their lines filled in. */
  function EchoedVehicles(es: seq<RT.FeedEntity>, store: Store): seq<Vehicle>
    requires forall e | e in es :: Echoable(e)
  {
    Enrichment(Filter(VehiclesOf(es), HasTripId), store)
  }

  /** Every echoed vehicle is on a trip and comes from the feed. */
  lemma EchoedVehiclesOnTrips(es: seq<RT.FeedEntity>, store: Store)
    requires forall e | e in es :: Echoable(e)
    ensures forall v | v in EchoedVehicles(es, store) ::
      v.tripId.Some? && exists e | e in es :: ToVehicle(e).descriptorId == v.descriptorId && ToVehicle(e).tripId == v.tripId
  {
    var kept := Filter(VehiclesOf(es), HasTripId);
    forall v | v in EchoedVehicles(es, store)
      ensures v.tripId.Some? && exists e | e in es :: ToVehicle(e).descriptorId == v.descriptorId && ToVehicle(e).tripId == v.tripId
    {
      var i :| 0 <= i < |kept| && v == Enriched(kept[i], store);
      assert kept[i] in VehiclesOf(es);
      var j :| 0 <= j < |es| && VehiclesOf(es)[j] == kept[i];
      assert es[j] in es;
    }
  }

  // ======================= Route requests =======================

  /** The all-digits test the route handler applies (`only_numbers`). */
  predicate OnlyNumbers(s: string) {
    forall i | 0 <= i < |s| :: '0' <= s[i] <= '9'
  }

  datatype IdentifierKind = Invalid | LineNumber | TripId

  /** An identifier is rejected when empty or not all digits; up to three digits name a line, more a trip. */
  function Classify(identifier: string): (k: IdentifierKind)
    ensures k == Invalid <==> identifier == [] || !OnlyNumbers(identifier)
    ensures k == LineNumber <==> identifier != [] && OnlyNumbers(identifier) && |identifier| <= 3
    ensures k == TripId <==> OnlyNumbers(identifier) && |identifier| > 3
  {
    if identifier == [] || !OnlyNumbers(identifier) then Invalid
    else if |identifier| <= 3 then LineNumber
    else TripId
  }

  /** The decimal text of a number (`to_string` on an integer). */
  function DecimalString(n: nat): (s: string)
    ensures s != [] && OnlyNumbers(s)
    ensures |s| == 1 <==> n < 10
    ensures |s| > 1 ==> s[0] != '0'
    decreases n
  {
    if n < 10 then [Digit(n)] else DecimalString(n / 10) + [Digit(n % 10)]
  }

  function Digit(n: nat): (c: char)
    requires n < 10
    ensures '0' <= c <= '9'
  {
    ['0', '1', '2', '3', '4', '5', '6', '7', '8', '9'][n]
  }

  function DigitValue(c: char): nat
    requires '0' <= c <= '9'
  {
    c as int - '0' as int
  }

  function DecimalValue(s: string): nat
    requires OnlyNumbers(s)
  {
    if s == [] then 0 else 10 * DecimalValue(s[..|s| - 1]) + DigitValue(s[|s| - 1])
  }

  /** Reading back the decimal text of a number gives the number. */
  lemma {:induction false} DecimalRoundTrip(n: nat)
    ensures DecimalValue(DecimalString(n)) == n
    decreases n
  {
    var s := DecimalString(n);
    if n < 10 {
      assert s[..|s| - 1] == [];
    } else {
      DecimalRoundTrip(n / 10);
      assert s[..|s| - 1] == DecimalString(n / 10);
    }
  }

  /** The decimal text is the only digit string without a leading zero that reads back as its number. */
  lemma {:induction false} DecimalStringCanonical(t: string)
    requires t != [] && OnlyNumbers(t) && (|t| > 1 ==> t[0] != '0')
    ensures t == DecimalString(DecimalValue(t))
    decreases |t|
  {
    var n := DecimalValue(t);
    var last := t[|t| - 1];
    var init := t[..|t| - 1];
    assert OnlyNumbers(init);
    assert n == 10 * DecimalValue(init) + DigitValue(last);
    DigitOfValue(last);
    if |t| == 1 {
      assert init == [];
      assert DecimalString(n) == [Digit(n)];
    } else {
      assert init[0] == t[0];
      DecimalStringCanonical(init);
      var m := DecimalValue(init);
      assert m >= 1 by {
        if |init| > 1 {
          assert |DecimalString(m)| > 1;
        }
      }
      ShiftDigit(m, DigitValue(last));
      assert DecimalString(n) == DecimalString(m) + [Digit(DigitValue(last))];
      assert t == init + [last];
    }
  }

  lemma DigitOfValue(c: char)
    requires '0' <= c <= '9'
    ensures Digit(DigitValue(c)) == c
  {
  }

  /** Appending a digit multiplies by ten and adds it. */
  lemma ShiftDigit(m: nat, d: nat)
    requires d < 10
    ensures (10 * m + d) / 10 == m && (10 * m + d) % 10 == d
  {
  }

  /** The trip whose shape is looked up, if any: via the line's route for a line number, directly for a trip id. */
  function TripFor(identifier: string, store: Store): Option<Trip> {
    match Classify(identifier)
    case Invalid => None
    case LineNumber =>
      (match store.routeByShortName(identifier)
       case None => None
       case Some(route) => store.tripByRouteId(route.routeId))
    case TripId => store.tripById(identifier)
  }

  const RetrieveFailed := "Unable to retrieve data"

  function ShapesReply(trip: Option<Trip>, store: Store, now: u64): ServerOutput {
    match trip
    case None => Error(ServerError, RetrieveFailed)
    case Some(t) =>
      match store.shapesById(DecimalString(t.shapeId))
      case None => Error(ServerError, RetrieveFailed)
      case Some(nodes) => RouteInformation(now, nodes)
  }

  /** What the route handler sends back to the requesting client. */
  function RouteResponse(identifier: string, store: Store, now: u64): ServerOutput {
    match Classify(identifier)
    case Invalid => Error(RouteInfo, "'" + identifier + "' is not a valid identifier")
    case LineNumber =>
      (match store.routeByShortName(identifier)
       case None => Error(RouteInfo, "'" + identifier + "' is not a valid line number")
       case Some(route) => ShapesReply(store.tripByRouteId(route.routeId), store, now))
    case TripId => ShapesReply(store.tripById(identifier), store, now)
  }

  /** A rejected identifier is answered without consulting the database. */
  lemma InvalidIdentifierNeedsNoLookup(identifier: string, s1: Store, s2: Store, now: u64)
    requires identifier == [] || !OnlyNumbers(identifier)
    ensures RouteResponse(identifier, s1, now) == RouteResponse(identifier, s2, now)
    ensures RouteResponse(identifier, s1, now) == Error(RouteInfo, "'" + identifier + "' is not a valid identifier")
  {
  }

  /**
   * The outcome of a route request: a route exactly when a trip is found and
   * its shape too; a `RouteInfo` error exactly for a rejected identifier or
   * an unknown line; a `ServerError` otherwise.
   */
  lemma RouteResponseOutcome(identifier: string, store: Store, now: u64)
    ensures var r := RouteResponse(identifier, store, now);
      var trip := TripFor(identifier, store);
      (r.RouteInformation? <==> trip.Some? && store.shapesById(DecimalString(trip.value.shapeId)).Some?)
      && (r.RouteInformation? ==> r.timestamp == now && r.route == store.shapesById(DecimalString(trip.value.shapeId)).value)
      && (r.Error? && r.errorType == RouteInfo <==>
            Classify(identifier) == Invalid || (Classify(identifier) == LineNumber && store.routeByShortName(identifier).None?))
      && (r.Error? && r.errorType == ServerError <==>
            !r.RouteInformation? && Classify(identifier) != Invalid
            && !(Classify(identifier) == LineNumber && store.routeByShortName(identifier).None?))
  {
  }

  /** An identifier of more than three digits is looked up as a trip id even when a line with that name exists. */
  lemma LongIdentifierIsTrip(identifier: string, store: Store, now: u64)
    requires OnlyNumbers(identifier) && |identifier| > 3
    ensures RouteResponse(identifier, store, now) == ShapesReply(store.tripById(identifier), store, now)
  {
  }

  // ======================= Seat accounting =======================

  /** The clients currently holding a seat on `d`. */
  function Holders(t: map<Uuid, ClientRecord>, d: string): set<Uuid> {
    set k | k in t && t[k].reservedSeat == Some(d)
  }

  /** The clients whose last passenger-information request was for `d`. */
  function Interested(t: map<Uuid, ClientRecord>, d: string): set<Uuid> {
    set k | k in t && t[k].lastDescriptorRequest == Some(d)
  }

  /**
   * The seat invariant.  `seeded[d]` is the passenger count `d`'s entry was
   * created with.  Every held seat is on a bus with an entry, each entry's
   * capacity stays in its drawn range, and the passenger count is at least
   * what it was created with plus the live holders and stays below the
   * capacity.
   */
  ghost predicate SeatsAccounted(t: map<Uuid, ClientRecord>, pi: map<string, PassengerInformationOutput>, seeded: map<string, int>) {
    seeded.Keys == pi.Keys
    && (forall k | k in t && t[k].reservedSeat.Some? :: t[k].reservedSeat.value in pi)
    && (forall d | d in pi :: 20 <= pi[d].capacity < 35 && 0 <= seeded[d])
    && (forall d | d in pi :: seeded[d] + |Holders(t, d)| <= pi[d].passengers < pi[d].capacity)
  }

  /** Every record is filed under its own id. */
  ghost predicate KeyedById(t: map<Uuid, ClientRecord>) {
    forall k | k in t :: t[k].id == k
  }

  /** The lobby's invariant over its client table, passenger table and creation counts. */
  ghost predicate LobbyInvariant(t: map<Uuid, ClientRecord>, pi: map<string, PassengerInformationOutput>, seeded: map<string, int>) {
    KeyedById(t) && SeatsAccounted(t, pi, seeded)
  }

  lemma SubsetCard<T>(a: set<T>, b: set<T>)
    requires a <= b
    ensures |a| <= |b|
  {
    assert b == a + (b - a);
  }

  /** Records that keep or drop their seats, and no new holders, keep the accounts. */
  lemma FewerHolders(t: map<Uuid, ClientRecord>, t': map<Uuid, ClientRecord>, pi: map<string, PassengerInformationOutput>, seeded: map<string, int>)
    requires SeatsAccounted(t, pi, seeded)
    requires forall k | k in t' && t'[k].reservedSeat.Some? :: k in t && t[k].reservedSeat == t'[k].reservedSeat
    ensures SeatsAccounted(t', pi, seeded)
  {
    forall d | d in pi ensures seeded[d] + |Holders(t', d)| <= pi[d].passengers {
      SubsetCard(Holders(t', d), Holders(t, d));
    }
  }

  /** A (re)connecting client holds no seat; a replaced record's seat is forgotten, never double-counted. */
  lemma ConnectKeepsAccounts(t: map<Uuid, ClientRecord>, pi: map<string, PassengerInformationOutput>, seeded: map<string, int>, k: Uuid, addr: Socket)
    requires LobbyInvariant(t, pi, seeded)
    ensures LobbyInvariant(t[k := FreshRecord(k, addr)], pi, seeded)
  {
    FewerHolders(t, t[k := FreshRecord(k, addr)], pi, seeded);
  }

  /** Disconnecting drops the client and keeps its seat counted. */
  lemma DisconnectKeepsAccounts(t: map<Uuid, ClientRecord>, pi: map<string, PassengerInformationOutput>, seeded: map<string, int>, k: Uuid)
    requires LobbyInvariant(t, pi, seeded)
    ensures LobbyInvariant(t - {k}, pi, seeded)
  {
    FewerHolders(t, t - {k}, pi, seeded);
  }

  /** Updating a client's position or last request leaves every seat where it was. */
  lemma RequestKeepsAccounts(t: map<Uuid, ClientRecord>, pi: map<string, PassengerInformationOutput>, seeded: map<string, int>, k: Uuid, p: GeoPosition, d: string)
    requires LobbyInvariant(t, pi, seeded) && k in t
    ensures LobbyInvariant(t[k := Positioned(t[k], p)], pi, seeded)
    ensures LobbyInvariant(t[k := Requested(t[k], d)], pi, seeded)
  {
    FewerHolders(t, t[k := Positioned(t[k], p)], pi, seeded);
    FewerHolders(t, t[k := Requested(t[k], d)], pi, seeded);
  }

  /** A new entry drawn in the handler's ranges starts with no holders and satisfies the invariant. */
  lemma NewEntryKeepsAccounts(t: map<Uuid, ClientRecord>, pi: map<string, PassengerInformationOutput>, seeded: map<string, int>,
                              d: string, passengers: i32, capacity: i32)
    requires LobbyInvariant(t, pi, seeded) && d !in pi
    requires 0 <= passengers < 15 && 20 <= capacity < 35
    ensures LobbyInvariant(t, pi[d := PassengerInformationOutput(capacity, passengers)], seeded[d := passengers])
  {
    forall k | k in t ensures t[k].reservedSeat != Some(d) {
      if t[k].reservedSeat.Some? {
        assert t[k].reservedSeat.value in pi;
      }
    }
    assert Holders(t, d) == {};
  }

  /** Whether a reserve on `d` succeeds: the bus is known and taking one more passenger would not fill it. */
  predicate CanReserve(pi: map<string, PassengerInformationOutput>, d: string) {
    d in pi && pi[d].passengers + 1 != pi[d].capacity
  }

  /**
   * A successful reserve: the count on `d` rises by one and `k` holds `d`.
   * The invariant survives even when `k` already held a seat (on `d` or
   * elsewhere), which is overwritten and stays counted.
   */
  lemma ReserveKeepsAccounts(t: map<Uuid, ClientRecord>, pi: map<string, PassengerInformationOutput>, seeded: map<string, int>, k: Uuid, d: string)
    requires LobbyInvariant(t, pi, seeded) && k in t && CanReserve(pi, d)
    ensures pi[d].passengers + 1 < pi[d].capacity
      && LobbyInvariant(t[k := t[k].(reservedSeat := Some(d))],
                        pi[d := pi[d].(passengers := pi[d].passengers + 1)], seeded)
  {
    var t' := t[k := t[k].(reservedSeat := Some(d))];
    var pi' := pi[d := pi[d].(passengers := pi[d].passengers + 1)];
    forall e | e in pi' ensures seeded[e] + |Holders(t', e)| <= pi'[e].passengers {
      if e == d {
        assert Holders(t', e) <= Holders(t, e) + {k};
        SubsetCard(Holders(t', e), Holders(t, e) + {k});
      } else {
        SubsetCard(Holders(t', e), Holders(t, e));
      }
    }
  }

  /**
   * An unreserve by a holder of `d`: the count on `d` is at least one, so
   * the decrement cannot go below zero, and after it the invariant holds.
   */
  lemma UnreserveKeepsAccounts(t: map<Uuid, ClientRecord>, pi: map<string, PassengerInformationOutput>, seeded: map<string, int>, k: Uuid)
    requires LobbyInvariant(t, pi, seeded) && k in t && t[k].reservedSeat.Some?
    ensures var d := t[k].reservedSeat.value;
      d in pi && pi[d].passengers >= 1
      && LobbyInvariant(t[k := t[k].(reservedSeat := None)],
                        pi[d := pi[d].(passengers := pi[d].passengers - 1)], seeded)
  {
    var d := t[k].reservedSeat.value;
    assert k in Holders(t, d);
    var t' := t[k := t[k].(reservedSeat := None)];
    var pi' := pi[d := pi[d].(passengers := pi[d].passengers - 1)];
    forall e | e in pi' ensures seeded[e] + |Holders(t', e)| <= pi'[e].passengers {
      if e == d {
        assert Holders(t', e) == Holders(t, e) - {k};
      } else {
        SubsetCard(Holders(t', e), Holders(t, e));
      }
    }
  }

  /** Whatever the handlers have done, a bus is never full: at most `capacity - 1` seats are ever taken. */
  lemma NeverFull(t: map<Uuid, ClientRecord>, pi: map<string, PassengerInformationOutput>, seeded: map<string, int>, d: string)
    requires LobbyInvariant(t, pi, seeded) && d in pi
    ensures 0 <= pi[d].passengers <= pi[d].capacity - 1
    ensures |Holders(t, d)| < pi[d].capacity
  {
  }
}
