/**
 * The lobby's record of one connected client, updated in place by the
 * lobby's handlers.
 */
module Client {
  import opened Wrappers
  import opened Protocol

  /** The contents of a client record at one moment. */
  datatype ClientRecord = ClientRecord(
    id: Uuid,
    addr: Socket,
    position: Option<GeoPosition>,
    reservedSeat: Option<string>,
    lastDescriptorRequest: Option<string>)

  /** A record as `ClientData::new` makes it: nothing known yet about the client. */
  function FreshRecord(id: Uuid, addr: Socket): (r: ClientRecord)
    ensures r.id == id && r.addr == addr
    ensures r.position.None? && r.reservedSeat.None? && r.lastDescriptorRequest.None?
  {
    ClientRecord(id, addr, None, None, None)
  }

  /** The record after `update_position(p)`. */
  function Positioned(r: ClientRecord, p: GeoPosition): ClientRecord {
    r.(position := Some(p))
  }

  /** The record after `update_last_descriptor(d)`. */
  function Requested(r: ClientRecord, d: string): ClientRecord {
    r.(lastDescriptorRequest := Some(d))
  }

  /** Each setter is last-write-wins, the two setters commute, and neither touches the id, address or seat. */
  lemma SettersLastWriteWins(r: ClientRecord, p1: GeoPosition, p2: GeoPosition, d1: string, d2: string)
    ensures Positioned(Positioned(r, p1), p2) == Positioned(r, p2)
    ensures Requested(Requested(r, d1), d2) == Requested(r, d2)
    ensures Requested(Positioned(r, p1), d1) == Positioned(Requested(r, d1), p1)
    ensures Positioned(r, p1).id == r.id && Requested(r, d1).id == r.id
    ensures Positioned(r, p1).addr == r.addr && Requested(r, d1).addr == r.addr
    ensures Positioned(r, p1).reservedSeat == r.reservedSeat && Requested(r, d1).reservedSeat == r.reservedSeat
    ensures Positioned(r, p1).lastDescriptorRequest == r.lastDescriptorRequest
    ensures Requested(r, d1).position == r.position
  {
  }

  class ClientData {
    /** Never written after construction. */
    const id: Uuid
    const addr: Socket
    var position: Option<GeoPosition>
    /** Written directly by the lobby's seat handlers. */
    var reservedSeat: Option<string>
    var lastDescriptorRequest: Option<string>

    function Snapshot(): ClientRecord
      reads this
    {
      ClientRecord(id, addr, position, reservedSeat, lastDescriptorRequest)
    }

    /** `ClientData::new`. */
    constructor (id: Uuid, addr: Socket)
      ensures Snapshot() == FreshRecord(id, addr)
    {
      this.id := id;
      this.addr := addr;
      position := None;
      reservedSeat := None;
      lastDescriptorRequest := None;
    }

    /** `update_position`. */
    method UpdatePosition(p: GeoPosition)
      modifies this
      ensures Snapshot() == Positioned(old(Snapshot()), p)
    {
      position := Some(p);
    }

    /** `update_last_descriptor`. */
    method UpdateLastDescriptor(d: string)
      modifies this
      ensures Snapshot() == Requested(old(Snapshot()), d)
    {
      lastDescriptorRequest := Some(d);
    }
  }
}
