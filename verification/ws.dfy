/**
 * One websocket session: its heartbeat, the frames it receives from the
 * browser, and what it passes on to the lobby or back to the browser.
 * The clock is an integer count of nanoseconds given to each step.
 */
module Session {
  import opened Wrappers
  import opened Protocol

  /** How often the session pings the browser (5 s). */
  const HEARTBEAT_INTERVAL: nat := 5_000_000_000

  /** How long the browser may stay silent before the session gives up (10 s). */
  const CLIENT_TIMEOUT: nat := 10_000_000_000

  type Bytes = seq<bv8>

  datatype CloseReason = CloseReason(code: nat, description: Option<string>)

  /** A frame received from the browser. */
  datatype Frame =
    | Ping(payload: Bytes)
    | Pong(payload: Bytes)
    | Binary(data: Bytes)
    | Close(reason: Option<CloseReason>)
    | Continuation(item: Bytes)
    | Nop
    | Text(text: string)

  /** A frame sent to the browser; text frames carry a server output. */
  datatype OutFrame =
    | PingOut(payload: Bytes)
    | PongOut(payload: Bytes)
    | BinaryOut(data: Bytes)
    | CloseOut(reason: Option<CloseReason>)
    | TextOut(output: ServerOutput)

  /** `Instant::duration_since`, which is zero when `earlier` is later than `now`. */
  function Elapsed(now: nat, earlier: nat): (r: nat)
    ensures now >= earlier ==> r + earlier == now
    ensures now <= earlier ==> r == 0
  {
    if now >= earlier then now - earlier else 0
  }

  /** The heartbeat test: strictly more than the timeout has passed since the last heartbeat. */
  predicate TimedOut(hb: nat, now: nat) {
    Elapsed(now, hb) > CLIENT_TIMEOUT
  }

  /** A session is never timed out within the timeout of its last heartbeat, and always is after it. */
  lemma TimeoutThreshold(hb: nat, now: nat)
    ensures now <= hb + CLIENT_TIMEOUT ==> !TimedOut(hb, now)
    ensures now > hb + CLIENT_TIMEOUT ==> TimedOut(hb, now)
  {
  }

  /** The time of the `k`-th heartbeat tick of a session whose interval started at `start`. */
  function TickTime(start: nat, k: nat): nat {
    start + k * HEARTBEAT_INTERVAL
  }

  /**
   * With the last heartbeat at `t` (no earlier than the start of the
   * interval), the first tick that finds the session timed out comes no
   * later than one interval after `t + CLIENT_TIMEOUT`, and every earlier
   * tick pings instead.
   */
  lemma {:induction false} TimeoutDetectedWithinOneInterval(start: nat, t: nat)
    requires start <= t
    ensures var k := (t + CLIENT_TIMEOUT - start) / HEARTBEAT_INTERVAL + 1;
      TimedOut(t, TickTime(start, k))
      && TickTime(start, k) <= t + CLIENT_TIMEOUT + HEARTBEAT_INTERVAL
      && forall j | 1 <= j < k :: !TimedOut(t, TickTime(start, j))
  {
    var n := t + CLIENT_TIMEOUT - start;
    var q := n / HEARTBEAT_INTERVAL;
    var r := n % HEARTBEAT_INTERVAL;
    assert n == q * HEARTBEAT_INTERVAL + r && 0 <= r < HEARTBEAT_INTERVAL;
    assert TickTime(start, q + 1) == t + CLIENT_TIMEOUT - r + HEARTBEAT_INTERVAL;
    forall j | 1 <= j < q + 1 ensures !TimedOut(t, TickTime(start, j)) {
      assert j * HEARTBEAT_INTERVAL <= q * HEARTBEAT_INTERVAL;
      TimeoutThreshold(t, TickTime(start, j));
    }
    TimeoutThreshold(t, TickTime(start, q + 1));
  }

  /** What a parsed request is forwarded to the lobby as. */
  function RequestFor(id: Uuid, input: ClientInput): (r: seq<LobbyMessage>)
    ensures |r| <= 1
    ensures r == [] <==> input.GetLineInformation?
    ensures forall m | m in r :: m.selfId == id
    ensures input.GetRouteInformation? ==> r == [LobbyMessage.RouteRequest(id, input.line)]
    ensures input.GeoPositionUpdate? ==> r == [LobbyMessage.PositionUpdate(id, input.geo)]
    ensures input.GetPassengerInformation? ==> r == [LobbyMessage.PassengerInfo(id, input.descriptorId)]
    ensures input.ReserveSeat? ==> r == [LobbyMessage.ReserveSeat(id, input.descriptorId)]
    ensures input.UnreserveSeat? ==> r == [LobbyMessage.UnreserveSeat(id)]
  {
    match input
    case GetLineInformation(_) => []
    case GetRouteInformation(line) => [LobbyMessage.RouteRequest(id, line)]
    case GeoPositionUpdate(geo) => [LobbyMessage.PositionUpdate(id, geo)]
    case GetPassengerInformation(d) => [LobbyMessage.PassengerInfo(id, d)]
    case ReserveSeat(d) => [LobbyMessage.ReserveSeat(id, d)]
    case UnreserveSeat => [LobbyMessage.UnreserveSeat(id)]
  }

  const UnsupportedMessage := Error(UnknownMessage, "Unsupported message")

  class WebsocketClient {
    const id: Uuid
    /** When the browser was last heard from. */
    var hb: nat
    /** Messages posted to the lobby, in order. */
    var toLobby: seq<LobbyMessage>
    /** Frames sent to the browser, in order. */
    var toClient: seq<OutFrame>
    var stopped: bool
    var heartbeatRunning: bool

    /** `WebsocketClient::new`: the id is drawn by the caller and the heartbeat starts now. */
    constructor (id: Uuid, now: nat)
      ensures this.id == id && hb == now
      ensures toLobby == [] && toClient == [] && !stopped && !heartbeatRunning
    {
      this.id := id;
      hb := now;
      toLobby := [];
      toClient := [];
      stopped := false;
      heartbeatRunning := false;
    }

    /** `started`: the heartbeat interval begins and the lobby is told of the connection. */
    method Started(addr: Socket)
      modifies this`heartbeatRunning, this`toLobby
      ensures heartbeatRunning
      ensures toLobby == old(toLobby) + [Connect(addr, id)]
    {
      heartbeatRunning := true;
      toLobby := toLobby + [Connect(addr, id)];
    }

    /** `stopping`: the lobby is told of the disconnection. */
    method Stopping()
      modifies this`toLobby
      ensures toLobby == old(toLobby) + [Disconnect(id)]
    {
      toLobby := toLobby + [Disconnect(id)];
    }

    /**
     * One heartbeat tick: a timed-out session tells the lobby it is gone
     * and stops without pinging; otherwise it sends exactly one empty ping.
     */
    method HeartbeatTick(now: nat)
      modifies this`toLobby, this`toClient, this`stopped
      ensures TimedOut(hb, now) ==>
        toLobby == old(toLobby) + [Disconnect(id)] && stopped && toClient == old(toClient)
      ensures !TimedOut(hb, now) ==>
        toClient == old(toClient) + [PingOut([])] && toLobby == old(toLobby) && stopped == old(stopped)
    {
      if Elapsed(now, hb) > CLIENT_TIMEOUT {
        toLobby := toLobby + [Disconnect(id)];
        stopped := true;
        return;
      }
      toClient := toClient + [PingOut([])];
    }

    /**
     * The frame dispatch.  Ping and Pong refresh the heartbeat (Ping is
     * answered with a Pong of the same payload); Binary is echoed; Close
     * closes and stops; Continuation stops; Nop does nothing; Text is parsed
     * by `parse` (the JSON decoder) and forwarded to the lobby, or answered
     * with an `UnknownMessage` error when it does not parse.
     */
    method HandleFrame(frame: Frame, now: nat, parse: string -> Option<ClientInput>)
      modifies this`hb, this`toLobby, this`toClient, this`stopped
      ensures hb == (if frame.Ping? || frame.Pong? then now else old(hb))
      ensures stopped == (old(stopped) || frame.Close? || frame.Continuation?)
      ensures !frame.Text? ==> toLobby == old(toLobby)
      ensures frame.Ping? ==> toClient == old(toClient) + [PongOut(frame.payload)]
      ensures frame.Binary? ==> toClient == old(toClient) + [BinaryOut(frame.data)]
      ensures frame.Close? ==> toClient == old(toClient) + [CloseOut(frame.reason)]
      ensures frame.Pong? || frame.Continuation? || frame.Nop? ==> toClient == old(toClient)
      ensures frame.Text? && parse(frame.text).None? ==>
        toClient == old(toClient) + [TextOut(UnsupportedMessage)] && toLobby == old(toLobby)
      ensures frame.Text? && parse(frame.text).Some? ==>
        toClient == old(toClient) && toLobby == old(toLobby) + RequestFor(id, parse(frame.text).value)
    {
      match frame
      case Ping(payload) =>
        hb := now;
        toClient := toClient + [PongOut(payload)];
      case Pong(_) =>
        hb := now;
      case Binary(data) =>
        toClient := toClient + [BinaryOut(data)];
      case Close(reason) =>
        toClient := toClient + [CloseOut(reason)];
        stopped := true;
      case Continuation(_) =>
        stopped := true;
      case Nop =>
      case Text(text) =>
        match parse(text)
        case Some(input) =>
          toLobby := toLobby + RequestFor(id, input);
        case None =>
          toClient := toClient + [TextOut(UnsupportedMessage)];
    }

    /** The `WsMessage` handler: a lobby message is relayed to the browser as a text frame. */
    method Relay(msg: ServerOutput)
      modifies this`toClient
      ensures toClient == old(toClient) + [TextOut(msg)]
    {
      toClient := toClient + [TextOut(msg)];
    }
  }
}

/**
 * A session and the lobby together: what a heartbeat timeout does to the
 * lobby once the session's messages are delivered.
 */
module SessionLobby {
  import opened Protocol
  import opened Session
  import LobbyActor

  /**
   * A timed-out session posts `Disconnect` from the tick and again from
   * `stopping`; delivered in order, the two leave the lobby exactly as one
   * would: the client gone, everything else as it was.
   */
  method TimeoutDisconnectsOnce(s: WebsocketClient, lobby: LobbyActor.Lobby, now: nat)
    requires lobby.Valid() && TimedOut(s.hb, now)
    modifies s, lobby
    ensures s.toLobby == old(s.toLobby) + [Disconnect(s.id), Disconnect(s.id)]
    ensures lobby.Valid()
    ensures lobby.clients == old(lobby.clients) - {s.id}
    ensures lobby.passengerInfo == old(lobby.passengerInfo) && lobby.outbox == old(lobby.outbox)
  {
    var before := |s.toLobby|;
    s.HeartbeatTick(now);
    s.Stopping();
    var i := before;
    while i < |s.toLobby|
      invariant before <= i <= |s.toLobby|
      invariant lobby.Valid()
      invariant lobby.clients == old(lobby.clients) - {s.id}
                || (i == before && lobby.clients == old(lobby.clients))
      invariant lobby.passengerInfo == old(lobby.passengerInfo) && lobby.outbox == old(lobby.outbox)
      invariant s.toLobby == old(s.toLobby) + [Disconnect(s.id), Disconnect(s.id)]
      invariant s.hb == old(s.hb)
      modifies lobby
    {
      var m := s.toLobby[i];
      assert m == Disconnect(s.id);
      lobby.Disconnect(m.selfId);
      i := i + 1;
    }
  }
}
