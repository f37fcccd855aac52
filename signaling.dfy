/**
 * The peer-connection registries of the two WebRTC servers and the handler
 * table of `WebRTCSignalingManager`. A peer connection is an opaque object,
 * modelled by a serial number handed out as connections are created; SDP
 * negotiation on it is outside the model.
 */
module Signaling {
  import opened Wrappers
  import opened Json
  import opened WebrtcModels
  import opened DataChannel
  import EchoChannel

  /** An `RTCPeerConnection` object. */
  datatype Conn = Conn(serial: nat)

  /** A registered message handler (a Python callable). */
  datatype Handler = Handler(id: nat)

  /** `offer.pc_id` when it is truthy: present and non-empty. */
  function RequestedId(offer: Offer): Option<string> {
    if offer.pcId.Some? && offer.pcId.value != "" then offer.pcId else None
  }

  /** The id a new connection is stored under: `offer.pc_id or str(uuid.uuid4())`. */
  function NewId(offer: Offer, freshId: string): string {
    RequestedId(offer).GetOr(freshId)
  }

  /** A connection state that removes the connection from the registry. */
  predicate Terminal(state: string) {
    state == "failed" || state == "closed"
  }

  class Manager {
    var handlers: map<string, Handler>
    var peers: map<string, Conn>
    var nextConn: nat
    /** Connections closed by the manager, in order. */
    var closed: seq<Conn>

    /** Every stored connection was created by this manager. */
    predicate Valid()
      reads this
    {
      forall id :: id in peers ==> peers[id].serial < nextConn
    }

    constructor()
      ensures Valid() && handlers == map[] && peers == map[] && closed == []
    {
      handlers := map[];
      peers := map[];
      nextConn := 0;
      closed := [];
    }

    /** `register_message_handler`: a second registration for a type replaces the first. */
    method RegisterHandler(msgType: string, h: Handler)
      requires Valid()
      modifies this
      ensures Valid()
      ensures handlers == old(handlers)[msgType := h]
      ensures peers == old(peers) && nextConn == old(nextConn) && closed == old(closed)
    {
      handlers := handlers[msgType := h];
    }

    method NewConn() returns (pc: Conn)
      requires Valid()
      modifies this
      ensures Valid()
      ensures pc == Conn(old(nextConn)) && nextConn == old(nextConn) + 1
      ensures handlers == old(handlers) && peers == old(peers) && closed == old(closed)
    {
      pc := Conn(nextConn);
      nextConn := nextConn + 1;
    }

    /**
     * The registry part of `process_offer`: a truthy `pc_id` that is already
     * registered reuses its connection, or with `restart_pc` closes it and
     * stores a new one under the same id; otherwise a new connection is
     * stored under `pc_id`, or under `freshId` when `pc_id` is missing or empty.
     */
    method ProcessOffer(offer: Offer, freshId: string) returns (pcId: string, pc: Conn)
      requires Valid()
      modifies this
      ensures Valid()
      ensures handlers == old(handlers)
      ensures RequestedId(offer).Some? && RequestedId(offer).value in old(peers) ==>
        pcId == offer.pcId.value &&
        if offer.restartPc == Some(true) then
          && pc == Conn(old(nextConn)) && peers == old(peers)[pcId := pc]
          && closed == old(closed) + [old(peers)[pcId]]
        else
          pc == old(peers)[pcId] && peers == old(peers) && closed == old(closed)
      ensures !(RequestedId(offer).Some? && RequestedId(offer).value in old(peers)) ==>
        && pcId == NewId(offer, freshId) && pc == Conn(old(nextConn))
        && peers == old(peers)[pcId := pc] && closed == old(closed)
      ensures pc.serial < nextConn && pcId in peers && peers[pcId] == pc
    {
      var requested := RequestedId(offer);
      if requested.Some? && requested.value in peers {
        pcId := requested.value;
        pc := peers[pcId];
        if offer.restartPc == Some(true) {
          closed := closed + [pc];
          pc := NewConn();
          peers := peers[pcId := pc];
        }
      } else {
        pc := NewConn();
        pcId := NewId(offer, freshId);
        peers := peers[pcId := pc];
      }
    }

    /**
     * `on_connectionstatechange` of the connection `owner` that was registered
     * under `pcId`: a failed or closed state deletes `pcId`, whichever
     * connection is stored there now.
     */
    method OnConnectionStateChange(owner: Conn, pcId: string, state: string)
      requires Valid()
      modifies this
      ensures Valid()
      ensures peers == if Terminal(state) then old(peers) - {pcId} else old(peers)
      ensures handlers == old(handlers) && nextConn == old(nextConn) && closed == old(closed)
    {
      if Terminal(state) && pcId in peers {
        peers := peers - {pcId};
      }
    }

    /** The removal rule as intended: only the connection that failed leaves the registry. */
    method OnConnectionStateChangeGuarded(owner: Conn, pcId: string, state: string)
      requires Valid()
      modifies this
      ensures Valid()
      ensures peers == if Terminal(state) && pcId in old(peers) && old(peers)[pcId] == owner
                       then old(peers) - {pcId} else old(peers)
      ensures handlers == old(handlers) && nextConn == old(nextConn) && closed == old(closed)
    {
      if Terminal(state) && pcId in peers && peers[pcId] == owner {
        peers := peers - {pcId};
      }
    }

    /** `close_all_connections`: every stored connection is closed and the registry is emptied. */
    method CloseAll()
      requires Valid()
      modifies this
      ensures Valid()
      ensures peers == map[]
      ensures |closed| == |old(closed)| + |old(peers)| && closed[..|old(closed)|] == old(closed)
      ensures forall id :: id in old(peers) ==> old(peers)[id] in closed[|old(closed)|..]
      ensures handlers == old(handlers) && nextConn == old(nextConn)
    {
      var rest := peers;
      var done := closed;
      while rest != map[]
        invariant rest.Keys <= old(peers).Keys && forall id :: id in rest ==> rest[id] == old(peers)[id]
        invariant |done| == |old(closed)| + |old(peers)| - |rest| && done[..|old(closed)|] == old(closed)
        invariant forall id :: id in old(peers) && id !in rest ==> old(peers)[id] in done[|old(closed)|..]
        decreases |rest|
      {
        var id :| id in rest;
        ghost var before := done;
        done := done + [rest[id]];
        assert forall k :: 0 <= k < |before| ==> done[k] == before[k];
        assert done[|done| - 1] == old(peers)[id];
        rest := rest - {id};
      }
      closed := done;
      peers := map[];
    }

    /**
     * A text or binary frame arriving on a data channel opened on one of this
     * manager's connections: it goes to the registered handler for its type,
     * if any, and otherwise to the audio echo.
     */
    method Deliver(ch: EchoChannel.Channel, m: Received, parse: string -> Option<Json>)
      modifies ch
      ensures ch.Current() == EchoChannel.Step(old(ch.Current()), m, parse, handlers.Keys)
    {
      ch.OnMessage(m, parse, handlers.Keys);
    }
  }

  /**
   * As written: after a restart under id "a", the replaced connection's own
   * `closed` event deletes "a", so the new connection is no longer registered.
   */
  method RestartThenOldCloses() returns (registered: bool)
    ensures !registered
  {
    var m := new Manager();
    var id, old1 := m.ProcessOffer(Offer("v=0", "offer", Some("a"), Some(false)), "fresh-1");
    var id2, new1 := m.ProcessOffer(Offer("v=0", "offer", Some("a"), Some(true)), "fresh-2");
    m.OnConnectionStateChange(old1, "a", "closed");
    registered := "a" in m.peers;
  }

  /** With the guarded rule the restarted connection stays registered under "a". */
  method RestartThenOldClosesGuarded() returns (registered: bool, current: Option<Conn>, restarted: Conn)
    ensures registered && current == Some(restarted)
  {
    var m := new Manager();
    var id, old1 := m.ProcessOffer(Offer("v=0", "offer", Some("a"), Some(false)), "fresh-1");
    var id2, new1 := m.ProcessOffer(Offer("v=0", "offer", Some("a"), Some(true)), "fresh-2");
    m.OnConnectionStateChangeGuarded(old1, "a", "closed");
    registered := "a" in m.peers;
    current := if registered then Some(m.peers["a"]) else None;
    restarted := new1;
  }
}
