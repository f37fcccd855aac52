/**
 * The module-level `peer_connections` registry of the simple echo app: every
 * offer creates a new connection and stores it under `pc_id or uuid4()`, a
 * failed or closed connection deletes its id, and shutdown closes and
 * clears everything. Its data channels run `EchoChannel` with no handlers.
 */
module AppSimple {
  import opened Wrappers
  import opened Json
  import opened DataChannel
  import opened Signaling
  import EchoChannel

  class Registry {
    var peers: map<string, Conn>
    var nextConn: nat
    /** Connections closed at shutdown, in order. */
    var closed: seq<Conn>

    predicate Valid()
      reads this
    {
      forall id :: id in peers ==> peers[id].serial < nextConn
    }

    constructor()
      ensures Valid() && peers == map[] && closed == []
    {
      peers := map[];
      nextConn := 0;
      closed := [];
    }

    /**
     * `process_offer`: always a new connection, stored under the truthy
     * `pc_id` or `freshId`, replacing whatever was stored there.
     */
    method Offer(pcId: Option<string>, freshId: string) returns (id: string, pc: Conn)
      requires Valid()
      modifies this
      ensures Valid()
      ensures id == (if pcId.Some? && pcId.value != "" then pcId.value else freshId)
      ensures pc == Conn(old(nextConn)) && pc !in old(peers).Values
      ensures peers == old(peers)[id := pc] && closed == old(closed)
    {
      id := if pcId.Some? && pcId.value != "" then pcId.value else freshId;
      pc := Conn(nextConn);
      nextConn := nextConn + 1;
      peers := peers[id := pc];
    }

    /** `on_connectionstatechange`: failed or closed deletes the id. */
    method OnConnectionStateChange(pcId: string, state: string)
      requires Valid()
      modifies this
      ensures Valid()
      ensures peers == if Terminal(state) then old(peers) - {pcId} else old(peers)
      ensures nextConn == old(nextConn) && closed == old(closed)
    {
      if Terminal(state) && pcId in peers {
        peers := peers - {pcId};
      }
    }

    /** `on_shutdown`: close every stored connection, then clear the registry. */
    method Shutdown()
      requires Valid()
      modifies this
      ensures Valid() && peers == map[]
      ensures |closed| == |old(closed)| + |old(peers)| && closed[..|old(closed)|] == old(closed)
      ensures forall id :: id in old(peers) ==> old(peers)[id] in closed[|old(closed)|..]
      ensures nextConn == old(nextConn)
    {
      var rest := peers;
      var done := closed;
      while rest != map[]
        invariant rest.Keys <= old(peers).Keys && forall id :: id in rest ==> rest[id] == old(peers)[id]
        invariant |done| == |old(closed)| + |old(peers)| - |rest| && done[..|old(closed)|] == old(closed)
        invariant forall id :: id in old(peers) && id !in rest ==> old(peers)[id] in done[|old(closed)|..]
        decreases |rest|
      {
        var id :| id in rest;
        ghost var before := done;
        done := done + [rest[id]];
        assert forall k :: 0 <= k < |before| ==> done[k] == before[k];
        assert done[|done| - 1] == old(peers)[id];
        rest := rest - {id};
      }
      closed := done;
      peers := map[];
    }
  }

  /** A frame on one of the simple app's data channels: the echo with no handlers. */
  method OnMessage(ch: EchoChannel.Channel, m: Received, parse: string -> Option<Json>)
    modifies ch
    ensures ch.Current() == EchoChannel.Step(old(ch.Current()), m, parse, {})
    ensures old(ch.handled) == ch.handled
  {
    ch.OnMessage(m, parse, {});
    EchoChannel.NoHandlerNoCall(old(ch.Current()), m, parse);
  }
}
