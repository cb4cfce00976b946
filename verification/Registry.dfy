/** The router's live-peer table: a map behind a lock, so each call is one atomic step. */
module Registry {
  import opened Wire

  /** A connection, which is also the identity of its sink. */
  type ConnId = nat

  datatype PeerRecord = PeerRecord(
    peerId: string,
    peerClass: PeerClass,
    sender: ConnId,
    connected: bool,
    lastHeartbeat: Timestamp)

  datatype PeerSnapshot = PeerSnapshot(peerId: string, peerClass: PeerClass, connected: bool)

  type Peers = map<string, PeerRecord>

  function Insert(peers: Peers, peerId: string, peerClass: PeerClass, sender: ConnId, now: Timestamp): Option<Peers> {
    if peerId in peers then None
    else Some(peers[peerId := PeerRecord(peerId, peerClass, sender, true, now)])
  }

  function Remove(peers: Peers, peerId: string): Peers {
    peers - {peerId}
  }

  function Lookup(peers: Peers, peerId: string): Option<PeerSnapshot> {
    if peerId in peers
    then Some(PeerSnapshot(peers[peerId].peerId, peers[peerId].peerClass, peers[peerId].connected))
    else None
  }

  function ClassOf(peers: Peers, peerId: string): Option<PeerClass> {
    if peerId in peers then Some(peers[peerId].peerClass) else None
  }

  function SenderOf(peers: Peers, peerId: string): Option<ConnId> {
    if peerId in peers then Some(peers[peerId].sender) else None
  }

  function MarkHeartbeat(peers: Peers, peerId: string, now: Timestamp): Peers {
    if peerId in peers then peers[peerId := peers[peerId].(lastHeartbeat := now)] else peers
  }

  /** The table as the router holds it, changed in place. */
  class PeerRegistry {
    var peers: Peers

    constructor ()
      ensures peers == map[]
    {
      peers := map[];
    }

    /** A live id is never overwritten; a free one becomes live under exactly this sender. */
    method InsertLivePeer(peerId: string, peerClass: PeerClass, sender: ConnId, now: Timestamp) returns (ok: bool)
      modifies this
      ensures ok <==> peerId !in old(peers)
      ensures !ok ==> peers == old(peers)
      ensures ok ==> Insert(old(peers), peerId, peerClass, sender, now) == Some(peers)
      ensures ok ==> SenderOf(peers, peerId) == Some(sender) && ClassOf(peers, peerId) == Some(peerClass)
      ensures forall id :: id != peerId ==> SenderOf(peers, id) == SenderOf(old(peers), id)
    {
      if peerId in peers {
        return false;
      }
      peers := peers[peerId := PeerRecord(peerId, peerClass, sender, true, now)];
      return true;
    }

    /** Removal is by id alone: whoever holds the id loses it, and nobody else is touched. */
    method RemoveByPeerId(peerId: string) returns (removed: Option<PeerSnapshot>)
      modifies this
      ensures peers == Remove(old(peers), peerId)
      ensures removed.Some? <==> peerId in old(peers)
      ensures removed.Some? ==>
                removed.value.peerClass == old(peers)[peerId].peerClass && !removed.value.connected
    {
      removed := None;
      if peerId in peers {
        var record := peers[peerId];
        removed := Some(PeerSnapshot(record.peerId, record.peerClass, false));
      }
      peers := peers - {peerId};
    }

    /** A heartbeat refreshes one record's time and changes neither who is live nor where frames go. */
    method MarkPeerHeartbeat(peerId: string, now: Timestamp)
      modifies this
      ensures peers == MarkHeartbeat(old(peers), peerId, now)
      ensures peers.Keys == old(peers).Keys
      ensures forall id :: Lookup(peers, id) == Lookup(old(peers), id) && SenderOf(peers, id) == SenderOf(old(peers), id)
    {
      if peerId in peers {
        peers := peers[peerId := peers[peerId].(lastHeartbeat := now)];
      }
    }
  }
}
