/** The multi-peer client (one per participant): the module-level state of
    the page as an object, and its handlers as methods that update the
    `peerConnections` registry and append to what was handed to the relay
    connection. Each method is proved to perform exactly the step that
    `MeshSpec` defines. */
module MeshClient {
  import opened Wrappers
  import opened Rtc
  import opened MeshSpec

  class Orchestrator {
    const localUuid: Id
    const localDisplayName: Option<string>
    /** `peerConnections`, keyed by the remote uuid. */
    var peers: map<Id, PeerEntry>
    /** Every message passed to `sendMessageToServer`, in order. */
    var outbox: seq<Signal>

    function Cfg(): Config
    {
      Config(localUuid, localDisplayName)
    }

    function State(): Mesh
      reads this
    {
      Mesh(peers, outbox)
    }

    /** The `load` handler's state: uuid and display name chosen, no peers,
        nothing sent. */
    constructor (uuid: Id, displayName: Option<string>)
      ensures Cfg() == Config(uuid, displayName)
      ensures State() == Initial
    {
      localUuid, localDisplayName := uuid, displayName;
      peers, outbox := map[], [];
    }

    method SendMessageToServer(message: Signal)
      modifies this
      ensures peers == old(peers)
      ensures outbox == old(outbox) + [message]
    {
      outbox := outbox + [message];
    }

    /** `serverConnection.onopen`. */
    method OnOpen()
      modifies this
      ensures State() == MeshSpec.OnOpen(Cfg(), old(State()))
    {
      SendMessageToServer(Announce(Cfg(), All));
    }

    method CreatedDescription(description: Description, peerUuid: Id)
      modifies this
      ensures State() == MeshSpec.CreatedDescription(Cfg(), old(State()), description, peerUuid)
    {
      if peerUuid in peers {
        peers := peers[peerUuid := peers[peerUuid].(local := Some(description))];
        SendMessageToServer(SdpMessage(Cfg(), description, peerUuid));
      }
    }

    method SetUpPeer(peerUuid: Id, displayName: string, initCall: bool, created: Blob)
      modifies this
      ensures State() == MeshSpec.SetUpPeer(Cfg(), old(State()), peerUuid, displayName, initCall, created)
    {
      peers := peers[peerUuid := NewEntry(displayName, if initCall then Offerer else Answerer)];
      if initCall {
        CreatedDescription(Description(Offer, created), peerUuid);
      }
    }

    method HandleServerMessage(signal: Signal, created: Blob)
      modifies this
      ensures State() == MeshSpec.HandleServerMessage(Cfg(), old(State()), signal, created)
    {
      var peerUuid := signal.uuid;
      if peerUuid == localUuid || (signal.dest != localUuid && signal.dest != All) {
        return;
      }
      if Truthy(signal.displayName) && signal.dest == All {
        SetUpPeer(peerUuid, signal.displayName.value, false, created);
        SendMessageToServer(Announce(Cfg(), peerUuid));
      } else if Truthy(signal.displayName) && signal.dest == localUuid {
        SetUpPeer(peerUuid, signal.displayName.value, true, created);
      } else if signal.sdp.Some? {
        if peerUuid in peers {
          peers := peers[peerUuid := peers[peerUuid].(remote := signal.sdp)];
          if signal.sdp.value.kind == Offer {
            CreatedDescription(Description(Answer, created), peerUuid);
          }
        }
      } else if signal.ice.Some? {
        if peerUuid in peers {
          var entry := peers[peerUuid];
          peers := peers[peerUuid := entry.(candidates := entry.candidates + [signal.ice.value])];
        }
      }
    }

    method GotIceCandidate(peerUuid: Id, candidate: Option<Candidate>)
      modifies this
      ensures State() == MeshSpec.GotIceCandidate(Cfg(), old(State()), peerUuid, candidate)
    {
      if candidate.Some? {
        SendMessageToServer(IceMessage(Cfg(), candidate.value, peerUuid));
      }
    }

    method CheckPeerDisconnect(peerUuid: Id, state: IceState)
      modifies this
      ensures State() == MeshSpec.CheckPeerDisconnect(old(State()), peerUuid, state)
    {
      if peerUuid !in peers {
        return;
      }
      if state == Failed || state == Closed || state == Disconnected {
        peers := peers - {peerUuid};
      }
    }

    /** The `beforeunload` handler: close the connection of every key. */
    method BeforeUnload()
      modifies this
      ensures State() == MeshSpec.BeforeUnload(old(State()))
    {
      ghost var start := peers;
      var pending := peers.Keys;
      while pending != {}
        invariant pending <= start.Keys && peers.Keys == start.Keys
        invariant forall p :: p in peers ==> peers[p] == if p in pending then start[p] else start[p].(closed := true)
        invariant outbox == old(outbox)
        decreases pending
      {
        var p :| p in pending;
        peers := peers[p := peers[p].(closed := true)];
        pending := pending - {p};
      }
    }
  }
}
