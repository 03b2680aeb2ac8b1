/** The multi-peer client's signaling state machine, as functions on values.
    Each handler is one atomic step from a `Mesh` (the `peerConnections`
    registry and the messages handed to the relay so far) to the next.
    `MeshClient.Orchestrator` runs the same handlers imperatively and is
    proved to agree with these functions. */
module MeshSpec {
  import opened Wrappers
  import opened Rtc

  /** A participant's uuid. */
  type Id = string

  /** The `dest` that addresses every participant. */
  const All: string := "all"

  /** A signaling message as parsed from the wire:
      `{uuid, dest, displayName?, sdp?, ice?}`. An absent or `null` field is
      `None`. Nothing stops a message from carrying several payload fields;
      the handler's else-if chain decides which one counts. */
  datatype Signal = Signal(uuid: Id, dest: string, displayName: Option<string>,
                           sdp: Option<Description>, ice: Option<Candidate>)

  /** Whether `setUpPeer` was called with `initCall` (this side offers). */
  datatype Role = Offerer | Answerer

  /** One `peerConnections[uuid]` entry: the display name and what its
      RTCPeerConnection holds. */
  datatype PeerEntry = PeerEntry(displayName: string, role: Role,
                                 remote: Option<Description>, local: Option<Description>,
                                 candidates: seq<Candidate>, closed: bool)

  /** `localUuid` and `localDisplayName`, fixed at load. The display name is
      what `prompt` returned, `None` when it returned `null`. */
  datatype Config = Config(localUuid: Id, localDisplayName: Option<string>)

  datatype Mesh = Mesh(peers: map<Id, PeerEntry>, outbox: seq<Signal>)

  /** The branches of `handleServerMessage` after the addressing filter. */
  datatype Branch = NewcomerAnnounce | DirectedAnnounce | SessionDescription | RemoteCandidate | NoPayload

  const Initial: Mesh := Mesh(map[], [])

  /** JavaScript truthiness of a string field: present, not null, not "". */
  predicate Truthy(s: Option<string>)
  {
    s.Some? && s.value != ""
  }

  /** The addressing filter: not our own message, and sent to us or to all. */
  predicate Addressed(cfg: Config, s: Signal)
  {
    s.uuid != cfg.localUuid && (s.dest == cfg.localUuid || s.dest == All)
  }

  /** The else-if chain: display name (broadcast, then directed), then sdp,
      then ice. */
  function Dispatch(localUuid: Id, s: Signal): (b: Branch)
    ensures b == NewcomerAnnounce || b == DirectedAnnounce ==> Truthy(s.displayName)
    ensures b == SessionDescription ==> s.sdp.Some?
    ensures b == RemoteCandidate ==> s.ice.Some?
  {
    if Truthy(s.displayName) && s.dest == All then NewcomerAnnounce
    else if Truthy(s.displayName) && s.dest == localUuid then DirectedAnnounce
    else if s.sdp.Some? then SessionDescription
    else if s.ice.Some? then RemoteCandidate
    else NoPayload
  }

  /** `{displayName: localDisplayName, uuid: localUuid, dest}`. */
  function Announce(cfg: Config, dest: string): Signal
  {
    Signal(cfg.localUuid, dest, cfg.localDisplayName, None, None)
  }

  /** `{sdp, uuid: localUuid, dest}`. */
  function SdpMessage(cfg: Config, d: Description, dest: Id): Signal
  {
    Signal(cfg.localUuid, dest, None, Some(d), None)
  }

  /** `{ice, uuid: localUuid, dest}`. */
  function IceMessage(cfg: Config, c: Candidate, dest: Id): Signal
  {
    Signal(cfg.localUuid, dest, None, None, Some(c))
  }

  /** A fresh RTCPeerConnection registered under a display name. */
  function NewEntry(name: string, role: Role): PeerEntry
  {
    PeerEntry(name, role, None, None, [], false)
  }

  /** The relay connection opens: announce ourselves to everyone. */
  function OnOpen(cfg: Config, m: Mesh): Mesh
  {
    m.(outbox := m.outbox + [Announce(cfg, All)])
  }

  /** `createdDescription`: set `d` as the peer's local description and send
      it to the peer; a missing entry throws inside the try and is logged. */
  function CreatedDescription(cfg: Config, m: Mesh, d: Description, peer: Id): Mesh
  {
    if peer in m.peers then
      Mesh(m.peers[peer := m.peers[peer].(local := Some(d))], m.outbox + [SdpMessage(cfg, d, peer)])
    else m
  }

  /** `setUpPeer`: (re)register the peer with a new connection; when this side
      initiates, `created` is the offer the browser made. */
  function SetUpPeer(cfg: Config, m: Mesh, peer: Id, name: string, initCall: bool, created: Blob): Mesh
  {
    var m1 := m.(peers := m.peers[peer := NewEntry(name, if initCall then Offerer else Answerer)]);
    if initCall then CreatedDescription(cfg, m1, Description(Offer, created), peer) else m1
  }

  /** `handleServerMessage`. `created` is the description the browser returns
      when the branch asks for an offer or an answer. Whatever branch runs,
      only the sender's entry can change, and at most one message is sent,
      from us, to the sender. */
  function HandleServerMessage(cfg: Config, m: Mesh, s: Signal, created: Blob): (r: Mesh)
    ensures forall q :: q != s.uuid ==> (q in r.peers <==> q in m.peers)
    ensures forall q :: q != s.uuid && q in m.peers ==> q in r.peers && r.peers[q] == m.peers[q]
    ensures m.outbox <= r.outbox && |r.outbox| <= |m.outbox| + 1
    ensures forall k :: |m.outbox| <= k < |r.outbox| ==> r.outbox[k].uuid == cfg.localUuid && r.outbox[k].dest == s.uuid
  {
    if !Addressed(cfg, s) then m
    else
      var peer := s.uuid;
      match Dispatch(cfg.localUuid, s)
      case NewcomerAnnounce =>
        var m1 := SetUpPeer(cfg, m, peer, s.displayName.value, false, created);
        m1.(outbox := m1.outbox + [Announce(cfg, peer)])
      case DirectedAnnounce =>
        SetUpPeer(cfg, m, peer, s.displayName.value, true, created)
      case SessionDescription =>
        if peer !in m.peers then m
        else
          var m1 := m.(peers := m.peers[peer := m.peers[peer].(remote := s.sdp)]);
          if s.sdp.value.kind == Offer then CreatedDescription(cfg, m1, Description(Answer, created), peer)
          else m1
      case RemoteCandidate =>
        if peer !in m.peers then m
        else m.(peers := m.peers[peer := m.peers[peer].(candidates := m.peers[peer].candidates + [s.ice.value])])
      case NoPayload => m
  }

  /** `gotIceCandidate`: a discovered candidate goes to the peer; the null
      end-of-candidates event sends nothing. */
  function GotIceCandidate(cfg: Config, m: Mesh, peer: Id, candidate: Option<Candidate>): Mesh
  {
    if candidate.Some? then m.(outbox := m.outbox + [IceMessage(cfg, candidate.value, peer)]) else m
  }

  /** The ICE states `checkPeerDisconnect` evicts on. */
  predicate Terminal(state: IceState)
  {
    state == Failed || state == Closed || state == Disconnected
  }

  /** `checkPeerDisconnect`: `state` is the iceConnectionState of the
      connection registered under `peer`; an unregistered peer throws before
      anything changes. */
  function CheckPeerDisconnect(m: Mesh, peer: Id, state: IceState): Mesh
  {
    if peer in m.peers && Terminal(state) then m.(peers := m.peers - {peer}) else m
  }

  /** The `beforeunload` loop: every registered connection is closed. */
  function BeforeUnload(m: Mesh): Mesh
  {
    m.(peers := map p | p in m.peers :: m.peers[p].(closed := true))
  }

  /** The events the client reacts to. */
  datatype Event =
    | Open
    | Receive(signal: Signal, created: Blob)
    | LocalCandidate(peer: Id, candidate: Option<Candidate>)
    | IceStateChange(peer: Id, state: IceState)
    | Unload

  function Step(cfg: Config, m: Mesh, e: Event): Mesh
  {
    match e
    case Open => OnOpen(cfg, m)
    case Receive(s, created) => HandleServerMessage(cfg, m, s, created)
    case LocalCandidate(peer, c) => GotIceCandidate(cfg, m, peer, c)
    case IceStateChange(peer, state) => CheckPeerDisconnect(m, peer, state)
    case Unload => BeforeUnload(m)
  }

  /** The events, handled one after the other. */
  function Run(cfg: Config, m: Mesh, es: seq<Event>): Mesh
    decreases |es|
  {
    if es == [] then m else Run(cfg, Step(cfg, m, es[0]), es[1..])
  }
}
