/** What the multi-peer client's handlers guarantee, stated about the
    functions of `MeshSpec` (and so, through the methods' postconditions,
    about `MeshClient.Orchestrator`). */
module MeshProperties {
  import opened Wrappers
  import opened Rtc
  import opened MeshSpec

  /** A message from ourselves, or addressed to somebody else, changes
      neither the registry nor what we send. */
  lemma IgnoresUnaddressed(cfg: Config, m: Mesh, s: Signal, created: Blob)
    requires s.uuid == cfg.localUuid || (s.dest != cfg.localUuid && s.dest != All)
    ensures HandleServerMessage(cfg, m, s, created) == m
  {
  }

  /** The else-if chain runs at most one branch, and a truthy display name
      wins over sdp, which wins over ice. */
  lemma DispatchPrecedence(cfg: Config, s: Signal)
    requires Addressed(cfg, s)
    ensures Truthy(s.displayName) ==> Dispatch(cfg.localUuid, s) in {NewcomerAnnounce, DirectedAnnounce}
    ensures !Truthy(s.displayName) && s.sdp.Some? ==> Dispatch(cfg.localUuid, s) == SessionDescription
    ensures !Truthy(s.displayName) && s.sdp.None? && s.ice.Some? ==> Dispatch(cfg.localUuid, s) == RemoteCandidate
    ensures !Truthy(s.displayName) && s.sdp.None? && s.ice.None? ==> Dispatch(cfg.localUuid, s) == NoPayload
  {
  }

  /** A newcomer's broadcast announce: register the newcomer as answerer (with
      a fresh connection, replacing any earlier one) and reply with our own
      announce addressed to it, and nothing else: no offer. */
  lemma NewcomerAnnounceRegistersAnswerer(cfg: Config, m: Mesh, s: Signal, created: Blob)
    requires s.uuid != cfg.localUuid && s.dest == All && Truthy(s.displayName)
    ensures var r := HandleServerMessage(cfg, m, s, created);
      && r.peers == m.peers[s.uuid := NewEntry(s.displayName.value, Answerer)]
      && r.outbox == m.outbox + [Signal(cfg.localUuid, s.uuid, cfg.localDisplayName, None, None)]
  {
  }

  /** An existing participant's directed reply: register it as offerer, with
      the new offer as local description, and send that offer to it, and no
      announce. */
  lemma DirectedAnnounceSendsOffer(cfg: Config, m: Mesh, s: Signal, created: Blob)
    requires s.uuid != cfg.localUuid && s.dest == cfg.localUuid && cfg.localUuid != All
    requires Truthy(s.displayName)
    ensures var r := HandleServerMessage(cfg, m, s, created);
      && r.peers == m.peers[s.uuid := NewEntry(s.displayName.value, Offerer).(local := Some(Description(Offer, created)))]
      && r.outbox == m.outbox + [Signal(cfg.localUuid, s.uuid, None, Some(Description(Offer, created)), None)]
  {
  }

  /** A session description from a registered peer becomes its remote
      description; only an offer is answered, by a local answer that is also
      sent back. */
  lemma DescriptionFromKnownPeer(cfg: Config, m: Mesh, s: Signal, created: Blob)
    requires Addressed(cfg, s) && !Truthy(s.displayName) && s.sdp.Some? && s.uuid in m.peers
    ensures var r := HandleServerMessage(cfg, m, s, created);
      var e := m.peers[s.uuid].(remote := s.sdp);
      if s.sdp.value.kind == Offer then
        && r.peers == m.peers[s.uuid := e.(local := Some(Description(Answer, created)))]
        && r.outbox == m.outbox + [Signal(cfg.localUuid, s.uuid, None, Some(Description(Answer, created)), None)]
      else
        r.peers == m.peers[s.uuid := e] && r.outbox == m.outbox
  {
  }

  /** A remote candidate from a registered peer is added to its connection;
      nothing is sent. */
  lemma CandidateFromKnownPeer(cfg: Config, m: Mesh, s: Signal, created: Blob)
    requires Addressed(cfg, s) && !Truthy(s.displayName) && s.sdp.None? && s.ice.Some? && s.uuid in m.peers
    ensures var r := HandleServerMessage(cfg, m, s, created);
      && r.peers == m.peers[s.uuid := m.peers[s.uuid].(candidates := m.peers[s.uuid].candidates + [s.ice.value])]
      && r.outbox == m.outbox
  {
  }

  /** An sdp or ice message from a peer with no entry is caught and logged:
      no change, nothing sent. */
  lemma SignalFromUnknownPeerDropped(cfg: Config, m: Mesh, s: Signal, created: Blob)
    requires !Truthy(s.displayName) && (s.sdp.Some? || s.ice.Some?) && s.uuid !in m.peers
    ensures HandleServerMessage(cfg, m, s, created) == m
  {
  }

  /** A local candidate is sent to its peer; the null candidate sends nothing.
      The registry never changes. */
  lemma LocalCandidateRelayed(cfg: Config, m: Mesh, peer: Id, c: Option<Candidate>)
    ensures GotIceCandidate(cfg, m, peer, c).peers == m.peers
    ensures GotIceCandidate(cfg, m, peer, c).outbox
            == m.outbox + (if c.Some? then [Signal(cfg.localUuid, peer, None, None, Some(c.value))] else [])
  {
  }

  /** failed, closed and disconnected evict exactly that peer; any other state
      changes nothing. Nothing is sent. */
  lemma DisconnectEvicts(m: Mesh, peer: Id, state: IceState)
    ensures var r := CheckPeerDisconnect(m, peer, state);
      && r.outbox == m.outbox
      && (state in {Failed, Closed, Disconnected} ==> r.peers.Keys == m.peers.Keys - {peer})
      && (state !in {Failed, Closed, Disconnected} ==> r.peers == m.peers)
      && (forall q :: q in r.peers ==> q != peer || state !in {Failed, Closed, Disconnected})
      && (forall q :: q in r.peers ==> q in m.peers && r.peers[q] == m.peers[q])
  {
  }

  /** beforeunload closes every registered connection and keeps the rest. */
  lemma BeforeUnloadClosesAll(m: Mesh)
    ensures var r := BeforeUnload(m);
      && r.peers.Keys == m.peers.Keys
      && r.outbox == m.outbox
      && (forall p :: p in r.peers ==> r.peers[p].closed && r.peers[p].(closed := false) == m.peers[p].(closed := false))
  {
  }

  /** Events the browser can deliver: connections exist only for uuids that
      passed the addressing filter, so none of them is our own. */
  ghost predicate Admissible(cfg: Config, e: Event)
  {
    (e.LocalCandidate? ==> e.peer != cfg.localUuid) && (e.IceStateChange? ==> e.peer != cfg.localUuid)
  }

  /** What stays true of a client throughout: we never register ourselves,
      every registered name is non-empty, and every message we send carries
      our uuid and is not addressed to us. */
  ghost predicate Inv(cfg: Config, m: Mesh)
  {
    && cfg.localUuid !in m.peers
    && (forall p :: p in m.peers ==> m.peers[p].displayName != "")
    && (forall k :: 0 <= k < |m.outbox| ==> m.outbox[k].uuid == cfg.localUuid && m.outbox[k].dest != cfg.localUuid)
  }

  lemma StepPreservesInv(cfg: Config, m: Mesh, e: Event)
    requires cfg.localUuid != All
    requires Inv(cfg, m) && Admissible(cfg, e)
    ensures Inv(cfg, Step(cfg, m, e))
  {
    match e
    case Receive(s, created) =>
      if Addressed(cfg, s) && Dispatch(cfg.localUuid, s) == NewcomerAnnounce {
        NewcomerAnnounceRegistersAnswerer(cfg, m, s, created);
      } else if Addressed(cfg, s) && Dispatch(cfg.localUuid, s) == DirectedAnnounce {
        DirectedAnnounceSendsOffer(cfg, m, s, created);
      }
    case _ =>
  }

  lemma {:induction false} RunPreservesInv(cfg: Config, m: Mesh, es: seq<Event>)
    requires cfg.localUuid != All
    requires Inv(cfg, m)
    requires forall k :: 0 <= k < |es| ==> Admissible(cfg, es[k])
    ensures Inv(cfg, Run(cfg, m, es))
    decreases |es|
  {
    if es != [] {
      StepPreservesInv(cfg, m, es[0]);
      RunPreservesInv(cfg, Step(cfg, m, es[0]), es[1..]);
    }
  }

  /** Every message a client hands to the relay carries its own uuid, after
      any sequence of events. */
  lemma {:induction false} RunSignsOutbox(cfg: Config, m: Mesh, es: seq<Event>)
    requires forall k :: 0 <= k < |m.outbox| ==> m.outbox[k].uuid == cfg.localUuid
    ensures forall k :: 0 <= k < |Run(cfg, m, es).outbox| ==> Run(cfg, m, es).outbox[k].uuid == cfg.localUuid
    decreases |es|
  {
    if es != [] {
      RunSignsOutbox(cfg, Step(cfg, m, es[0]), es[1..]);
    }
  }

  /** The fan-out relay sends every message back to its sender too; every
      client, whatever it has done, discards all of those echoes. */
  lemma OwnMessagesIgnored(cfg: Config, es: seq<Event>, k: nat, m': Mesh, created: Blob)
    requires k < |Run(cfg, Initial, es).outbox|
    ensures HandleServerMessage(cfg, m', Run(cfg, Initial, es).outbox[k], created) == m'
  {
    RunSignsOutbox(cfg, Initial, es);
  }

  /** Messages none of which is addressed to us leave the client as it was,
      however many arrive. */
  lemma {:induction false} UnaddressedRunIsNoop(cfg: Config, m: Mesh, es: seq<Event>)
    requires forall k :: 0 <= k < |es| ==> es[k].Receive? && !Addressed(cfg, es[k].signal)
    ensures Run(cfg, m, es) == m
    decreases |es|
  {
    if es != [] {
      UnaddressedRunIsNoop(cfg, m, es[1..]);
    }
  }

  /** The join handshake between a participant A already present and a
      newcomer B: B's broadcast announce, A's directed reply, B's offer, A's
      answer. Afterwards exactly one side (B) is the offerer, and each side's
      local description is the other's remote one. */
  lemma PairHandshake(a: Config, b: Config, ma: Mesh, mb: Mesh, offer: Blob, answer: Blob, unused: Blob)
    requires a.localUuid != b.localUuid && a.localUuid != All && b.localUuid != All
    requires Truthy(a.localDisplayName) && Truthy(b.localDisplayName)
    ensures
      var announce := Announce(b, All);
      var ma1 := HandleServerMessage(a, ma, announce, unused);
      var reply := ma1.outbox[|ma1.outbox| - 1];
      var mb1 := HandleServerMessage(b, OnOpen(b, mb), reply, offer);
      var offerMsg := mb1.outbox[|mb1.outbox| - 1];
      var ma2 := HandleServerMessage(a, ma1, offerMsg, answer);
      var answerMsg := ma2.outbox[|ma2.outbox| - 1];
      var mb2 := HandleServerMessage(b, mb1, answerMsg, unused);
      && b.localUuid in ma2.peers && a.localUuid in mb2.peers
      && ma2.peers[b.localUuid].role == Answerer && mb2.peers[a.localUuid].role == Offerer
      && ma2.peers[b.localUuid].displayName == b.localDisplayName.value
      && mb2.peers[a.localUuid].displayName == a.localDisplayName.value
      && ma2.peers[b.localUuid].remote == mb2.peers[a.localUuid].local == Some(Description(Offer, offer))
      && ma2.peers[b.localUuid].local == mb2.peers[a.localUuid].remote == Some(Description(Answer, answer))
  {
    var announce := Announce(b, All);
    NewcomerAnnounceRegistersAnswerer(a, ma, announce, unused);
    var ma1 := HandleServerMessage(a, ma, announce, unused);
    var reply := ma1.outbox[|ma1.outbox| - 1];
    DirectedAnnounceSendsOffer(b, OnOpen(b, mb), reply, offer);
    var mb1 := HandleServerMessage(b, OnOpen(b, mb), reply, offer);
    var offerMsg := mb1.outbox[|mb1.outbox| - 1];
    DescriptionFromKnownPeer(a, ma1, offerMsg, answer);
    var ma2 := HandleServerMessage(a, ma1, offerMsg, answer);
    var answerMsg := ma2.outbox[|ma2.outbox| - 1];
    DescriptionFromKnownPeer(b, mb1, answerMsg, unused);
  }
}
