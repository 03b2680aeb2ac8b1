# Verified model of the web-rtc signaling core

This project models the signaling part of a small WebRTC video-chat
repository and proves properties of it in Dafny. There are three parts.

- **Relays.** Two WebSocket relays forward every control message without
  reading it:
  - `server.js` (module `Relay`) keeps its own `clients` Set and forwards to
    every open client except the sender;
  - `multiple_peers/server.js` (module `FanOut`) forwards to every open
    client, the sender included.
  Both are generic in the message type, so neither can look at a message's
  `dest` or payload. The value each client receives is the value that was
  parsed.
- **Mesh client** (`multiple_peers/client.js`). Each participant runs a
  message-driven state machine over the `peerConnections` registry, keyed by
  the remote uuid. `MeshSpec` defines each handler as a function from one
  state (registry plus messages sent so far) to the next. It covers the
  addressing filter, the announce/sdp/ice dispatch, `setUpPeer`,
  `createdDescription`, `gotIceCandidate`, `checkPeerDisconnect`,
  `beforeunload`, and `Run`, a sequence of events.
  `MeshClient.Orchestrator` is the page's module-level state as an object. Its
  methods update the registry in place and append to the outbox, and each one
  is proved equal to its `MeshSpec` function. `MeshProperties` proves the
  handlers' promises:
  - role assignment: the side that receives a broadcast announce answers; the
    side that receives a directed announce offers;
  - the offer/answer order of section 4 of RFC 3264;
  - eviction on a terminal ICE state;
  - self-echo suppression;
  - an invariant kept over every run;
  - a complete two-party handshake.
- **Two-peer client** (`two_peers/client.js`). This has the same structure:
  `TwoPeerSpec` holds the functions, `TwoPeerClient.Caller` the object with the
  `isConnected` flag and a single peer connection, and `TwoPeerProperties` the
  lemmas.

Browser results are parameters. The offer or answer that `createOffer` or
`createAnswer` returns is passed in as `created`, `offer` or `answer`. The
uuid and display name are constructor arguments. The ICE state is an argument
of the state-change event. Each handler is one atomic step.

Three behaviours of the code that a reader might not expect, all modelled
as written:
- an sdp or ice message with `dest == "all"` passes the filter and is acted
  upon;
- eviction only deletes the registry entry and does not close the connection;
- the announce branches test the display name for JavaScript truthiness, so
  an announce whose name is empty or `null` (a cancelled `prompt`) registers
  nobody.

## Model

| member | source | states |
|---|---|---|
| `Channels.DeliverableMembers` | server.js:30-34 | the channels a forEach send loop reaches are exactly the members that are OPEN and not excluded, each once when the set has no duplicates |
| `Relay.Insert` | server.js:10 | `Set.add`: the new client is a member afterwards, every old member stays in its place, nothing else is added, and there are still no duplicates |
| `Relay.Remove` | server.js:24 | `Set.delete`: exactly that client leaves; every other member stays; there are still no duplicates; a client that was not a member changes nothing |
| `Relay.Relay.constructor` | server.js:5 | the relay starts with an empty client set |
| `Relay.Relay.OnConnection` | server.js:8-10 | a new connection is added to `clients`, and the set keeps no duplicates |
| `Relay.Relay.OnClose` | server.js:22-25 | closing removes exactly that client and leaves the other members |
| `Relay.Relay.BroadcastMessage` | server.js:29-35 | sends to exactly the open members that are not the sender, one copy each, never to the sender, and every copy is the message itself |
| `Relay.Relay.OnMessage` | server.js:13-19 | every parsed message is broadcast unchanged with the receiving channel as sender, whatever its content or `dest` |
| `FanOut.Broadcast` | multiple_peers/server.js:15-21 | one copy of the data to every OPEN client; clients that are not OPEN get nothing; no client gets two copies |
| `FanOut.OnMessage` | multiple_peers/server.js:6-10 | every received message goes to all open clients, the sender included when it is open, without inspecting `dest` or payload |
| `FanOut.OnError` | multiple_peers/server.js:12 | a transport error terminates that channel, and only that channel is modified |
| `MeshSpec.Dispatch` | multiple_peers/client.js:55-94 | an announce branch is taken only when the display name is truthy; the sdp branch only when an sdp is present; the ice branch only when an ice candidate is present |
| `MeshSpec.HandleServerMessage` | multiple_peers/client.js:44-95 | whatever the message, only the sender's registry entry can change, and at most one message is sent, from the local uuid, to the sender |
| `MeshClient.Orchestrator.constructor` | multiple_peers/client.js:208-210 | after load, the uuid and display name are fixed, the registry is empty and nothing has been sent |
| `MeshClient.Orchestrator.SendMessageToServer` | multiple_peers/client.js:39-41 | appends the message to what was sent and leaves the registry alone |
| `MeshClient.Orchestrator.OnOpen` | multiple_peers/client.js:226-233 | on open, the client broadcasts its own announce with `dest` "all" |
| `MeshClient.Orchestrator.CreatedDescription` | multiple_peers/client.js:131-143 | a registered peer gets the description as its local one, and the description is sent to it; for an unknown peer, nothing happens |
| `MeshClient.Orchestrator.SetUpPeer` | multiple_peers/client.js:98-128 | registers a fresh entry in the role `initCall` selects; an initiator also sets and sends the offer |
| `MeshClient.Orchestrator.HandleServerMessage` | multiple_peers/client.js:44-95 | the new registry and outbox are those of `MeshSpec.HandleServerMessage`: filtered, dispatched to one branch, touching only the sender's entry, with at most one reply sent to the sender |
| `MeshClient.Orchestrator.GotIceCandidate` | multiple_peers/client.js:146-156 | the step of `MeshSpec.GotIceCandidate`: a non-null candidate is sent to that peer, and the registry is untouched |
| `MeshClient.Orchestrator.CheckPeerDisconnect` | multiple_peers/client.js:179-189 | the step of `MeshSpec.CheckPeerDisconnect`: on a terminal ICE state the peer's entry is deleted; otherwise, or for an unknown peer, nothing changes |
| `MeshClient.Orchestrator.BeforeUnload` | multiple_peers/client.js:200-205 | the loop over the registry's keys closes every connection and changes nothing else |
| `MeshProperties.IgnoresUnaddressed` | multiple_peers/client.js:49-53 | a message from ourselves, or whose `dest` is neither our uuid nor "all", leaves the registry and outbox unchanged |
| `MeshProperties.DispatchPrecedence` | multiple_peers/client.js:55-94 | for an addressed message, exactly one branch runs: a truthy display name wins over sdp, and sdp wins over ice |
| `MeshProperties.NewcomerAnnounceRegistersAnswerer` | multiple_peers/client.js:55-62 | a broadcast announce from P creates or overwrites P's entry with P's name in the answerer role, and sends exactly one directed announce back to P and no offer |
| `MeshProperties.DirectedAnnounceSendsOffer` | multiple_peers/client.js:63-65 | a directed announce from P creates P's entry in the offerer role with the new offer as local description, and sends exactly that offer to P and no announce |
| `MeshProperties.DescriptionFromKnownPeer` | multiple_peers/client.js:66-81 | an sdp from registered peer P becomes P's remote description; an offer is also answered, by setting and sending the answer; any other type sends nothing |
| `MeshProperties.CandidateFromKnownPeer` | multiple_peers/client.js:85-93 | an ice message from registered peer P adds the candidate to P's connection and sends nothing |
| `MeshProperties.SignalFromUnknownPeerDropped` | multiple_peers/client.js:66-94 | an sdp or ice message from an unregistered peer changes nothing and sends nothing |
| `MeshProperties.LocalCandidateRelayed` | multiple_peers/client.js:146-156 | a non-null local candidate is sent as `{ice, uuid, dest: P}`; a null candidate sends nothing; the registry is untouched |
| `MeshProperties.DisconnectEvicts` | multiple_peers/client.js:179-188 | failed, closed or disconnected removes exactly P's entry and leaves every other entry unchanged; any other state changes nothing |
| `MeshProperties.BeforeUnloadClosesAll` | multiple_peers/client.js:200-203 | every registered connection is closed; keys and all other fields stay as they were |
| `MeshProperties.StepPreservesInv` | multiple_peers/client.js:44-156 | every handler keeps the invariant: we never register ourselves, registered names are non-empty, and every sent message carries our uuid and is not addressed to us |
| `MeshProperties.RunPreservesInv` | multiple_peers/client.js:44-156 | the invariant holds after any sequence of events |
| `MeshProperties.RunSignsOutbox` | multiple_peers/client.js:131-156 | after any sequence of events, every message the client has handed to the relay carries its own uuid |
| `MeshProperties.OwnMessagesIgnored` | multiple_peers/client.js:49-53 | any message a client has sent, after any sequence of events, leaves that client in any state unchanged when the fan-out relay echoes it back |
| `MeshProperties.UnaddressedRunIsNoop` | multiple_peers/client.js:49-53 | any number of messages not addressed to us leave the client unchanged |
| `MeshProperties.PairHandshake` | multiple_peers/client.js:55-81 | after the announce, directed-reply, offer and answer exchange between an existing peer and a newcomer, the newcomer alone is offerer, each side has the other's name, and each side's local description is the other side's remote description |
| `TwoPeerClient.Caller.constructor` | two_peers/client.js:13-35 | a call starts disconnected, with no descriptions, no candidates and nothing sent |
| `TwoPeerClient.Caller.SendSignalingMessage` | two_peers/client.js:79-85 | the step of `TwoPeerSpec.SendSignalingMessage`: the message is appended to the socket only when `isConnected`, and nothing else changes |
| `TwoPeerClient.Caller.OnOpen` | two_peers/client.js:62-70 | the step of `TwoPeerSpec.OnOpen`: the flag is set, the offer becomes the local description, and the offer is sent |
| `TwoPeerClient.Caller.HandleOffer` | two_peers/client.js:107-119 | the step of `TwoPeerSpec.HandleOffer`: the offer becomes remote, then the answer becomes local and is sent through the guard |
| `TwoPeerClient.Caller.HandleAnswer` | two_peers/client.js:122-125 | the step of `TwoPeerSpec.HandleAnswer`: only the remote description changes |
| `TwoPeerClient.Caller.HandleCandidate` | two_peers/client.js:128-132 | the step of `TwoPeerSpec.HandleCandidate`: only the added candidates change |
| `TwoPeerClient.Caller.HandleSignalingMessage` | two_peers/client.js:88-104 | the step of `TwoPeerSpec.HandleSignalingMessage`: offer, answer and candidate go to their handlers, and any other type changes nothing |
| `TwoPeerClient.Caller.OnIceCandidate` | two_peers/client.js:41-49 | the step of `TwoPeerSpec.OnIceCandidate`: a non-null candidate is sent through the guard; a null one changes nothing |
| `TwoPeerProperties.SendOnlyWhenConnected` | two_peers/client.js:79-85 | a message reaches the socket exactly when `isConnected` holds, and sending changes nothing else |
| `TwoPeerProperties.ConnectedOnlyByOpen` | two_peers/client.js:62-64 | `isConnected` becomes true only on open, and no event clears it |
| `TwoPeerProperties.OpenSendsOffer` | two_peers/client.js:62-70 | on open, the created offer becomes the local description and is sent |
| `TwoPeerProperties.OfferIsAnswered` | two_peers/client.js:107-119 | an offer becomes the remote description; then the created answer becomes the local one and is sent when connected |
| `TwoPeerProperties.AnswerOnlySetsRemote` | two_peers/client.js:122-125 | an answer only sets the remote description and sends nothing |
| `TwoPeerProperties.CandidateOnlyAdds` | two_peers/client.js:128-132 | a candidate message only adds `message.candidate` to the connection and sends nothing |
| `TwoPeerProperties.UnknownTypeIgnored` | two_peers/client.js:100-102 | any other `type` changes no state |
| `TwoPeerProperties.LocalCandidateSent` | two_peers/client.js:41-48 | a non-null local candidate is sent as `{type: 'candidate', candidate}` when connected; a null one sends nothing |
| `TwoPeerProperties.AnswerFollowsOffer` | two_peers/client.js:88-119 | a received message causes a send only if it is an offer; the one message sent is the local answer, and the remote description is then an offer |
| `TwoPeerProperties.NothingSentBeforeOpen` | two_peers/client.js:79-85 | until the socket opens, nothing is ever sent and the flag stays false |
| `TwoPeerProperties.SentKindsAreHandled` | two_peers/client.js:41-118 | every message the client sends has a type (offer, answer or candidate) that its own dispatcher handles |

## Left out

- `index.js` is not modelled. Its signaling reads undefined names, so it has no coherent behaviour to state.
- Media capture, constraints and `addTrack` are not modelled. They are device I/O.
- The DOM is not modelled: `gotRemoteStream`, `makeLabel`, the `removeChild` in `checkPeerDisconnect` and the UI part of the `load` handler.
- `stopCall` in the two-peer client is not modelled. It stops a media track and closes the socket.
- RTCPeerConnection is opaque. Descriptions and candidates are stored values, and SDP and ICE are not interpreted. The foreign calls are assumed to succeed, so browser rejections are not modelled. Re-adding a candidate that was already applied appends it again.
- Closing the relay connection in `beforeunload` (`serverConnection.close()`) is not modelled. It is transport.
- WebSocket readiness on the client side is not modelled. `sendMessageToServer` has no guard, and the model assumes the socket is open.
- The `ws` library's own `wss.clients` bookkeeping is not modelled; `FanOut` takes that set as a parameter. The library also keeps `readyState` on each channel; the model takes it as it is.
- FanOut.OnError: the model sets the channel straight to CLOSED and does not model the library's intermediate CLOSING state.
- Async interleaving between handlers is not modelled. Each handler is one atomic step.
- `generateClientId`, `prompt` and console logging are parameters or left out. They are randomness and I/O.
- JSON text is not modelled, and neither are parse failures on malformed input. Messages are parsed values.
- MeshProperties.Admissible assumes that local ICE events never name the local uuid. Connections are only created for uuids that passed the addressing filter, so this holds of the source.
- TwoPeerClient.Caller.constructor: covers one `startCall` per page load. `isConnected` is a module-level variable that `startCall` never resets and `stopCall` neither resets nor pairs with closing the old peer connection. A repeated call therefore starts with the flag still set from the earlier one, and an old connection's candidate events can then reach a socket that is still connecting; that case is not modelled.
