/** The two-peer client's signaling, as functions on values: one
    RTCPeerConnection, a socket that sends only once the `isConnected` flag
    is set, and a dispatcher on the message's `type`. `TwoPeerClient.Caller`
    runs the same handlers imperatively and is proved to agree. */
module TwoPeerSpec {
  import opened Wrappers
  import opened Rtc

  /** A signaling message: `{type, sdp?, candidate?}`. A description is sent
      as itself (`{type: "offer" | "answer", sdp}`), a candidate as
      `{type: "candidate", candidate}`. */
  datatype Message = Message(kind: string, sdp: Option<Blob>, candidate: Option<Candidate>)

  /** The state of one call: the flag, the peer connection's descriptions and
      added candidates (`None` is `addIceCandidate(undefined)`), and every
      message written to the socket. */
  datatype Call = Call(isConnected: bool, local: Option<Description>, remote: Option<Description>,
                       added: seq<Option<Candidate>>, sent: seq<Message>)

  /** `startCall` before the socket opens. */
  const Initial: Call := Call(false, None, None, [], [])

  function DescriptionMessage(d: Description): Message
  {
    Message(TypeName(d.kind), Some(d.sdp), None)
  }

  function CandidateMessage(c: Candidate): Message
  {
    Message("candidate", None, Some(c))
  }

  /** The `sdp` text of a received description; RTCSessionDescription
      defaults a missing one to "". */
  function SdpText(m: Message): Blob
  {
    if m.sdp.Some? then m.sdp.value else ""
  }

  /** `sendSignalingMessage`: written to the socket only when connected,
      otherwise logged and dropped. */
  function SendSignalingMessage(c: Call, m: Message): Call
  {
    if c.isConnected then c.(sent := c.sent + [m]) else c
  }

  /** `socket.onopen` with the offer the browser created. */
  function OnOpen(c: Call, offer: Blob): Call
  {
    var d := Description(Offer, offer);
    SendSignalingMessage(c.(isConnected := true, local := Some(d)), DescriptionMessage(d))
  }

  /** `handleOffer` with the answer the browser created. */
  function HandleOffer(c: Call, m: Message, answer: Blob): Call
  {
    var d := Description(Answer, answer);
    SendSignalingMessage(c.(remote := Some(Description(Offer, SdpText(m))), local := Some(d)), DescriptionMessage(d))
  }

  function HandleAnswer(c: Call, m: Message): Call
  {
    c.(remote := Some(Description(Answer, SdpText(m))))
  }

  function HandleCandidate(c: Call, m: Message): Call
  {
    c.(added := c.added + [m.candidate])
  }

  /** `handleSignalingMessage`: the switch on `type`. */
  function HandleSignalingMessage(c: Call, m: Message, answer: Blob): Call
  {
    if m.kind == "offer" then HandleOffer(c, m, answer)
    else if m.kind == "answer" then HandleAnswer(c, m)
    else if m.kind == "candidate" then HandleCandidate(c, m)
    else c
  }

  /** `peerConnection.onicecandidate`. */
  function OnIceCandidate(c: Call, candidate: Option<Candidate>): Call
  {
    if candidate.Some? then SendSignalingMessage(c, CandidateMessage(candidate.value)) else c
  }

  datatype Event =
    | Open(offer: Blob)
    | Receive(message: Message, answer: Blob)
    | LocalCandidate(candidate: Option<Candidate>)

  function Step(c: Call, e: Event): Call
  {
    match e
    case Open(offer) => OnOpen(c, offer)
    case Receive(m, answer) => HandleSignalingMessage(c, m, answer)
    case LocalCandidate(cand) => OnIceCandidate(c, cand)
  }

  function Run(c: Call, es: seq<Event>): Call
    decreases |es|
  {
    if es == [] then c else Run(Step(c, es[0]), es[1..])
  }
}
