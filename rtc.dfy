/** Browser WebRTC values that both clients only store and relay.
    Session descriptions and ICE candidates are opaque: nothing here parses
    SDP or interprets a candidate. */
module Rtc {

  /** The SDP text of a session description, never inspected. */
  type Blob = string

  /** An ICE candidate as the browser produced it, never inspected. */
  type Candidate = string

  /** RTCSdpType. */
  datatype SdpType = Offer | Answer | PrAnswer | Rollback

  /** The `type` string of a description on the wire. */
  function TypeName(t: SdpType): string
  {
    match t
    case Offer => "offer"
    case Answer => "answer"
    case PrAnswer => "pranswer"
    case Rollback => "rollback"
  }

  /** RTCSessionDescription: `{type, sdp}`. */
  datatype Description = Description(kind: SdpType, sdp: Blob)

  /** RTCIceConnectionState. */
  datatype IceState = New | Checking | Connected | Completed | Failed | Disconnected | Closed
}
