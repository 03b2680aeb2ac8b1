/** The two-peer client as an object: the `isConnected` flag, the single
    peer connection and the socket's sent messages, updated by the handlers
    that `startCall` installs. Each method is proved to perform the step
    `TwoPeerSpec` defines. */
module TwoPeerClient {
  import opened Wrappers
  import opened Rtc
  import opened TwoPeerSpec

  class Caller {
    var isConnected: bool
    var local: Option<Description>
    var remote: Option<Description>
    var added: seq<Option<Candidate>>
    var sent: seq<Message>

    function State(): Call
      reads this
    {
      Call(isConnected, local, remote, added, sent)
    }

    /** A new peer connection and a socket that is not open yet. */
    constructor ()
      ensures State() == Initial
    {
      isConnected, local, remote, added, sent := false, None, None, [], [];
    }

    method SendSignalingMessage(message: Message)
      modifies this
      ensures State() == TwoPeerSpec.SendSignalingMessage(old(State()), message)
    {
      if isConnected {
        sent := sent + [message];
      }
    }

    /** `socket.onopen`: set the flag, then set and send the offer. */
    method OnOpen(offer: Blob)
      modifies this
      ensures State() == TwoPeerSpec.OnOpen(old(State()), offer)
    {
      isConnected := true;
      var description := Description(Offer, offer);
      local := Some(description);
      SendSignalingMessage(DescriptionMessage(description));
    }

    method HandleOffer(message: Message, answer: Blob)
      modifies this
      ensures State() == TwoPeerSpec.HandleOffer(old(State()), message, answer)
    {
      remote := Some(Description(Offer, SdpText(message)));
      var description := Description(Answer, answer);
      local := Some(description);
      SendSignalingMessage(DescriptionMessage(description));
    }

    method HandleAnswer(message: Message)
      modifies this
      ensures State() == TwoPeerSpec.HandleAnswer(old(State()), message)
    {
      remote := Some(Description(Answer, SdpText(message)));
    }

    method HandleCandidate(message: Message)
      modifies this
      ensures State() == TwoPeerSpec.HandleCandidate(old(State()), message)
    {
      added := added + [message.candidate];
    }

    method HandleSignalingMessage(message: Message, answer: Blob)
      modifies this
      ensures State() == TwoPeerSpec.HandleSignalingMessage(old(State()), message, answer)
    {
      if message.kind == "offer" {
        HandleOffer(message, answer);
      } else if message.kind == "answer" {
        HandleAnswer(message);
      } else if message.kind == "candidate" {
        HandleCandidate(message);
      }
    }

    method OnIceCandidate(candidate: Option<Candidate>)
      modifies this
      ensures State() == TwoPeerSpec.OnIceCandidate(old(State()), candidate)
    {
      if candidate.Some? {
        SendSignalingMessage(CandidateMessage(candidate.value));
      }
    }
  }
}
