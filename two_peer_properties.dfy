/** What the two-peer client's handlers guarantee, stated about the
    functions of `TwoPeerSpec`. */
module TwoPeerProperties {
  import opened Wrappers
  import opened Rtc
  import opened TwoPeerSpec

  /** The guard: a message reaches the socket exactly when connected, and
      sending never touches the peer connection or the flag. */
  lemma SendOnlyWhenConnected(c: Call, m: Message)
    ensures var r := SendSignalingMessage(c, m);
      && r.sent == (if c.isConnected then c.sent + [m] else c.sent)
      && r.(sent := c.sent) == c
  {
  }

  /** Only `onopen` sets `isConnected`; nothing ever clears it. */
  lemma ConnectedOnlyByOpen(c: Call, e: Event)
    ensures Step(c, e).isConnected == (c.isConnected || e.Open?)
  {
  }

  /** `onopen` sets the offer as local description and sends it. */
  lemma OpenSendsOffer(c: Call, offer: Blob)
    ensures var r := OnOpen(c, offer);
      && r.isConnected
      && r.local == Some(Description(Offer, offer))
      && r.sent == c.sent + [Message("offer", Some(offer), None)]
      && r.remote == c.remote && r.added == c.added
  {
  }

  /** An offer: set it as remote, set the created answer as local, and send
      the answer when connected. */
  lemma OfferIsAnswered(c: Call, m: Message, answer: Blob)
    requires m.kind == "offer"
    ensures var r := HandleSignalingMessage(c, m, answer);
      && r.remote == Some(Description(Offer, SdpText(m)))
      && r.local == Some(Description(Answer, answer))
      && r.sent == c.sent + (if c.isConnected then [Message("answer", Some(answer), None)] else [])
      && r.added == c.added && r.isConnected == c.isConnected
  {
  }

  /** An answer only becomes the remote description. */
  lemma AnswerOnlySetsRemote(c: Call, m: Message, answer: Blob)
    requires m.kind == "answer"
    ensures HandleSignalingMessage(c, m, answer) == c.(remote := Some(Description(Answer, SdpText(m))))
  {
  }

  /** A candidate message only adds its `candidate` to the connection. */
  lemma CandidateOnlyAdds(c: Call, m: Message, answer: Blob)
    requires m.kind == "candidate"
    ensures HandleSignalingMessage(c, m, answer) == c.(added := c.added + [m.candidate])
  {
  }

  /** Any other `type` is logged and changes nothing. */
  lemma UnknownTypeIgnored(c: Call, m: Message, answer: Blob)
    requires m.kind != "offer" && m.kind != "answer" && m.kind != "candidate"
    ensures HandleSignalingMessage(c, m, answer) == c
  {
  }

  /** A local candidate is sent as `{type: "candidate", candidate}` when
      connected; the null candidate sends nothing. */
  lemma LocalCandidateSent(c: Call, candidate: Option<Candidate>)
    ensures var r := OnIceCandidate(c, candidate);
      && r.sent == c.sent + (if candidate.Some? && c.isConnected then [Message("candidate", None, candidate)] else [])
      && r.(sent := c.sent) == c
  {
  }

  /** A received message makes us send something only when it is an offer,
      and then the one message is our answer, after the offer has become the
      remote description. */
  lemma AnswerFollowsOffer(c: Call, m: Message, answer: Blob)
    requires |HandleSignalingMessage(c, m, answer).sent| != |c.sent|
    ensures var r := HandleSignalingMessage(c, m, answer);
      && m.kind == "offer"
      && r.remote.Some? && r.remote.value.kind == Offer
      && r.sent == c.sent + [DescriptionMessage(r.local.value)]
      && r.local == Some(Description(Answer, answer))
  {
  }

  /** Until the socket opens nothing reaches it, whatever else happens. */
  lemma {:induction false} NothingSentBeforeOpen(c: Call, es: seq<Event>)
    requires !c.isConnected
    requires forall k :: 0 <= k < |es| ==> !es[k].Open?
    ensures Run(c, es).sent == c.sent && !Run(c, es).isConnected
    decreases |es|
  {
    if es != [] {
      assert Step(c, es[0]).sent == c.sent;
      NothingSentBeforeOpen(Step(c, es[0]), es[1..]);
    }
  }

  /** The client only ever writes the three kinds of message its own
      dispatcher understands. */
  lemma {:induction false} SentKindsAreHandled(c: Call, es: seq<Event>)
    requires forall k :: 0 <= k < |c.sent| ==> c.sent[k].kind in {"offer", "answer", "candidate"}
    ensures forall k :: 0 <= k < |Run(c, es).sent| ==> Run(c, es).sent[k].kind in {"offer", "answer", "candidate"}
    decreases |es|
  {
    if es != [] {
      SentKindsAreHandled(Step(c, es[0]), es[1..]);
    }
  }
}
