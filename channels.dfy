/** The relays' view of a client channel: an object whose identity is what
    the relays compare, with the `readyState` the `ws` library keeps on it. */
module Channels {

  /** WebSocket.readyState. */
  datatype ReadyState = Connecting | Open | Closing | Closed

  class Channel {
    var readyState: ReadyState

    constructor (state: ReadyState)
      ensures readyState == state
    {
      readyState := state;
    }
  }

  /** One `client.send(...)`: the channel written to and the message value. */
  datatype Send<M> = Send(to: Channel, message: M)

  /** The channels a sequence of sends went to, in order. */
  function Targets<M>(sent: seq<Send<M>>): seq<Channel>
  {
    seq(|sent|, i requires 0 <= i < |sent| => sent[i].to)
  }

  /** A JavaScript `Set` iterated in insertion order holds each member once. */
  ghost predicate NoDuplicates<T>(s: seq<T>)
  {
    forall i, j :: 0 <= i < j < |s| ==> s[i] != s[j]
  }

  /** The members of `clients`, in iteration order, whose readyState is OPEN
      and that are not in `excluded`: who a relay's forEach loop sends to.
      What it contains is stated by `DeliverableMembers`. */
  function Deliverable(clients: seq<Channel>, excluded: set<Channel>): seq<Channel>
    reads clients
  {
    if clients == [] then []
    else
      var init, c := clients[..|clients| - 1], clients[|clients| - 1];
      Deliverable(init, excluded) + (if c.readyState == Open && c !in excluded then [c] else [])
  }

  /** The deliverable channels are exactly the OPEN, non-excluded members,
      each once when the set holds each member once. */
  lemma {:induction false} DeliverableMembers(clients: seq<Channel>, excluded: set<Channel>)
    ensures var r := Deliverable(clients, excluded);
      && (forall k :: 0 <= k < |r| ==> r[k] in clients && r[k].readyState == Open && r[k] !in excluded)
      && (forall k :: 0 <= k < |clients| && clients[k].readyState == Open && clients[k] !in excluded ==> clients[k] in r)
      && (NoDuplicates(clients) ==> NoDuplicates(r))
      && |r| <= |clients|
    decreases |clients|
  {
    if clients != [] {
      var init, c := clients[..|clients| - 1], clients[|clients| - 1];
      assert clients == init + [c];
      DeliverableMembers(init, excluded);
    }
  }

  /** Iterating one more member extends the deliverable channels by that
      member alone, when it is OPEN and not excluded. */
  lemma DeliverableAppend(clients: seq<Channel>, c: Channel, excluded: set<Channel>)
    ensures Deliverable(clients + [c], excluded)
            == Deliverable(clients, excluded) + (if c.readyState == Open && c !in excluded then [c] else [])
  {
    assert (clients + [c])[..|clients|] == clients;
  }

  /** Sends whose targets are the deliverable channels go to OPEN,
      non-excluded members only, reach every such member, and reach each of
      them once. */
  lemma SentToDeliverable<M>(sent: seq<Send<M>>, clients: seq<Channel>, excluded: set<Channel>)
    requires Targets(sent) == Deliverable(clients, excluded)
    ensures forall k :: 0 <= k < |sent| ==> sent[k].to in clients && sent[k].to.readyState == Open && sent[k].to !in excluded
    ensures forall k :: 0 <= k < |clients| && clients[k].readyState == Open && clients[k] !in excluded ==> clients[k] in Targets(sent)
    ensures NoDuplicates(clients) ==> NoDuplicates(Targets(sent))
  {
    DeliverableMembers(clients, excluded);
    assert forall k :: 0 <= k < |sent| ==> Targets(sent)[k] == sent[k].to;
  }

  /** One iteration of a relay's send loop: sending to member `i` when it is
      OPEN and not excluded keeps the targets equal to the deliverable
      members of the prefix already iterated. */
  lemma SendLoopStep<M>(sent: seq<Send<M>>, clients: seq<Channel>, i: nat, excluded: set<Channel>, message: M)
    requires i < |clients|
    requires Targets(sent) == Deliverable(clients[..i], excluded)
    ensures var c := clients[i];
      Targets(if c.readyState == Open && c !in excluded then sent + [Send(c, message)] else sent)
      == Deliverable(clients[..i + 1], excluded)
  {
    assert clients[..i + 1] == clients[..i] + [clients[i]];
    DeliverableAppend(clients[..i], clients[i], excluded);
    assert Targets(sent + [Send(clients[i], message)]) == Targets(sent) + [clients[i]];
  }
}
