/** The port-5000 relay: a `clients` Set of its own, filled on connection,
    emptied on close, and a broadcast that forwards a message to every open
    client except the one it came from. The relay is generic in the message
    type `M`, so it cannot look at a message's content or its `dest`: it does
    no addressing of its own, and the value it sends is the value it parsed
    (JSON.stringify of JSON.parse gives back the same JSON value). */
module Relay {
  import opened Channels

  /** `Set.prototype.add` on a set kept in insertion order. */
  function Insert(s: seq<Channel>, c: Channel): (r: seq<Channel>)
    ensures c in r
    ensures forall k :: 0 <= k < |r| ==> r[k] in s || r[k] == c
    ensures s <= r
    ensures NoDuplicates(s) ==> NoDuplicates(r)
  {
    if c in s then s else s + [c]
  }

  /** `Set.prototype.delete` on a set kept in insertion order. */
  function Remove(s: seq<Channel>, c: Channel): (r: seq<Channel>)
    ensures c !in r
    ensures forall k :: 0 <= k < |r| ==> r[k] in s
    ensures forall k :: 0 <= k < |s| && s[k] != c ==> s[k] in r
    ensures NoDuplicates(s) ==> NoDuplicates(r)
    ensures c !in s ==> r == s
  {
    if s == [] then []
    else if s[0] == c then Remove(s[1..], c)
    else [s[0]] + Remove(s[1..], c)
  }

  class Relay {
    /** The connected clients, in the order the Set iterates them. */
    var clients: seq<Channel>

    ghost predicate Valid()
      reads this
    {
      NoDuplicates(clients)
    }

    constructor ()
      ensures Valid() && clients == []
    {
      clients := [];
    }

    /** The `connection` handler: the new client joins the set. */
    method OnConnection(ws: Channel)
      requires Valid()
      modifies this
      ensures Valid() && clients == Insert(old(clients), ws)
    {
      if ws !in clients {
        clients := clients + [ws];
      }
    }

    /** The `close` handler: exactly that client leaves the set. */
    method OnClose(ws: Channel)
      requires Valid()
      modifies this
      ensures Valid() && clients == Remove(old(clients), ws)
    {
      clients := Remove(clients, ws);
    }

    /** `broadcastMessage(message, sender)`: one send to every member of the
        set, in order, that is OPEN and is not the sender. */
    method BroadcastMessage<M>(message: M, sender: Channel) returns (sent: seq<Send<M>>)
      requires Valid()
      ensures Targets(sent) == Deliverable(clients, {sender})
      ensures sender !in Targets(sent)
      ensures forall k :: 0 <= k < |clients| && clients[k] != sender && clients[k].readyState == Open ==> clients[k] in Targets(sent)
      ensures forall k :: 0 <= k < |sent| ==> sent[k].to in clients && sent[k].to.readyState == Open
      ensures NoDuplicates(Targets(sent))
      ensures forall k :: 0 <= k < |sent| ==> sent[k].message == message
    {
      sent := [];
      var i := 0;
      while i < |clients|
        invariant 0 <= i <= |clients|
        invariant Targets(sent) == Deliverable(clients[..i], {sender})
        invariant forall k :: 0 <= k < |sent| ==> sent[k].message == message
      {
        var client := clients[i];
        SendLoopStep(sent, clients, i, {sender}, message);
        if client != sender && client.readyState == Open {
          sent := sent + [Send(client, message)];
        }
        i := i + 1;
      }
      assert clients[..i] == clients;
      SentToDeliverable(sent, clients, {sender});
    }

    /** The `message` handler: whatever was parsed is broadcast with the
        receiving channel as sender. */
    method OnMessage<M>(message: M, ws: Channel) returns (sent: seq<Send<M>>)
      requires Valid()
      ensures Targets(sent) == Deliverable(clients, {ws})
      ensures forall k :: 0 <= k < |sent| ==> sent[k].message == message
    {
      sent := BroadcastMessage(message, ws);
    }
  }
}
