/** The port-8080 relay of the multi-peer variant: every received message is
    re-broadcast to every OPEN client in the `ws` library's own client set,
    the sender included. Like `Relay`, it is generic in the message type, so
    it neither inspects `dest` nor the payload, and each copy is the JSON value
    it parsed. The client set itself is the library's bookkeeping and is
    passed in. */
module FanOut {
  import opened Channels

  /** `wss.broadcast(data)`: one send per OPEN client, in iteration order. */
  method Broadcast<M>(clients: seq<Channel>, data: M) returns (sent: seq<Send<M>>)
    requires NoDuplicates(clients)
    ensures Targets(sent) == Deliverable(clients, {})
    ensures forall k :: 0 <= k < |clients| && clients[k].readyState == Open ==> clients[k] in Targets(sent)
    ensures forall k :: 0 <= k < |sent| ==> sent[k].to in clients && sent[k].to.readyState == Open
    ensures NoDuplicates(Targets(sent))
    ensures forall k :: 0 <= k < |sent| ==> sent[k].message == data
  {
    sent := [];
    var i := 0;
    while i < |clients|
      invariant 0 <= i <= |clients|
      invariant Targets(sent) == Deliverable(clients[..i], {})
      invariant forall k :: 0 <= k < |sent| ==> sent[k].message == data
    {
      var client := clients[i];
      SendLoopStep(sent, clients, i, {}, data);
      if client.readyState == Open {
        sent := sent + [Send(client, data)];
      }
      i := i + 1;
    }
    assert clients[..i] == clients;
    SentToDeliverable(sent, clients, {});
  }

  /** The `message` handler of channel `ws`: the message goes back out to
      every open client, `ws` itself among them when it is open. */
  method OnMessage<M>(clients: seq<Channel>, ws: Channel, message: M) returns (sent: seq<Send<M>>)
    requires NoDuplicates(clients)
    ensures ws in clients && ws.readyState == Open ==> ws in Targets(sent)
    ensures Targets(sent) == Deliverable(clients, {})
    ensures forall k :: 0 <= k < |sent| ==> sent[k].message == message
  {
    sent := Broadcast(clients, message);
  }

  /** The `error` handler: `ws.terminate()` closes that channel and no other. */
  method OnError(ws: Channel)
    modifies ws
    ensures ws.readyState == Closed
  {
    ws.readyState := Closed;
  }
}
