/** The backend's real-time fan-out: a module-level server handle and the
  * broadcast that sends one serialised envelope to every open client. */
module WebSocketHub {
  import opened Readings

  /** The `readyState` values of a WebSocket connection. */
  datatype ReadyState = Connecting | Open | Closing | Closed

  /** A connected client as the hub sees it: its state and the frames sent to it. */
  datatype Client = Client(readyState: ReadyState, outbox: seq<string>)

  /** `if (client.readyState === WebSocket.OPEN) client.send(data)`. */
  function SendIfOpen(c: Client, data: string): (r: Client)
    ensures r.readyState == c.readyState
    ensures c.readyState == Open ==> r.outbox == c.outbox + [data]
    ensures c.readyState != Open ==> r == c
  {
    if c.readyState == Open then c.(outbox := c.outbox + [data]) else c
  }

  /** The client list after one fan-out of `data`. */
  function Delivered(clients: seq<Client>, data: string): (r: seq<Client>)
    ensures |r| == |clients|
    ensures forall i :: 0 <= i < |clients| ==> r[i] == SendIfOpen(clients[i], data)
  {
    seq(|clients|, i requires 0 <= i < |clients| => SendIfOpen(clients[i], data))
  }

  /** Exactly the open clients receive `data`, once, at the end of their outbox;
    * every other client is untouched; nobody joins, leaves or changes state. */
  lemma DeliveredSendsToOpenOnly(clients: seq<Client>, data: string)
    ensures |Delivered(clients, data)| == |clients|
    ensures forall i :: 0 <= i < |clients| ==>
      && Delivered(clients, data)[i].readyState == clients[i].readyState
      && (clients[i].readyState == Open ==> Delivered(clients, data)[i].outbox == clients[i].outbox + [data])
      && (clients[i].readyState != Open ==> Delivered(clients, data)[i] == clients[i])
  {
  }

  /** All recipients receive the same frame. */
  lemma RecipientsShareOneFrame(clients: seq<Client>, data: string, i: int, j: int)
    requires 0 <= i < |clients| && 0 <= j < |clients|
    requires clients[i].readyState == Open && clients[j].readyState == Open
    ensures var r := Delivered(clients, data);
      |r[i].outbox| > 0 && |r[j].outbox| > 0 && r[i].outbox[|r[i].outbox| - 1] == r[j].outbox[|r[j].outbox| - 1]
  {
  }

  /** Three OPEN-or-not clients: the two open ones get the frame and the closed one
    * stays a member, with nothing sent to it. */
  lemma MixedClientsExample(data: string)
    ensures Delivered([Client(Open, []), Client(Closed, []), Client(Open, ["x"])], data)
         == [Client(Open, [data]), Client(Closed, []), Client(Open, ["x", data])]
  {
    var r := Delivered([Client(Open, []), Client(Closed, []), Client(Open, ["x"])], data);
    assert r[0] == Client(Open, [data]);
    assert r[2] == Client(Open, ["x", data]);
  }

  class Hub {
    /** `JSON.stringify`, a library call the model does not look into. */
    const stringify: Message -> string
    /** `wss !== null`: whether `initWebSocket` has run. */
    var initialised: bool
    /** `wss.clients`, in the server's iteration order. */
    var clients: seq<Client>

    constructor (stringify: Message -> string)
      ensures this.stringify == stringify
      ensures !initialised && clients == []
    {
      this.stringify := stringify;
      initialised := false;
      clients := [];
    }

    /** `initWebSocket`: the server is created, with no clients yet. */
    method InitWebSocket()
      modifies this
      ensures initialised && clients == []
    {
      initialised := true;
      clients := [];
    }

    /** The server library registers an accepted connection as an open client. */
    method ClientConnected()
      requires initialised
      modifies this`clients
      ensures clients == old(clients) + [Client(Open, [])]
    {
      clients := clients + [Client(Open, [])];
    }

    /** `broadcast`: nothing without a server; otherwise the message is serialised
      * once and that frame is sent to every client open at call time. */
    method Broadcast(message: Message)
      modifies this`clients
      ensures !initialised ==> clients == old(clients)
      ensures initialised ==> clients == Delivered(old(clients), stringify(message))
    {
      if !initialised {
        return;
      }
      var data := stringify(message);
      ghost var before := clients;
      var i := 0;
      while i < |clients|
        invariant 0 <= i <= |clients| == |before|
        invariant forall k :: 0 <= k < i ==> clients[k] == SendIfOpen(before[k], data)
        invariant forall k :: i <= k < |clients| ==> clients[k] == before[k]
      {
        if clients[i].readyState == Open {
          clients := clients[i := clients[i].(outbox := clients[i].outbox + [data])];
        }
        i := i + 1;
      }
    }
  }
}
