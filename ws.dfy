/**
 * The websocket client registry (app/ws.py): a list of connected sockets,
 * appended on connect, removed by value on disconnect, and walked in order
 * by broadcast, which swallows every per-client send failure.
 */
module Ws {
  import opened Common

  /** A websocket connection, compared by identity. */
  datatype Socket = Socket(id: nat)

  /** One attempted send of a broadcast: to whom, what, and whether it got through. */
  datatype Send = Send(to: Socket, event: Event, delivered: bool)

  class WSManager {
    var clients: seq<Socket>

    /** The registry starts with no clients. */
    constructor ()
      ensures clients == []
    {
      clients := [];
    }

    /**
     * connect: the handshake (`accept`) happens first; when it raises, the
     * socket is not registered. Registering appends, duplicates included.
     */
    method Connect(ws: Socket, accepted: bool) returns (ok: bool)
      modifies this
      ensures ok == accepted
      ensures clients == if accepted then old(clients) + [ws] else old(clients)
    {
      ok := accepted;
      if accepted {
        clients := clients + [ws];
      }
    }

    /**
     * disconnect: list.remove drops the first copy of ws, and raises
     * ValueError (ok == false) when ws is not registered.
     */
    method Disconnect(ws: Socket) returns (ok: bool)
      modifies this
      ensures ok == (ws in old(clients))
      ensures ok ==> clients == RemoveFirst(old(clients), ws)
      ensures ok ==> multiset(clients) == multiset(old(clients)) - multiset{ws}
      ensures !ok ==> clients == old(clients)
    {
      ok := ws in clients;
      if ok {
        RemoveFirstMultiset(clients, ws);
        clients := RemoveFirst(clients, ws);
      }
    }

    /**
     * broadcast: one send per registered client, in list order; a client in
     * `dead` fails its send and the failure is swallowed. The client list is
     * read, never changed.
     */
    method Broadcast(message: Event, dead: set<Socket>) returns (sends: seq<Send>)
      ensures |sends| == |clients|
      ensures forall i :: 0 <= i < |sends| ==> sends[i] == Send(clients[i], message, clients[i] !in dead)
    {
      sends := [];
      var i := 0;
      while i < |clients|
        invariant 0 <= i <= |clients|
        invariant |sends| == i
        invariant forall j :: 0 <= j < i ==> sends[j] == Send(clients[j], message, clients[j] !in dead)
      {
        var ws := clients[i];
        var delivered := ws !in dead;
        sends := sends + [Send(ws, message, delivered)];
        i := i + 1;
      }
    }
  }

  /** After one disconnect of a socket registered once, a second disconnect raises. */
  method DisconnectTwice(hub: WSManager, ws: Socket) returns (first: bool, second: bool)
    requires multiset(hub.clients)[ws] == 1
    modifies hub
    ensures first && !second
  {
    first := hub.Disconnect(ws);
    second := hub.Disconnect(ws);
  }
}
