/**
 * The WebSocket room manager and the per-connection session of app/api/ws.py.
 *
 * The transport is not modelled: what it does is passed in. `accepted` says whether the
 * handshake (`ws.accept()`) succeeds, `frames` are the texts `receive_text` returns before
 * it raises, `ending` is what it raises then, and `failing` names the sockets whose
 * `send_text` raises. The JSON library is passed in as `loads` and `dumps`.
 */
module Ws {
  import opened Wrappers
  import opened Rooms
  import opened Envelope
  import opened Fanout

  /** The single-process room registry: document id -> joined sockets. */
  class ConnectionManager {
    var docs: Registry

    constructor ()
      ensures docs == map[]
    {
      docs := map[];
    }

    /**
     * Accept the handshake, then add the socket to the document's room, creating the
     * room if it is missing. A failed handshake raises before anything is registered.
     */
    method Connect(docId: string, ws: Socket, accepted: bool) returns (ok: bool)
      modifies this
      ensures ok == accepted
      ensures ok ==> docs == Join(old(docs), docId, ws)
      ensures !ok ==> docs == old(docs)
      ensures ok ==> ws in docs[docId]
    {
      if !accepted {
        return false;
      }
      var room := if docId in docs then docs[docId] else {};
      docs := docs[docId := room + {ws}];
      ok := true;
    }

    /** Remove the socket if its room exists, is non-empty and holds it; otherwise do nothing. */
    method Disconnect(docId: string, ws: Socket)
      modifies this
      ensures docs == Leave(old(docs), docId, ws)
      ensures docs.Keys == old(docs.Keys)
      ensures ws !in Members(docs, docId)
    {
      if docId in docs {
        var sockets := docs[docId];
        if sockets != {} && ws in sockets {
          docs := docs[docId := sockets - {ws}];
        }
      }
    }

    /**
     * Snapshot the room, return at once if it is empty, serialise the message once and
     * attempt one send of that text to every socket of the snapshot. The registry is
     * only read; failed sends are recorded in the result and never raised.
     */
    method Broadcast(docId: string, message: Json, dumps: Json -> string, failing: set<Socket>)
      returns (sends: seq<Delivery>)
      ensures FanOut(sends, Members(docs, docId), dumps(message), failing)
      ensures |sends| == |Members(docs, docId)|
    {
      var snapshot := if docId in docs then docs[docId] else {};
      sends := [];
      if snapshot == {} {
        return;
      }
      var data := dumps(message);
      var pending := snapshot;
      while pending != {}
        invariant pending <= snapshot
        invariant Recipients(sends) == snapshot - pending
        invariant NoRepeats(sends)
        invariant forall i :: 0 <= i < |sends| ==> sends[i].data == data
        invariant forall i :: 0 <= i < |sends| ==> (sends[i].delivered <==> sends[i].to !in failing)
        decreases pending
      {
        var ws :| ws in pending;
        RecipientsSnoc(sends, Delivery(ws, data, ws !in failing));
        sends := sends + [Delivery(ws, data, ws !in failing)];
        pending := pending - {ws};
      }
      FanOutSize(sends, snapshot, data, failing);
    }
  }

  /** What `receive_text` raises to end a session. */
  datatype Ending =
    | ClientDisconnect   // WebSocketDisconnect: the client closed the connection
    | TransportError     // any other exception: it propagates out of the endpoint

  /**
   * The `/ws/{doc_id}` endpoint: connect, then for every received frame decode it and
   * broadcast it to the room; on WebSocketDisconnect leave the room. Any other exception
   * (and a failed handshake) propagates, and the socket is not removed.
   * `rounds[i]` is the broadcast made for `frames[i]`; `raised` says the endpoint ended
   * with an exception.
   */
  method WebsocketEndpoint(manager: ConnectionManager, docId: string, ws: Socket, accepted: bool,
                           frames: seq<string>, ending: Ending,
                           loads: string -> Option<Json>, dumps: Json -> string,
                           failing: nat -> set<Socket>)
    returns (rounds: seq<seq<Delivery>>, raised: bool)
    modifies manager
    ensures raised <==> !accepted || ending == TransportError
    ensures !accepted ==> rounds == [] && manager.docs == old(manager.docs)
    ensures accepted && ending == ClientDisconnect ==>
      manager.docs == Leave(Join(old(manager.docs), docId, ws), docId, ws)
    ensures accepted && ending == TransportError ==>
      manager.docs == Join(old(manager.docs), docId, ws)
    ensures accepted && ending == ClientDisconnect ==>
      docId in manager.docs && ws !in manager.docs[docId]
    ensures accepted && ending == TransportError ==> ws in manager.docs[docId]
    ensures accepted ==> |rounds| == |frames|
    ensures forall i :: 0 <= i < |rounds| ==>
      FanOut(rounds[i], Members(Join(old(manager.docs), docId, ws), docId),
             dumps(Decode(loads, frames[i])), failing(i))
    ensures forall i :: 0 <= i < |rounds| ==> CountTo(rounds[i], ws) == 1
  {
    rounds := [];
    var ok := manager.Connect(docId, ws, accepted);
    if !ok {
      return rounds, true;
    }
    ghost var joined := manager.docs;
    ghost var room := Members(joined, docId);
    assert ws in room;
    var i := 0;
    while i < |frames|
      invariant 0 <= i <= |frames|
      invariant manager.docs == joined
      invariant |rounds| == i
      invariant forall k :: 0 <= k < i ==>
        FanOut(rounds[k], room, dumps(Decode(loads, frames[k])), failing(k)) && CountTo(rounds[k], ws) == 1
    {
      var msg := Decode(loads, frames[i]);
      var sends := manager.Broadcast(docId, msg, dumps, failing(i));
      FanOutExactlyOnce(sends, room, dumps(msg), failing(i), ws);
      ghost var before := rounds;
      rounds := rounds + [sends];
      forall k | 0 <= k <= i
        ensures FanOut(rounds[k], room, dumps(Decode(loads, frames[k])), failing(k))
        ensures CountTo(rounds[k], ws) == 1
      {
        if k < i {
          assert rounds[k] == before[k];
        } else {
          assert rounds[k] == sends;
        }
      }
      i := i + 1;
    }
    match ending
    case ClientDisconnect =>
      manager.Disconnect(docId, ws);
      raised := false;
    case TransportError =>
      raised := true;
  }
}
