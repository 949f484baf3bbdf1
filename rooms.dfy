/**
 * The room registry of ConnectionManager (app/api/ws.py), as values: a map from
 * document id to the set of sockets joined to that document's room, and the two
 * updates the manager makes to it (join on connect, leave on disconnect).
 */
module Rooms {

  /** A client's WebSocket; compared by identity, as Python compares the socket objects in a set. */
  class Socket { }

  /** Document id -> the sockets currently joined to that document's room. */
  type Registry = map<string, set<Socket>>

  /** `docs.get(doc_id, [])`: the room's members, empty for an unknown document. */
  function Members(docs: Registry, docId: string): set<Socket>
  {
    if docId in docs then docs[docId] else {}
  }

  /** `docs.setdefault(doc_id, set()).add(ws)`. */
  function Join(docs: Registry, docId: string, ws: Socket): (r: Registry)
    ensures r.Keys == docs.Keys + {docId}
    ensures Members(r, docId) == Members(docs, docId) + {ws}
    ensures forall d :: d in docs && d != docId ==> d in r && r[d] == docs[d]
  {
    docs[docId := Members(docs, docId) + {ws}]
  }

  /** `sockets = docs.get(doc_id); if sockets and ws in sockets: sockets.remove(ws)`. */
  function Leave(docs: Registry, docId: string, ws: Socket): (r: Registry)
    ensures r.Keys == docs.Keys
    ensures Members(r, docId) == Members(docs, docId) - {ws}
    ensures forall d :: d in docs && d != docId ==> r[d] == docs[d]
    ensures ws !in Members(docs, docId) ==> r == docs
  {
    if docId in docs && docs[docId] != {} && ws in docs[docId] then
      docs[docId := docs[docId] - {ws}]
    else
      docs
  }

  /** Connecting the same socket twice leaves the registry as connecting it once. */
  lemma JoinIdempotent(docs: Registry, docId: string, ws: Socket)
    ensures Join(Join(docs, docId, ws), docId, ws) == Join(docs, docId, ws)
  {
  }

  /** A socket already in an existing room: joining again changes nothing. */
  lemma JoinMemberNoChange(docs: Registry, docId: string, ws: Socket)
    requires docId in docs && ws in docs[docId]
    ensures Join(docs, docId, ws) == docs
  {
    assert docs[docId] + {ws} == docs[docId];
    assert docs[docId := docs[docId]] == docs;
  }

  /** Disconnecting twice is disconnecting once. */
  lemma LeaveIdempotent(docs: Registry, docId: string, ws: Socket)
    ensures Leave(Leave(docs, docId, ws), docId, ws) == Leave(docs, docId, ws)
  {
  }

  /** Leaving undoes a join of a socket that was not a member of an existing room. */
  lemma LeaveUndoesJoin(docs: Registry, docId: string, ws: Socket)
    requires docId in docs && ws !in docs[docId]
    ensures Leave(Join(docs, docId, ws), docId, ws) == docs
  {
  }

  /**
   * A room created by a join is not pruned when its last member leaves: the key stays,
   * mapped to the empty set.
   */
  lemma EmptyRoomRetained(docs: Registry, docId: string, ws: Socket)
    requires docId !in docs
    ensures var r := Leave(Join(docs, docId, ws), docId, ws);
      docId in r && r[docId] == {} && r == docs[docId := {}]
  {
  }

  /** Joins and leaves of two different sockets commute. */
  lemma JoinLeaveCommute(docs: Registry, docId: string, a: Socket, b: Socket)
    requires a != b
    ensures Leave(Join(docs, docId, a), docId, b) == Join(Leave(docs, docId, b), docId, a)
  {
    var left, right := Leave(Join(docs, docId, a), docId, b), Join(Leave(docs, docId, b), docId, a);
    assert Members(left, docId) == (Members(docs, docId) + {a}) - {b} == Members(right, docId);
    assert left.Keys == right.Keys;
    forall d | d in left ensures left[d] == right[d] {
      if d == docId {
        assert left[d] == Members(left, docId);
      }
    }
  }

  // ---------------------------------------------------------------------------
  // Histories of joins and leaves on one room

  /** One registry update made on behalf of one socket. */
  datatype Event = Joined(ws: Socket) | Left(ws: Socket)

  function Apply(docs: Registry, docId: string, e: Event): Registry
  {
    match e
    case Joined(ws) => Join(docs, docId, ws)
    case Left(ws) => Leave(docs, docId, ws)
  }

  /** The registry after the events, applied first to last. */
  function Replay(docs: Registry, docId: string, events: seq<Event>): Registry
    decreases |events|
  {
    if events == [] then docs else Replay(Apply(docs, docId, events[0]), docId, events[1..])
  }

  /** The events that concern one socket, in order. */
  function Mine(events: seq<Event>, ws: Socket): (mine: seq<Event>)
    ensures |mine| <= |events|
    ensures forall i :: 0 <= i < |mine| ==> mine[i].ws == ws
  {
    if events == [] then []
    else if events[0].ws == ws then [events[0]] + Mine(events[1..], ws)
    else Mine(events[1..], ws)
  }

  /** Membership decided by a socket's own last event, or its initial membership if it has none. */
  function LastSays(initial: bool, mine: seq<Event>): bool
  {
    if mine == [] then initial else mine[|mine| - 1].Joined?
  }

  lemma LastSaysCons(initial: bool, e: Event, rest: seq<Event>)
    ensures LastSays(initial, [e] + rest) == LastSays(e.Joined?, rest)
  {
  }

  /**
   * After any history of joins and leaves on one room, a socket is a member exactly when
   * its own last event was a join (or, with no event of its own, when it was a member at
   * the start); every other room is untouched and no room is removed.
   */
  lemma {:induction false} ReplayMembers(docs: Registry, docId: string, events: seq<Event>, ws: Socket)
    ensures ws in Members(Replay(docs, docId, events), docId)
      <==> LastSays(ws in Members(docs, docId), Mine(events, ws))
    ensures Replay(docs, docId, events).Keys >= docs.Keys
    ensures forall d :: d in docs && d != docId ==> Replay(docs, docId, events)[d] == docs[d]
    decreases |events|
  {
    if events != [] {
      var e, rest := events[0], events[1..];
      var next := Apply(docs, docId, e);
      ReplayMembers(next, docId, rest, ws);
      if e.ws == ws {
        assert Mine(events, ws) == [e] + Mine(rest, ws);
        LastSaysCons(ws in Members(docs, docId), e, Mine(rest, ws));
      }
    }
  }

  /**
   * How the joins and leaves of different sockets interleave does not matter: two
   * histories that agree on every socket's own events leave the room with the same members.
   */
  lemma InterleavingIrrelevant(docs: Registry, docId: string, h1: seq<Event>, h2: seq<Event>)
    requires forall ws :: Mine(h1, ws) == Mine(h2, ws)
    ensures Members(Replay(docs, docId, h1), docId) == Members(Replay(docs, docId, h2), docId)
  {
    forall ws
      ensures ws in Members(Replay(docs, docId, h1), docId) <==> ws in Members(Replay(docs, docId, h2), docId)
    {
      ReplayMembers(docs, docId, h1, ws);
      ReplayMembers(docs, docId, h2, ws);
    }
    assert Members(Replay(docs, docId, h1), docId) <= Members(Replay(docs, docId, h2), docId);
  }
}
