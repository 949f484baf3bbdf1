# Realtime editor: room registry, broadcast and settings strings, in Dafny

This project models the real-time collaboration transport of a small FastAPI service.
Clients open a WebSocket on `/ws/{doc_id}` and join that document's room. Every text frame
a client sends is decoded as JSON and broadcast to every socket in the room.

- `rooms.dfy` (module `Rooms`): the registry as a value. It is a map from document id to a
  set of sockets. `Join` and `Leave` are the two updates made to it. Lemmas cover idempotence,
  undo, commutation, and any history of joins and leaves on one room.
- `fanout.dfy` (module `Fanout`): what one broadcast puts on the wire. It is one send attempt per
  member of the room snapshot, all with the same text. The `FanOut` predicate states this,
  and lemmas derive exactly-once delivery, the empty-room case and failure isolation.
- `ws.dfy` (module `Ws`): `ConnectionManager` as a class whose `docs` field its methods
  update in place. `Broadcast` is a loop over the snapshot proved to produce a `FanOut`.
  `WebsocketEndpoint` is the session: connect, then a receive–decode–broadcast loop, then
  disconnect on a client close.
- `envelope.dfy` (module `Envelope`): the JSON value type and `Decode`. `Decode` falls back to
  `{"type": "raw", "data": text}` when parsing fails. Objects keep their members in insertion
  order, integers and floats are distinct, and floats include NaN and the infinities. These are
  the distinctions `json.dumps` writes out.
- `config.py`'s string logic (module `Config`, `config.dfy`): Python's `str.split(",")` and
  `str.strip()` written out, then `cors_origins_list` and `is_development`.
- `wrappers.dfy`: `Option`.

Things outside the model are passed in as parameters:
- `json.loads` is `loads: string -> Option<Json>`, where `None` means it raised.
- `json.dumps` is `dumps: Json -> string`.
- Whether the handshake succeeds is `accepted`.
- The texts `receive_text` returns are `frames`, and the exception that ends the loop is `ending`.
- The sockets whose `send_text` raises are `failing`.

Where the design and the code differ, the model follows the code:
- Text that parses to a JSON value that is not an object (such as `5`) is passed on unchanged, with no fallback envelope.
- A room whose last member leaves is kept as an empty set. It is never pruned.
- The socket is removed only when `WebSocketDisconnect` ends the loop. Any other exception propagates and leaves the socket registered.
- The sender is among the recipients of its own broadcast.

## Model

| member | source | states |
|---|---|---|
| `Rooms.Join` | app/api/ws.py:15 | the room exists afterwards and holds its old members plus the socket; no other room changes |
| `Rooms.Leave` | app/api/ws.py:17-20 | keys are unchanged (an emptied room is kept); exactly the socket is removed from the room; other rooms are unchanged; a no-op when the socket was not a member |
| `Rooms.JoinIdempotent` | app/api/ws.py:15 | connecting the same socket twice gives the same registry as connecting once |
| `Rooms.JoinMemberNoChange` | app/api/ws.py:15 | joining a room the socket is already in changes nothing (set semantics, no duplicates) |
| `Rooms.LeaveIdempotent` | app/api/ws.py:17-20 | disconnecting twice is disconnecting once |
| `Rooms.LeaveUndoesJoin` | app/api/ws.py:15-20 | in an existing room, leave restores the registry to what it was before the join of a non-member |
| `Rooms.EmptyRoomRetained` | app/api/ws.py:15-20 | a room created by a join is kept as an empty set after its only member leaves |
| `Rooms.JoinLeaveCommute` | app/api/ws.py:15-20 | a join of one socket and a leave of another give the same registry in either order |
| `Rooms.ReplayMembers` | app/api/ws.py:15-20 | after any sequence of joins and leaves on one room, a socket is a member if and only if its own last event was a join (or, with no event, it was a member before); other rooms are untouched and no room disappears |
| `Rooms.InterleavingIrrelevant` | app/api/ws.py:15-20 | two histories that agree on each socket's own events leave the same members, however the sockets' events interleave |
| `Fanout.FanOutExactlyOnce` | app/api/ws.py:23-27 | in a fan-out, every member gets exactly one attempt and every non-member none |
| `Fanout.FanOutSize` | app/api/ws.py:23-27 | the number of send attempts equals the size of the snapshot |
| `Fanout.EmptyRoomNoSends` | app/api/ws.py:23-25 | a fan-out to an empty room has no send attempt |
| `Fanout.FailureIsolation` | app/api/ws.py:27 | the sockets that receive the message are exactly the members minus those whose send fails |
| `Ws.ConnectionManager.constructor` | app/api/ws.py:10-11 | a new manager has no rooms |
| `Ws.ConnectionManager.Connect` | app/api/ws.py:13-15 | after a successful handshake the registry is `Join` of the old one, so the socket is in the room; after a failed handshake it is unchanged |
| `Ws.ConnectionManager.Disconnect` | app/api/ws.py:17-20 | the registry becomes `Leave` of the old one: same keys, and the socket is not in the room |
| `Ws.ConnectionManager.Broadcast` | app/api/ws.py:22-27 | without changing the registry, the attempts form a `FanOut` of `dumps(message)` to the room's members at call time, one per member, with failures recorded and not raised |
| `Ws.WebsocketEndpoint` | app/api/ws.py:31-49 | frame i is decoded and fanned out to the room as joined (sender included, exactly once); a client disconnect ends with `Leave(Join(old))` and no exception; any other error propagates with the socket still registered; a failed handshake registers nothing |
| `Envelope.RawEnvelope` | app/api/ws.py:46 | the fallback is an object with exactly two members, `type` then `data`, where `type` is "raw" and `data` is the text |
| `Envelope.Decode` | app/api/ws.py:43-46 | the parsed value when `loads` succeeds, else the raw envelope holding the original text; total |
| `Envelope.OrderAndNumberKindKept` | app/api/ws.py:44-47 | objects that differ only in member order, and an integer and its equal float, are different messages, so a serialiser can write them differently |
| `Envelope.FallbackKeepsText` | app/api/ws.py:43-46 | the original text can be read back out of the fallback envelope |
| `Envelope.FallbackInjective` | app/api/ws.py:43-46 | two different unparseable texts never decode to the same message |
| `Envelope.NonObjectPassesThrough` | app/api/ws.py:44 | a text that parses to a non-object JSON value decodes to that value, not to an envelope |
| `Config.Split` | app/core/config.py:61 | `split(",")` gives one piece per comma plus one, and no piece holds the separator |
| `Config.SplitThenJoin` | app/core/config.py:61 | joining the pieces with the separator gives back the original string |
| `Config.JoinThenSplit` | app/core/config.py:61 | splitting pieces joined with a separator none of them holds gives back the pieces |
| `Config.Strip` | app/core/config.py:61 | `strip()` returns a slice of the input; only whitespace (Python's `isspace` set) is cut from either end, and none is left at either end |
| `Config.StripIdempotent` | app/core/config.py:61 | stripping twice is stripping once |
| `Config.SplitOrigins` | app/core/config.py:61 | the comprehension has one entry per comma-separated segment; no entry holds a comma or has whitespace at either end |
| `Config.CorsOriginsList` | app/core/config.py:56-61 | exactly `["*"]` for the setting `"*"`; otherwise commas + 1 entries, none with surrounding whitespace or a comma |
| `Config.CorsOriginsAreStrippedSegments` | app/core/config.py:61 | outside the wildcard case, entry i is segment i stripped, and the segments joined with commas give back the setting |
| `Config.WildcardOnlyOnExactMatch` | app/core/config.py:59-61 | `"*,"` followed by an origin goes through the split path and yields `["*", origin]` |
| `Config.SplitTwoOrigins` | app/core/config.py:61 | two comma-free origins without surrounding whitespace, joined by a comma, give exactly those two entries |
| `Config.EmptySettingYieldsEmptyOrigin` | app/core/config.py:61 | an empty setting yields `[""]` |
| `Config.WildcardBranchAgreesWithSplit` | app/core/config.py:59-61 | the wildcard branch never changes the result: the split path also maps `"*"` to `["*"]` |
| `Config.IsDevelopment` | app/core/config.py:63-66 | true exactly when `debug` is set |
| `Config.DefaultSettings` | app/core/config.py:21-47 | with the declared defaults, the service is not in development mode and allows every origin (`["*"]`) |

## Left out

- The transport is not modelled: WebSocket accept, `receive_text`, `send_text`. Their outcomes are parameters, and sends are recorded as `Delivery` values.
- `asyncio.gather` scheduling is not modelled. A broadcast is a set of independent attempts in an unspecified order. Interleaving with other sessions is not modelled either. In particular, other sessions cannot change the registry while `WebsocketEndpoint` runs, or between its snapshot and its sends.
- The internals of `json.loads` and `json.dumps` are not modelled; they are parameters.
- Envelope.Json: a finite float is an exact `real`, so IEEE rounding and the sign of `-0.0` are not modelled. An object is a member list that may repeat a key, where a Python dict keeps one entry per key. Only a `loads` that never repeats a key matches Python.
- The registry holds sets as values. Python mutates the set object in place, but nothing else holds a reference to it (the broadcast snapshot is a copy), so aliasing is not observable.
- Loading settings from the environment is left out: `load_dotenv`, pydantic parsing, the `lru_cache` singleton. Only the declared field defaults are kept, as constants.
- app/main.py, app/api/health.py, app/db/session.py and app/db/models.py are not part of this model. They hold process startup, health probes and database setup.
