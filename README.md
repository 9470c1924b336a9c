# Room registry of the CodeNest collaborative editor backend, in Dafny

CodeNest lets several people edit one text document per named room. The
backend (`backend/app.py`) keeps the latest full text of every room in an
in-memory dictionary, `room_code_store`. It answers five socket events:

- `connect` only logs. The socket library accepts the session.
- `join_room` puts the session in a room. It replies to that session only,
  with the room's text or a per-room welcome text.
- `code_change` replaces the room's text, last writer wins. It forwards the
  new text to every other session the room id addresses.
- `leave_room` takes the session out of a room.
- `disconnect` only logs. The socket library then drops the session and its
  room memberships.

This project models that registry as a state machine and proves what each
handler does to the state and who receives which message.

- `protocol.dfy` (module `Protocol`) holds the pure model. A `State` has the
  room-to-text `store`, the room `members` map (room id to session ids) and
  the set of `connected` sessions.
  Each handler is a function from a state to an `Outcome`: the next state
  and the set of `Message`s it emits, one `(to, event)` record per
  recipient. `Step` dispatches one `Input` and `Run` folds a sequence of
  them.
- `server.dfy` (module `Server`) holds the class `RoomServer`. Its fields
  `roomCodeStore`, `rooms` and `connected` are updated in place by the
  handler methods.
  Each method is proved to take exactly the step `Protocol` describes.
- `properties.dfy` (module `RoomProperties`) holds lemmas about whole runs.
  They cover the round trip from a write to a later join, the text outliving
  all members, membership never outliving the connection, and a write to the
  empty room id reaching every session.

An event's payload is modelled as the map of its string fields, so
`data.get(key)` is `Get(data, key)`. Two validation styles are kept apart.
`join_room` and `leave_room` reject a falsy room id, that is a missing one
or `""` (`Falsy`). `code_change` rejects only a missing room id or code, so
empty strings pass. A library exception inside a handler's `try` block is a
boolean input, `libraryFails`.

Who receives a `code_update` follows the socket library's addressing rules.
An emit with `to=r` reaches the members of room `r`. It also reaches the
session whose id is `r`, because the library keeps every session in a room
named by its own id. When `r` is the empty string the library sees no target
at all and reaches every connected session. `include_self=False` then takes
the sender out. `Recipients` states these rules.

In five places the code does not do what a room-based editor is meant to
do. The model follows the code:

- Rooms are meant to be discarded when their last member leaves, and to
  restart with empty text. The code never removes a store entry.
  `EmptiedRoomKeepsText` proves that a join after every member has left
  returns the old text.
- A room that was never written is meant to start as `""`. The code replies
  with a welcome text that names the room, and never stores it.
- A `code_change` from a session outside the room is meant to be rejected.
  The code checks no membership and stores the text anyway.
- `join_room` rejects the empty room id, but `code_change` accepts it. Such
  a write is stored under `""`, which no join can read. It is also sent to
  every other connected session, in every room (`EmptyRoomWriteReachesEveryone`).
- A disconnect is meant to remove the session from its room. The handler
  does nothing itself; the removal is the socket library's, and the model
  includes it in `DisconnectStep`.

## Model

| member | source | states |
|---|---|---|
| `Protocol.Init` | backend/app.py:20 | The server starts with no stored text for any room, no members in any room and no connected session. |
| `Protocol.Get` | backend/app.py:39 | `data.get(key)` yields a value exactly when the key is present, and then it is the field's value. |
| `Protocol.Welcome` | backend/app.py:47 | The default text is the fixed prefix, then the room id verbatim, then the fixed suffix. So it embeds the room id. |
| `Protocol.CouldNotJoin` | backend/app.py:51 | The join-failure message is "Could not join room ", then the room id verbatim, then ".". |
| `Protocol.JoinRoomStep` | backend/app.py:37-51 | A join never writes the store and emits exactly one message, addressed only to the requester. A missing or empty id sends "Room ID is required." and changes nothing. A library failure sends the could-not-join error and changes nothing. Otherwise the requester is added to that room only and receives the stored text, or the welcome text when none is stored. |
| `Protocol.CodeChangeStep` | backend/app.py:53-61 | Membership and connections never change. A missing room id or code changes nothing and emits nothing. Otherwise the room's text becomes the code whatever it was, and every other room's entry is unchanged. For a non-empty room id, `code_update` goes to exactly the room's members and the connected session of that id, minus the sender. For `""` it goes to every connected session except the sender. The sender need not be a member. |
| `Protocol.LeaveRoomStep` | backend/app.py:63-73 | A leave emits nothing and never touches the store. A missing or empty id, or a library failure, changes nothing. Otherwise the session is removed from that room only. |
| `Protocol.ConnectStep` | backend/app.py:28-30 | A connection emits nothing and leaves the store and rooms alone. It adds the session to the connected sessions. |
| `Protocol.DisconnectStep` | backend/app.py:32-35 | A disconnection emits nothing and leaves the store alone. The session is no longer connected, and every room loses exactly that session. |
| `Protocol.Step` | backend/app.py:28-73 | Of the five events, only `code_change` can change the store, and only at the room it names. An event from a session that is not connected changes nothing. |
| `RoomProperties.StoreEntryStable` | backend/app.py:60 | Over any run with no `code_change` to room r, r's store entry is unchanged: its text, or its absence. |
| `RoomProperties.NoCodeChangeKeepsStore` | backend/app.py:32-51 | Any run of joins, leaves and disconnects leaves the whole store as it was. |
| `RoomProperties.RunKeepsMembersConnected` | backend/app.py:32-45 | Over any run, if every room member was connected at the start, every room member is still connected at the end. |
| `RoomProperties.RoundTrip` | backend/app.py:47-60 | After `code_change(r, t)` by any session, a later successful join of non-empty r by any session gets exactly `initial_code` t, and only that session gets it. This holds if no other `code_change` to r comes between. |
| `RoomProperties.LeaveAllMembers` | backend/app.py:63-73 | From a state where every room member is connected, a sequence of leaves from room r removes exactly the leaving sessions from r and no session from any other room. |
| `RoomProperties.EmptiedRoomKeepsText` | backend/app.py:63-73 | From a state where every room member is connected, after every member of r leaves, r has no members but its store entry is intact. A later join returns the old text. |
| `RoomProperties.EmptyRoomWriteReachesEveryone` | backend/app.py:55-61 | In any state reachable from the start, a `code_change` to room `""` is stored under `""`. It is sent to every session in any room, except the sender. |
| `RoomProperties.EmptyRoomWriteCrossesRooms` | backend/app.py:55-61 | Sessions s1 and s2 connect and join room "a". Then s1's write to `""` is delivered to s2 and to nobody else, although no session is in a room named `""`. |
| `Server.RoomServer.constructor` | backend/app.py:20 | A new server's state is the initial state: empty store, no members, no connections. |
| `Server.RoomServer.HandleConnect` | backend/app.py:28-30 | The method takes exactly `ConnectStep`. The store and rooms are unchanged, and nothing is emitted. |
| `Server.RoomServer.HandleJoinRoom` | backend/app.py:37-51 | The method takes exactly `JoinRoomStep` on the object's fields. The store field is unchanged, and exactly one message goes to the requester. |
| `Server.RoomServer.HandleCodeChange` | backend/app.py:53-61 | The method takes exactly `CodeChangeStep`. A valid event updates `roomCodeStore` at the room to the code. A missing field leaves the store unchanged and emits nothing. Membership is unchanged. |
| `Server.RoomServer.HandleLeaveRoom` | backend/app.py:63-73 | The method takes exactly `LeaveRoomStep`. The store is unchanged and nothing is emitted. |
| `Server.RoomServer.HandleDisconnect` | backend/app.py:32-35 | The method takes exactly `DisconnectStep`. The store is unchanged and nothing is emitted. The session is no longer connected and is in no room. |
| `Server.WriteThenJoin` | backend/app.py:37-61 | On a fresh server, a connected session that never joined writes to room "R1", and nothing is sent. A later join of "R1" receives exactly the written text. |

## Left out

- Payloads that are not a dictionary, and fields that are not strings
  (numbers, booleans, null): only string fields are modelled, and a Python
  `AttributeError` from a non-dictionary payload is not modelled.
- Where a library exception is raised inside the `try` blocks: a join
  failure is modelled as membership unchanged plus the error reply. A
  failure raised by `emit` after the session was already added is not
  modelled. A leave failure is modelled as no change.
- The socket library's transport. Membership is an abstract map and emits
  are returned records. Replies addressed `room=request.sid` are taken to
  reach the requester.
- The per-session room is modelled as always holding exactly its connected
  session. A `join_room` or `leave_room` that names a session id changes
  only the `members` map. In the library it would change that session's own
  room.
- The order in which one `code_update` reaches the several recipients. The
  emitted messages form a set.
- The `/` route, application and CORS setup, `.env` loading,
  `print` logging and `socketio.run`. These are configuration and I/O with
  no state.
- Concurrency of the eventlet server. Each handler is one atomic step.
- The React front end (`frontend/app/page.js`,
  `frontend/app/editor/[roomId]/page.jsx`): its debounce, echo suppression
  and reconnection are client logic outside this model.
