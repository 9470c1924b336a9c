/**
 The room/document protocol of the collaborative editor backend, as pure
 functions. Each socket event handler is a step from one server State to the
 next together with the set of messages it emits; a run is a sequence of such
 steps. Session ids and room ids are opaque strings.
 */
module Protocol {

  datatype Option<+T> = None | Some(value: T)

  type Sid = string
  type RoomId = string

  /** The JSON object a client sends with an event, restricted to its string fields. */
  type Payload = map<string, string>

  /** `data.get(key)`: the field's value, or None when the key is absent. */
  function Get(data: Payload, key: string): (v: Option<string>)
    ensures v.Some? <==> key in data
    ensures v.Some? ==> v.value == data[key]
  {
    if key in data then Some(data[key]) else None
  }

  /** Python's `not x` for an optional string: None and "" are falsy. */
  predicate Falsy(x: Option<string>) {
    x.None? || x.value == ""
  }

  /** Server-to-client events and their payloads. */
  datatype Event =
    | InitialCode(code: string)
    | CodeUpdate(code: string)
    | Error(message: string)

  /** One emitted event, addressed to one session. */
  datatype Message = Message(to: Sid, event: Event)

  /**
   The server's state: `store` is the room-to-text dictionary, `members` the
   socket library's membership of the rooms joined by name, from room id to
   the sessions in it, and `connected` the sessions the library has accepted.
   */
  datatype State = State(store: map<RoomId, string>, members: map<RoomId, set<Sid>>, connected: set<Sid>)

  datatype Outcome = Outcome(state: State, sent: set<Message>)

  function Init(): (s: State)
    ensures s.connected == {}
    ensures forall r :: r !in s.store && MembersOf(s.members, r) == {}
  {
    State(map[], map[], {})
  }

  /** The sessions currently in room `r` (none when the room was never joined). */
  function MembersOf(members: map<RoomId, set<Sid>>, r: RoomId): set<Sid> {
    if r in members then members[r] else {}
  }

  /**
   The sessions an emit addressed `to=r` reaches. The socket library treats a
   falsy target as no target and addresses every connected session; it also
   keeps each connected session in a room named by its own session id.
   */
  function Recipients(s: State, r: RoomId): set<Sid> {
    if r == "" then s.connected
    else MembersOf(s.members, r) + (if r in s.connected then {r} else {})
  }

  /** The stored text of room `r`, if any. */
  function Lookup(store: map<RoomId, string>, r: RoomId): Option<string> {
    if r in store then Some(store[r]) else None
  }

  const WelcomePrefix: string := "# Welcome to room: "
  const WelcomeSuffix: string := " (Eventlet Backend)\n\nprint(\"Hello from Eventlet!\")"
  const RoomIdRequired: string := "Room ID is required."

  /** The text a join returns for a room that has never been written. */
  function Welcome(r: RoomId): (w: string)
    ensures |w| == |WelcomePrefix| + |r| + |WelcomeSuffix|
    ensures w[..|WelcomePrefix|] == WelcomePrefix
    ensures w[|WelcomePrefix|..|WelcomePrefix| + |r|] == r
    ensures w[|WelcomePrefix| + |r|..] == WelcomeSuffix
  {
    WelcomePrefix + r + WelcomeSuffix
  }

  /** The error text sent when the socket library fails to add a session to room `r`. */
  function CouldNotJoin(r: RoomId): (e: string)
    ensures |e| == |"Could not join room "| + |r| + 1
    ensures e[..|"Could not join room "|] == "Could not join room "
    ensures e[|"Could not join room "|..|e| - 1] == r
    ensures e[|e| - 1] == '.'
  {
    "Could not join room " + r + "."
  }

  /**
   `join_room`: a falsy room id is answered with an error; otherwise the
   session is added to the room and receives the room's text, or the welcome
   text when the room has none. Only the requester is ever addressed, and the
   store is never written, so the welcome text is not stored.
   */
  function JoinRoomStep(s: State, sid: Sid, data: Payload, libraryFails: bool): (o: Outcome)
    ensures o.state.store == s.store && o.state.connected == s.connected
    ensures |o.sent| == 1 && forall m :: m in o.sent ==> m.to == sid
    ensures Falsy(Get(data, "roomId")) ==>
      o.state == s && o.sent == {Message(sid, Error(RoomIdRequired))}
    ensures !Falsy(Get(data, "roomId")) && libraryFails ==>
      o.state == s && o.sent == {Message(sid, Error(CouldNotJoin(data["roomId"])))}
    ensures !Falsy(Get(data, "roomId")) && !libraryFails ==>
      var r := data["roomId"];
      && MembersOf(o.state.members, r) == MembersOf(s.members, r) + {sid}
      && (forall q :: q != r ==> MembersOf(o.state.members, q) == MembersOf(s.members, q))
      && (r in s.store ==> o.sent == {Message(sid, InitialCode(s.store[r]))})
      && (r !in s.store ==> o.sent == {Message(sid, InitialCode(Welcome(r)))})
  {
    var roomId := Get(data, "roomId");
    if Falsy(roomId) then
      Outcome(s, {Message(sid, Error(RoomIdRequired))})
    else if libraryFails then
      Outcome(s, {Message(sid, Error(CouldNotJoin(roomId.value)))})
    else
      var r := roomId.value;
      var current := if r in s.store then s.store[r] else Welcome(r);
      Outcome(s.(members := s.members[r := MembersOf(s.members, r) + {sid}]),
              {Message(sid, InitialCode(current))})
  }

  /**
   `code_change`: unless the room id or the code is absent (an empty string is
   accepted), the room's text becomes the new code whatever it was, and every
   session the room id addresses other than the sender receives it: the
   room's members, the session whose id equals the room id, and for the empty
   room id every connected session. Membership is not checked and not changed.
   */
  function CodeChangeStep(s: State, sid: Sid, data: Payload): (o: Outcome)
    ensures o.state.members == s.members && o.state.connected == s.connected
    ensures "roomId" !in data || "code" !in data ==> o == Outcome(s, {})
    ensures "roomId" in data && "code" in data ==>
      var r, t := data["roomId"], data["code"];
      && r in o.state.store && o.state.store[r] == t
      && (forall q :: q != r ==> Lookup(o.state.store, q) == Lookup(s.store, q))
      && (r != "" ==> forall m :: m in o.sent <==>
            && m.event == CodeUpdate(t) && m.to != sid
            && (m.to in MembersOf(s.members, r) || (m.to == r && r in s.connected)))
      && (r == "" ==> forall m :: m in o.sent <==>
            m.event == CodeUpdate(t) && m.to in s.connected && m.to != sid)
  {
    var roomId, newCode := Get(data, "roomId"), Get(data, "code");
    if roomId.None? || newCode.None? then
      Outcome(s, {})
    else
      var r, t := roomId.value, newCode.value;
      Outcome(s.(store := s.store[r := t]),
              set m | m in Recipients(s, r) - {sid} :: Message(m, CodeUpdate(t)))
  }

  /**
   `leave_room`: with a truthy room id, the session is removed from that room;
   nothing is emitted and the room's text is kept.
   */
  function LeaveRoomStep(s: State, sid: Sid, data: Payload, libraryFails: bool): (o: Outcome)
    ensures o.sent == {} && o.state.store == s.store && o.state.connected == s.connected
    ensures Falsy(Get(data, "roomId")) || libraryFails ==> o.state == s
    ensures !Falsy(Get(data, "roomId")) && !libraryFails ==>
      var r := data["roomId"];
      && MembersOf(o.state.members, r) == MembersOf(s.members, r) - {sid}
      && (forall q :: q != r ==> MembersOf(o.state.members, q) == MembersOf(s.members, q))
  {
    var roomId := Get(data, "roomId");
    if Falsy(roomId) || libraryFails then
      Outcome(s, {})
    else
      var r := roomId.value;
      Outcome(s.(members := s.members[r := MembersOf(s.members, r) - {sid}]), {})
  }

  /**
   A connection: the `connect` handler only logs; the socket library accepts
   the session.
   */
  function ConnectStep(s: State, sid: Sid): (o: Outcome)
    ensures o.sent == {} && o.state.store == s.store && o.state.members == s.members
    ensures o.state.connected == s.connected + {sid}
  {
    Outcome(s.(connected := s.connected + {sid}), {})
  }

  /**
   A disconnection: the `disconnect` handler only logs and leaves the store
   alone; the socket library forgets the session and takes it out of every
   room it had joined.
   */
  function DisconnectStep(s: State, sid: Sid): (o: Outcome)
    ensures o.sent == {} && o.state.store == s.store
    ensures o.state.connected == s.connected - {sid}
    ensures forall r :: MembersOf(o.state.members, r) == MembersOf(s.members, r) - {sid}
  {
    Outcome(State(s.store, map r | r in s.members :: s.members[r] - {sid}, s.connected - {sid}), {})
  }

  /** Client-to-server events. */
  datatype Request =
    | JoinRoom(data: Payload)
    | CodeChange(data: Payload)
    | LeaveRoom(data: Payload)
    | Connect
    | Disconnect

  /**
   One handled event: the session that sent it, the request, and whether the
   socket library raised inside the handler's `try` block.
   */
  datatype Input = Input(sid: Sid, req: Request, libraryFails: bool)

  /** Whether `inp` is a `code_change` naming room `r`. */
  predicate WritesRoom(inp: Input, r: RoomId) {
    inp.req.CodeChange? && Get(inp.req.data, "roomId") == Some(r)
  }

  /**
   Dispatch of one event to its handler. The socket library delivers events
   only from connected sessions, so any other event from an unknown session
   is dropped.
   */
  function Step(s: State, inp: Input): (o: Outcome)
    ensures forall r :: !WritesRoom(inp, r) ==> Lookup(o.state.store, r) == Lookup(s.store, r)
    ensures !inp.req.CodeChange? ==> o.state.store == s.store
    ensures !inp.req.Connect? && inp.sid !in s.connected ==> o == Outcome(s, {})
  {
    if !inp.req.Connect? && inp.sid !in s.connected then Outcome(s, {})
    else match inp.req
    case JoinRoom(data) => JoinRoomStep(s, inp.sid, data, inp.libraryFails)
    case CodeChange(data) => CodeChangeStep(s, inp.sid, data)
    case LeaveRoom(data) => LeaveRoomStep(s, inp.sid, data, inp.libraryFails)
    case Connect => ConnectStep(s, inp.sid)
    case Disconnect => DisconnectStep(s, inp.sid)
  }

  /** The state after handling `inputs` in order, one at a time. */
  function Run(s: State, inputs: seq<Input>): State
    decreases |inputs|
  {
    if inputs == [] then s else Run(Step(s, inputs[0]).state, inputs[1..])
  }
}
