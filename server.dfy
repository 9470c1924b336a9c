/**
 The backend's in-memory room registry as an object: the room-to-text
 dictionary and the socket library's room membership are fields that the
 event handlers update in place. Each handler returns the messages it emits
 and is proved to take the step the Protocol module describes.
 */
module Server {
  import opened Protocol

  class RoomServer {
    /** The latest full text of each room that has been written. */
    var roomCodeStore: map<RoomId, string>
    /** The sessions joined to each room, as the socket library keeps them. */
    var rooms: map<RoomId, set<Sid>>
    /** The sessions the socket library has accepted and not yet dropped. */
    var connected: set<Sid>

    /** The server's state as the Protocol module describes it. */
    function Abstract(): State
      reads this
    {
      State(roomCodeStore, rooms, connected)
    }

    constructor ()
      ensures Abstract() == Init()
    {
      roomCodeStore := map[];
      rooms := map[];
      connected := {};
    }

    /** The `connect` event, for a new session `sid`. */
    method HandleConnect(sid: Sid) returns (sent: set<Message>)
      modifies this
      ensures Outcome(Abstract(), sent) == ConnectStep(old(Abstract()), sid)
      ensures roomCodeStore == old(roomCodeStore) && rooms == old(rooms) && sent == {}
    {
      connected := connected + {sid};
      sent := {};
    }

    /** The `join_room` handler, run for session `sid`. */
    method HandleJoinRoom(sid: Sid, data: Payload, libraryFails: bool) returns (sent: set<Message>)
      modifies this
      ensures Outcome(Abstract(), sent) == JoinRoomStep(old(Abstract()), sid, data, libraryFails)
      ensures roomCodeStore == old(roomCodeStore)
      ensures |sent| == 1 && forall m :: m in sent ==> m.to == sid
    {
      var roomId := Get(data, "roomId");
      if Falsy(roomId) {
        sent := {Message(sid, Error(RoomIdRequired))};
        return;
      }
      var r := roomId.value;
      if libraryFails {
        sent := {Message(sid, Error(CouldNotJoin(r)))};
        return;
      }
      rooms := rooms[r := MembersOf(rooms, r) + {sid}];
      var currentCode := if r in roomCodeStore then roomCodeStore[r] else Welcome(r);
      sent := {Message(sid, InitialCode(currentCode))};
    }

    /** The `code_change` handler, run for session `sid`. */
    method HandleCodeChange(sid: Sid, data: Payload) returns (sent: set<Message>)
      modifies this
      ensures Outcome(Abstract(), sent) == CodeChangeStep(old(Abstract()), sid, data)
      ensures rooms == old(rooms) && connected == old(connected)
      ensures "roomId" in data && "code" in data ==>
        roomCodeStore == old(roomCodeStore)[data["roomId"] := data["code"]]
      ensures "roomId" !in data || "code" !in data ==>
        roomCodeStore == old(roomCodeStore) && sent == {}
    {
      var roomId := Get(data, "roomId");
      var newCode := Get(data, "code");
      if roomId.None? || newCode.None? {
        sent := {};
        return;
      }
      var r, t := roomId.value, newCode.value;
      roomCodeStore := roomCodeStore[r := t];
      sent := set m | m in Recipients(Abstract(), r) - {sid} :: Message(m, CodeUpdate(t));
    }

    /** The `leave_room` handler, run for session `sid`. */
    method HandleLeaveRoom(sid: Sid, data: Payload, libraryFails: bool) returns (sent: set<Message>)
      modifies this
      ensures Outcome(Abstract(), sent) == LeaveRoomStep(old(Abstract()), sid, data, libraryFails)
      ensures roomCodeStore == old(roomCodeStore) && sent == {}
    {
      sent := {};
      var roomId := Get(data, "roomId");
      if Falsy(roomId) || libraryFails {
        return;
      }
      var r := roomId.value;
      rooms := rooms[r := MembersOf(rooms, r) - {sid}];
    }

    /**
     The `disconnect` event: the handler only logs and leaves the store alone;
     the socket library drops the session and takes it out of every room.
     */
    method HandleDisconnect(sid: Sid) returns (sent: set<Message>)
      modifies this
      ensures Outcome(Abstract(), sent) == DisconnectStep(old(Abstract()), sid)
      ensures roomCodeStore == old(roomCodeStore) && sent == {}
      ensures sid !in connected && forall r :: sid !in MembersOf(rooms, r)
    {
      rooms := map r | r in rooms :: rooms[r] - {sid};
      connected := connected - {sid};
      sent := {};
    }
  }

  /**
   A scenario driven through the handlers: a write to room "R1" by a session
   that never joined it is stored, and a later joiner receives it while the
   writer gets nothing back.
   */
  method WriteThenJoin(writer: Sid, reader: Sid, t: string) returns (writeSent: set<Message>, joinSent: set<Message>)
    ensures writeSent == {}
    ensures joinSent == {Message(reader, InitialCode(t))}
  {
    var server := new RoomServer();
    var _ := server.HandleConnect(writer);
    writeSent := server.HandleCodeChange(writer, map["roomId" := "R1", "code" := t]);
    joinSent := server.HandleJoinRoom(reader, map["roomId" := "R1"], false);
  }
}
