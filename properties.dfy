/**
 Properties of whole runs of the room protocol: the room text is written only
 by `code_change`, a join after a write returns the written text, a room's
 text outlives its members, and the empty room id never gains members.
 */
module RoomProperties {
  import opened Protocol

  /** None of `inputs` is a `code_change` naming room `r`. */
  predicate NoWriteTo(inputs: seq<Input>, r: RoomId) {
    forall i :: 0 <= i < |inputs| ==> !WritesRoom(inputs[i], r)
  }

  /**
   A room's entry in the store (its text, or its absence) is unchanged by any
   run that has no `code_change` to that room: joins never store the welcome
   text, and leaves and disconnects never discard the text.
   */
  lemma {:induction false} StoreEntryStable(s: State, inputs: seq<Input>, r: RoomId)
    requires NoWriteTo(inputs, r)
    ensures Lookup(Run(s, inputs).store, r) == Lookup(s.store, r)
    decreases |inputs|
  {
    if inputs != [] {
      assert !WritesRoom(inputs[0], r);
      StoreEntryStable(Step(s, inputs[0]).state, inputs[1..], r);
    }
  }

  /** A run made only of joins, leaves and disconnects leaves the whole store as it was. */
  lemma {:induction false} NoCodeChangeKeepsStore(s: State, inputs: seq<Input>)
    requires forall i :: 0 <= i < |inputs| ==> !inputs[i].req.CodeChange?
    ensures Run(s, inputs).store == s.store
    decreases |inputs|
  {
    if inputs != [] {
      NoCodeChangeKeepsStore(Step(s, inputs[0]).state, inputs[1..]);
    }
  }

  /** Every session in a room is a connected session. */
  predicate MembersConnected(s: State) {
    forall r | r in s.members :: s.members[r] <= s.connected
  }

  /** One handled event keeps every room member connected. */
  lemma StepKeepsMembersConnected(s: State, inp: Input)
    requires MembersConnected(s)
    ensures MembersConnected(Step(s, inp).state)
  {
  }

  /** Membership never outlives the connection: the invariant holds over any run. */
  lemma {:induction false} RunKeepsMembersConnected(s: State, inputs: seq<Input>)
    requires MembersConnected(s)
    ensures MembersConnected(Run(s, inputs))
    decreases |inputs|
  {
    if inputs != [] {
      StepKeepsMembersConnected(s, inputs[0]);
      RunKeepsMembersConnected(Step(s, inputs[0]).state, inputs[1..]);
    }
  }

  /**
   Round trip: after `code_change` of text `t` to a non-empty room `r` by any
   session, a later successful join of `r` by any session returns exactly `t`,
   to that session only, provided no other `code_change` to `r` comes between.
   */
  lemma RoundTrip(s: State, writer: Sid, r: RoomId, t: string, between: seq<Input>, reader: Sid)
    requires r != ""
    requires NoWriteTo(between, r)
    ensures
      var written := CodeChangeStep(s, writer, map["roomId" := r, "code" := t]).state;
      JoinRoomStep(Run(written, between), reader, map["roomId" := r], false).sent
        == {Message(reader, InitialCode(t))}
  {
    var written := CodeChangeStep(s, writer, map["roomId" := r, "code" := t]).state;
    StoreEntryStable(written, between, r);
  }

  /** The inputs by which each session of `leavers` leaves room `r`, in order. */
  function LeaveAll(leavers: seq<Sid>, r: RoomId): (inputs: seq<Input>)
    ensures |inputs| == |leavers|
    ensures forall i :: 0 <= i < |leavers| ==>
      inputs[i] == Input(leavers[i], LeaveRoom(map["roomId" := r]), false)
  {
    if leavers == [] then []
    else [Input(leavers[0], LeaveRoom(map["roomId" := r]), false)] + LeaveAll(leavers[1..], r)
  }

  /** Leaving removes exactly the leavers from the room and keeps the other rooms as they were. */
  lemma {:induction false} LeaveAllMembers(s: State, leavers: seq<Sid>, r: RoomId)
    requires r != "" && MembersConnected(s)
    ensures forall x :: x in MembersOf(Run(s, LeaveAll(leavers, r)).members, r) <==>
      x in MembersOf(s.members, r) && x !in leavers
    ensures forall q :: q != r ==>
      MembersOf(Run(s, LeaveAll(leavers, r)).members, q) == MembersOf(s.members, q)
    decreases |leavers|
  {
    if leavers != [] {
      var inputs := LeaveAll(leavers, r);
      assert inputs[1..] == LeaveAll(leavers[1..], r);
      StepKeepsMembersConnected(s, inputs[0]);
      LeaveAllMembers(Step(s, inputs[0]).state, leavers[1..], r);
    }
  }

  /**
   When every member of room `r` leaves, the room is left with no members but
   its text is kept: a later join of `r` returns the text stored before, not a
   fresh document.
   */
  lemma EmptiedRoomKeepsText(s: State, leavers: seq<Sid>, r: RoomId, joiner: Sid)
    requires r != "" && r in s.store && MembersConnected(s)
    requires forall x :: x in MembersOf(s.members, r) ==> x in leavers
    ensures MembersOf(Run(s, LeaveAll(leavers, r)).members, r) == {}
    ensures Run(s, LeaveAll(leavers, r)).store == s.store
    ensures JoinRoomStep(Run(s, LeaveAll(leavers, r)), joiner, map["roomId" := r], false).sent
      == {Message(joiner, InitialCode(s.store[r]))}
  {
    var inputs := LeaveAll(leavers, r);
    LeaveAllMembers(s, leavers, r);
    NoCodeChangeKeepsStore(s, inputs);
  }

  /**
   A write to the empty room id is stored under `""`, and in any state reached
   from the start it reaches every session that is in some room, whatever the
   room, except the sender: the library reads the falsy target as "everyone".
   */
  lemma EmptyRoomWriteReachesEveryone(inputs: seq<Input>, sid: Sid, t: string, q: RoomId, x: Sid)
    requires x in MembersOf(Run(Init(), inputs).members, q) && x != sid
    ensures
      var o := CodeChangeStep(Run(Init(), inputs), sid, map["roomId" := "", "code" := t]);
      Message(x, CodeUpdate(t)) in o.sent && "" in o.state.store && o.state.store[""] == t
  {
    RunKeepsMembersConnected(Init(), inputs);
  }

  /**
   Two sessions connect and join room "a"; a write by the first to room `""`
   is delivered to the second, which is not in any room named `""`.
   */
  lemma EmptyRoomWriteCrossesRooms()
    ensures
      var s := Run(Init(), [Input("s1", Connect, false), Input("s2", Connect, false),
                            Input("s1", JoinRoom(map["roomId" := "a"]), false),
                            Input("s2", JoinRoom(map["roomId" := "a"]), false)]);
      && MembersOf(s.members, "") == {}
      && CodeChangeStep(s, "s1", map["roomId" := "", "code" := "x"]).sent
         == {Message("s2", CodeUpdate("x"))}
  {
  }
}
