/**
 * The Colyseus Unity client: a `Client` owning the room registry and the
 * connection's outbound frames, and the `Room` objects it files there.
 * Events a C# event handler would receive are appended to a trace, one per
 * event source (the client and each room); frames handed to the transport
 * are appended to the client's outbox.
 */
module Colyseus {
  import opened Wire
  import opened Registry

  /** Events of one room, in the order they fire. */
  datatype RoomEvent =
    | Joined                            // OnJoin
    | RoomError(message: seq<Value>)    // OnError, carrying the failing message
    | Left                              // OnLeave
    | Patched                           // OnPatch (declared by the room, never fired)
    | Data(payload: Value)              // OnData
    | Updated(state: Value)             // OnUpdate, with the room's new state and a null patch

  /** Events of the client, in the order they fire. */
  datatype ClientEvent =
    | Opened                                       // OnOpen
    | ClientError(room: Room, message: seq<Value>) // OnError, with the room and the failing message
    | Message(room: Room, data: Value)             // OnMessage

  /** What the patch library leaves: the state after applying, and whether it completed. */
  datatype PatchOutcome = PatchOutcome(state: Value, applied: bool)

  /**
   * Decoding a patch document and applying it to a state. The patch
   * semantics belong to an external library; a failed application may
   * leave a partially patched state behind.
   */
  type PatchFunction = (Value, string) -> PatchOutcome

  class Room {
    const client: Client
    var name: string
    var state: Value
    var id: int64
    var events: seq<RoomEvent>

    /** OnPatch never fires: no trace entry is a patch event. */
    ghost predicate NoPatchEvents()
      reads this`events
    {
      forall e :: e in events ==> !e.Patched?
    }

    /** A room is created unjoined: id 0, no state yet, no events. */
    constructor (client: Client, name: string)
      ensures this.client == client && this.name == name
      ensures id == 0 && state == Null && events == []
      ensures NoPatchEvents()
    {
      this.client := client;
      this.name := name;
      state := Null;
      id := 0;
      events := [];
    }

    /** The `id` setter: stores the id and fires OnJoin. */
    method SetId(value: int64)
      modifies this`id, this`events
      ensures id == value && events == old(events) + [Joined]
      ensures old(NoPatchEvents()) ==> NoPatchEvents()
    {
      id := value;
      events := events + [Joined];
    }

    /**
     * Full-state replacement; the server clock values are taken and stored
     * nowhere.
     */
    method SetState(newState: Value, remoteCurrentTime: int64, remoteElapsedTime: int64)
      modifies this`state, this`events
      ensures state == newState && events == old(events) + [Updated(newState)]
      ensures old(NoPatchEvents()) ==> NoPatchEvents()
    {
      state := newState;
      events := events + [Updated(newState)];
    }

    /**
     * Leaving: a joined room asked to request the leave sends a leave frame;
     * otherwise the leave is confirmed locally by firing OnLeave.
     */
    method Leave(requestLeave: bool := true)
      modifies this`events, client`outbox
      ensures requestLeave && id > 0 ==>
        client.outbox == old(client.outbox) + [LeaveFrame(id)] && events == old(events)
      ensures !(requestLeave && id > 0) ==>
        client.outbox == old(client.outbox) && events == old(events) + [Left]
      ensures old(NoPatchEvents()) ==> NoPatchEvents()
    {
      if requestLeave && id > 0 {
        client.Send(LeaveFrame(id));
      } else {
        events := events + [Left];
      }
    }

    /**
     * Leaving as the source has it: the leave request goes through this
     * room's own Send, so it travels wrapped as the payload of a data frame.
     */
    method LeaveAsWritten(requestLeave: bool := true)
      modifies this`events, client`outbox
      ensures requestLeave && id > 0 ==>
        client.outbox == old(client.outbox) + [DataFrame(id, List(LeaveFrame(id)))] && events == old(events)
      ensures !(requestLeave && id > 0) ==>
        client.outbox == old(client.outbox) && events == old(events) + [Left]
      ensures old(NoPatchEvents()) ==> NoPatchEvents()
    {
      if requestLeave && id > 0 {
        Send(List(LeaveFrame(id)));
      } else {
        events := events + [Left];
      }
    }

    /** Sends `[ROOM_DATA, id, data]` whatever the join status (id 0 before join). */
    method Send(data: Value)
      modifies client`outbox
      ensures client.outbox == old(client.outbox) + [DataFrame(id, data)]
    {
      client.Send(DataFrame(id, data));
    }

    /** Fires OnData with the payload; the state is not touched. */
    method ReceiveData(data: Value)
      modifies this`events
      ensures events == old(events) + [Data(data)]
      ensures old(NoPatchEvents()) ==> NoPatchEvents()
    {
      events := events + [Data(data)];
    }

    /**
     * Decodes and applies a patch to the state, then fires OnUpdate with the
     * updated state and a null patch. A null patch text is refused by the
     * decoder; a failed application throws after leaving its state behind.
     */
    method ApplyPatch(patch: Option<string>, applyPatch: PatchFunction) returns (result: Outcome)
      modifies this`state, this`events
      ensures patch.None? ==> result == Fail(ArgumentNull) && state == old(state) && events == old(events)
      ensures patch.Some? ==>
        var outcome := applyPatch(old(state), patch.value);
        && state == outcome.state
        && (outcome.applied ==> result == Pass && events == old(events) + [Updated(outcome.state)])
        && (!outcome.applied ==> result == Fail(PatchFailure) && events == old(events))
      ensures old(NoPatchEvents()) ==> NoPatchEvents()
    {
      if patch.None? {
        return Fail(ArgumentNull);
      }
      var outcome := applyPatch(state, patch.value);
      state := outcome.state;
      if !outcome.applied {
        return Fail(PatchFailure);
      }
      events := events + [Updated(state)];
      result := Pass;
    }

    /** Fires this room's OnError with the failing message. */
    method EmitError(message: seq<Value>)
      modifies this`events
      ensures events == old(events) + [RoomError(message)]
      ensures old(NoPatchEvents()) ==> NoPatchEvents()
    {
      events := events + [RoomError(message)];
    }
  }

  /**
   * What LeaveAsWritten puts on the wire for a joined room is a data frame
   * whose payload is the leave request, not a leave request: for id 7 it is
   * `[ROOM_DATA, 7, [LEAVE_ROOM, 7]]`.
   */
  lemma LeaveAsWrittenSendsData(id: int64)
    requires id > 0
    ensures var frame := DataFrame(id, List(LeaveFrame(id)));
      Opcode(frame) == Ok(ROOM_DATA) && Opcode(frame) != Ok(LEAVE_ROOM)
  {
  }

  /** What Leave puts on the wire is a leave request addressed by the room's key. */
  lemma LeaveSendsLeaveRequest(id: int64)
    ensures Opcode(LeaveFrame(id)) == Ok(LEAVE_ROOM)
    ensures AddressOf(LeaveFrame(id)) == Address(id, DecimalString(id as int), None)
  {
  }

  /**
   * The room a message is addressed to, in the registry as it is before the
   * message: the room found after the re-key for a join acknowledgement,
   * the room filed under the name for a join error, and the room filed
   * under the id key for the other room messages.
   */
  function Route(message: seq<Value>, rooms: map<string, Room>): (r: Option<Room>)
    ensures r.Some? ==> r.value in rooms.Values
    ensures Opcode(message).Err? || !IsKnownOpcode(Opcode(message).value) || Opcode(message) == Ok(USER_ID) ==> r == None
  {
    var address := AddressOf(message);
    match Opcode(message)
    case Err(_) => None
    case Ok(code) =>
      if code == JOIN_ROOM then
        match StringArg(message, 2)
        case Ok(Some(name)) => Rekey(rooms, name, address.roomId).found
        case _ => None
      else if code == JOIN_ERROR then
        if address.roomName.Some? then Lookup(rooms, address.roomName.value) else None
      else if code in {LEAVE_ROOM, ROOM_STATE, ROOM_STATE_PATCH, ROOM_DATA} then
        Lookup(rooms, address.roomId)
      else None
  }

  class Client {
    /** The connection identity; null until the server sends it. */
    var id: Option<string>
    var rooms: map<string, Room>
    /** Frames handed to the transport, oldest first. */
    var outbox: seq<seq<Value>>
    var events: seq<ClientEvent>

    /**
     * Every registered room belongs to this client, has never fired
     * OnPatch, and is filed under one key only.
     */
    ghost predicate Valid()
      reads this`rooms, rooms.Values
    {
      && (forall r :: r in rooms.Values ==> r.client == this && r.NoPatchEvents())
      && Injective(rooms)
    }

    constructor ()
      ensures Valid()
      ensures id == None && rooms == map[] && outbox == [] && events == []
    {
      id := None;
      rooms := map[];
      outbox := [];
      events := [];
    }

    /** Hands one frame to the transport. */
    method Send(data: seq<Value>)
      modifies this`outbox
      ensures outbox == old(outbox) + [data]
    {
      outbox := outbox + [data];
    }

    /**
     * Requests to join `roomName`: a new unjoined room is filed under the
     * name unless one is already filed there, a join request is always
     * sent, and the room filed under the name is returned.
     */
    method Join(roomName: string, options: Value := Null) returns (room: Room)
      requires Valid()
      modifies this`rooms, this`outbox
      ensures Valid()
      ensures rooms == Register(old(rooms), roomName, room)
      ensures roomName in rooms && room == rooms[roomName]
      ensures roomName in old(rooms) ==> room == old(rooms)[roomName]
      ensures roomName !in old(rooms) ==>
        && fresh(room) && room.client == this && room.name == roomName
        && room.id == 0 && room.state == Null && room.events == []
      ensures outbox == old(outbox) + [JoinFrame(roomName, options)]
    {
      if roomName !in rooms {
        var created := new Room(this, roomName);
        rooms := Register(rooms, roomName, created);
      }
      Send(JoinFrame(roomName, options));
      room := rooms[roomName];
    }

    /**
     * Dispatches one decoded server message. A C# exception is a `Fail`
     * outcome; the effects performed before it are kept.
     */
    method ParseMessage(message: seq<Value>, applyPatch: PatchFunction) returns (result: Outcome)
      requires Valid()
      modifies this, rooms.Values
      ensures Valid()
      ensures outbox == old(outbox)
      // only the room the message is addressed to can change
      ensures forall r :: r in old(rooms.Values) && Some(r) != Route(message, old(rooms)) ==> unchanged(r)
      ensures Opcode(message) != Ok(USER_ID) ==> id == old(id)
      // no branch renames a room
      ensures forall r :: r in old(rooms.Values) ==> r.name == old(r.name)
      // an unreadable opcode throws before anything changes
      ensures Opcode(message).Err? ==>
        result == Fail(Opcode(message).error) && rooms == old(rooms) && events == old(events)
      // an opcode matching no branch changes nothing
      ensures Opcode(message).Ok? && !IsKnownOpcode(Opcode(message).value) ==>
        result == Pass && rooms == old(rooms) && events == old(events)
      // USER_ID: the identity is set and OnOpen fires; the registry is not touched
      ensures Opcode(message) == Ok(USER_ID) ==>
        rooms == old(rooms) &&
        match StringArg(message, 1)
        case Ok(identity) => result == Pass && id == identity && events == old(events) + [Opened]
        case Err(e) => result == Fail(e) && id == old(id) && events == old(events)
      // JOIN_ROOM: re-key from the name (message[2]) to the id key, then set the room's id
      ensures Opcode(message) == Ok(JOIN_ROOM) ==>
        events == old(events) &&
        match StringArg(message, 2)
        case Err(e) => result == Fail(e) && rooms == old(rooms)
        case Ok(None) => result == Fail(ArgumentNull) && rooms == old(rooms)
        case Ok(Some(name)) =>
          var rekeyed := Rekey(old(rooms), name, AddressOf(message).roomId);
          && rooms == rekeyed.rooms
          && match rekeyed.found
            case None => result == Fail(KeyNotFound)
            case Some(room) =>
              && result == Pass
              && room.id == AddressOf(message).roomIdNum
              && room.events == old(room.events) + [Joined]
              && room.state == old(room.state)
      // JOIN_ERROR: the room under the name and the client both fire OnError, then the name key is removed
      ensures Opcode(message) == Ok(JOIN_ERROR) ==>
        match AddressOf(message).roomName
        case None => result == Fail(ArgumentNull) && rooms == old(rooms) && events == old(events)
        case Some(name) =>
          if name !in old(rooms) then
            result == Fail(KeyNotFound) && rooms == old(rooms) && events == old(events)
          else
            var room := old(rooms)[name];
            && result == Pass
            && rooms == Deregister(old(rooms), name)
            && room.events == old(room.events) + [RoomError(message)]
            && events == old(events) + [ClientError(room, message)]
            && room.id == old(room.id) && room.state == old(room.state)
      // LEAVE_ROOM: the room under the id key confirms the leave locally and stays filed
      ensures Opcode(message) == Ok(LEAVE_ROOM) ==>
        && rooms == old(rooms) && events == old(events)
        && var key := AddressOf(message).roomId;
          if key !in old(rooms) then result == Fail(KeyNotFound)
          else
            var room := old(rooms)[key];
            && result == Pass
            && room.events == old(room.events) + [Left]
            && room.id == old(room.id) && room.state == old(room.state)
      // ROOM_STATE: the state arguments are read, then the room's state is replaced
      ensures Opcode(message) == Ok(ROOM_STATE) ==>
        && rooms == old(rooms) && events == old(events)
        && match RoomStateArgs(message)
          case Err(e) => result == Fail(e) && (forall r :: r in old(rooms.Values) ==> unchanged(r))
          case Ok(args) =>
            var key := AddressOf(message).roomId;
            if key !in old(rooms) then result == Fail(KeyNotFound)
            else
              var room := old(rooms)[key];
              && result == Pass
              && room.state == args.state
              && room.events == old(room.events) + [Updated(args.state)]
              && room.id == old(room.id)
      // ROOM_STATE_PATCH: the room is looked up, then its state is patched
      ensures Opcode(message) == Ok(ROOM_STATE_PATCH) ==>
        && rooms == old(rooms) && events == old(events)
        && var key := AddressOf(message).roomId;
          if key !in old(rooms) then result == Fail(KeyNotFound)
          else
            var room := old(rooms)[key];
            && room.id == old(room.id)
            && match StringArg(message, 2)
              case Err(e) => result == Fail(e) && unchanged(room)
              case Ok(None) => result == Fail(ArgumentNull) && unchanged(room)
              case Ok(Some(patch)) =>
                var outcome := applyPatch(old(room.state), patch);
                && room.state == outcome.state
                && (outcome.applied ==> result == Pass && room.events == old(room.events) + [Updated(outcome.state)])
                && (!outcome.applied ==> result == Fail(PatchFailure) && room.events == old(room.events))
      // ROOM_DATA: the room fires OnData and the client fires OnMessage with the same payload
      ensures Opcode(message) == Ok(ROOM_DATA) ==>
        && rooms == old(rooms)
        && var key := AddressOf(message).roomId;
          if key !in old(rooms) then result == Fail(KeyNotFound) && events == old(events)
          else
            var room := old(rooms)[key];
            && room.id == old(room.id) && room.state == old(room.state)
            && if |message| < 3 then
                result == Fail(IndexOutOfRange) && events == old(events) && room.events == old(room.events)
              else
                && result == Pass
                && room.events == old(room.events) + [Data(message[2])]
                && events == old(events) + [Message(room, message[2])]
    {
      var opcode := Opcode(message);
      if opcode.Err? {
        return Fail(opcode.error);
      }
      var code := opcode.value;

      if code == USER_ID {
        var identity := StringArg(message, 1);
        if identity.Err? {
          return Fail(identity.error);
        }
        id := identity.value;
        events := events + [Opened];
        return Pass;
      }

      var roomIdNum, roomId, roomName := ProbeAddress(message);
      result := Pass;

      if code == JOIN_ROOM {
        var nameArg := StringArg(message, 2);
        if nameArg.Err? {
          return Fail(nameArg.error);
        }
        if nameArg.value.None? {
          return Fail(ArgumentNull);
        }
        var rekeyed := Rekey(rooms, nameArg.value.value, roomId);
        rooms := rekeyed.rooms;
        if rekeyed.found.None? {
          return Fail(KeyNotFound);
        }
        var room := rekeyed.found.value;
        room.SetId(roomIdNum);
      } else if code == JOIN_ERROR {
        if roomName.None? {
          return Fail(ArgumentNull);
        }
        if roomName.value !in rooms {
          return Fail(KeyNotFound);
        }
        var room := rooms[roomName.value];
        room.EmitError(message);
        events := events + [ClientError(room, message)];
        rooms := Deregister(rooms, roomName.value);
      } else if code == LEAVE_ROOM {
        if roomId !in rooms {
          return Fail(KeyNotFound);
        }
        var room := rooms[roomId];
        room.Leave(false);
      } else if code == ROOM_STATE {
        var args := RoomStateArgs(message);
        if args.Err? {
          return Fail(args.error);
        }
        if roomId !in rooms {
          return Fail(KeyNotFound);
        }
        var room := rooms[roomId];
        room.SetState(args.value.state, args.value.remoteCurrentTime, args.value.remoteElapsedTime);
      } else if code == ROOM_STATE_PATCH {
        if roomId !in rooms {
          return Fail(KeyNotFound);
        }
        var room := rooms[roomId];
        var patch := StringArg(message, 2);
        if patch.Err? {
          return Fail(patch.error);
        }
        result := room.ApplyPatch(patch.value, applyPatch);
      } else if code == ROOM_DATA {
        if roomId !in rooms {
          return Fail(KeyNotFound);
        }
        var room := rooms[roomId];
        if |message| < 3 {
          return Fail(IndexOutOfRange);
        }
        room.ReceiveData(message[2]);
        events := events + [Message(room, message[2])];
      }
    }
  }
}
