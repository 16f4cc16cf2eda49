# Colyseus Unity chat client — protocol engine model

This project is a Dafny model of the client side of the Colyseus room protocol, as the Unity chat client implements it. The model covers:

- the `Client`, which dispatches each decoded server message on its opcode;
- the room registry, which files rooms by name before the join and by the decimal string of the room id after it;
- each `Room`'s lifecycle: join, state, patch, data, leave and error;
- the chat demo's `PathToString` helper.

Modules:

- `Wire` (protocol.dfy) holds the decoded message values and the C# casts the dispatcher applies to them. It also holds the decimal form of room ids and its inverse, the outbound frames, and the probing of a message's room address: numeric first, then string.
- `Registry` (registry.dfy) holds the registry's transitions as pure functions over `map<string, V>`: register on join, re-key on join acknowledgement, remove on join error. It also holds the invariant that no room is filed under two keys.
- `Colyseus` (colyseus.dfy) holds the `Room` and `Client` classes. Their fields are updated in place. Every C# event that fires is appended to a trace: `Room.events` and `Client.events`. Every frame handed to the transport is appended to `Client.outbox`.
- `ChatUtils` (chat_utils.dfy) holds `PathToString`, the loop that builds the dotted path. It is proved equal to `Dotted`, and `Dotted` is proved to split back into its segments.
- `Scenario` (scenario.dfy) holds three client sessions that use only the contracts: identity, join then acknowledgement, join refused.

A C# exception is modelled as a `Fail(error)` outcome. The effects performed before the exception stay in place, as they do in the source. The casts follow the C# semantics:

- `(long)` on a JSON null is a null dereference.
- `(long)` on any other non-`long` value is an invalid cast. This includes integers too wide for a `long`, which the JSON library hands over as big integers.
- `(string)` lets a null through as a null string.
- A null dictionary key is an argument-null error.

The opcode values (USER_ID 1, JOIN_ROOM 10, JOIN_ERROR 11, LEAVE_ROOM 12, ROOM_DATA 13, ROOM_STATE 14, ROOM_STATE_PATCH 15) are those of the Colyseus 0.x protocol. `Protocol.cs` is not part of this model. No proof depends on the values beyond their being distinct.

These behaviours come from the code and differ from the protocol's documented intent:

- A numeric `message[1]` on a JOIN_ERROR leaves the room name null, and the lookup then throws.
- A JOIN_ROOM acknowledgement whose name equals the decimal string of its id (room `"7"` acknowledged as id 7) moves the entry onto itself and then removes it. The following lookup then throws (`Registry.Rekey`).
- The LEAVE_ROOM acknowledgement fires OnLeave and leaves the room filed in the registry.
- `ApplyPatch` fires OnUpdate with a null patch. OnPatch is declared but never fired.
- An opcode read fails on an empty message and on a non-integer opcode. Only a readable opcode outside the enumeration is ignored.

## Model

| member | source | states |
|---|---|---|
| `Wire.DecimalRoundTrip` | client/Assets/Colyseus/Client.cs:128 | reading back the decimal string of a room id gives the id |
| `Wire.DecimalStringInjective` | client/Assets/Colyseus/Client.cs:128 | distinct room ids give distinct registry keys |
| `Wire.AddressOf` | client/Assets/Colyseus/Client.cs:119-139 | a 64-bit integer at message[1] gives that id, its decimal string as key, and no name; otherwise the id is 0, the key "0", and the name is message[1] when it is a string, else null |
| `Wire.ProbeAddress` | client/Assets/Colyseus/Client.cs:120-139 | the step-by-step probing (defaults, numeric read, string read on failure) computes exactly `AddressOf` |
| `Wire.DataFrameAddress` | client/Assets/Colyseus/Room.cs:118-121 | a `[ROOM_DATA, id, data]` frame has opcode ROOM_DATA and probes back to the id and its decimal key |
| `Registry.Register` | client/Assets/Colyseus/Client.cs:202-205 | after the join step the name is filed: with the existing room if there was one, else with the new room; every other entry is unchanged; a room new to the registry keeps every room under one key |
| `Registry.Rekey` | client/Assets/Colyseus/Client.cs:146-152 | with the name filed under a different key, the name key is gone and the id key holds the very same room, which is then the only key holding it; with name equal to the id key, the entry is removed and the lookup fails; with the name absent, nothing moves and only a room already under the id key is found; other keys are untouched; one-key-per-room is preserved |
| `Registry.Deregister` | client/Assets/Colyseus/Client.cs:162 | after removal the name is absent, every other entry is unchanged, and one-key-per-room is preserved |
| `Registry.JoinThenAcknowledge` | client/Assets/Colyseus/Client.cs:142-154 | a join followed by its acknowledgement finds the joined room, removes the name key, and leaves the room under the id key alone |
| `Colyseus.Room.constructor` | client/Assets/Colyseus/Room.cs:66-70 | a new room has the given client and name, id 0, a null state and no events |
| `Colyseus.Room.SetId` | client/Assets/Colyseus/Room.cs:75-83 | assigning the id stores the value and fires OnJoin exactly once |
| `Colyseus.Room.SetState` | client/Assets/Colyseus/Room.cs:86-96 | the state is replaced by the new one whatever it was before, and OnUpdate fires once with the new state |
| `Colyseus.Room.Leave` | client/Assets/Colyseus/Room.cs:102-112 | a joined room (id > 0) asked to request the leave sends exactly `[LEAVE_ROOM, id]` and fires nothing; otherwise OnLeave fires once and nothing is sent (corrected form, see Findings) |
| `Colyseus.Room.LeaveAsWritten` | client/Assets/Colyseus/Room.cs:102-112 | as the code has it: the leave request goes out as `[ROOM_DATA, id, [LEAVE_ROOM, id]]`; otherwise OnLeave fires and nothing is sent |
| `Colyseus.LeaveAsWrittenSendsData` | client/Assets/Colyseus/Room.cs:106 | the frame the code sends for a joined room has opcode ROOM_DATA, not LEAVE_ROOM |
| `Colyseus.LeaveSendsLeaveRequest` | client/Assets/Colyseus/Room.cs:104-107 | the corrected leave frame has opcode LEAVE_ROOM and probes back to the room's id and key |
| `Colyseus.Room.Send` | client/Assets/Colyseus/Room.cs:118-121 | exactly one frame `[ROOM_DATA, id, data]` is handed to the client, with id 0 before the join |
| `Colyseus.Room.ReceiveData` | client/Assets/Colyseus/Room.cs:124-128 | OnData fires once with the payload; state and id are not touched |
| `Colyseus.Room.ApplyPatch` | client/Assets/Colyseus/Room.cs:131-139 | the state becomes what the patch library leaves; when it completes, OnUpdate fires once with the updated state; a null patch text or a failed application throws without OnUpdate; OnPatch never fires |
| `Colyseus.Room.EmitError` | client/Assets/Colyseus/Room.cs:142-145 | the room's OnError fires once with the failing message |
| `Colyseus.Route` | client/Assets/Colyseus/Client.cs:142-192 | the room a message addresses is a registered room, and none for unreadable, identity and unknown opcodes |
| `Colyseus.Client.constructor` | client/Assets/Colyseus/Client.cs:28-31 | a new client has a null identity, an empty registry, nothing sent and no events |
| `Colyseus.Client.Send` | client/Assets/Colyseus/Client.cs:221-226 | exactly the given frame is handed to the transport |
| `Colyseus.Client.Join` | client/Assets/Colyseus/Client.cs:200-210 | a fresh unjoined room is filed under the name only when the name is absent, otherwise the existing one is kept; exactly one `[JOIN_ROOM, name, options]` is sent; the room under the name is returned; all other entries are unchanged |
| `Colyseus.Client.ParseMessage` | client/Assets/Colyseus/Client.cs:102-193 | an opcode that cannot be read as a `long` (empty message, null, non-integer) throws before anything changes, and a readable opcode outside the enumeration changes nothing. USER_ID sets the identity, fires OnOpen once and leaves the registry alone. JOIN_ROOM re-keys as `Rekey`, sets the found room's id and fires its OnJoin once, or fails when no room is found. JOIN_ERROR fires OnError on the room and on the client and removes the name key; a missing or null name fails. LEAVE_ROOM fires OnLeave and keeps the entry. ROOM_STATE replaces the state. ROOM_STATE_PATCH applies the patch. ROOM_DATA fires OnData on the room and OnMessage on the client with the same payload. A key missing from the registry fails with `KeyNotFound`. Only the addressed room changes, no room is renamed, nothing is sent, and the registry invariant is kept |
| `ChatUtils.PathToString` | client/Assets/Scripts/ChatUtils.cs:4-14 | the loop's result is the segments joined by "."; "" for no segment and the segment itself for one |
| `ChatUtils.DottedSnoc` | client/Assets/Scripts/ChatUtils.cs:9-11 | for a non-empty path `p`, joining `p + [x]` gives the join of `p`, then ".", then `x` |
| `ChatUtils.DottedCons` | client/Assets/Scripts/ChatUtils.cs:7-12 | the join of two or more segments is the first segment, ".", then the join of the rest: no leading separator |
| `ChatUtils.DottedLength` | client/Assets/Scripts/ChatUtils.cs:7-12 | for n ≥ 1 segments the result's length is the sum of the segment lengths plus n − 1 |
| `ChatUtils.SplitDotted` | client/Assets/Scripts/ChatUtils.cs:7-12 | splitting the result on "." gives back the segments when none contains a dot: exactly one separator between consecutive segments, none leading or trailing |

## Left out

- The WebSocket transport is I/O over a library that is not shown. This covers `Connect`, `Recv`, `ws.Send`, `Close`, `error`, `OnClose` and the error handler, and the UWP variants. Frames handed to the transport are only recorded in `Client.outbox`.
- JSON decoding and encoding are left out: messages arrive as already-decoded `Value` sequences. `Client.Send` records the frame rather than its UTF-8 JSON bytes. A frame that does not decode is therefore outside the model.
- `JObject.ToObject<RoomState>` is a foreign call, and `RoomState` is not part of this model. The state of a ROOM_STATE message is the JSON object itself.
- Patch semantics belong to the JSON patch library, which is not shown. Decoding and applying a patch is the `PatchFunction` parameter, which may fail and may leave a partial state. For the same reason the model does not state that applying a sequence of patches equals applying their combined diff.
- `Colyseus.Client.ParseMessage`: the relative order of a room's event and the client's event is not captured. JOIN_ERROR fires the room's OnError before the client's, and ROOM_DATA fires OnData before OnMessage (client/Assets/Colyseus/Client.cs:160-161 and 189-191). The model keeps one trace per event source, so it states what each source fires and in which order, but not how the two traces interleave.
- Event multicast and unsubscribed events are left out. Every event is appended to its trace. In the source, an `Invoke` on an event with no subscriber (OnOpen, OnJoin, OnLeave, OnError) throws a null dereference; the model does not capture that.
- `Room._previousState` is declared but never assigned or read, so it has no counterpart.
- `Room.SetState` takes the server time as a `double` in the source. The dispatcher always passes it a `long`, so the model uses `int64`. The time values are stored nowhere in either.
- `Client.Join` with a null room name (a null dictionary key) is left out: names are non-null strings in the model.
- `ChatUtils.PathToString` with a null array or null elements is left out: segments are non-null strings.
- `ChatUtils.ValueToString` is a single foreign `ToString()` call.
- ChatTest.cs is made of Unity coroutines and float timers. The server room (server/rooms/01-basic.ts) is a subclass of a server framework that is not shown. Neither has logic to state.
- Reconnection is not implemented in the source.

## Findings

| source | as written | input that shows it | evidently intended | confidence | as-written member | corrected member |
|---|---|---|---|---|---|---|
| client/Assets/Colyseus/Room.cs:106 | `Leave(true)` calls the room's own `Send`, which wraps its argument as the payload of a ROOM_DATA frame | a room with id 7: `Leave(true)` sends `[ROOM_DATA, 7, [LEAVE_ROOM, 7]]` (`Colyseus.LeaveAsWrittenSendsData`) | the leave request `[LEAVE_ROOM, 7]` handed to the client as a frame of its own | medium, not executed | `Colyseus.Room.LeaveAsWritten` | `Colyseus.Room.Leave` |
