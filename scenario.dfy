/**
 * Sessions as a caller of the client sees them, proved from the contracts
 * of Client and Room alone.
 */
module Scenario {
  import opened Wire
  import opened Registry
  import opened Colyseus

  /** Patch application that accepts every document and leaves the state as it is. */
  function KeepState(state: Value, patch: string): PatchOutcome {
    PatchOutcome(state, true)
  }

  /** The identity message sets the identity and fires OnOpen once. */
  method IdentitySession() {
    var client := new Client();
    var welcome := client.ParseMessage([Num(USER_ID as int), Str("abc")], KeepState);
    assert welcome == Pass && client.id == Some("abc") && client.events == [Opened];
  }

  /** Join "chat", acknowledged as room 7: the room moves to key "7". */
  method JoinSession() {
    var client := new Client();
    var chat := client.Join("chat");
    assert client.outbox == [[Num(JOIN_ROOM as int), Str("chat"), Null]];
    assert client.rooms == map["chat" := chat];

    var ack := [Num(JOIN_ROOM as int), Num(7), Str("chat")];
    assert Opcode(ack) == Ok(JOIN_ROOM);
    assert StringArg(ack, 2) == Ok(Some("chat"));
    assert AddressOf(ack).roomId == "7";
    var acked := client.ParseMessage(ack, KeepState);
    assert acked == Pass;
    assert "chat" !in client.rooms && client.rooms["7"] == chat;
    assert chat.id == 7 && chat.name == "chat" && chat.events == [Joined];
  }

  /** A join refused by the server: both errors fire and the name key is gone. */
  method RefusedSession() {
    var client := new Client();
    var lobby := client.Join("lobby", Null);
    var refusal := [Num(JOIN_ERROR as int), Str("lobby"), Str("room full")];
    assert Opcode(refusal) == Ok(JOIN_ERROR);
    assert AddressOf(refusal).roomName == Some("lobby");
    var refused := client.ParseMessage(refusal, KeepState);
    assert refused == Pass && client.rooms == map[];
    assert lobby.events == [RoomError(refusal)];
    assert client.events == [ClientError(lobby, refusal)];
  }
}
