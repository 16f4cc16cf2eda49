/**
 * Wire-level vocabulary of the Colyseus room protocol as the Unity client
 * sees it: decoded message values, the C# casts the dispatcher applies to
 * them, the decimal form of room ids, the frames the client sends, and the
 * probing of a message's room address.
 */
module Wire {

  datatype Option<+T> = None | Some(value: T)

  /** The exceptions the dispatcher can raise, named after the C# ones. */
  datatype Error =
    | IndexOutOfRange   // a message shorter than the argument read
    | InvalidCast       // an argument of the wrong JSON kind for its cast
    | NullReference     // a JSON null where an object is dereferenced
    | ArgumentNull      // a null dictionary key or a null patch text
    | KeyNotFound       // no registry entry under the key looked up
    | PatchFailure      // the patch library rejected the patch document

  datatype Result<+T> = Ok(value: T) | Err(error: Error)

  /** Completion of an operation that returns nothing: it ran to the end or threw. */
  datatype Outcome = Pass | Fail(error: Error)

  /**
   * A decoded JSON value as the JSON library hands it over inside an
   * `object[]`: integers, strings, null, objects, arrays, and the
   * remaining scalars (booleans, floating-point numbers), which the
   * dispatcher never inspects.
   */
  datatype Value =
    | Num(n: int)
    | Str(s: string)
    | Null
    | Obj(members: map<string, Value>)
    | List(items: seq<Value>)
    | OtherScalar

  /** The C# `long`. */
  newtype int64 = x: int | -0x8000_0000_0000_0000 <= x < 0x8000_0000_0000_0000

  predicate IsInt64(n: int) {
    -0x8000_0000_0000_0000 <= n < 0x8000_0000_0000_0000
  }

  // Opcodes of the room protocol.
  const USER_ID: int64 := 1
  const JOIN_ROOM: int64 := 10
  const JOIN_ERROR: int64 := 11
  const LEAVE_ROOM: int64 := 12
  const ROOM_DATA: int64 := 13
  const ROOM_STATE: int64 := 14
  const ROOM_STATE_PATCH: int64 := 15

  predicate IsKnownOpcode(code: int64) {
    code in {USER_ID, JOIN_ROOM, JOIN_ERROR, LEAVE_ROOM, ROOM_DATA, ROOM_STATE, ROOM_STATE_PATCH}
  }

  /**
   * The unboxing cast `(long)v`. Integers the JSON library could not fit in
   * a `long` arrive as big integers, which the cast refuses.
   */
  function CastLong(v: Value): (r: Result<int64>)
    ensures r.Ok? <==> v.Num? && IsInt64(v.n)
    ensures r.Ok? ==> r.value as int == v.n
    ensures v.Null? ==> r == Err(NullReference)
  {
    match v
    case Num(n) => if IsInt64(n) then Ok(n as int64) else Err(InvalidCast)
    case Null => Err(NullReference)
    case _ => Err(InvalidCast)
  }

  /** The reference cast `(string)v`: a null passes through as a null string. */
  function CastString(v: Value): (r: Result<Option<string>>)
    ensures r.Ok? <==> v.Str? || v.Null?
    ensures r == Ok(None) <==> v.Null?
    ensures v.Str? ==> r == Ok(Some(v.s))
  {
    match v
    case Str(s) => Ok(Some(s))
    case Null => Ok(None)
    case _ => Err(InvalidCast)
  }

  /**
   * `((JObject)v).ToObject<RoomState>()`: the object is taken as the room
   * state itself; a null object is dereferenced and throws.
   */
  function ToRoomState(v: Value): (r: Result<Value>)
    ensures r.Ok? <==> v.Obj?
    ensures r.Ok? ==> r.value == v
  {
    match v
    case Obj(_) => Ok(v)
    case Null => Err(NullReference)
    case _ => Err(InvalidCast)
  }

  /** `(long)message[i]`, where the index itself may be out of range. */
  function LongArg(message: seq<Value>, i: nat): Result<int64> {
    if i < |message| then CastLong(message[i]) else Err(IndexOutOfRange)
  }

  /** `(string)message[i]`, where the index itself may be out of range. */
  function StringArg(message: seq<Value>, i: nat): Result<Option<string>> {
    if i < |message| then CastString(message[i]) else Err(IndexOutOfRange)
  }

  /** The opcode `(long)message[0]`. */
  function Opcode(message: seq<Value>): (r: Result<int64>)
    ensures r.Ok? <==> |message| > 0 && message[0].Num? && IsInt64(message[0].n)
    ensures |message| == 0 ==> r == Err(IndexOutOfRange)
  {
    LongArg(message, 0)
  }

  /** The arguments of a ROOM_STATE message: state, server time, elapsed time. */
  datatype StateArgs = StateArgs(state: Value, remoteCurrentTime: int64, remoteElapsedTime: int64)

  /** Reads message[2], message[3] and message[4] in that order; the first failure wins. */
  function RoomStateArgs(message: seq<Value>): (r: Result<StateArgs>)
    ensures r.Ok? <==> |message| >= 5 && message[2].Obj? && CastLong(message[3]).Ok? && CastLong(message[4]).Ok?
    ensures r.Ok? ==> r.value.state == message[2]
    ensures |message| < 3 ==> r == Err(IndexOutOfRange)
  {
    if |message| < 3 then Err(IndexOutOfRange)
    else match ToRoomState(message[2])
      case Err(e) => Err(e)
      case Ok(state) =>
        match LongArg(message, 3)
        case Err(e) => Err(e)
        case Ok(t) =>
          match LongArg(message, 4)
          case Err(e) => Err(e)
          case Ok(elapsed) => Ok(StateArgs(state, t, elapsed))
  }

  // ---------------------------------------------------------------------
  // Decimal strings of room ids (`long.ToString()`) and their inverse.

  predicate IsDigit(c: char) {
    '0' <= c <= '9'
  }

  function DigitChar(d: nat): (c: char)
    requires d < 10
    ensures IsDigit(c) && c as int - '0' as int == d
  {
    ('0' as int + d) as char
  }

  function DigitValue(c: char): nat
    requires IsDigit(c)
  {
    c as int - '0' as int
  }

  /** The shortest decimal numeral of n, most significant digit first. */
  function Digits(n: nat): (s: string)
    ensures |s| >= 1
    ensures forall i :: 0 <= i < |s| ==> IsDigit(s[i])
    decreases n
  {
    if n < 10 then [DigitChar(n)] else Digits(n / 10) + [DigitChar(n % 10)]
  }

  /** `n.ToString()` for a C# `long`: an optional minus sign, then the digits. */
  function DecimalString(n: int): string {
    if n < 0 then "-" + Digits(-n) else Digits(n)
  }

  /** The value of a non-empty all-digit string, read left to right. */
  function ParseDigits(s: string): Option<nat> {
    if |s| == 0 || !IsDigit(s[|s| - 1]) then None
    else if |s| == 1 then Some(DigitValue(s[0]))
    else match ParseDigits(s[..|s| - 1])
      case None => None
      case Some(p) => Some(p * 10 + DigitValue(s[|s| - 1]))
  }

  /** Reads a decimal numeral with an optional leading minus sign. */
  function ParseDecimal(s: string): Option<int> {
    if |s| > 0 && s[0] == '-' then
      match ParseDigits(s[1..])
      case None => None
      case Some(p) => Some(0 - p as int)
    else
      match ParseDigits(s)
      case None => None
      case Some(p) => Some(p as int)
  }

  lemma {:induction false} ParseDigitsOfDigits(n: nat)
    ensures ParseDigits(Digits(n)) == Some(n)
    decreases n
  {
    if n >= 10 {
      var s := Digits(n);
      assert s[..|s| - 1] == Digits(n / 10);
      ParseDigitsOfDigits(n / 10);
    }
  }

  /** Reading back the decimal string of an id gives the id. */
  lemma {:induction false} DecimalRoundTrip(n: int)
    ensures ParseDecimal(DecimalString(n)) == Some(n)
  {
    var d := Digits(if n < 0 then -n else n);
    ParseDigitsOfDigits(if n < 0 then -n else n);
    assert ParseDigits(d) == Some(if n < 0 then -n else n);
    if n < 0 {
      assert ("-" + d)[1..] == d;
      assert ParseDecimal("-" + d) == Some(n);
    } else {
      assert IsDigit(d[0]);
      assert ParseDecimal(d) == Some(n);
    }
  }

  /** Distinct room ids give distinct registry keys. */
  lemma {:induction false} DecimalStringInjective(a: int, b: int)
    requires DecimalString(a) == DecimalString(b)
    ensures a == b
  {
    DecimalRoundTrip(a);
    DecimalRoundTrip(b);
  }

  // ---------------------------------------------------------------------
  // Outbound frames.

  /** `[JOIN_ROOM, roomName, options]`. */
  function JoinFrame(roomName: string, options: Value): seq<Value> {
    [Num(JOIN_ROOM as int), Str(roomName), options]
  }

  /** `[ROOM_DATA, id, data]`. */
  function DataFrame(id: int64, data: Value): seq<Value> {
    [Num(ROOM_DATA as int), Num(id as int), data]
  }

  /** `[LEAVE_ROOM, id]`. */
  function LeaveFrame(id: int64): seq<Value> {
    [Num(LEAVE_ROOM as int), Num(id as int)]
  }

  // ---------------------------------------------------------------------
  // Room address probing.

  /**
   * Where a message is addressed: the numeric id read from message[1] (0
   * when it is not a `long`), its decimal string (the registry key, "0" by
   * default) and the room name (when message[1] is not a `long` but casts
   * to a string).
   */
  datatype Address = Address(roomIdNum: int64, roomId: string, roomName: Option<string>)

  /** The numeric read is tried first; the string read only when it throws. */
  function AddressOf(message: seq<Value>): (a: Address)
    ensures |message| > 1 && message[1].Num? && IsInt64(message[1].n) ==>
      a.roomIdNum as int == message[1].n && a.roomId == DecimalString(message[1].n) && a.roomName == None
    ensures !(|message| > 1 && message[1].Num? && IsInt64(message[1].n)) ==>
      && a.roomIdNum == 0 && a.roomId == "0"
      && a.roomName == (if |message| > 1 && message[1].Str? then Some(message[1].s) else None)
  {
    match LongArg(message, 1)
    case Ok(n) => Address(n, DecimalString(n as int), None)
    case Err(_) =>
      var name := match StringArg(message, 1)
        case Ok(s) => s
        case Err(_) => None;
      Address(0, "0", name)
  }

  /**
   * The probing as the dispatcher performs it: defaults first, then a
   * numeric read, and a string read only when the numeric read fails.
   */
  method ProbeAddress(message: seq<Value>) returns (roomIdNum: int64, roomId: string, roomName: Option<string>)
    ensures Address(roomIdNum, roomId, roomName) == AddressOf(message)
  {
    roomIdNum, roomId, roomName := 0, "0", None;
    var numeric := LongArg(message, 1);
    if numeric.Ok? {
      roomIdNum := numeric.value;
      roomId := DecimalString(roomIdNum as int);
    } else {
      var named := StringArg(message, 1);
      if named.Ok? {
        roomName := named.value;
      }
    }
  }

  /** A data frame the client sends is routed back by the same room's key. */
  lemma DataFrameAddress(id: int64, data: Value)
    ensures Opcode(DataFrame(id, data)) == Ok(ROOM_DATA)
    ensures AddressOf(DataFrame(id, data)) == Address(id, DecimalString(id as int), None)
  {
  }
}
