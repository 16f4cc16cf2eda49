/**
 * The room registry's transitions as values: the client's dictionary from
 * a room key (the room name before join, the decimal string of the room id
 * after) to a room, and the three ways the client changes it.
 */
module Registry {
  import opened Wire

  /** No room is filed under two keys. */
  ghost predicate Injective<V>(rooms: map<string, V>) {
    forall a, b :: a in rooms && b in rooms && rooms[a] == rooms[b] ==> a == b
  }

  /** The dictionary read `rooms[key]` as a partial lookup. */
  function Lookup<V(==)>(rooms: map<string, V>, key: string): (r: Option<V>)
    ensures r.Some? <==> key in rooms
    ensures r.Some? ==> r.value == rooms[key]
  {
    if key in rooms then Some(rooms[key]) else None
  }

  /**
   * Join's registry step: file `newcomer` under `name` unless some room is
   * already filed there, in which case the entry is kept.
   */
  function Register<V(==)>(rooms: map<string, V>, name: string, newcomer: V): (r: map<string, V>)
    ensures name in r && r.Keys == rooms.Keys + {name}
    ensures r[name] == (if name in rooms then rooms[name] else newcomer)
    ensures forall k :: k in rooms ==> r[k] == rooms[k]
    ensures Injective(rooms) && newcomer !in rooms.Values ==> Injective(r)
  {
    if name in rooms then rooms else rooms[name := newcomer]
  }

  /** The dictionary after a re-key attempt and the room then found under the id key. */
  datatype Rekeyed<V> = Rekeyed(rooms: map<string, V>, found: Option<V>)

  /**
   * The join acknowledgement: when `name` is filed, the room moves to key
   * `id` (`rooms[id] = rooms[name]`, then `Remove(name)`); the room is then
   * looked up under `id`.
   */
  function Rekey<V(==)>(rooms: map<string, V>, name: string, id: string): (r: Rekeyed<V>)
    // the move: the name key is gone and the id key holds the very same room
    ensures name in rooms && name != id ==>
      && name !in r.rooms && id in r.rooms && r.rooms[id] == rooms[name]
      && r.rooms.Keys == rooms.Keys - {name} + {id}
      && r.found == Some(rooms[name])
    // a name equal to its own id key: the entry is moved onto itself, then removed
    ensures name in rooms && name == id ==> r.rooms.Keys == rooms.Keys - {name} && r.found == None
    // no entry under the name: nothing moves, and only a room already under `id` is found
    ensures name !in rooms ==> r.rooms == rooms && r.found == Lookup(rooms, id)
    // every other key is untouched
    ensures forall k :: k != name && k != id ==> (k in r.rooms <==> k in rooms) && (k in rooms ==> r.rooms[k] == rooms[k])
    ensures r.rooms.Values <= rooms.Values
    ensures r.found.Some? ==> id in r.rooms && r.found.value == r.rooms[id]
    ensures Injective(rooms) ==> Injective(r.rooms)
    // after a move the room is filed under exactly one key
    ensures Injective(rooms) && name in rooms && name != id ==>
      forall k :: k in r.rooms && r.rooms[k] == rooms[name] <==> k == id
  {
    var moved := if name in rooms then rooms[id := rooms[name]] - {name} else rooms;
    Rekeyed(moved, Lookup(moved, id))
  }

  /** Join error's registry step `Remove(name)`. */
  function Deregister<V(==)>(rooms: map<string, V>, name: string): (r: map<string, V>)
    ensures name !in r && r.Keys == rooms.Keys - {name}
    ensures forall k :: k in r ==> r[k] == rooms[k]
    ensures r.Values <= rooms.Values
    ensures Injective(rooms) ==> Injective(r)
  {
    rooms - {name}
  }

  /**
   * Join followed by its acknowledgement: the room filed (or found) under
   * `name` ends up under the id key alone, whatever was filed before.
   */
  lemma JoinThenAcknowledge<V>(rooms: map<string, V>, name: string, newcomer: V, id: string)
    requires Injective(rooms) && newcomer !in rooms.Values && name != id
    ensures var joined := Register(rooms, name, newcomer);
      var acked := Rekey(joined, name, id);
      && acked.found == Some(joined[name])
      && name !in acked.rooms
      && (forall k :: k in acked.rooms && acked.rooms[k] == joined[name] <==> k == id)
  {
    var joined := Register(rooms, name, newcomer);
    assert Injective(joined);
  }
}
