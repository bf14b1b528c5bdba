/** The publish/subscribe rooms of the transport: a table from room name to
    the set of connections subscribed to it. `socket.join` and
    `socket.leave` change it; `io.to(room).emit` reaches its subscribers. */
module Rooms {

  /** The transport's identifier of one live connection (`socket.id`). */
  type ConnId = string

  type RoomTable = map<string, set<ConnId>>

  /** The transport drops a room once its last subscriber leaves, so no
      room in the table is empty. */
  ghost predicate NoEmptyRooms(rs: RoomTable)
  {
    forall r :: r in rs ==> rs[r] != {}
  }

  /** The connections a broadcast to room `r` reaches (`io.to(r).emit`);
      nobody when the room does not exist. As no room is kept empty, the
      broadcast reaches somebody exactly when the room exists. */
  function Subscribers(rs: RoomTable, r: string): (s: set<ConnId>)
    ensures r !in rs ==> s == {}
    ensures NoEmptyRooms(rs) ==> (s == {} <==> r !in rs)
  {
    if r in rs then rs[r] else {}
  }

  /** `socket.join(r)`: subscribe `c` to `r`, creating the room if needed. */
  function Join(rs: RoomTable, r: string, c: ConnId): (rs': RoomTable)
    ensures Subscribers(rs', r) == Subscribers(rs, r) + {c}
    ensures forall q :: q != r ==> Subscribers(rs', q) == Subscribers(rs, q)
    ensures rs'.Keys == rs.Keys + {r}
    ensures NoEmptyRooms(rs) ==> NoEmptyRooms(rs')
  {
    rs[r := Subscribers(rs, r) + {c}]
  }

  /** `socket.leave(r)`: unsubscribe `c` from `r`; a no-op when `c` is not
      subscribed, and the room disappears when it becomes empty. */
  function Leave(rs: RoomTable, r: string, c: ConnId): (rs': RoomTable)
    ensures Subscribers(rs', r) == Subscribers(rs, r) - {c}
    ensures forall q :: q != r ==> Subscribers(rs', q) == Subscribers(rs, q)
    ensures rs'.Keys <= rs.Keys
    ensures NoEmptyRooms(rs) ==> NoEmptyRooms(rs')
  {
    if r !in rs then rs
    else if rs[r] - {c} == {} then rs - {r}
    else rs[r := rs[r] - {c}]
  }

  /** Joining a room one is not in and then leaving it restores the whole
      room table, including whether the room exists at all. */
  lemma JoinThenLeave(rs: RoomTable, r: string, c: ConnId)
    requires NoEmptyRooms(rs)
    requires c !in Subscribers(rs, r)
    ensures Leave(Join(rs, r, c), r, c) == rs
  {
  }

  /** The name of the per-group voice room (`voice-${groupId}`). It lives
      in the same namespace as the rooms named after groups: it is the
      room of the group called `voice-` followed by `g`, and `g` can be read
      back from it. */
  function VoiceRoom(g: string): (r: string)
    ensures |r| == |g| + 6 && r[..6] == "voice-" && r[6..] == g
  {
    "voice-" + g
  }

  /** Distinct groups have distinct voice rooms, so joining or leaving the
      voice chat of one group leaves every other group's voice room as it
      was. */
  lemma VoiceRoomInjective(g: string, h: string)
    requires VoiceRoom(g) == VoiceRoom(h)
    ensures g == h
  {
  }
}
