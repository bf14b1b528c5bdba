/** The server-side room coordinator: the `groups` and `users` tables, the
    transport's rooms, and the seven event handlers of one connection.
    Each handler runs to completion before the next event is handled, so
    the handlers are sequential methods; each returns what it emits and
    to whom instead of delivering it. */
module Server {
  import opened Members
  import opened Rooms
  import opened Tables

  class Coordinator {
    var groups: GroupTable
    var users: UserTable
    var rooms: RoomTable

    /** The facts every handler keeps. */
    ghost predicate Valid()
      reads this
    {
      GroupsKeyedByName(groups) && UsersKeyedById(users) && NoEmptyRooms(rooms)
    }

    /** Every group member would receive a broadcast to the group's room. */
    ghost predicate RoomsCoverMembers()
      reads this
    {
      Tables.MembersSubscribed(groups, rooms)
    }

    /** Startup: no users, no rooms, and the seeded group "test". */
    constructor ()
      ensures Valid() && RoomsCoverMembers()
      ensures groups == map["test" := TestGroup()]
      ensures groups["test"].id == groups["test"].name == "test"
      ensures groups["test"].members == [] && groups["test"].messages == []
      ensures users == map[] && rooms == map[]
    {
      groups := map["test" := TestGroup()];
      users := map[];
      rooms := map[];
    }

    /** `register`: record (or overwrite) the sender's display name and
        answer the sender alone. */
    method Register(sid: ConnId, username: string) returns (out: Emission)
      requires Valid()
      modifies this
      ensures Valid()
      ensures users == old(users)[sid := User(sid, username)]
      ensures groups == old(groups) && rooms == old(rooms)
      ensures out == Emission(Registered(User(sid, username)), {sid})
      ensures old(RoomsCoverMembers()) ==> RoomsCoverMembers()
    {
      users := users[sid := User(sid, username)];
      out := Emission(Registered(User(sid, username)), {sid});
    }

    /** `createGroup`: store a fresh group under `name`, replacing any group
        of that name, with the sender as its only member; subscribe the
        sender to the group's room and answer the sender alone. */
    method CreateGroup(sid: ConnId, name: string) returns (out: Emission)
      requires Valid()
      modifies this
      ensures Valid()
      ensures name in groups
      ensures groups[name] == Group(name, Some(name), name, [sid], [])
      ensures forall k :: k != name ==> (k in groups <==> k in old(groups))
      ensures forall k :: k != name && k in groups ==> groups[k] == old(groups)[k]
      ensures rooms == Join(old(rooms), name, sid)
      ensures users == old(users)
      ensures out == Emission(GroupCreated(groups[name]), {sid})
      ensures old(RoomsCoverMembers()) ==> RoomsCoverMembers()
    {
      var group := Group(name, Some(name), name, [sid], []);
      groups := groups[group.name := group];
      rooms := Join(rooms, group.name, sid);
      out := Emission(GroupCreated(group), {sid});
    }

    /** `joinGroup`: when the group exists, append the sender to the end of
        its members (again, if already there), subscribe it to the group's
        room and answer the sender with the updated group; otherwise do
        nothing and emit nothing. */
    method JoinGroup(sid: ConnId, g: string) returns (out: Option<Emission>)
      requires Valid()
      modifies this
      ensures Valid()
      ensures users == old(users)
      ensures g in old(groups) ==>
        && g in groups
        && groups[g].members == old(groups)[g].members + [sid]
        && groups == old(groups)[g := old(groups)[g].(members := groups[g].members)]
        && rooms == Join(old(rooms), g, sid)
        && out == Some(Emission(JoinedGroup(groups[g]), {sid}))
      ensures g !in old(groups) ==>
        groups == old(groups) && rooms == old(rooms) && out == None
      ensures old(RoomsCoverMembers()) ==> RoomsCoverMembers()
    {
      if g in groups {
        var group := groups[g];
        group := group.(members := group.members + [sid]);
        groups := groups[g := group];
        rooms := Join(rooms, g, sid);
        out := Some(Emission(JoinedGroup(group), {sid}));
      } else {
        out := None;
      }
    }

    /** `sendMessage`: when the group exists, append one message stamped
        with `now` and the sender's registered name to its log and
        broadcast it to the group's room (whoever is subscribed there, not
        the member list); otherwise do nothing. The source reads the
        sender's name without checking that it registered, hence the
        precondition. */
    method SendMessage(sid: ConnId, g: string, text: string, now: nat) returns (out: Option<Emission>)
      requires Valid()
      requires g in groups ==> sid in users
      modifies this
      ensures Valid()
      ensures users == old(users) && rooms == old(rooms)
      ensures g in old(groups) ==>
        var m := Message(now, sid, users[sid].username, text);
        && g in groups
        && groups[g].messages == old(groups)[g].messages + [m]
        && groups == old(groups)[g := old(groups)[g].(messages := groups[g].messages)]
        && out == Some(Emission(NewMessage(m), Subscribers(rooms, g)))
      ensures g in old(groups) && old(RoomsCoverMembers()) ==>
        out.Some? && forall m :: m in groups[g].members ==> m in out.value.to
      ensures g !in old(groups) ==> groups == old(groups) && out == None
      ensures old(RoomsCoverMembers()) ==> RoomsCoverMembers()
    {
      if g in groups {
        var group := groups[g];
        var user := users[sid];
        var message := Message(now, sid, user.username, text);
        groups := groups[g := group.(messages := group.messages + [message])];
        out := Some(Emission(NewMessage(message), Subscribers(rooms, g)));
      } else {
        out := None;
      }
    }

    /** `joinVoiceChat`: when the group exists, subscribe the sender to the
        group's voice room and announce it to every subscriber of that
        room, the sender included; otherwise do nothing. */
    method JoinVoiceChat(sid: ConnId, g: string) returns (out: Option<Emission>)
      requires Valid()
      modifies this
      ensures Valid()
      ensures groups == old(groups) && users == old(users)
      ensures g in groups ==>
        && rooms == Join(old(rooms), VoiceRoom(g), sid)
        && out == Some(Emission(UserJoinedVoice(sid), Subscribers(rooms, VoiceRoom(g))))
        && out.value.to == Subscribers(old(rooms), VoiceRoom(g)) + {sid}
      ensures forall h :: h != g ==> Subscribers(rooms, VoiceRoom(h)) == Subscribers(old(rooms), VoiceRoom(h))
      ensures g !in groups ==> rooms == old(rooms) && out == None
      ensures old(RoomsCoverMembers()) ==> RoomsCoverMembers()
    {
      if g in groups {
        rooms := Join(rooms, VoiceRoom(g), sid);
        out := Some(Emission(UserJoinedVoice(sid), Subscribers(rooms, VoiceRoom(g))));
      } else {
        out := None;
      }
      forall h | VoiceRoom(h) == VoiceRoom(g)
        ensures h == g
      {
        VoiceRoomInjective(h, g);
      }
    }

    /** `leaveVoiceChat`: with no check that the group exists, unsubscribe
        the sender from the voice room and then announce it to whoever is
        still subscribed, which no longer includes the sender. */
    method LeaveVoiceChat(sid: ConnId, g: string) returns (out: Emission)
      requires Valid()
      modifies this
      ensures Valid()
      ensures groups == old(groups) && users == old(users)
      ensures rooms == Leave(old(rooms), VoiceRoom(g), sid)
      ensures out == Emission(UserLeftVoice(sid), Subscribers(rooms, VoiceRoom(g)))
      ensures out.to == Subscribers(old(rooms), VoiceRoom(g)) - {sid}
      ensures forall h :: h != g ==> Subscribers(rooms, VoiceRoom(h)) == Subscribers(old(rooms), VoiceRoom(h))
      ensures old(RoomsCoverMembers()) && VoiceRoom(g) !in groups ==> RoomsCoverMembers()
    {
      rooms := Leave(rooms, VoiceRoom(g), sid);
      out := Emission(UserLeftVoice(sid), Subscribers(rooms, VoiceRoom(g)));
      forall h | VoiceRoom(h) == VoiceRoom(g)
        ensures h == g
      {
        VoiceRoomInjective(h, g);
      }
    }

    /** `disconnect`: forget the sender's identity and filter it out of the
        members of every group, one group at a time; group names, message
        logs and rooms are left alone and nothing is emitted. */
    method Disconnect(sid: ConnId)
      requires Valid()
      modifies this
      ensures Valid()
      ensures users == old(users) - {sid}
      ensures groups == RemoveMember(old(groups), sid)
      ensures rooms == old(rooms)
      ensures old(RoomsCoverMembers()) ==> RoomsCoverMembers()
    {
      users := users - {sid};
      ghost var start := groups;
      var pending := groups.Keys;
      while pending != {}
        invariant users == old(users) - {sid} && rooms == old(rooms)
        invariant pending <= start.Keys && groups.Keys == start.Keys
        invariant forall k :: k in pending ==> groups[k] == start[k]
        invariant forall k :: k in groups && k !in pending ==>
          groups[k] == start[k].(members := Without(start[k].members, sid))
        decreases pending
      {
        var k :| k in pending;
        var group := groups[k];
        groups := groups[k := group.(members := Without(group.members, sid))];
        pending := pending - {k};
      }
      assert groups == RemoveMember(start, sid);
    }
  }
}
