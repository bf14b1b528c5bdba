/** The coordinator's two in-memory tables (`groups` and `users`), the
    records they hold, the outbound events, and the facts about them that
    every handler keeps. */
module Tables {
  import opened Members
  import opened Rooms

  datatype Option<+T> = None | Some(value: T)

  /** An entry of `users`: `{ id, username }`. */
  datatype User = User(id: ConnId, username: string)

  /** A chat message `{ id, userId, username, text }`; its id is the
      millisecond timestamp at which it was appended. */
  datatype Message = Message(id: nat, userId: ConnId, username: string, text: string)

  /** An entry of `groups`: `{ id, groupName, name, members, messages }`.
      The seeded group has no `groupName` field, hence the option. */
  datatype Group = Group(
    id: string,
    groupName: Option<string>,
    name: string,
    members: seq<ConnId>,
    messages: seq<Message>)

  /** The payloads of the outbound events. */
  datatype Event =
    | Registered(user: User)
    | GroupCreated(created: Group)
    | JoinedGroup(joined: Group)
    | NewMessage(message: Message)
    | UserJoinedVoice(joiner: ConnId)
    | UserLeftVoice(leaver: ConnId)

  /** One outbound event and the connections it is delivered to. */
  datatype Emission = Emission(event: Event, to: set<ConnId>)

  type GroupTable = map<string, Group>
  type UserTable = map<ConnId, User>

  /** The group present at startup, so that clients can join without
      creating one first. */
  function TestGroup(): (g: Group)
    ensures g.id == "test" && g.name == "test" && g.groupName == None
    ensures g.members == [] && g.messages == []
  {
    Group("test", None, "test", [], [])
  }

  /** Every group is stored under its own id, which is also its name. */
  ghost predicate GroupsKeyedByName(gs: GroupTable)
  {
    forall k :: k in gs ==> gs[k].id == k && gs[k].name == k
  }

  /** Every user is stored under its own connection id. */
  ghost predicate UsersKeyedById(us: UserTable)
  {
    forall k :: k in us ==> us[k].id == k
  }

  /** Every member of a group is subscribed to that group's room, so a
      broadcast to the room reaches all of them. */
  ghost predicate MembersSubscribed(gs: GroupTable, rs: RoomTable)
  {
    forall k, m :: k in gs && m in gs[k].members ==> m in Subscribers(rs, k)
  }

  /** What the disconnect loop does to the group table: filter `c` out of
      every group's members and touch nothing else. */
  function RemoveMember(gs: GroupTable, c: ConnId): (r: GroupTable)
    ensures r.Keys == gs.Keys
    ensures forall k :: k in r ==>
      && r[k].id == gs[k].id && r[k].groupName == gs[k].groupName
      && r[k].name == gs[k].name && r[k].messages == gs[k].messages
    ensures forall k, m :: k in r ==> (m in r[k].members <==> m in gs[k].members && m != c)
    ensures GroupsKeyedByName(gs) ==> GroupsKeyedByName(r)
  {
    map k | k in gs :: gs[k].(members := Without(gs[k].members, c))
  }

  /** Disconnecting twice has the effect of disconnecting once. */
  lemma RemoveMemberIdempotent(gs: GroupTable, c: ConnId)
    ensures RemoveMember(RemoveMember(gs, c), c) == RemoveMember(gs, c)
  {
    var once := RemoveMember(gs, c);
    forall k | k in once
      ensures RemoveMember(once, c)[k] == once[k]
    {
      WithoutIdempotent(gs[k].members, c);
    }
  }

  /** A group the connection never joined is left exactly as it was. */
  lemma RemoveMemberOfNonMember(gs: GroupTable, c: ConnId, k: string)
    requires k in gs && c !in gs[k].members
    ensures RemoveMember(gs, c)[k] == gs[k]
  {
    WithoutAbsent(gs[k].members, c);
  }
}
