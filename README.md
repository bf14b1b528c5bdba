# Room coordinator of a group voice/text chat server

This project models, in Dafny, the server-side coordinator of a small chat
server built on socket.io: the two in-memory tables it keeps (`groups`, from
group name to `{id, groupName, name, members, messages}`, and `users`, from
connection id to `{id, username}`), the transport's publish/subscribe rooms
that it uses for fan-out, and the seven event handlers that a connection
triggers: `register`, `createGroup`, `joinGroup`, `sendMessage`,
`joinVoiceChat`, `leaveVoiceChat` and `disconnect`.

Every handler runs to completion on a single event loop, so the model is a
`Coordinator` class (module `Server`, file `server.dfy`) whose fields are the
two tables and the room table and whose methods are the handlers, run one
after another. A handler takes the sender's connection id and the event's
payload, updates the fields in place, and returns the outbound event together
with the set of connections it is delivered to: the sender alone for
`socket.emit`, or the current subscribers of a room for `io.to(room).emit`.

- `members.dfy` (module `Members`): member lists and the filter that
  `disconnect` applies to them, with its order, multiplicity, idempotence
  and join/disconnect round-trip lemmas.
- `rooms.dfy` (module `Rooms`): the room table, `socket.join`,
  `socket.leave`, the voice room name `voice-<group>`, and the
  join-then-leave round trip.
- `tables.dfy` (module `Tables`): the records, the outbound events, the
  seeded group, the invariants the handlers keep, and the effect of the
  disconnect loop on the group table.
- `server.dfy` (module `Server`): the `Coordinator` class and its handlers.
- `scenarios.dfy` (module `Scenarios`): runs from startup that pin down
  concrete outcomes, including two consequences of broadcasting to rooms
  rather than to member lists.

Behaviour of the code worth noting:

- `sendMessage` broadcasts to the room named after the group
  (index.js:61), not to the group's member list. The two differ: a group
  re-created under the same name drops its old members from the list but not
  from the room (`Scenarios.ReplacedGroupBroadcast`), and a sender that is
  not subscribed to the room does not receive its own message.
- `joinVoiceChat` broadcasts with `io.to` after joining (index.js:69-70), so
  the announcement reaches the joiner too, and the browser client filters
  itself out (index.js:297).
- `leaveVoiceChat` unsubscribes before broadcasting (index.js:75-76), so the
  leaver is excluded, and it does not check that the group exists.
- Repeated `joinGroup` calls append the same connection again
  (index.js:49); the member list keeps the duplicates.
- `disconnect` removes the identity and filters the member lists
  (index.js:79-84); it does not itself touch rooms or voice rooms.
- The seeded group "test" has no `groupName` field (index.js:27), unlike the
  groups `createGroup` builds (index.js:39); `Group.groupName` is therefore
  an option, `None` for the seeded group.
- Voice rooms and group rooms share one namespace: the voice room of group
  `x` is the room of a group named `voice-x`. Leaving the voice chat of `x`
  therefore unsubscribes the leaver from that group's room while it stays in
  the group's member list (`Scenarios.VoiceRoomCollision`). For this reason
  the invariant "every member is subscribed to its group's room" is kept by
  every handler except `leaveVoiceChat` on such a name. Voice rooms of two
  different groups never coincide (`Rooms.VoiceRoomInjective`), so a voice
  join or leave touches the voice room of its own group only.

## Model

| member | source | states |
|---|---|---|
| `Members.Without` | index.js:82 | the filtered list no longer contains the connection, contains exactly the other elements of the original, and is no longer than it |
| `Members.WithoutAppend` | index.js:82 | filtering distributes over concatenation, so the members that remain keep their original relative order |
| `Members.WithoutCount` | index.js:82 | filtering removes every copy of the connection and keeps every other member with its multiplicity |
| `Members.WithoutAbsent` | index.js:82 | filtering a connection that is not listed leaves the list unchanged |
| `Members.WithoutIdempotent` | index.js:79-84 | filtering the same connection twice equals filtering once |
| `Members.AppendThenWithout` | index.js:46-84 | a join (append at the end) followed by a disconnect leaves the member list as a disconnect alone would |
| `Rooms.Subscribers` | index.js:61 | a broadcast to a room that does not exist reaches nobody; while no room is kept empty, a broadcast reaches somebody exactly when its room exists |
| `Rooms.Join` | index.js:42 | joining adds the connection to the room's subscribers, creates the room if needed, leaves every other room as it was, and creates no empty room |
| `Rooms.Leave` | index.js:75 | leaving removes the connection from the room's subscribers (a no-op when absent), leaves every other room as it was, and drops the room when it becomes empty |
| `Rooms.JoinThenLeave` | index.js:66-77 | joining a room one is not in and then leaving it restores the entire room table |
| `Rooms.VoiceRoom` | index.js:69-76 | the voice room of g is "voice-" followed by g, in the same namespace as the rooms named after groups, and g can be read back from it |
| `Rooms.VoiceRoomInjective` | index.js:69-76 | the voice room `voice-g` determines g: two groups share a voice room only if they are the same group (used by the voice handlers to leave other groups' voice rooms untouched) |
| `Tables.TestGroup` | index.js:27 | the seeded group has id and name "test", no groupName field, and empty members and messages |
| `Tables.RemoveMember` | index.js:81-83 | the disconnect loop keeps every group key, id, name, groupName and message log, and leaves in each member list exactly the members other than the connection |
| `Tables.RemoveMemberIdempotent` | index.js:79-84 | running the disconnect filter over all groups twice equals running it once |
| `Tables.RemoveMemberOfNonMember` | index.js:81-83 | a group the connection is not a member of is left exactly as it was |
| `Server.Coordinator.constructor` | index.js:22-27 | at startup `users` and the rooms are empty and `groups` holds only "test", with id and name "test", no members and no messages |
| `Server.Coordinator.Register` | index.js:33-36 | the sender's entry becomes `{id: sender, username}`, overwriting any earlier one; groups and rooms are unchanged; `registered` goes to the sender only |
| `Server.Coordinator.CreateGroup` | index.js:38-44 | key n maps to a group with id, groupName and name n, members [sender] and no messages, replacing any group n; other keys are untouched; the sender joins room n; `groupCreated` goes to the sender only |
| `Server.Coordinator.JoinGroup` | index.js:46-53 | for an existing group the sender is appended after the unchanged earlier members, duplicates included, it joins the group's room, and `joinedGroup` with the updated group goes to the sender only; for a missing group nothing changes and nothing is emitted |
| `Server.Coordinator.SendMessage` | index.js:55-63 | for an existing group exactly one message {timestamp, sender, sender's registered name, text} is appended, other groups and users are unchanged, and `newMessage` goes to the subscribers of room g, which include every member while members are subscribed; for a missing group nothing changes and nothing is emitted |
| `Server.Coordinator.JoinVoiceChat` | index.js:66-72 | for an existing group the sender joins room `voice-g` and `userJoinedVoice` goes to that room's earlier subscribers plus the sender; otherwise nothing changes; every other group's voice room keeps its subscribers; groups and users are never modified |
| `Server.Coordinator.LeaveVoiceChat` | index.js:74-77 | without any existence check the sender leaves room `voice-g` and `userLeftVoice` goes to the remaining subscribers, which exclude the sender; every other group's voice room keeps its subscribers; groups and users are never modified |
| `Server.Coordinator.Disconnect` | index.js:79-84 | the sender's user entry is removed and every group's members are filtered as `Tables.RemoveMember` states; rooms are untouched and nothing is emitted |
| `Scenarios.BookClub` | index.js:33-84 | Alice creates "book-club" (members [A]), Bob joins ([A, B]), Alice's "hello" reaches A and B authored "Alice", and after B disconnects the members are [A] |
| `Scenarios.JoinMissingGroup` | index.js:46-53 | joining "nonexistent" emits nothing and creates no group |
| `Scenarios.DuplicateJoin` | index.js:46-84 | two joins list the connection twice; one disconnect removes both entries and a second leaves the list empty |
| `Scenarios.VoiceJoinLeave` | index.js:66-77 | a voice join announcement reaches the joiner as well, the leave announcement reaches only those who remain, and join then leave restores the room table |
| `Scenarios.ReplacedGroupBroadcast` | index.js:38-63 | after a group is re-created its member list holds only the new creator, yet a message still reaches every earlier subscriber of the room |
| `Scenarios.VoiceRoomCollision` | index.js:38-77 | leaving the voice chat of "x" unsubscribes a member of group "voice-x" from its room, so it no longer receives that group's messages |

## Left out

- The HTTP server, static files, the PeerJS server, the `/` route and
  `listen` (index.js:1-20, 445-453): library wiring and I/O.
- The browser page and its script (index.js:88-443): user interface, media
  capture, audio processing and peer-to-peer calls.
- Console logging on connection (index.js:31).
- Delivery of events: each handler returns the event and its recipient set
  instead of sending it.
- socket.io's own room bookkeeping outside the handlers: the room every
  connection has under its own id, and the removal of a disconnected
  connection from all its rooms. Neither appears in the handlers, so
  `Disconnect` leaves the room table as it was.
- `Date.now()`: the message timestamp is a parameter of `SendMessage`, and
  the message id is that number rather than its decimal string. Nothing
  claims that ids are unique: two messages in the same millisecond share one.
- `Server.Coordinator.SendMessage`: requires the sender to be registered when
  the group exists, because the source then reads the name of an absent
  user and throws; the model does not describe what the thrown error does to
  the process.
- Payloads of other types than strings (JavaScript accepts any value as a
  group name or user name); the model takes strings.
- The group objects are references in the source; no two keys of `groups`
  ever share one, so the model holds them as values.
- Concurrency: handlers are sequential, as on the single event loop.
