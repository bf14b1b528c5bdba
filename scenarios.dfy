/** Runs of the coordinator from startup, each pinning down what one
    sequence of events leaves behind and who receives what. */
module Scenarios {
  import opened Rooms
  import opened Tables
  import opened Server

  /** A registers as Alice and creates "book-club"; B registers as Bob and
      joins; A says "hello", which reaches both; B disconnects. */
  method BookClub() returns (received: set<ConnId>, message: Message, created: seq<ConnId>,
                             joined: seq<ConnId>, remaining: seq<ConnId>)
    ensures created == ["A"] && joined == ["A", "B"] && remaining == ["A"]
    ensures received == {"A", "B"}
    ensures message == Message(1000, "A", "Alice", "hello")
  {
    var c := new Coordinator();
    var _ := c.Register("A", "Alice");
    var _ := c.CreateGroup("A", "book-club");
    created := c.groups["book-club"].members;
    var _ := c.Register("B", "Bob");
    var _ := c.JoinGroup("B", "book-club");
    joined := c.groups["book-club"].members;
    var sent := c.SendMessage("A", "book-club", "hello", 1000);
    received := sent.value.to;
    message := sent.value.event.message;
    c.Disconnect("B");
    remaining := c.groups["book-club"].members;
    assert remaining == Members.Without(["A", "B"], "B");
  }

  /** Joining a group that does not exist emits nothing and creates
      nothing. */
  method JoinMissingGroup() returns (out: Option<Emission>, created: bool)
    ensures out == None && !created
  {
    var c := new Coordinator();
    out := c.JoinGroup("C", "nonexistent");
    created := "nonexistent" in c.groups;
  }

  /** Joining twice lists the connection twice; one disconnect removes
      both entries and a second changes nothing. */
  method DuplicateJoin() returns (twice: seq<ConnId>, once: seq<ConnId>, again: seq<ConnId>)
    ensures twice == ["C", "C"] && once == [] && again == []
  {
    var c := new Coordinator();
    var _ := c.JoinGroup("C", "test");
    var _ := c.JoinGroup("C", "test");
    twice := c.groups["test"].members;
    c.Disconnect("C");
    once := c.groups["test"].members;
    c.Disconnect("C");
    again := c.groups["test"].members;
    assert once == Members.Without(["C", "C"], "C");
  }

  /** A joins the voice room of "test", then B: B's announcement reaches B
      too. B then leaves: the announcement reaches A only, and the room
      table is back to what it was before B joined. */
  method VoiceJoinLeave() returns (joinedTo: set<ConnId>, leftTo: set<ConnId>, restored: bool)
    ensures joinedTo == {"A", "B"} && leftTo == {"A"} && restored
  {
    var c := new Coordinator();
    var _ := c.JoinVoiceChat("A", "test");
    var before := c.rooms;
    var joined := c.JoinVoiceChat("B", "test");
    joinedTo := joined.value.to;
    var left := c.LeaveVoiceChat("B", "test");
    leftTo := left.to;
    JoinThenLeave(before, VoiceRoom("test"), "B");
    restored := c.rooms == before;
  }

  /** C re-creates "g" after A created it and B joined it: the member list
      now holds C alone, yet A's message to "g" still reaches A, B and C,
      because the broadcast goes to the room, which nobody left. */
  method ReplacedGroupBroadcast() returns (members: seq<ConnId>, to: set<ConnId>)
    ensures members == ["C"] && to == {"A", "B", "C"}
  {
    var c := new Coordinator();
    var _ := c.Register("A", "Alice");
    var _ := c.CreateGroup("A", "g");
    var _ := c.JoinGroup("B", "g");
    var _ := c.CreateGroup("C", "g");
    members := c.groups["g"].members;
    var sent := c.SendMessage("A", "g", "hi", 1);
    to := sent.value.to;
  }

  /** Voice rooms share one namespace with group rooms: leaving the voice
      chat of "x" (which need not exist) unsubscribes A from the room of a
      group named "voice-x" while A stays in its member list, so A no longer
      receives that group's messages. */
  method VoiceRoomCollision() returns (members: seq<ConnId>, to: set<ConnId>)
    ensures "A" in members && "A" !in to
  {
    var c := new Coordinator();
    var _ := c.CreateGroup("A", "voice-x");
    assert VoiceRoom("x") == "voice-x";
    var _ := c.LeaveVoiceChat("A", "x");
    members := c.groups["voice-x"].members;
    var _ := c.Register("B", "Bob");
    var sent := c.SendMessage("B", "voice-x", "hi", 2);
    to := sent.value.to;
  }
}
