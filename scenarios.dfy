/**
 * Concrete call sequences on the server, each stated as what the clients observe. They
 * pin down behaviour the invariants allow but do not single out: a fifth join
 * is refused, a request is answered in the order shown, two drain steps of one
 * room can be in flight at once, and a request already handed to the provider
 * is answered even after its sender left.
 */
module Scenarios {
  import opened Wrappers
  import opened RoomState
  import opened Reply
  import opened Registry

  const ALICE := Member("s1", "A")
  const BOB := Member("s2", "B")

  /** A fresh server after sockets "s1" and "s2" join room "r1", in that order. */
  method TwoMembers() returns (server: Server, first: JoinReply, second: JoinReply)
    ensures fresh(server) && server.Valid()
    ensures server.rooms == map["r1" := Room([ALICE, BOB], [], false)]
    ensures server.inFlight == map["r1" := 0]
    ensures first == Joined("r1", [ALICE]) && second == Joined("r1", [ALICE, BOB])
  {
    server := new Server();
    assert TargetRoom("r1", 0) == "r1";
    first := server.JoinRoom(ALICE.id, "r1", ALICE.username, 0);
    assert server.rooms["r1"].members == [ALICE];
    assert server.rooms == map["r1" := Room([ALICE], [], false)];
    second := server.JoinRoom(BOB.id, "r1", BOB.username, 0);
    assert server.rooms["r1"].members == [ALICE, BOB];
  }

  const CAROL := Member("s3", "C")
  const DAVE := Member("s4", "D")

  /** Four sockets join room "r1"; a fifth is refused and the room keeps the first four in join order. */
  method RoomFillsAtFour() returns (replies: seq<JoinReply>)
    ensures |replies| == 5
    ensures replies[0] == Joined("r1", [ALICE]) && replies[1] == Joined("r1", [ALICE, BOB])
    ensures replies[2] == Joined("r1", [ALICE, BOB, CAROL])
    ensures replies[3] == Joined("r1", [ALICE, BOB, CAROL, DAVE])
    ensures replies[4] == Rejected(ROOM_FULL)
  {
    var server, r1, r2 := TwoMembers();
    var r3, r4 := JoinTwoMore(server);
    assert TargetRoom("r1", 0) == "r1";
    var r5 := server.JoinRoom("s5", "r1", "E", 0);
    replies := [r1, r2, r3, r4, r5];
  }

  /** Two more sockets join room "r1" after "s1" and "s2": both are admitted in join order. */
  method JoinTwoMore(server: Server) returns (third: JoinReply, fourth: JoinReply)
    requires server.Valid() && server.rooms == map["r1" := Room([ALICE, BOB], [], false)]
    modifies server
    ensures server.Valid() && server.rooms == map["r1" := Room([ALICE, BOB, CAROL, DAVE], [], false)]
    ensures third == Joined("r1", [ALICE, BOB, CAROL]) && fourth == Joined("r1", [ALICE, BOB, CAROL, DAVE])
  {
    assert TargetRoom("r1", 0) == "r1";
    third := server.JoinRoom(CAROL.id, "r1", CAROL.username, 0);
    assert server.rooms["r1"].members == [ALICE, BOB, CAROL];
    fourth := server.JoinRoom(DAVE.id, "r1", DAVE.username, 0);
    assert server.rooms["r1"].members == [ALICE, BOB, CAROL, DAVE];
  }

  /**
   * One user asks the AI once and the provider answers `[{generated_text: "hi"}]`:
   * the room sees the member list, the queue with one entry, the queue emptied
   * with the AI typing, the answer, and the AI no longer typing; nothing is
   * rescheduled.
   */
  method SingleRequest(stringify: Json -> string) returns (job: Option<QueueEntry>, reschedule: bool, log: seq<Emit>)
    ensures job == Some(QueueEntry("s1", "hello", "A"))
    ensures !reschedule
    ensures log == [UpdateMembers([Member("s1", "A")]), AiQueueUpdate([1]), AiQueueUpdate([]), AiTyping(true),
                    ChatMessage(AI_NAME, JString("hi")), AiTyping(false)]
  {
    var server := new Server();
    var _ := server.JoinRoom("s1", "r1", "A", 0);
    assert TargetRoom("r1", 0) == "r1";
    assert server.rooms["r1"].members == [Member("s1", "A")];
    assert server.outbox["r1"] == [UpdateMembers([Member("s1", "A")])];
    ghost var entry := QueueEntry("s1", "hello", "A");
    assert Enqueue(server.rooms["r1"], entry).aiQueue == [entry];
    assert Positions([entry]) == [1];
    job := server.AiMessage("s1", "r1", "hello", "A");
    assert server.rooms["r1"].aiQueue == [];
    assert server.outbox["r1"] == [UpdateMembers([Member("s1", "A")]), AiQueueUpdate([1]), AiQueueUpdate([]), AiTyping(true)];
    var answer := JArray([JObject(map[GENERATED_TEXT := JString("hi")])]);
    assert FirstHasText(answer);
    assert CompletionEmits(Parsed(answer), stringify) == [ChatMessage(AI_NAME, JString("hi")), AiTyping(false)];
    reschedule := server.CompleteAIRequest("r1", Parsed(answer), stringify);
    log := server.outbox["r1"];
  }

  /**
   * The window between clearing the busy flag and the 200 ms reschedule: a
   * request arriving then starts a drain at once, and when the timer fires it
   * starts another, so two provider calls of the same room are in flight.
   */
  method OverlappingDrains(stringify: Json -> string) returns (server: Server, second: Option<QueueEntry>, third: Option<QueueEntry>)
    ensures second == Some(QueueEntry("s1", "two", "A"))
    ensures third == Some(QueueEntry("s1", "three", "A"))
    ensures "r1" in server.rooms && server.rooms["r1"].aiBusy && server.rooms["r1"].aiQueue == []
    ensures "r1" in server.inFlight && server.inFlight["r1"] == 2
  {
    server := new Server();
    var _ := server.JoinRoom("s1", "r1", "A", 0);
    var first := server.AiMessage("s1", "r1", "one", "A");
    var queued := server.AiMessage("s1", "r1", "two", "A");
    assert queued == None;
    var reschedule := server.CompleteAIRequest("r1", Threw, stringify);
    assert reschedule;
    second := server.AiMessage("s1", "r1", "three", "A");
    third := server.TimerFired("r1");
  }

  /**
   * The sender of the request being answered disconnects: its waiting request
   * goes, but the answer to the one already popped is still posted, and the
   * other user's request is rescheduled.
   */
  method DisconnectDuringRequest(stringify: Json -> string)
      returns (inProgress: Option<QueueEntry>, waiting: seq<QueueEntry>, reschedule: bool, log: seq<Emit>)
    ensures inProgress == Some(QueueEntry("s2", "first", "B"))
    ensures QueueEntry("s2", "second", "B") !in waiting && QueueEntry("s1", "third", "A") in waiting
    ensures reschedule
    ensures |log| >= 2 && log[|log| - 2..] == [ChatMessage(AI_NAME, JString(FAILURE_TEXT)), AiTyping(false)]
  {
    ghost var after := [ChatMessage(AI_NAME, JString(FAILURE_TEXT)), AiTyping(false)];
    assert CompletionEmits(Threw, stringify) == after;
    var server;
    server, inProgress := BusyWithTwoWaiting();
    ghost var queue := server.rooms["r1"].aiQueue;
    server.Disconnect("s2");
    waiting := server.rooms["r1"].aiQueue;
    assert waiting == Leave(Room([ALICE, BOB], queue, true), "s2").aiQueue;
    assert QueueEntry("s1", "third", "A") in waiting;
    ghost var before := server.outbox["r1"];
    reschedule := server.CompleteAIRequest("r1", Threw, stringify);
    log := server.outbox["r1"];
    assert log == before + after;
    assert log[|log| - 2..] == after;
  }

  /**
   * "s2" asks twice and "s1" once: the first request is handed to the provider
   * and the other two wait in arrival order.
   */
  method BusyWithTwoWaiting() returns (server: Server, inProgress: Option<QueueEntry>)
    ensures fresh(server) && server.Valid()
    ensures "r1" in server.rooms
    ensures server.rooms["r1"] == Room([ALICE, BOB], [QueueEntry("s2", "second", "B"), QueueEntry("s1", "third", "A")], true)
    ensures "r1" in server.inFlight && server.inFlight["r1"] == 1
    ensures inProgress == Some(QueueEntry("s2", "first", "B"))
  {
    var first, second;
    server, first, second := TwoMembers();
    inProgress := server.AiMessage("s2", "r1", "first", "B");
    assert server.rooms["r1"].aiQueue == [];
    var _ := server.AiMessage("s2", "r1", "second", "B");
    assert server.rooms["r1"].aiQueue == [QueueEntry("s2", "second", "B")];
    var _ := server.AiMessage("s1", "r1", "third", "A");
    assert server.rooms["r1"].aiQueue == [QueueEntry("s2", "second", "B"), QueueEntry("s1", "third", "A")];
  }
}
