/**
 * The server's process-wide room registry and the four socket handlers that
 * drive it: `joinRoom`, `chatMessage`, `aiMessage` and `disconnect`, together
 * with the two synchronous halves of the per-room AI queue drain (the start of
 * `processAIQueue` up to the provider call, and its `finally` block).
 *
 * A broadcast `io.to(id).emit(...)` is appended to the outbox log of that id, in
 * the order the handlers send them; an id need not be a registered room (every
 * socket is also in the socket.io room named by its own id). The pending provider calls
 * and the 200 ms reschedule timers are the two ghost counters `inFlight` and
 * `timers`, kept per room: the event loop may complete any in-flight call and fire any pending
 * timer, in any order, interleaved with the handlers.
 */
module Registry {
  import opened Wrappers
  import opened RoomState
  import opened Reply
  import Decimal

  type RoomId = string

  /** A broadcast to every socket in a room. */
  datatype Emit =
    | UpdateMembers(members: seq<Member>)
    | AiQueueUpdate(positions: seq<int>)
    | AiTyping(typing: bool)
    | ChatMessage(username: string, message: Json)

  /** The acknowledgement a `joinRoom` caller receives. */
  datatype JoinReply =
    | Joined(roomId: RoomId, members: seq<Member>)
    | Rejected(message: string)
    | Unanswered   // the handler threw before calling back

  /**
   * The properties every plain object inherits from `Object.prototype`. For
   * these ids `rooms[id]` is truthy although no room was ever created under them.
   */
  const INHERITED_KEYS: set<RoomId> := {
    "constructor", "__defineGetter__", "__defineSetter__", "hasOwnProperty",
    "__lookupGetter__", "__lookupSetter__", "isPrototypeOf", "propertyIsEnumerable",
    "toString", "valueOf", "__proto__", "toLocaleString"
  }

  /** `rooms[id]` is truthy: an own room, or an inherited property. */
  predicate Present(rooms: map<RoomId, Room>, rid: RoomId) {
    rid in rooms || rid in INHERITED_KEYS
  }

  const ROOM_FULL := "Room full"
  const AI_NAME := "AI"

  /** The number of distinct generated guest ids: `Math.floor(Math.random() * 10000)`. */
  const GUEST_IDS: nat := 10000

  function GuestRoomId(n: nat): RoomId {
    "guest" + Decimal.Render(n)
  }

  /**
   * Generated guest ids are "guest" followed by a non-empty run of decimal
   * digits, and differ for different draws.
   */
  lemma GuestRoomIdsDistinct(a: nat, b: nat)
    ensures |GuestRoomId(a)| > |"guest"| && GuestRoomId(a)[..5] == "guest"
    ensures Decimal.AllDigits(GuestRoomId(a)[5..])
    ensures GuestRoomId(a) == GuestRoomId(b) <==> a == b
  {
    assert GuestRoomId(a)[5..] == Decimal.Render(a);
    assert GuestRoomId(b)[5..] == Decimal.Render(b);
    Decimal.RenderInjective(a, b);
  }

  /** The room a join goes to: the requested id, or a guest id when none (or "") was given. */
  function TargetRoom(requested: RoomId, guest: nat): (rid: RoomId)
    ensures rid != ""
    ensures requested != "" ==> rid == requested
    ensures requested == "" ==> rid == GuestRoomId(guest)
    ensures requested == "" ==> |rid| > 5 && rid[..5] == "guest" && rid !in INHERITED_KEYS
  {
    assert GuestRoomId(guest)[..5] == "guest";
    assert GuestRoomId(guest)[0] == 'g';
    if requested == "" then GuestRoomId(guest) else requested
  }

  function RoomOrNew(rooms: map<RoomId, Room>, rid: RoomId): Room {
    if rid in rooms then rooms[rid] else NEW_ROOM
  }

  /** What has been sent to socket.io room `rid` so far: nothing, for an id never addressed. */
  function Log(outbox: map<RoomId, seq<Emit>>, rid: RoomId): seq<Emit> {
    if rid in outbox then outbox[rid] else []
  }

  /** The broadcasts of a drain step that popped an entry, given the room after the pop. */
  function DrainEmits(room: Room): (r: seq<Emit>)
    ensures |r| == 2 && r[0].AiQueueUpdate? && r[1] == AiTyping(true)
    ensures |r[0].positions| == |room.aiQueue| && forall i :: 0 <= i < |room.aiQueue| ==> r[0].positions[i] == i + 1
  {
    [AiQueueUpdate(Positions(room.aiQueue)), AiTyping(true)]
  }

  /** The broadcasts a disconnect sends to every room, given the room after the removal. */
  function LeaveEmits(room: Room): (r: seq<Emit>)
    ensures |r| == 2 && r[0] == UpdateMembers(room.members) && r[1].AiQueueUpdate?
    ensures |r[1].positions| == |room.aiQueue| && forall i :: 0 <= i < |room.aiQueue| ==> r[1].positions[i] == i + 1
  {
    [UpdateMembers(room.members), AiQueueUpdate(Positions(room.aiQueue))]
  }

  /** The broadcasts that end a drain step: the AI's message, if any, then the typing indicator off. */
  function CompletionEmits(o: Outcome, stringify: Json -> string): (r: seq<Emit>)
    ensures |r| == |AiReplies(o, stringify)| + 1 && r[|r| - 1] == AiTyping(false)
    ensures forall i :: 0 <= i < |r| - 1 ==> r[i] == ChatMessage(AI_NAME, AiReplies(o, stringify)[i])
  {
    var replies := AiReplies(o, stringify);
    (if replies == [] then [] else [ChatMessage(AI_NAME, replies[0])]) + [AiTyping(false)]
  }

  /**
   * A room's part of the invariant, given how many provider calls are in flight
   * for it: at most four members, and the busy flag is never left set without a
   * call in flight that will clear it.
   */
  predicate Settled(room: Room, calls: nat) {
    WithinCapacity(room) && (room.aiBusy ==> calls > 0)
  }

  /** Waiting requests always have a drain going, or a reschedule timer that will start one. */
  predicate Scheduled(room: Room, pendingTimers: nat) {
    room.aiQueue != [] ==> room.aiBusy || pendingTimers > 0
  }

  /** A disconnect only shrinks a room's lists and keeps its busy flag, so a room's invariant survives it. */
  lemma LeaveKeepsInvariant(room: Room, s: SocketId, calls: nat, pendingTimers: nat)
    requires Settled(room, calls) && Scheduled(room, pendingTimers)
    ensures Settled(Leave(room, s), calls) && Scheduled(Leave(room, s), pendingTimers)
  {
  }

  /** Updating the same key twice keeps only the second value. */
  lemma Overwrite<K, V>(m: map<K, V>, k: K, a: V, b: V)
    ensures m[k := a][k := b] == m[k := b]
  {
  }

  class Server {
    var rooms: map<RoomId, Room>
    var outbox: map<RoomId, seq<Emit>>
    /** The number of provider calls started for each room and not yet completed. */
    ghost var inFlight: map<RoomId, nat>
    /** The number of reschedule timers set for each room and not yet fired. */
    ghost var timers: map<RoomId, nat>

    /**
     * The invariant, except that room `skip` may have waiting requests and no
     * drain scheduled. No room is registered under an inherited property name.
     */
    ghost predicate ValidExcept(skip: RoomId)
      reads this
    {
      forall rid :: rid in rooms ==>
        && rid !in INHERITED_KEYS
        && rid in outbox && rid in inFlight && rid in timers
        && Settled(rooms[rid], inFlight[rid])
        && (rid != skip ==> Scheduled(rooms[rid], timers[rid]))
    }

    ghost predicate Valid()
      reads this
    {
      forall rid :: rid in rooms ==>
        && rid !in INHERITED_KEYS
        && rid in outbox && rid in inFlight && rid in timers
        && Settled(rooms[rid], inFlight[rid])
        && Scheduled(rooms[rid], timers[rid])
    }

    constructor ()
      ensures Valid()
      ensures rooms == map[] && outbox == map[] && inFlight == map[] && timers == map[]
    {
      rooms := map[];
      outbox := map[];
      inFlight := map[];
      timers := map[];
    }

    /**
     * `joinRoom`: the room is created empty unless `rooms[id]` is already truthy.
     * For an inherited property name the handler then throws on `room.members`,
     * so nothing changes and the caller is never answered. A full room rejects
     * the join and nothing changes; otherwise the member goes at the end of the
     * list, the room is told, and the caller receives the new list.
     */
    method JoinRoom(socket: SocketId, requested: RoomId, username: string, guest: nat) returns (reply: JoinReply)
      requires Valid()
      requires guest < GUEST_IDS
      modifies this
      ensures Valid()
      ensures TargetRoom(requested, guest) in INHERITED_KEYS ==>
                && reply == Unanswered
                && rooms == old(rooms) && outbox == old(outbox)
                && inFlight == old(inFlight) && timers == old(timers)
      ensures var rid := TargetRoom(requested, guest);
              var before := RoomOrNew(old(rooms), rid);
              var member := Member(socket, username);
              rid !in INHERITED_KEYS ==>
              && rooms == old(rooms)[rid := Join(before, member)]
              && (IsFull(before) ==>
                    && rid in old(rooms)
                    && reply == Rejected(ROOM_FULL)
                    && rooms == old(rooms) && outbox == old(outbox))
              && (!IsFull(before) ==>
                    && rooms[rid] == before.(members := before.members + [member])
                    && reply == Joined(rid, rooms[rid].members)
                    && outbox == old(outbox)[rid := Log(old(outbox), rid) + [UpdateMembers(rooms[rid].members)]])
      ensures var rid := TargetRoom(requested, guest);
              && inFlight == (if Present(old(rooms), rid) then old(inFlight) else old(inFlight)[rid := 0])
              && timers == (if Present(old(rooms), rid) then old(timers) else old(timers)[rid := 0])
    {
      var rid := TargetRoom(requested, guest);
      CreateIfMissing(rid);
      if rid in INHERITED_KEYS {
        reply := Unanswered;
        return;
      }
      var room := rooms[rid];
      assert room == RoomOrNew(old(rooms), rid);
      if IsFull(room) {
        reply := Rejected(ROOM_FULL);
        return;
      }
      rooms := rooms[rid := Join(room, Member(socket, username))];
      outbox := outbox[rid := outbox[rid] + [UpdateMembers(rooms[rid].members)]];
      reply := Joined(rid, rooms[rid].members);
      if rid !in old(rooms) {
        Overwrite(old(rooms), rid, NEW_ROOM, rooms[rid]);
        Overwrite(old(outbox), rid, Log(old(outbox), rid), outbox[rid]);
      }
    }

    /**
     * The lazy creation at the start of `joinRoom`: a room is created when
     * `rooms[id]` is falsy, so an existing room is never replaced and an
     * inherited property name never becomes a room. What was already sent to the
     * id is kept.
     */
    method CreateIfMissing(rid: RoomId)
      requires Valid()
      modifies this
      ensures Valid()
      ensures Present(rooms, rid)
      ensures rooms == if Present(old(rooms), rid) then old(rooms) else old(rooms)[rid := NEW_ROOM]
      ensures outbox == if Present(old(rooms), rid) then old(outbox) else old(outbox)[rid := Log(old(outbox), rid)]
      ensures inFlight == if Present(old(rooms), rid) then old(inFlight) else old(inFlight)[rid := 0]
      ensures timers == if Present(old(rooms), rid) then old(timers) else old(timers)[rid := 0]
    {
      if !Present(rooms, rid) {
        rooms := rooms[rid := NEW_ROOM];
        outbox := outbox[rid := Log(outbox, rid)];
        inFlight := inFlight[rid := 0];
        timers := timers[rid := 0];
      }
    }

    /**
     * `chatMessage`: relayed as sent to the socket.io room of that id, whether or
     * not it is a registered room; rooms, queues and flags are untouched.
     */
    method RelayChat(rid: RoomId, username: string, message: string)
      requires Valid()
      modifies this`outbox
      ensures Valid()
      ensures outbox == old(outbox)[rid := Log(old(outbox), rid) + [ChatMessage(username, JString(message))]]
    {
      outbox := outbox[rid := Log(outbox, rid) + [ChatMessage(username, JString(message))]];
    }

    /**
     * `aiMessage`: ignored for an unknown room; otherwise the request goes at the
     * tail of the queue, the room is told the positions `[1..n]`, and when no drain
     * is busy one starts at once and pops the head, which it returns.
     */
    method AiMessage(socket: SocketId, rid: RoomId, message: string, username: string) returns (job: Option<QueueEntry>)
      requires Valid()
      modifies this
      ensures Valid()
      ensures rid !in old(rooms) ==>
                && job == None && rooms == old(rooms) && outbox == old(outbox)
                && inFlight == old(inFlight)
      ensures rid in INHERITED_KEYS ==>
                && job == None && rooms == old(rooms) && outbox == old(outbox)
                && inFlight == old(inFlight)
      ensures rid in old(rooms) ==>
                var queued := Enqueue(old(rooms)[rid], QueueEntry(socket, message, username));
                var announced := old(outbox)[rid] + [AiQueueUpdate(Positions(queued.aiQueue))];
                if old(rooms)[rid].aiBusy then
                  && job == None
                  && rooms == old(rooms)[rid := queued]
                  && outbox == old(outbox)[rid := announced]
                  && inFlight == old(inFlight)
                else
                  && job == Some(queued.aiQueue[0])
                  && rooms == old(rooms)[rid := Drain(queued).0]
                  && outbox == old(outbox)[rid := announced + DrainEmits(Drain(queued).0)]
                  && inFlight == old(inFlight)[rid := old(inFlight)[rid] + 1]
      ensures timers == old(timers)
    {
      // For an inherited property name `rooms[id]` is truthy but the push throws:
      // either way nothing changes.
      if rid !in rooms {
        job := None;
        return;
      }
      var busy := rooms[rid].aiBusy;
      QueueRequest(rid, QueueEntry(socket, message, username));
      job := None;
      if !busy {
        ghost var queued, rooms0, outbox0 := rooms[rid], rooms, outbox;
        job := ProcessAIQueue(rid);
        Overwrite(old(rooms), rid, queued, rooms[rid]);
        Overwrite(old(outbox), rid, outbox0[rid], outbox[rid]);
      }
    }

    /**
     * The first half of `aiMessage` for a known room: the entry goes at the tail
     * of the queue and the room is told the new positions. Until a drain is
     * started, the room may have waiting requests and nothing scheduled.
     */
    method QueueRequest(rid: RoomId, entry: QueueEntry)
      requires Valid() && rid in rooms
      modifies this`rooms, this`outbox
      ensures ValidExcept(rid)
      ensures rooms == old(rooms)[rid := Enqueue(old(rooms)[rid], entry)]
      ensures outbox == old(outbox)[rid := old(outbox)[rid] + [AiQueueUpdate(Positions(rooms[rid].aiQueue))]]
    {
      rooms := rooms[rid := Enqueue(rooms[rid], entry)];
      outbox := outbox[rid := outbox[rid] + [AiQueueUpdate(Positions(rooms[rid].aiQueue))]];
    }

    /**
     * The synchronous start of `processAIQueue`, up to the provider call: nothing
     * for an unknown room; on an empty queue only the busy flag clears; otherwise
     * the flag is set, the head is popped and returned for the provider, and the
     * room is told the new positions and that the AI is typing.
     */
    method ProcessAIQueue(rid: RoomId) returns (job: Option<QueueEntry>)
      requires ValidExcept(rid)
      modifies this
      ensures Valid()
      ensures rid !in old(rooms) ==>
                job == None && rooms == old(rooms) && outbox == old(outbox) && inFlight == old(inFlight)
      ensures rid in old(rooms) ==> rooms == old(rooms)[rid := Drain(old(rooms)[rid]).0]
      ensures rid in old(rooms) ==> job == Drain(old(rooms)[rid]).1
      ensures rid in old(rooms) && old(rooms)[rid].aiQueue == [] ==>
                && job == None && !rooms[rid].aiBusy
                && outbox == old(outbox) && inFlight == old(inFlight)
      ensures rid in old(rooms) && old(rooms)[rid].aiQueue != [] ==>
                && job == Some(old(rooms)[rid].aiQueue[0])
                && rooms[rid].aiBusy && rooms[rid].aiQueue == old(rooms)[rid].aiQueue[1..]
                && outbox == old(outbox)[rid := old(outbox)[rid] + DrainEmits(rooms[rid])]
                && inFlight == old(inFlight)[rid := old(inFlight)[rid] + 1]
      ensures timers == old(timers)
    {
      if rid !in rooms {
        job := None;
        return;
      }
      var room := rooms[rid];
      var step := Drain(room);
      rooms := rooms[rid := step.0];
      job := step.1;
      if job.Some? {
        outbox := outbox[rid := outbox[rid] + DrainEmits(step.0)];
        inFlight := inFlight[rid := inFlight[rid] + 1];
      }
    }

    /** The 200 ms reschedule timer of a room fires and runs `processAIQueue` again. */
    method TimerFired(rid: RoomId) returns (job: Option<QueueEntry>)
      requires Valid()
      requires rid in rooms && timers[rid] > 0
      modifies this
      ensures Valid()
      ensures rooms == old(rooms)[rid := Drain(old(rooms)[rid]).0]
      ensures job == Drain(old(rooms)[rid]).1
      ensures outbox == if job.Some? then old(outbox)[rid := old(outbox)[rid] + DrainEmits(rooms[rid])]
                        else old(outbox)
      ensures inFlight == if job.Some? then old(inFlight)[rid := old(inFlight)[rid] + 1] else old(inFlight)
      ensures timers == old(timers)[rid := old(timers)[rid] - 1]
    {
      timers := timers[rid := timers[rid] - 1];
      job := ProcessAIQueue(rid);
    }

    /**
     * The `finally` block of `processAIQueue`, after the provider call: whatever
     * the outcome, the AI's message (if any) and "typing off" are broadcast, the
     * busy flag clears, and another drain is scheduled exactly when requests are
     * still waiting.
     */
    method CompleteAIRequest(rid: RoomId, outcome: Outcome, stringify: Json -> string) returns (reschedule: bool)
      requires Valid()
      requires rid in rooms && inFlight[rid] > 0
      modifies this
      ensures Valid()
      ensures rid in rooms && !rooms[rid].aiBusy
      ensures rooms == old(rooms)[rid := Finish(old(rooms)[rid])]
      ensures outbox == old(outbox)[rid := old(outbox)[rid] + CompletionEmits(outcome, stringify)]
      ensures reschedule == (rooms[rid].aiQueue != [])
      ensures inFlight == old(inFlight)[rid := old(inFlight)[rid] - 1]
      ensures timers == if reschedule then old(timers)[rid := old(timers)[rid] + 1] else old(timers)
    {
      outbox := outbox[rid := outbox[rid] + CompletionEmits(outcome, stringify)];
      var room := rooms[rid];
      rooms := rooms[rid := Finish(room)];
      inFlight := inFlight[rid := inFlight[rid] - 1];
      reschedule := room.aiQueue != [];
      if reschedule {
        timers := timers[rid := timers[rid] + 1];
      }
    }

    /** The body of the `disconnect` loop for one room: filter both lists, tell the room. */
    method LeaveRoom(rid: RoomId, s: SocketId)
      requires rid in rooms && rid in outbox
      modifies this`rooms, this`outbox
      ensures rooms == old(rooms)[rid := Leave(old(rooms)[rid], s)]
      ensures outbox == old(outbox)[rid := old(outbox)[rid] + LeaveEmits(rooms[rid])]
    {
      var left := Leave(rooms[rid], s);
      rooms := rooms[rid := left];
      outbox := outbox[rid := outbox[rid] + LeaveEmits(left)];
    }

    /**
     * `disconnect`: in every room the socket's members and waiting requests are
     * removed, the rest keep their order, and the room is told both lists. No
     * room is deleted, busy flags stay, and a request already handed to the
     * provider is not touched.
     */
    method Disconnect(s: SocketId)
      requires Valid()
      modifies this`rooms, this`outbox
      ensures Valid()
      ensures rooms.Keys == old(rooms).Keys && outbox.Keys == old(outbox).Keys
      ensures forall rid :: rid in outbox && rid !in rooms ==> outbox[rid] == old(outbox)[rid]
      ensures forall rid :: rid in rooms ==>
                && rooms[rid] == Leave(old(rooms)[rid], s)
                && outbox[rid] == old(outbox)[rid] + LeaveEmits(rooms[rid])
    {
      LeaveAll(s);
      forall rid | rid in rooms
        ensures Settled(rooms[rid], inFlight[rid]) && Scheduled(rooms[rid], timers[rid])
      {
        LeaveKeepsInvariant(old(rooms)[rid], s, inFlight[rid], timers[rid]);
      }
    }

    /** The `for ... in rooms` loop of `disconnect`, one room at a time, in no particular order. */
    method LeaveAll(s: SocketId)
      requires rooms.Keys <= outbox.Keys
      modifies this`rooms, this`outbox
      ensures rooms.Keys == old(rooms).Keys && outbox.Keys == old(outbox).Keys
      ensures forall rid :: rid in outbox && rid !in rooms ==> outbox[rid] == old(outbox)[rid]
      ensures forall rid :: rid in rooms ==>
                && rooms[rid] == Leave(old(rooms)[rid], s)
                && outbox[rid] == old(outbox)[rid] + LeaveEmits(rooms[rid])
    {
      var todo := rooms.Keys;
      ghost var done: set<RoomId> := {};
      while todo != {}
        invariant todo !! done && todo + done == old(rooms).Keys
        invariant rooms.Keys == old(rooms).Keys && outbox.Keys == old(outbox).Keys
        invariant forall rid :: rid in done ==>
                    && rooms[rid] == Leave(old(rooms)[rid], s)
                    && outbox[rid] == old(outbox)[rid] + LeaveEmits(rooms[rid])
        invariant forall rid :: rid in todo ==>
                    rooms[rid] == old(rooms)[rid] && outbox[rid] == old(outbox)[rid]
        invariant forall rid :: rid in outbox && rid !in rooms ==> outbox[rid] == old(outbox)[rid]
        decreases todo
      {
        var rid :| rid in todo;
        LeaveRoom(rid, s);
        todo, done := todo - {rid}, done + {rid};
      }
    }
  }
}
