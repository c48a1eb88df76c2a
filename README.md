# Chat rooms with a shared AI queue: a verified model of the server core

The server keeps every chat room in a process-wide registry. The registry maps a
room id to three things:
- the room's members, in join order, at most four of them;
- a FIFO of pending requests to an AI text provider;
- a busy flag for the room's queue drain.

Four socket handlers change the registry:
- `joinRoom` creates a room on first use, refuses a fifth member, and otherwise
  appends the caller;
- `chatMessage` relays a message to the room;
- `aiMessage` enqueues a request and starts a drain when the room is not busy;
- `disconnect` filters the socket out of every room.

The drain, `processAIQueue`, works in two halves:
- a synchronous start clears the flag on an empty queue, or sets it and pops the
  head for the provider;
- after the provider call, a `finally` block posts the AI's answer or an error,
  switches the typing indicator off, clears the flag, and sets a 200 ms timer
  when requests are still waiting.

The project models this core as follows.

- `Registry.Server` is a class. Its `rooms` field is the registry, a
  `map<RoomId, Room>`.
- `io.to(id).emit(...)` is modelled by `outbox`, a map from each socket.io room
  id to the log of the broadcasts sent to it, in the order they were sent. An
  id need not be a registered room. Every socket is also in a socket.io room
  named by its own id, so a chat message is logged under whatever id it names.
  The model does not track which sockets are in which socket.io room, so what
  one socket receives is not stated (see "## Left out").
- The `for ... in rooms` loop of `disconnect` is modelled with its order left
  open: the loop picks any room still to do, and the final state is proved the
  same whatever the order.
- A room id that names a property every object inherits (`toString`,
  `constructor`, `__proto__` and the others in `INHERITED_KEYS`) makes
  `rooms[id]` truthy although no room exists. A join to such an id throws before
  answering, and an AI request to it throws at the push. The model shows both
  as calls that change nothing.
- The asynchrony is made explicit:
  - `aiMessage` calls `processAIQueue` without awaiting it, so its synchronous
    start, `ProcessAIQueue`, runs inside `AiMessage`;
  - the rest of a drain step is `CompleteAIRequest`, which the event loop may
    run at any later point with the provider's outcome;
  - a pending reschedule fires through `TimerFired`.
- Two ghost counters per room record what the event loop still owes:
  - `inFlight`: provider calls started and not yet completed;
  - `timers`: reschedule timers set and not yet fired.
- Every operation preserves the invariant `Valid`:
  - every room has at most four members;
  - a busy room always has a provider call in flight, whose completion will
    clear the flag;
  - a room with waiting requests is busy or has a timer pending, so no request
    is stranded.
- The room-level steps (`Join`, `Enqueue`, `Drain`, `Finish`, `Leave`) are pure
  functions in `RoomState`. The handlers apply them, and their contracts are
  stated in terms of them. Lemmas over arbitrary sequences of these steps prove:
  - members never exceed four (`RunWithinCapacity`);
  - without disconnects, entries reach the provider exactly in arrival order
    (`ServedInArrivalOrder`);
  - with disconnects, entries may vanish but are never reordered
    (`ServedInOrder`).
- The reply-text selection is modelled over an abstract JSON value (`Reply`),
  with JavaScript truthiness. It takes the first matching case: the first
  element's `generated_text`, the response's own `generated_text`, the response
  itself when it is a string, and otherwise at most 1000 characters of its
  serialization.

The code does not serialise the drain steps of a room. The busy flag clears in
the `finally` block, before the 200 ms reschedule fires. An `aiMessage` that
arrives in that window sees the room idle and starts a drain at once. When the
timer then fires, a second drain starts while the first is still waiting for the
provider. The scenario `Scenarios.OverlappingDrains` makes these calls in this order and proves that two
provider calls of one room end up in flight. The model therefore claims no "at
most one drain per room" property. The invariant allows any number of calls in
flight.

## Model

| member | source | states |
|---|---|---|
| Registry.Server.constructor | server.js:31 | The registry starts empty: no rooms, no broadcasts, nothing in flight, no timers; the invariant holds. |
| Registry.Server.JoinRoom | server.js:36-49 | The target room is the requested id, or the guest id when none was given. For an inherited property name the handler throws at the length check: the caller is never answered and nothing changes. Otherwise a room that already has four or more members refuses with "Room full" and nothing changes. Otherwise exactly the caller's member record goes at the end of the list, the room is sent the new list, and the reply carries the room id and that list. A new room is created empty. The invariant, including at most four members, is preserved. |
| Registry.Server.CreateIfMissing | server.js:38 | A room with empty members, empty queue and not busy is added exactly when `rooms[id]` is falsy: the id is neither a registered room nor an inherited property name. An existing room is left exactly as it was, and so is what was already sent to the id. |
| Registry.TargetRoom | server.js:37 | The target id is never empty: the requested id when one was given, otherwise the generated guest id `GuestRoomId(guest)` ("guest" then the draw's decimal digits), which is never an inherited property name. |
| RoomState.Join | server.js:41-45 | A full room is unchanged. Otherwise the member list grows by one: the old list is kept as its prefix and the new member is last. Queue and flag are untouched, and a room within capacity stays within it. |
| Registry.GuestRoomIdsDistinct | server.js:37 | A generated guest id is "guest" followed by a non-empty run of decimal digits. Two draws give the same id exactly when they drew the same number. |
| Decimal.Render | server.js:37 | The rendering of a number is a non-empty string of digits with no leading zero. |
| Decimal.ValueOfRender | server.js:37 | Reading a rendered number back gives the number. |
| Decimal.RenderInjective | server.js:37 | Two numbers render the same exactly when they are equal. |
| Registry.Server.RelayChat | server.js:51-53 | A chat message is appended, as sent, to the log of the id it names, whether or not a room is registered under that id. Rooms, queues and flags are untouched. |
| Registry.Server.AiMessage | server.js:55-61 | An unknown room changes nothing, and neither does an inherited property name, for which the push throws. Otherwise exactly one entry goes at the tail of the queue, and the room is sent the positions 1..n of the new queue. If the room was idle, a drain starts at once: it pops that queue's head and returns it for the provider. If the room was busy, nothing else happens. Timers are untouched, and the invariant is preserved. |
| Registry.Server.QueueRequest | server.js:58-59 | The entry goes at the tail of the room's queue, and the room is sent the positions of the new queue. Only the registry and the broadcasts change. The invariant holds, except that this room's drain may not be scheduled yet. |
| RoomState.Enqueue | server.js:58 | The queue grows by one: the old queue is kept as its prefix and the new entry is last. Members and flag are untouched. |
| RoomState.Positions | server.js:59 | The queue-position list has the queue's length, and position i holds i + 1. |
| Registry.Server.ProcessAIQueue | server.js:75-86 | An unknown room changes nothing. On an empty queue only the busy flag clears: no broadcast and no provider call. On a non-empty queue the flag is set, and exactly the head is removed and returned for the provider. The room is sent the new positions and "typing on", and one provider call is in flight. The invariant holds afterwards, even if this room's waiting requests had no drain scheduled before. |
| RoomState.Drain | server.js:77-83 | An entry is popped exactly when the queue is non-empty, and the flag ends set exactly then. The popped entry followed by the new queue is the old queue. An empty queue stays as it is. Members are untouched. |
| Registry.DrainEmits | server.js:84-85 | After a pop the room is sent the positions of the remaining queue, position i being i + 1, then "typing on". |
| Registry.Server.TimerFired | server.js:143-146 | A pending reschedule timer fires: the timer is consumed, and the drain start runs exactly as above. |
| Registry.Server.CompleteAIRequest | server.js:102-147 | For every provider outcome: the room is sent the AI's messages, then "typing off". The busy flag clears, and members and queue are untouched. A reschedule timer is set exactly when requests are still waiting. The invariant is preserved. |
| RoomState.Finish | server.js:142 | The `finally` block changes only the busy flag, to false. |
| Registry.CompletionEmits | server.js:102-141 | The broadcasts that end a drain step are one AI chat message per reply, in order, then "typing off" last. |
| Reply.AiReplies | server.js:102-139 | What the AI posts for each outcome: an exception gives the fixed failure text; a non-success status gives the status and body text; a body that is not JSON gives its raw text; a truthy parsed body gives the selected reply text; a falsy parsed body gives nothing. At most one message is posted, and none exactly in the falsy case. |
| Reply.HttpErrorText | server.js:107 | The message is "HF API Error (", then the status in canonical decimal digits (no leading zero, never empty) that read back as the status, then "): ", then the response text unchanged. |
| Reply.Truthy | server.js:121-126 | The falsy values are exactly null, false, 0 and the empty string. Every array and every object is truthy. |
| Reply.ReplyText | server.js:121-132 | First matching case: (1) the first element's `generated_text` when the data is an array whose first element has a truthy one; (2) else its own truthy `generated_text`; (3) else the data itself when it is a string; (4) else a prefix of at most 1000 characters of its serialization. The result is truthy, or it is that prefix. |
| Reply.Prefix | server.js:131 | `slice(0, n)`: a prefix of the string, at most n long, the whole string when it is short enough, and exactly n long otherwise. |
| Registry.Server.Disconnect | server.js:63-71 | In every room, the members with that socket id and the queue entries from that socket are removed. The rest keep their order and the busy flag is kept. Every room is sent both new lists. No room is added or removed, no id's log is added or removed, and the log of an id that is not a room is untouched. The invariant is preserved. |
| Registry.Server.LeaveAll | server.js:64-70 | The loop over all rooms: afterwards every room has been filtered and told, exactly once, whatever order the rooms were visited in. |
| Registry.Server.LeaveRoom | server.js:65-69 | One pass of that loop: only that room changes. It is filtered and sent its member list and queue positions. |
| RoomState.Keep | server.js:66-67 | `filter`: the result holds exactly the elements satisfying the predicate, each as often as in the input, in their original relative order. |
| RoomState.Leave | server.js:66-67 | Exactly the members with another socket id remain, and exactly the queue entries from other sockets, each with as many copies as before (a socket may join a room twice, and a request may be sent twice). Each list is a subsequence of the old one, and the flag is untouched. |
| Registry.LeaveEmits | server.js:68-69 | A disconnect sends each room its member list, then the positions of its queue, position i being i + 1. |
| Registry.LeaveKeepsInvariant | server.js:63-70 | A disconnect keeps each room within capacity and keeps its busy and scheduling facts. |
| Registry.Server.Valid | server.js:31-147 | The invariant. No room is registered under an inherited property name. Every registered room has a log and both counters. It has at most four members. When busy, it has a provider call in flight. When requests are waiting, it is busy or has a reschedule timer pending. |
| RoomState.RunWithinCapacity | server.js:41-48 | After any sequence of joins, requests, drain steps and disconnects, a room that had at most four members still has at most four. |
| RoomState.ServedInArrivalOrder | server.js:58-84 | Without disconnects, the entries handed to the provider, followed by those still waiting, are exactly the initial queue followed by the arrivals, in arrival order. |
| RoomState.ServedInOrder | server.js:58-84 | With disconnects, the entries handed to the provider, followed by those still waiting, are a subsequence of the initial queue followed by the arrivals: removal never reorders. |
| RoomState.StepQueue | server.js:58-83 | A single step other than a disconnect moves queue entries without loss or reordering. A disconnect hands out nothing and only deletes entries. |
| Scenarios.RoomFillsAtFour | server.js:41-48 | Four joins of room "r1" succeed, and each reply lists the members so far in join order. The fifth join is refused with "Room full". |
| Scenarios.SingleRequest | server.js:55-147 | One request answered with `[{generated_text: "hi"}]`. The room sees exactly: the member list, positions [1], positions [], typing on, the AI's "hi", typing off. No reschedule follows. |
| Scenarios.OverlappingDrains | server.js:60-145 | A request arriving between the failed completion of one drain step and its 200 ms reschedule starts a drain at once. The timer then starts another, so two provider calls of the room are in flight. |
| Scenarios.DisconnectDuringRequest | server.js:63-147 | The sender of the request being answered disconnects. Its waiting request is removed, the other user's stays, the answer to the popped request is still posted, and a reschedule follows. |

## Left out

- The HTTP exchange with the provider is left out: `fetch`, the request body, the headers, `resp.ok`, `resp.text()` and `resp.json()` (server.js:87-119). It is foreign I/O, so only its outcome is modelled, as the `Outcome` input of `CompleteAIRequest`. Note that Node's fetch refuses to read a body twice. In practice the `resp.text()` after a failed `resp.json()` therefore throws, and that path ends in the `catch` with the failure text. The model keeps the branch as written, as the `NotJson` outcome.
- The asynchrony is not modelled as real time. Promises and the 200 ms `setTimeout` become the explicit steps `CompleteAIRequest` and `TimerFired`, which the event loop may run in any order, together with the ghost counters `inFlight` and `timers`. Timing (what "200 ms" means) is not modelled.
- `Math.random()` for the guest id is a parameter `guest` below 10000 (server.js:37).
- `JSON.stringify` is an abstract parameter `stringify` (server.js:131). Only the `slice(0, 1000)` bound on its result is stated.
- Express static serving, the `/health` route, dotenv configuration, `process.exit`, console logging and `server.listen` (server.js:2-28, 150-153) are plumbing with no effect on the registry.
- `socket.join` (server.js:46) is not modelled, and neither is the socket.io room each socket joins under its own id. The model does not track which sockets receive a broadcast: the outbox is the log of what was sent to each id. In particular, a socket in several rooms sees the order of broadcasts across those rooms. That order includes the order of the `for ... in` loop of `disconnect`, which is insertion order with integer-like keys first. The model leaves that order open and does not state what such a socket sees.
- Registry.Server.JoinRoom: for an inherited property name the handler throws a TypeError that socket.io does not catch. The server installs no `uncaughtException` handler, so the exception ends the whole Node process, and every room with it. The model stops at "no answer, nothing changed" for the call and does not model the crash. The same holds for `aiMessage` to such an id (server.js:58).
- Reply.Prefix, Reply.ReplyText: the model counts Unicode characters, while JavaScript's `slice` counts UTF-16 code units. For a serialization with characters outside the Basic Multilingual Plane, the source's 1000-unit prefix is shorter than the model's and may split a surrogate pair.
- `public/main.js`, the browser client, is not part of this model.
- JavaScript's non-string room ids are not modelled. An absent or falsy `roomId` is modelled as the empty string. `rooms[undefined]`, which reads the key "undefined", is not modelled.
- `Registry.Server.RelayChat`, `Registry.Server.AiMessage`, `Registry.Server.JoinRoom`: the messages and the usernames clients send are modelled as strings (`Member.username`, `QueueEntry.username`, the chat text and the request text). The source stores, relays or forwards whatever JSON value the client sent.
- `Reply.Json`: JSON numbers are reals, with only their truthiness used. The model does not capture the serialization's exact text, only that it is an abstract function of the value.
- The `console.error` handlers attached to the drain promise (server.js:60, 145) are left out: the model's drain raises no exceptions outside the provider call.
