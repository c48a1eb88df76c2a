/**
 * The state of one chat room, as the server keeps it in its registry: the
 * members in join order, the FIFO of pending AI requests and the busy flag of
 * the queue drain. Every handler of the server changes a room by one of the
 * steps defined here; the lemmas at the end are about arbitrary sequences of
 * those steps.
 */
module RoomState {
  import opened Wrappers

  type SocketId = string

  /** The most members a room admits. */
  const CAPACITY: nat := 4

  datatype Member = Member(id: SocketId, username: string)

  datatype QueueEntry = QueueEntry(socketId: SocketId, message: string, username: string)

  datatype Room = Room(members: seq<Member>, aiQueue: seq<QueueEntry>, aiBusy: bool)

  /** A room as the first join to its id creates it. */
  const NEW_ROOM := Room([], [], false)

  predicate IsFull(room: Room) {
    |room.members| >= CAPACITY
  }

  predicate WithinCapacity(room: Room) {
    |room.members| <= CAPACITY
  }

  // ---------------------------------------------------------------------------
  // Order-preserving removal

  /** `a` is obtained from `b` by deleting elements, keeping the order of the rest. */
  predicate Subseq<T(==)>(a: seq<T>, b: seq<T>)
    decreases |b|
  {
    a == [] || (b != [] && ((a[0] == b[0] && Subseq(a[1..], b[1..])) || Subseq(a, b[1..])))
  }

  /** The elements of `xs` that satisfy `p`, in their order: JavaScript's `Array.prototype.filter`. */
  function Keep<T(==,!new)>(xs: seq<T>, p: T -> bool): (r: seq<T>)
    ensures forall x :: multiset(r)[x] == if p(x) then multiset(xs)[x] else 0
    ensures forall x :: x in r <==> x in xs && p(x)
    ensures Subseq(r, xs)
    ensures |r| <= |xs|
  {
    if xs == [] then []
    else
      var rest := Keep(xs[1..], p);
      assert xs == [xs[0]] + xs[1..];
      if p(xs[0]) then
        assert ([xs[0]] + rest)[1..] == rest;
        [xs[0]] + rest
      else
        rest
  }

  lemma {:induction false} SubseqLength<T>(a: seq<T>, b: seq<T>)
    requires Subseq(a, b)
    ensures |a| <= |b|
  {
    if a != [] {
      if a[0] == b[0] && Subseq(a[1..], b[1..]) {
        SubseqLength(a[1..], b[1..]);
      } else {
        SubseqLength(a, b[1..]);
      }
    }
  }

  lemma {:induction false} SubseqRefl<T>(a: seq<T>)
    ensures Subseq(a, a)
  {
    if a != [] {
      SubseqRefl(a[1..]);
    }
  }

  lemma {:induction false} SubseqTrans<T>(a: seq<T>, b: seq<T>, c: seq<T>)
    requires Subseq(a, b) && Subseq(b, c)
    ensures Subseq(a, c)
    decreases |c|
  {
    if a != [] {
      SubseqLength(a, b);
      SubseqLength(b, c);
      if b[0] == c[0] && Subseq(b[1..], c[1..]) {
        if a[0] == b[0] && Subseq(a[1..], b[1..]) {
          SubseqTrans(a[1..], b[1..], c[1..]);
        } else {
          SubseqTrans(a, b[1..], c[1..]);
        }
      } else {
        SubseqTrans(a, b, c[1..]);
      }
    }
  }

  /** A common tail may be appended to both sides. */
  lemma {:induction false} SubseqAppend<T>(a: seq<T>, b: seq<T>, c: seq<T>)
    requires Subseq(a, b)
    ensures Subseq(a + c, b + c)
    decreases |b|
  {
    if a == [] {
      assert a + c == c;
      SubseqSuffix(b, c);
    } else if a[0] == b[0] && Subseq(a[1..], b[1..]) {
      SubseqAppend(a[1..], b[1..], c);
      assert (a + c)[1..] == a[1..] + c;
      assert (b + c)[1..] == b[1..] + c;
    } else {
      SubseqAppend(a, b[1..], c);
      assert (b + c)[1..] == b[1..] + c;
    }
  }

  lemma {:induction false} SubseqSuffix<T>(b: seq<T>, c: seq<T>)
    ensures Subseq(c, b + c)
    decreases |b|
  {
    if b == [] {
      assert b + c == c;
      SubseqRefl(c);
    } else {
      SubseqSuffix(b[1..], c);
      assert (b + c)[1..] == b[1..] + c;
    }
  }

  // ---------------------------------------------------------------------------
  // Queue positions

  /** The list `[1, 2, ..., |q|]` broadcast as `aiQueueUpdate`: each entry's position in the queue. */
  function Positions<T>(q: seq<T>): (r: seq<int>)
    ensures |r| == |q|
    ensures forall i :: 0 <= i < |q| ==> r[i] == i + 1
  {
    if q == [] then [] else Positions(q[..|q| - 1]) + [|q|]
  }

  // ---------------------------------------------------------------------------
  // The steps a handler applies to one room

  /** A join: rejected without change when the room is full, otherwise the member goes at the end. */
  function Join(room: Room, m: Member): (r: Room)
    ensures IsFull(room) ==> r == room
    ensures !IsFull(room) ==> |r.members| == |room.members| + 1 && r.members[..|room.members|] == room.members
                              && r.members[|room.members|] == m
    ensures r.aiQueue == room.aiQueue && r.aiBusy == room.aiBusy
    ensures WithinCapacity(room) ==> WithinCapacity(r)
  {
    if IsFull(room) then room else room.(members := room.members + [m])
  }

  /** An AI request goes at the tail of the queue. */
  function Enqueue(room: Room, e: QueueEntry): (r: Room)
    ensures |r.aiQueue| == |room.aiQueue| + 1 && r.aiQueue[..|room.aiQueue|] == room.aiQueue
    ensures r.aiQueue[|room.aiQueue|] == e
    ensures r.members == room.members && r.aiBusy == room.aiBusy
  {
    room.(aiQueue := room.aiQueue + [e])
  }

  /**
   * The synchronous start of a drain step: on an empty queue it only clears the
   * busy flag; otherwise it sets the flag and pops the head, which it returns.
   */
  function Drain(room: Room): (r: (Room, Option<QueueEntry>))
    ensures r.1.Some? <==> room.aiQueue != []
    ensures r.0.aiBusy <==> room.aiQueue != []
    ensures r.1.None? ==> r.0.aiQueue == room.aiQueue
    ensures r.1.Some? ==> [r.1.value] + r.0.aiQueue == room.aiQueue
    ensures r.0.members == room.members
  {
    if room.aiQueue == [] then (room.(aiBusy := false), None)
    else (room.(aiBusy := true, aiQueue := room.aiQueue[1..]), Some(room.aiQueue[0]))
  }

  /** The end of a drain step, whatever the provider answered: the busy flag clears. */
  function Finish(room: Room): (r: Room)
    ensures !r.aiBusy && r.members == room.members && r.aiQueue == room.aiQueue
  {
    room.(aiBusy := false)
  }

  /** A disconnect of socket `s`: its members and its pending requests go, nothing else moves. */
  function Leave(room: Room, s: SocketId): (r: Room)
    ensures forall m :: m in r.members <==> m in room.members && m.id != s
    ensures forall e :: e in r.aiQueue <==> e in room.aiQueue && e.socketId != s
    ensures forall m :: multiset(r.members)[m] == if m.id != s then multiset(room.members)[m] else 0
    ensures forall e :: multiset(r.aiQueue)[e] == if e.socketId != s then multiset(room.aiQueue)[e] else 0
    ensures Subseq(r.members, room.members) && Subseq(r.aiQueue, room.aiQueue)
    ensures r.aiBusy == room.aiBusy
  {
    Room(Keep(room.members, (m: Member) => m.id != s),
         Keep(room.aiQueue, (e: QueueEntry) => e.socketId != s),
         room.aiBusy)
  }

  // ---------------------------------------------------------------------------
  // Sequences of steps

  datatype RoomOp =
    | JoinOp(member: Member)
    | EnqueueOp(entry: QueueEntry)
    | DrainOp
    | FinishOp
    | LeaveOp(socket: SocketId)

  function Step(room: Room, op: RoomOp): Room {
    match op
    case JoinOp(m) => Join(room, m)
    case EnqueueOp(e) => Enqueue(room, e)
    case DrainOp => Drain(room).0
    case FinishOp => Finish(room)
    case LeaveOp(s) => Leave(room, s)
  }

  /** The entry a step hands to the provider, if any. */
  function Served(room: Room, op: RoomOp): seq<QueueEntry> {
    if op.DrainOp? && room.aiQueue != [] then [room.aiQueue[0]] else []
  }

  function Run(room: Room, ops: seq<RoomOp>): Room
    decreases |ops|
  {
    if ops == [] then room else Run(Step(room, ops[0]), ops[1..])
  }

  /** The entries handed to the provider over `ops`, in the order they were popped. */
  function ServedBy(room: Room, ops: seq<RoomOp>): seq<QueueEntry>
    decreases |ops|
  {
    if ops == [] then [] else Served(room, ops[0]) + ServedBy(Step(room, ops[0]), ops[1..])
  }

  /** The entry an operation adds to the queue, if any. */
  function Arrival(op: RoomOp): seq<QueueEntry> {
    if op.EnqueueOp? then [op.entry] else []
  }

  /** The entries enqueued over `ops`, in arrival order. */
  function Arrivals(ops: seq<RoomOp>): seq<QueueEntry>
    decreases |ops|
  {
    if ops == [] then [] else Arrival(ops[0]) + Arrivals(ops[1..])
  }

  predicate NoLeave(ops: seq<RoomOp>) {
    forall i :: 0 <= i < |ops| ==> !ops[i].LeaveOp?
  }

  /** One step of the queue: every step but a disconnect moves entries without loss or reordering. */
  lemma StepQueue(room: Room, op: RoomOp)
    ensures !op.LeaveOp? ==> Served(room, op) + Step(room, op).aiQueue == room.aiQueue + Arrival(op)
    ensures op.LeaveOp? ==> Served(room, op) == [] && Subseq(Step(room, op).aiQueue, room.aiQueue)
  {
  }

  /** No sequence of joins, requests, drain steps and disconnects takes a room past four members. */
  lemma {:induction false} RunWithinCapacity(room: Room, ops: seq<RoomOp>)
    requires WithinCapacity(room)
    ensures WithinCapacity(Run(room, ops))
    decreases |ops|
  {
    if ops != [] {
      var next := Step(room, ops[0]);
      assert WithinCapacity(next);
      RunWithinCapacity(next, ops[1..]);
    }
  }

  /**
   * Without disconnects the queue is a FIFO: what has been handed to the provider,
   * followed by what still waits, is exactly the initial queue followed by the
   * arrivals, in arrival order.
   */
  lemma {:induction false} ServedInArrivalOrder(room: Room, ops: seq<RoomOp>)
    requires NoLeave(ops)
    ensures ServedBy(room, ops) + Run(room, ops).aiQueue == room.aiQueue + Arrivals(ops)
    decreases |ops|
  {
    if ops != [] {
      var op, rest := ops[0], ops[1..];
      var next := Step(room, op);
      NoLeaveTail(ops);
      ServedInArrivalOrder(next, rest);
      StepQueue(room, op);
      UnfoldRun(room, ops);
      Regroup(Served(room, op), ServedBy(next, rest), Run(next, rest).aiQueue, next.aiQueue,
              room.aiQueue, Arrival(op), Arrivals(rest));
    }
  }

  /** The inductive step of ServedInArrivalOrder, on plain sequences. */
  lemma Regroup<T>(s: seq<T>, a: seq<T>, w: seq<T>, n: seq<T>, q: seq<T>, x: seq<T>, later: seq<T>)
    requires a + w == n + later
    requires s + n == q + x
    ensures (s + a) + w == q + (x + later)
  {
    calc {
      (s + a) + w;
      { Associative(s, a, w); }
      s + (n + later);
      { Associative(s, n, later); }
      (q + x) + later;
      { Associative(q, x, later); }
      q + (x + later);
    }
  }

  /**
   * With disconnects, entries may vanish but are never reordered: what has been
   * served followed by what waits is a subsequence of the initial queue followed
   * by the arrivals.
   */
  lemma {:induction false} ServedInOrder(room: Room, ops: seq<RoomOp>)
    ensures Subseq(ServedBy(room, ops) + Run(room, ops).aiQueue, room.aiQueue + Arrivals(ops))
    decreases |ops|
  {
    if ops == [] {
      SubseqRefl(room.aiQueue);
      assert room.aiQueue + Arrivals(ops) == room.aiQueue;
      assert ServedBy(room, ops) + Run(room, ops).aiQueue == room.aiQueue;
    } else {
      var op, rest := ops[0], ops[1..];
      var next := Step(room, op);
      ServedInOrder(next, rest);
      UnfoldRun(room, ops);
      StepInOrder(room, op, ServedBy(next, rest) + Run(next, rest).aiQueue, Arrivals(rest));
      Associative(Served(room, op), ServedBy(next, rest), Run(next, rest).aiQueue);
      Associative(room.aiQueue, Arrival(op), Arrivals(rest));
    }
  }

  /** One step of each of Run, ServedBy and Arrivals. */
  lemma UnfoldRun(room: Room, ops: seq<RoomOp>)
    requires ops != []
    ensures Run(room, ops) == Run(Step(room, ops[0]), ops[1..])
    ensures ServedBy(room, ops) == Served(room, ops[0]) + ServedBy(Step(room, ops[0]), ops[1..])
    ensures Arrivals(ops) == Arrival(ops[0]) + Arrivals(ops[1..])
  {
  }

  lemma NoLeaveTail(ops: seq<RoomOp>)
    requires ops != [] && NoLeave(ops)
    ensures !ops[0].LeaveOp? && NoLeave(ops[1..])
  {
  }

  lemma Associative<T>(a: seq<T>, b: seq<T>, c: seq<T>)
    ensures (a + b) + c == a + (b + c)
  {
  }

  /** The inductive step of ServedInOrder: one more step in front keeps the order. */
  lemma StepInOrder(room: Room, op: RoomOp, done: seq<QueueEntry>, later: seq<QueueEntry>)
    requires Subseq(done, Step(room, op).aiQueue + later)
    ensures Subseq(Served(room, op) + done, (room.aiQueue + Arrival(op)) + later)
  {
    StepQueue(room, op);
    if op.LeaveOp? {
      DeletedInOrder(Served(room, op), done, Step(room, op).aiQueue, room.aiQueue, Arrival(op), later);
    } else {
      MovedInOrder(Served(room, op), done, Step(room, op).aiQueue, room.aiQueue, Arrival(op), later);
    }
  }

  /** StepInOrder for a step that hands out `s` and turns queue `q` plus arrivals `x` into `n`. */
  lemma MovedInOrder<T>(s: seq<T>, done: seq<T>, n: seq<T>, q: seq<T>, x: seq<T>, later: seq<T>)
    requires Subseq(done, n + later)
    requires s + n == q + x
    ensures Subseq(s + done, (q + x) + later)
  {
    Associative(s, n, later);
    SubseqPrefix(s, done, n + later);
  }

  /** StepInOrder for a step that only deletes entries from queue `q`, leaving `n`. */
  lemma DeletedInOrder<T>(s: seq<T>, done: seq<T>, n: seq<T>, q: seq<T>, x: seq<T>, later: seq<T>)
    requires Subseq(done, n + later)
    requires s == [] && x == [] && Subseq(n, q)
    ensures Subseq(s + done, (q + x) + later)
  {
    SubseqAppend(n, q, later);
    SubseqTrans(done, n + later, q + later);
    assert s + done == done && q + x == q;
  }

  /** A common head may be prepended to both sides. */
  lemma {:induction false} SubseqPrefix<T>(h: seq<T>, a: seq<T>, b: seq<T>)
    requires Subseq(a, b)
    ensures Subseq(h + a, h + b)
    decreases |h|
  {
    if h != [] {
      SubseqPrefix(h[1..], a, b);
      assert (h + a)[1..] == h[1..] + a;
      assert (h + b)[1..] == h[1..] + b;
    } else {
      assert h + a == a && h + b == b;
    }
  }
}
