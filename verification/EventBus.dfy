/** The event bus: events live in a fixed pool of blocks and travel through a bounded queue.

Any number of threads publish; one thread dispatches; any thread may stop and join it, or drain
the queue, also beside it. Taking a block from the pool, giving one back, entering and leaving
the queue, reading the shutdown latch and joining are the atomic steps. What the dispatcher does
inside a callback - publish, stop, drain - is done here by a thread of another number. */
module EventBus {
  import opened Wrappers

  type Thread = nat
  type Block = nat

  /** Every published event has a number of its own. */
  type Event = nat

  /** Where a thread is, and the block it has in hand. */
  datatype Pc =
    | Idle
    | Admitted                     // publisher: found the latch clear
    | Publishing(block: Block)     // publisher: about to enqueue
    | Joining                      // stopAndJoin: cleared the running flag, about to join
    | Draining                     // drain: about to look into the queue
    | Taken(block: Block, dispatching: bool)   // consumer: dequeued, not yet delivered
    | Releasing(block: Block, draining: bool)  // about to give the block back, and drain on

  datatype Dequeued = Dequeued(event: Event, dispatching: bool)

  /** Who was last handed a block. */
  datatype Holder = Nobody | Queue | With(t: Thread)

  datatype State = State(
    pool: seq<Option<Event>>, queue: seq<Block>, capacity: nat, latch: bool,
    threads: map<Thread, Pc>, dispatcher: Thread,
    running: bool, alive: bool,    // the bus's flag, and whether its thread has not left its loop
    next: Event,
    accepted: seq<Event>,          // history: events that entered the queue,
    dequeued: seq<Dequeued>,       // that left it and by whom,
    dispatched: seq<Event>,        // and that were delivered;
    holder: seq<Holder>)           // and the holder of every block

  datatype Step =
    | Admit(t: Thread)
    | Allocate(t: Thread, b: Block)
    | Exhausted(t: Thread)         // no free block: the event is dropped
    | Enqueue(t: Thread)           // or, if the queue is full, give the block back
    | StartDispatch                // the flag is raised, then the thread begins
    | LeaveLoop(requested: bool)   // the flag is down, or the lifecycle asks for shutdown
    | BeginStop(t: Thread)
    | Join(t: Thread)              // the thread has ended; now drain
    | JoinRefused(t: Thread)       // there was no thread to join, or it is the caller's own
    | BeginDrain(t: Thread)
    | DrainDone(t: Thread)         // found the queue empty
    | Dequeue(t: Thread)           // the dispatcher to dispatch, others to drain
    | Deliver(t: Thread)
    | Release(t: Thread)
    | SetLatch(on: bool)

  ghost predicate Init(s: State) {
    && |s.holder| == |s.pool|
    && (forall b :: 0 <= b < |s.pool| ==> s.pool[b] == None && s.holder[b] == Nobody)
    && s.queue == [] && s.accepted == [] && s.dequeued == [] && s.dispatched == []
    && !s.running && !s.alive
    && (forall t :: t in s.threads ==> s.threads[t] == Idle)
  }

  predicate Allocated(s: State, b: Block) {
    b < |s.pool| && s.pool[b].Some?
  }

  predicate At(s: State, t: Thread, pc: Pc) {
    t in s.threads && s.threads[t] == pc
  }

  function Go(s: State, t: Thread, pc: Pc): State {
    s.(threads := s.threads[t := pc])
  }

  function Hand(s: State, b: Block, h: Holder): State {
    if b < |s.holder| then s.(holder := s.holder[b := h]) else s
  }

  /** The event in a block. */
  function EventIn(s: State, b: Block): Event {
    if Allocated(s, b) then s.pool[b].value else 0
  }

  ghost predicate AllocateStep(s: State, t: Thread, b: Block, s': State) {
    && At(s, t, Admitted) && b < |s.pool| && s.pool[b] == None
    && s' == Hand(Go(s, t, Publishing(b)), b, With(t)).(pool := s.pool[b := Some(s.next)], next := s.next + 1)
  }

  predicate IsPublishing(s: State, t: Thread, b: Block) {
    t in s.threads && s.threads[t] == Publishing(b)
  }

  ghost predicate AcceptStep(s: State, t: Thread, b: Block, s': State) {
    && IsPublishing(s, t, b) && |s.queue| < s.capacity
    && s' == Hand(Go(s, t, Idle), b, Queue).(queue := s.queue + [b], accepted := s.accepted + [EventIn(s, b)])
  }

  ghost predicate RefuseStep(s: State, t: Thread, b: Block, s': State) {
    IsPublishing(s, t, b) && |s.queue| >= s.capacity && s' == Go(s, t, Releasing(b, false))
  }

  ghost predicate DequeueStep(s: State, t: Thread, s': State) {
    && (if t == s.dispatcher then At(s, t, Idle) && s.alive else At(s, t, Draining)) && s.queue != []
    && var b := s.queue[0];
       s' == Hand(Go(s, t, Taken(b, t == s.dispatcher)), b, With(t)).(queue := s.queue[1..],
               dequeued := s.dequeued + [Dequeued(EventIn(s, b), t == s.dispatcher)])
  }

  ghost predicate DeliverStep(s: State, t: Thread, b: Block, dispatching: bool, s': State) {
    && At(s, t, Taken(b, dispatching))
    && s' == Go(s, t, Releasing(b, !dispatching)).(
               dispatched := if dispatching then s.dispatched + [EventIn(s, b)] else s.dispatched)
  }

  ghost predicate ReleaseStep(s: State, t: Thread, b: Block, draining: bool, s': State) {
    && At(s, t, Releasing(b, draining)) && b < |s.pool|
    && s' == Hand(Go(s, t, if draining then Draining else Idle), b, Nobody).(pool := s.pool[b := None])
  }

  /** The steps that touch neither a block nor the queue. */
  ghost predicate PlainStep(s: State, step: Step, s': State) {
    match step
    case Admit(t) => At(s, t, Idle) && t != s.dispatcher && !s.latch && s' == Go(s, t, Admitted)
    case Exhausted(t) =>
      At(s, t, Admitted) && (forall b :: 0 <= b < |s.pool| ==> s.pool[b].Some?) && s' == Go(s, t, Idle)
    case StartDispatch => !s.alive && s' == s.(running := true, alive := true)
    case LeaveLoop(requested) =>
      && s.alive && At(s, s.dispatcher, Idle) && (!s.running || s.latch || requested) && s' == s.(alive := false)
    case BeginStop(t) => At(s, t, Idle) && t != s.dispatcher && s' == Go(s, t, Joining).(running := false)
    case Join(t) => At(s, t, Joining) && !s.alive && s' == Go(s, t, Draining)
    case JoinRefused(t) => At(s, t, Joining) && s' == Go(s, t, Idle)
    case BeginDrain(t) => At(s, t, Idle) && t != s.dispatcher && s' == Go(s, t, Draining)
    case DrainDone(t) => At(s, t, Draining) && s.queue == [] && s' == Go(s, t, Idle)
    case SetLatch(on) => s' == s.(latch := on)
    case _ => false
  }

  ghost predicate Next(s: State, step: Step, s': State) {
    match step
    case Allocate(t, b) => AllocateStep(s, t, b, s')
    case Enqueue(t) =>
      && t in s.threads && s.threads[t].Publishing?
      && (AcceptStep(s, t, s.threads[t].block, s') || RefuseStep(s, t, s.threads[t].block, s'))
    case Dequeue(t) => DequeueStep(s, t, s')
    case Deliver(t) =>
      && t in s.threads && s.threads[t].Taken?
      && DeliverStep(s, t, s.threads[t].block, s.threads[t].dispatching, s')
    case Release(t) =>
      && t in s.threads && s.threads[t].Releasing?
      && ReleaseStep(s, t, s.threads[t].block, s.threads[t].draining, s')
    case _ => PlainStep(s, step, s')
  }

  // --------------------------------------------------------------------- invariant

  predicate HasBlock(pc: Pc) {
    pc.Publishing? || pc.Taken? || pc.Releasing?
  }

  predicate InHand(s: State, t: Thread, b: Block) {
    t in s.threads && HasBlock(s.threads[t]) && s.threads[t].block == b
  }

  /** Every allocated block has exactly one holder - a thread that has it in hand, or the queue,
      where it stands once - and a free block has none. */
  ghost predicate OneHolder(s: State) {
    && |s.holder| == |s.pool|
    && (forall b: Block :: b < |s.pool| ==> HolderOk(s, b))
    && (forall i :: 0 <= i < |s.queue| ==> s.queue[i] < |s.pool| && s.holder[s.queue[i]] == Queue)
    && (forall i, j :: 0 <= i < j < |s.queue| ==> s.queue[i] != s.queue[j])
    && (forall t :: t in s.threads && HasBlock(s.threads[t]) ==>
          s.threads[t].block < |s.pool| && s.holder[s.threads[t].block] == With(t))
  }

  ghost predicate HolderOk(s: State, b: Block)
    requires b < |s.pool| == |s.holder|
  {
    match s.holder[b]
    case Nobody => s.pool[b] == None
    case Queue => s.pool[b].Some? && b in s.queue
    case With(t) => s.pool[b].Some? && InHand(s, t, b)
  }

  function Events(s: State, blocks: seq<Block>): (es: seq<Event>)
    ensures |es| == |blocks|
  {
    seq(|blocks|, i requires 0 <= i < |blocks| => EventIn(s, blocks[i]))
  }

  function AllDequeued(ds: seq<Dequeued>): (es: seq<Event>)
    ensures |es| == |ds|
  {
    seq(|ds|, i requires 0 <= i < |ds| => ds[i].event)
  }

  function ForDispatch(ds: seq<Dequeued>): seq<Event> {
    if ds == [] then []
    else ForDispatch(ds[..|ds| - 1]) + if ds[|ds| - 1].dispatching then [ds[|ds| - 1].event] else []
  }

  /** The event the dispatcher has taken but not delivered. */
  function Undelivered(s: State): seq<Event> {
    if s.dispatcher in s.threads && s.threads[s.dispatcher].Taken? && s.threads[s.dispatcher].dispatching
    then [EventIn(s, s.threads[s.dispatcher].block)] else []
  }

  /** Accepted events have left the queue or stand in it, in order. */
  ghost predicate QueueAccounted(s: State) {
    s.accepted == AllDequeued(s.dequeued) + Events(s, s.queue)
  }

  ghost predicate DeliveryAccounted(s: State) {
    ForDispatch(s.dequeued) == s.dispatched + Undelivered(s)
  }

  ghost predicate HistoryOk(s: State) {
    && QueueAccounted(s) && DeliveryAccounted(s)
    && (forall t :: t in s.threads && s.threads[t].Taken? ==> (s.threads[t].dispatching <==> t == s.dispatcher))
  }

  /** Events are numbered apart, in the order of their allocation. */
  ghost predicate NumbersOk(s: State) {
    && (forall b: Block :: Allocated(s, b) ==> s.pool[b].value < s.next)
    && (forall a: Block, b: Block :: Allocated(s, a) && Allocated(s, b) && s.pool[a] == s.pool[b] ==> a == b)
    && (forall i :: 0 <= i < |s.accepted| ==> s.accepted[i] < s.next)
    && (forall i, j :: 0 <= i < j < |s.accepted| ==> s.accepted[i] != s.accepted[j])
    && (forall t, i :: t in s.threads && s.threads[t].Publishing? && 0 <= i < |s.accepted| ==>
          s.accepted[i] != EventIn(s, s.threads[t].block))
  }

  ghost predicate Inv(s: State) {
    OneHolder(s) && HistoryOk(s) && NumbersOk(s)
  }

  // ---------------------------------------------------- the invariant is inductive

  predicate WithBlock(s: State, t: Thread) {
    t in s.threads && HasBlock(s.threads[t])
  }

  /** Only threads without a block moved, to where they have none. */
  ghost predicate OnlyMoves(s: State, s': State) {
    && s'.pool == s.pool && s'.queue == s.queue && s'.holder == s.holder && s'.next == s.next
    && s'.accepted == s.accepted && s'.dequeued == s.dequeued && s'.dispatched == s.dispatched
    && s'.dispatcher == s.dispatcher
    && forall t :: (WithBlock(s, t) <==> WithBlock(s', t)) && (WithBlock(s, t) ==> s.threads[t] == s'.threads[t])
  }

  lemma PlainOnlyMoves(s: State, step: Step, s': State)
    requires PlainStep(s, step, s')
    ensures OnlyMoves(s, s')
  {
  }

  lemma MovesKeepHolder(s: State, s': State)
    requires OneHolder(s) && OnlyMoves(s, s')
    ensures OneHolder(s')
  {
    forall b: Block | b < |s'.pool| ensures HolderOk(s', b) {
      assert HolderOk(s, b);
      if s.holder[b].With? {
        assert WithBlock(s, s.holder[b].t);
      }
    }
    forall t | t in s'.threads && HasBlock(s'.threads[t])
      ensures s'.threads[t].block < |s'.pool| && s'.holder[s'.threads[t].block] == With(t)
    {
      assert WithBlock(s', t);
    }
  }

  lemma MovesKeepHistory(s: State, s': State)
    requires HistoryOk(s) && OnlyMoves(s, s')
    ensures HistoryOk(s')
  {
    assert Events(s', s'.queue) == Events(s, s.queue);
    assert WithBlock(s, s.dispatcher) <==> WithBlock(s', s.dispatcher);
    assert Undelivered(s') == Undelivered(s);
    forall t | t in s'.threads && s'.threads[t].Taken? ensures s'.threads[t].dispatching <==> t == s'.dispatcher {
      assert WithBlock(s', t);
    }
  }

  lemma MovesKeepNumbers(s: State, s': State)
    requires NumbersOk(s) && OnlyMoves(s, s')
    ensures NumbersOk(s')
  {
    forall t, i | t in s'.threads && s'.threads[t].Publishing? && 0 <= i < |s'.accepted|
      ensures s'.accepted[i] != EventIn(s', s'.threads[t].block)
    {
      assert WithBlock(s', t);
    }
  }

  /** One block goes from one holder to another; what else changes is the thread's place. */
  lemma AllocateKeepsHolder(s: State, t: Thread, b: Block, s': State)
    requires OneHolder(s) && AllocateStep(s, t, b, s')
    ensures OneHolder(s')
  {
    assert HolderOk(s, b);
    forall other: Block | other < |s'.pool| ensures HolderOk(s', other) {
      assert HolderOk(s, other);
    }
  }

  lemma AcceptKeepsHolder(s: State, t: Thread, b: Block, s': State)
    requires OneHolder(s) && AcceptStep(s, t, b, s')
    ensures OneHolder(s')
  {
    assert s'.queue == s.queue + [b] && s'.holder == s.holder[b := Queue];
    forall other: Block | other < |s'.pool| ensures HolderOk(s', other) {
      assert HolderOk(s, other) && HolderOk(s, b);
      assert s'.queue[|s.queue|] == b;
    }
  }

  lemma RefuseKeepsHolder(s: State, t: Thread, b: Block, s': State)
    requires OneHolder(s) && RefuseStep(s, t, b, s')
    ensures OneHolder(s')
  {
    forall other: Block | other < |s'.pool| ensures HolderOk(s', other) {
      assert HolderOk(s, other);
    }
  }

  lemma DequeueKeepsHolder(s: State, t: Thread, s': State)
    requires OneHolder(s) && DequeueStep(s, t, s')
    ensures OneHolder(s')
  {
    assert s.queue == [s.queue[0]] + s'.queue;
    forall other: Block | other < |s'.pool| ensures HolderOk(s', other) {
      assert HolderOk(s, other);
    }
  }

  lemma DeliverKeepsHolder(s: State, t: Thread, b: Block, dispatching: bool, s': State)
    requires OneHolder(s) && DeliverStep(s, t, b, dispatching, s')
    ensures OneHolder(s')
  {
    forall other: Block | other < |s'.pool| ensures HolderOk(s', other) {
      assert HolderOk(s, other);
    }
  }

  lemma ReleaseKeepsHolder(s: State, t: Thread, b: Block, draining: bool, s': State)
    requires OneHolder(s) && ReleaseStep(s, t, b, draining, s')
    ensures OneHolder(s')
  {
    forall other: Block | other < |s'.pool| ensures HolderOk(s', other) {
      assert HolderOk(s, other);
    }
  }

  lemma EnqueueKeepsOneHolder(s: State, t: Thread, b: Block, s': State)
    requires OneHolder(s) && (AcceptStep(s, t, b, s') || RefuseStep(s, t, b, s'))
    ensures OneHolder(s')
  {
    if AcceptStep(s, t, b, s') {
      AcceptKeepsHolder(s, t, b, s');
    } else {
      RefuseKeepsHolder(s, t, b, s');
    }
  }

  lemma NextKeepsOneHolder(s: State, step: Step, s': State)
    requires OneHolder(s) && Next(s, step, s')
    ensures OneHolder(s')
  {
    match step
    case Allocate(t, b) => AllocateKeepsHolder(s, t, b, s');
    case Enqueue(t) => EnqueueKeepsOneHolder(s, t, s.threads[t].block, s');
    case Dequeue(t) => DequeueKeepsHolder(s, t, s');
    case Deliver(t) => DeliverKeepsHolder(s, t, s.threads[t].block, s.threads[t].dispatching, s');
    case Release(t) => ReleaseKeepsHolder(s, t, s.threads[t].block, s.threads[t].draining, s');
    case _ =>
      PlainOnlyMoves(s, step, s');
      MovesKeepHolder(s, s');
  }

  /** A block in hand is allocated, and so is every block in the queue. */
  lemma HeldIsAllocated(s: State, b: Block)
    requires OneHolder(s)
    ensures (forall t :: InHand(s, t, b) ==> Allocated(s, b)) && (b in s.queue ==> Allocated(s, b))
  {
    if b < |s.pool| {
      assert HolderOk(s, b);
    }
  }

  lemma AcceptKeepsNumbers(s: State, t: Thread, b: Block, s': State)
    requires OneHolder(s) && NumbersOk(s) && AcceptStep(s, t, b, s')
    ensures NumbersOk(s')
  {
    HeldIsAllocated(s, b);
    assert InHand(s, t, b);
    forall u, i | u in s'.threads && s'.threads[u].Publishing? && 0 <= i < |s'.accepted|
      ensures s'.accepted[i] != EventIn(s', s'.threads[u].block)
    {
      HeldIsAllocated(s, s.threads[u].block);
      assert InHand(s, u, s.threads[u].block);
    }
  }

  /** Pool and history are as before, and nobody has come to publish. */
  ghost predicate NumbersFramed(s: State, s': State) {
    && s'.pool == s.pool && s'.accepted == s.accepted && s'.next == s.next
    && forall t :: t in s'.threads && s'.threads[t].Publishing? ==> t in s.threads && s.threads[t] == s'.threads[t]
  }

  lemma FramedKeepsNumbers(s: State, s': State)
    requires NumbersOk(s) && NumbersFramed(s, s')
    ensures NumbersOk(s')
  {
    forall t, i | t in s'.threads && s'.threads[t].Publishing? && 0 <= i < |s'.accepted|
      ensures s'.accepted[i] != EventIn(s', s'.threads[t].block)
    {
      assert t in s.threads && s.threads[t].Publishing?;
    }
  }

  lemma EnqueueKeepsNumbers(s: State, t: Thread, b: Block, s': State)
    requires OneHolder(s) && NumbersOk(s) && (AcceptStep(s, t, b, s') || RefuseStep(s, t, b, s'))
    ensures NumbersOk(s')
  {
    if AcceptStep(s, t, b, s') {
      AcceptKeepsNumbers(s, t, b, s');
    } else {
      assert NumbersFramed(s, s');
      FramedKeepsNumbers(s, s');
    }
  }

  lemma TakingFramesNumbers(s: State, t: Thread, s': State)
    requires DequeueStep(s, t, s') || (exists b, d :: DeliverStep(s, t, b, d, s'))
    ensures NumbersFramed(s, s')
  {
  }

  lemma ReleaseKeepsNumbers(s: State, t: Thread, b: Block, draining: bool, s': State)
    requires OneHolder(s) && NumbersOk(s) && ReleaseStep(s, t, b, draining, s')
    ensures NumbersOk(s')
  {
    forall u | u in s'.threads && s'.threads[u].Publishing?
      ensures u in s.threads && s.threads[u] == s'.threads[u] && s.threads[u].block != b
    {
    }
  }

  lemma AllocateKeepsNumbers(s: State, t: Thread, b: Block, s': State)
    requires OneHolder(s) && NumbersOk(s) && AllocateStep(s, t, b, s')
    ensures NumbersOk(s')
  {
    assert HolderOk(s, b);
  }

  lemma NextKeepsNumbers(s: State, step: Step, s': State)
    requires OneHolder(s) && NumbersOk(s) && Next(s, step, s')
    ensures NumbersOk(s')
  {
    match step
    case Allocate(t, b) => AllocateKeepsNumbers(s, t, b, s');
    case Enqueue(t) => EnqueueKeepsNumbers(s, t, s.threads[t].block, s');
    case Dequeue(t) =>
      TakingFramesNumbers(s, t, s');
      FramedKeepsNumbers(s, s');
    case Deliver(t) =>
      TakingFramesNumbers(s, t, s');
      FramedKeepsNumbers(s, s');
    case Release(t) => ReleaseKeepsNumbers(s, t, s.threads[t].block, s.threads[t].draining, s');
    case _ =>
      PlainOnlyMoves(s, step, s');
      MovesKeepNumbers(s, s');
  }

  /** Giving out a free block, or taking one back from a thread, leaves the queued events alone. */
  lemma QueueEventsKept(s: State, b: Block, v: Option<Event>, s': State)
    requires OneHolder(s) && b < |s.pool| && s.holder[b] != Queue
    requires s'.pool == s.pool[b := v] && s'.queue == s.queue
    ensures Events(s', s'.queue) == Events(s, s.queue)
  {
  }

  /** The dispatcher's place and the block it has in hand are as before. */
  ghost predicate SameDelivery(s: State, s': State) {
    && s'.dispatcher == s.dispatcher && s'.dequeued == s.dequeued && s'.dispatched == s.dispatched
    && Undelivered(s') == Undelivered(s)
    && forall t :: t in s'.threads && s'.threads[t].Taken? ==> t in s.threads && s.threads[t] == s'.threads[t]
  }

  lemma SameDeliveryKeepsHistory(s: State, s': State)
    requires HistoryOk(s) && SameDelivery(s, s') && QueueAccounted(s')
    ensures HistoryOk(s')
  {
    forall t | t in s'.threads && s'.threads[t].Taken? ensures s'.threads[t].dispatching <==> t == s'.dispatcher {
      assert t in s.threads && s.threads[t].Taken?;
    }
  }

  lemma AllocateKeepsHistory(s: State, t: Thread, b: Block, s': State)
    requires OneHolder(s) && HistoryOk(s) && AllocateStep(s, t, b, s')
    ensures HistoryOk(s')
  {
    assert HolderOk(s, b);
    QueueEventsKept(s, b, Some(s.next), s');
    assert SameDelivery(s, s');
    SameDeliveryKeepsHistory(s, s');
  }

  lemma ReleaseKeepsHistory(s: State, t: Thread, b: Block, draining: bool, s': State)
    requires OneHolder(s) && HistoryOk(s) && ReleaseStep(s, t, b, draining, s')
    ensures HistoryOk(s')
  {
    QueueEventsKept(s, b, None, s');
    assert SameDelivery(s, s');
    SameDeliveryKeepsHistory(s, s');
  }

  lemma EventsSnoc(s: State, s': State, b: Block)
    requires s'.pool == s.pool
    ensures Events(s', s.queue + [b]) == Events(s, s.queue) + [EventIn(s, b)]
  {
  }

  lemma AcceptKeepsHistory(s: State, t: Thread, b: Block, s': State)
    requires HistoryOk(s) && AcceptStep(s, t, b, s')
    ensures HistoryOk(s')
  {
    EventsSnoc(s, s', b);
    assert SameDelivery(s, s');
    SameDeliveryKeepsHistory(s, s');
  }

  lemma RefuseKeepsHistory(s: State, t: Thread, b: Block, s': State)
    requires HistoryOk(s) && RefuseStep(s, t, b, s')
    ensures HistoryOk(s')
  {
    assert Events(s', s'.queue) == Events(s, s.queue);
    assert SameDelivery(s, s');
    SameDeliveryKeepsHistory(s, s');
  }

  lemma EnqueueKeepsHistory(s: State, t: Thread, b: Block, s': State)
    requires HistoryOk(s) && (AcceptStep(s, t, b, s') || RefuseStep(s, t, b, s'))
    ensures HistoryOk(s')
  {
    if AcceptStep(s, t, b, s') {
      AcceptKeepsHistory(s, t, b, s');
    } else {
      RefuseKeepsHistory(s, t, b, s');
    }
  }

  lemma ForDispatchSnoc(ds: seq<Dequeued>, d: Dequeued)
    ensures ForDispatch(ds + [d]) == ForDispatch(ds) + (if d.dispatching then [d.event] else [])
  {
    assert (ds + [d])[..|ds|] == ds;
  }

  lemma EventsFront(s: State, s': State)
    requires s'.pool == s.pool && s.queue != []
    ensures Events(s, s.queue) == [EventIn(s, s.queue[0])] + Events(s', s.queue[1..])
  {
  }

  lemma AllDequeuedSnoc(ds: seq<Dequeued>, d: Dequeued)
    ensures AllDequeued(ds + [d]) == AllDequeued(ds) + [d.event]
  {
  }

  lemma ConcatAssociates<T>(a: seq<T>, b: seq<T>, c: seq<T>)
    ensures a + (b + c) == a + b + c
  {
  }

  /** The front of the queue becomes the last event dequeued. */
  lemma FrontLeaves(s: State, t: Thread, s': State)
    requires QueueAccounted(s) && DequeueStep(s, t, s')
    ensures QueueAccounted(s')
  {
    var d := Dequeued(EventIn(s, s.queue[0]), t == s.dispatcher);
    EventsFront(s, s');
    AllDequeuedSnoc(s.dequeued, d);
    ConcatAssociates(AllDequeued(s.dequeued), [d.event], Events(s', s'.queue));
  }

  lemma DequeueUndelivered(s: State, t: Thread, s': State)
    requires DequeueStep(s, t, s')
    ensures Undelivered(s') == if t == s.dispatcher then [EventIn(s, s.queue[0])] else Undelivered(s)
    ensures t == s.dispatcher ==> Undelivered(s) == []
  {
  }

  lemma DequeueKeepsHistory(s: State, t: Thread, s': State)
    requires HistoryOk(s) && DequeueStep(s, t, s')
    ensures HistoryOk(s')
  {
    FrontLeaves(s, t, s');
    DequeueUndelivered(s, t, s');
    ForDispatchSnoc(s.dequeued, Dequeued(EventIn(s, s.queue[0]), t == s.dispatcher));
    assert DeliveryAccounted(s');
  }

  lemma DeliverKeepsHistory(s: State, t: Thread, b: Block, dispatching: bool, s': State)
    requires HistoryOk(s) && DeliverStep(s, t, b, dispatching, s')
    ensures HistoryOk(s')
  {
    assert Events(s', s'.queue) == Events(s, s.queue);
    assert Undelivered(s') == if dispatching then [] else Undelivered(s);
    assert DeliveryAccounted(s');
  }

  lemma NextKeepsHistory(s: State, step: Step, s': State)
    requires OneHolder(s) && HistoryOk(s) && Next(s, step, s')
    ensures HistoryOk(s')
  {
    match step
    case Allocate(t, b) => AllocateKeepsHistory(s, t, b, s');
    case Release(t) => ReleaseKeepsHistory(s, t, s.threads[t].block, s.threads[t].draining, s');
    case Enqueue(t) => EnqueueKeepsHistory(s, t, s.threads[t].block, s');
    case Dequeue(t) => DequeueKeepsHistory(s, t, s');
    case Deliver(t) => DeliverKeepsHistory(s, t, s.threads[t].block, s.threads[t].dispatching, s');
    case _ =>
      PlainOnlyMoves(s, step, s');
      MovesKeepHistory(s, s');
  }

  // ------------------------------------------------------------------ whole runs

  ghost predicate Run(states: seq<State>, steps: seq<Step>) {
    && |states| == |steps| + 1
    && Init(states[0])
    && forall i :: 0 <= i < |steps| ==> StepAt(states, steps, i)
  }

  ghost predicate StepAt(states: seq<State>, steps: seq<Step>, i: nat)
    requires i < |steps| && |states| == |steps| + 1
  {
    Next(states[i], steps[i], states[i + 1])
  }

  lemma InitHasInv(s: State)
    requires Init(s)
    ensures Inv(s)
  {
    forall b: Block | b < |s.pool| ensures HolderOk(s, b) {
    }
  }

  lemma {:induction false} RunHasInv(states: seq<State>, steps: seq<Step>, k: nat)
    requires Run(states, steps) && k < |states|
    ensures Inv(states[k])
  {
    if k == 0 {
      InitHasInv(states[0]);
    } else {
      RunHasInv(states, steps, k - 1);
      assert StepAt(states, steps, k - 1);
      NextKeepsInv(states[k - 1], steps[k - 1], states[k]);
    }
  }

  lemma NextKeepsInv(s: State, step: Step, s': State)
    requires Inv(s) && Next(s, step, s')
    ensures Inv(s')
  {
    NextKeepsOneHolder(s, step, s');
    NextKeepsNumbers(s, step, s');
    NextKeepsHistory(s, step, s');
  }

  /** In every run a block is allocated exactly while some thread has it in hand or it stands in
      the queue, and never both or twice. */
  lemma EveryBlockHasOneHolder(states: seq<State>, steps: seq<Step>, k: nat, b: Block)
    requires Run(states, steps) && k < |states| && b < |states[k].pool|
    ensures var s := states[k];
            && (s.pool[b].Some? <==> b in s.queue || exists t :: InHand(s, t, b))
            && (forall t, u :: InHand(s, t, b) && InHand(s, u, b) ==> t == u)
            && (forall t :: InHand(s, t, b) ==> b !in s.queue)
            && (forall i, j :: 0 <= i < j < |s.queue| ==> s.queue[i] != s.queue[j])
  {
    RunHasInv(states, steps, k);
    assert HolderOk(states[k], b);
  }

  /** In every run accepted events are all different and leave the queue in the order in which
      they entered it; what left it for the dispatcher has been delivered, once and in that
      order, but for at most one event in the dispatcher's hand. */
  lemma EventsLeaveInOrder(states: seq<State>, steps: seq<Step>, k: nat)
    requires Run(states, steps) && k < |states|
    ensures var s := states[k];
            && s.accepted == AllDequeued(s.dequeued) + Events(s, s.queue)
            && (forall i, j :: 0 <= i < j < |s.accepted| ==> s.accepted[i] != s.accepted[j])
            && ForDispatch(s.dequeued) == s.dispatched + Undelivered(s)
  {
    RunHasInv(states, steps, k);
  }

  /** Nobody is publishing: past the latch test, with or without a block. */
  ghost predicate NobodyPublishing(s: State) {
    forall t :: t in s.threads ==> !s.threads[t].Admitted? && !s.threads[t].Publishing?
  }

  predicate Consuming(s: State, t: Thread) {
    t in s.threads && (s.threads[t].Taken? || s.threads[t].Releasing?)
  }

  /** Nobody is publishing, and nobody has a block in hand. */
  ghost predicate Quiet(s: State) {
    NobodyPublishing(s) && forall t :: !Consuming(s, t)
  }

  /** A dispatch thread that is not alive has nothing in hand. */
  predicate DispatcherOk(s: State) {
    !s.alive && s.dispatcher in s.threads ==> s.threads[s.dispatcher] == Idle
  }

  lemma {:induction false} RunHasDispatcherOk(states: seq<State>, steps: seq<Step>, k: nat)
    requires Run(states, steps) && k < |states|
    ensures DispatcherOk(states[k])
  {
    if k > 0 {
      RunHasDispatcherOk(states, steps, k - 1);
      assert StepAt(states, steps, k - 1);
      NextKeepsDispatcher(states[k - 1], steps[k - 1], states[k]);
    }
  }

  lemma NextKeepsDispatcher(s: State, step: Step, s': State)
    requires DispatcherOk(s) && Next(s, step, s')
    ensures DispatcherOk(s')
  {
    match step
    case Allocate(t, b) => AllocateKeepsDispatcher(s, t, b, s');
    case Enqueue(t) => EnqueueKeepsDispatcher(s, t, s.threads[t].block, s');
    case Dequeue(t) => DequeueKeepsDispatcher(s, t, s');
    case Deliver(t) => DeliverKeepsDispatcher(s, t, s.threads[t].block, s.threads[t].dispatching, s');
    case Release(t) => ReleaseKeepsDispatcher(s, t, s.threads[t].block, s.threads[t].draining, s');
    case _ => PlainKeepsDispatcher(s, step, s');
  }

  lemma AllocateKeepsDispatcher(s: State, t: Thread, b: Block, s': State)
    requires DispatcherOk(s) && AllocateStep(s, t, b, s')
    ensures DispatcherOk(s')
  {
  }

  lemma EnqueueKeepsDispatcher(s: State, t: Thread, b: Block, s': State)
    requires DispatcherOk(s) && (AcceptStep(s, t, b, s') || RefuseStep(s, t, b, s'))
    ensures DispatcherOk(s')
  {
  }

  lemma DequeueKeepsDispatcher(s: State, t: Thread, s': State)
    requires DispatcherOk(s) && DequeueStep(s, t, s')
    ensures DispatcherOk(s')
  {
  }

  lemma DeliverKeepsDispatcher(s: State, t: Thread, b: Block, dispatching: bool, s': State)
    requires DispatcherOk(s) && DeliverStep(s, t, b, dispatching, s')
    ensures DispatcherOk(s')
  {
  }

  lemma ReleaseKeepsDispatcher(s: State, t: Thread, b: Block, draining: bool, s': State)
    requires DispatcherOk(s) && ReleaseStep(s, t, b, draining, s')
    ensures DispatcherOk(s')
  {
  }

  lemma PlainKeepsDispatcher(s: State, step: Step, s': State)
    requires DispatcherOk(s) && PlainStep(s, step, s')
    ensures DispatcherOk(s')
  {
  }

  /** The latch is set in state i, and not cleared before state j. */
  ghost predicate LatchedFrom(states: seq<State>, steps: seq<Step>, i: nat, j: nat) {
    && |states| == |steps| + 1 && i <= j < |states| && states[i].latch
    && forall k :: i <= k < j ==> steps[k] != SetLatch(false)
  }

  /** Once the latch is set and nobody is left who passed its test before, no event is accepted
      any more: the queue only loses its front. */
  lemma {:induction false} NothingEnqueued(states: seq<State>, steps: seq<Step>, i: nat, j: nat)
    requires Run(states, steps) && LatchedFrom(states, steps, i, j) && NobodyPublishing(states[i])
    ensures states[j].latch && NobodyPublishing(states[j])
    ensures states[j].accepted == states[i].accepted
    ensures |states[j].queue| <= |states[i].queue|
    ensures states[j].queue == states[i].queue[|states[i].queue| - |states[j].queue|..]
    decreases j
  {
    if i < j {
      NothingEnqueued(states, steps, i, j - 1);
      assert StepAt(states, steps, j - 1);
      LatchedStep(states[j - 1], steps[j - 1], states[j]);
      FrontLost(states[i].queue, states[j - 1].queue, states[j].queue);
    }
  }

  lemma LatchedStep(s: State, step: Step, s': State)
    requires Next(s, step, s') && s.latch && NobodyPublishing(s) && step != SetLatch(false)
    ensures s'.latch && NobodyPublishing(s') && s'.accepted == s.accepted
    ensures s'.queue == s.queue || (s.queue != [] && s'.queue == s.queue[1..])
  {
    match step
    case Allocate(t, b) =>
    case Enqueue(t) =>
    case Dequeue(t) => DequeueStays(s, t, s');
    case Deliver(t) => DeliverStays(s, t, s.threads[t].block, s.threads[t].dispatching, s');
    case Release(t) => ReleaseStays(s, t, s.threads[t].block, s.threads[t].draining, s');
    case _ => PlainStays(s, step, s');
  }

  lemma DequeueStays(s: State, t: Thread, s': State)
    requires DequeueStep(s, t, s') && NobodyPublishing(s)
    ensures s'.latch == s.latch && NobodyPublishing(s') && s'.accepted == s.accepted && s'.queue == s.queue[1..]
  {
  }

  lemma DeliverStays(s: State, t: Thread, b: Block, dispatching: bool, s': State)
    requires DeliverStep(s, t, b, dispatching, s') && NobodyPublishing(s)
    ensures s'.latch == s.latch && NobodyPublishing(s') && s'.accepted == s.accepted && s'.queue == s.queue
  {
  }

  lemma ReleaseStays(s: State, t: Thread, b: Block, draining: bool, s': State)
    requires ReleaseStep(s, t, b, draining, s') && NobodyPublishing(s)
    ensures s'.latch == s.latch && NobodyPublishing(s') && s'.accepted == s.accepted && s'.queue == s.queue
  {
  }

  lemma PlainStays(s: State, step: Step, s': State)
    requires PlainStep(s, step, s') && s.latch && NobodyPublishing(s) && step != SetLatch(false)
    ensures s'.latch && NobodyPublishing(s') && s'.accepted == s.accepted && s'.queue == s.queue
  {
  }

  lemma FrontLost(whole: seq<Block>, before: seq<Block>, after: seq<Block>)
    requires |before| <= |whole| && before == whole[|whole| - |before|..]
    requires after == before || (before != [] && after == before[1..])
    ensures |after| <= |whole| && after == whole[|whole| - |after|..]
  {
  }

  /** Without a start in between, a dispatch thread that has ended stays so. */
  lemma {:induction false} StaysEnded(states: seq<State>, steps: seq<Step>, i: nat, j: nat)
    requires Run(states, steps) && i <= j < |states| && !states[i].alive
    requires forall k :: i <= k < j ==> steps[k] != StartDispatch
    ensures !states[j].alive
    decreases j
  {
    if i < j {
      StaysEnded(states, steps, i, j - 1);
      assert StepAt(states, steps, j - 1);
    }
  }

  /** Allocated blocks are queued or in somebody's hand. */
  lemma AllocatedSomewhere(s: State, b: Block)
    requires OneHolder(s) && Allocated(s, b)
    ensures b in s.queue || exists t :: InHand(s, t, b)
  {
    assert HolderOk(s, b);
    if s.holder[b].With? {
      assert InHand(s, s.holder[b].t, b);
    }
  }

  ghost predicate PoolFree(s: State) {
    forall b :: 0 <= b < |s.pool| ==> s.pool[b] == None
  }

  /** With nothing queued and nobody publishing, the pool is free if and only if no consumer has
      a block in hand. */
  lemma FreeIffReleased(s: State)
    requires OneHolder(s) && s.queue == [] && NobodyPublishing(s)
    ensures PoolFree(s) <==> forall t :: !Consuming(s, t)
  {
    if !PoolFree(s) {
      var b: Block :| b < |s.pool| && s.pool[b] != None;
      AllocatedSomewhere(s, b);
      var t :| InHand(s, t, b);
      assert Consuming(s, t);
    }
    if t :| Consuming(s, t) {
      HeldIsAllocated(s, s.threads[t].block);
      assert InHand(s, t, s.threads[t].block);
    }
  }

  /** Whenever nobody is publishing or consuming and the queue is empty, the pool is entirely
      free, and every accepted event was delivered or drained. */
  lemma QuietMeansFree(states: seq<State>, steps: seq<Step>, k: nat)
    requires Run(states, steps) && k < |states| && Quiet(states[k]) && states[k].queue == []
    ensures PoolFree(states[k])
    ensures states[k].accepted == AllDequeued(states[k].dequeued)
    ensures ForDispatch(states[k].dequeued) == states[k].dispatched
  {
    RunHasInv(states, steps, k);
    FreeIffReleased(states[k]);
    assert !Consuming(states[k], states[k].dispatcher);
  }

  /** The dispatch thread has ended by state p - a join saw to that, or it was never started - and
      nobody starts another one; thread t, draining, finds the queue empty in step m. If by state
      i <= m the latch was set and nobody was left who had passed its test, then from there on - in
      every state j, until the latch is cleared - the queue is empty, every accepted event was
      delivered or drained, and the pool is entirely free but for blocks another drain has in hand. */
  lemma DrainFreesPool(states: seq<State>, steps: seq<Step>, p: nat, i: nat, m: nat, j: nat, t: Thread)
    requires Run(states, steps) && p <= m < j < |states| && !states[p].alive && steps[m] == DrainDone(t)
    requires i <= m && LatchedFrom(states, steps, i, j) && NobodyPublishing(states[i])
    requires forall k :: p <= k < j ==> steps[k] != StartDispatch
    ensures states[j].queue == []
    ensures states[j].accepted == AllDequeued(states[j].dequeued)
    ensures ForDispatch(states[j].dequeued) == states[j].dispatched
    ensures PoolFree(states[j]) <==> forall u :: u != states[j].dispatcher ==> !Consuming(states[j], u)
  {
    assert StepAt(states, steps, m);
    LaterIsLatched(states, steps, i, m, j);
    NothingEnqueued(states, steps, i, m);
    NothingEnqueued(states, steps, m, j);
    StaysEnded(states, steps, p, j);
    RunHasInv(states, steps, j);
    RunHasDispatcherOk(states, steps, j);
    FreeIffReleased(states[j]);
  }

  lemma LaterIsLatched(states: seq<State>, steps: seq<Step>, i: nat, m: nat, j: nat)
    requires Run(states, steps) && i <= m <= j && LatchedFrom(states, steps, i, j) && NobodyPublishing(states[i])
    ensures LatchedFrom(states, steps, i, m) && LatchedFrom(states, steps, m, j) && NobodyPublishing(states[m])
  {
    NothingEnqueued(states, steps, i, m);
  }

  /** Stop, join and drain: thread t joins the dispatch thread in step p and finds the queue empty
      in step m. Right then, with no other thread draining, the pool is entirely free. */
  lemma StopJoinDrainFreesPool(states: seq<State>, steps: seq<Step>, p: nat, i: nat, m: nat, t: Thread)
    requires Run(states, steps) && p < m < |steps| && steps[p] == Join(t) && steps[m] == DrainDone(t)
    requires i <= m && LatchedFrom(states, steps, i, m + 1) && NobodyPublishing(states[i])
    requires forall k :: p <= k <= m ==> steps[k] != StartDispatch
    requires forall u :: u != t && u != states[m].dispatcher ==> !Consuming(states[m], u)
    ensures PoolFree(states[m + 1]) && states[m + 1].queue == []
  {
    assert StepAt(states, steps, p) && StepAt(states, steps, m);
    DrainFreesPool(states, steps, p, i, m, m + 1, t);
    assert states[m + 1] == Go(states[m], t, Idle);
    var after := states[m + 1];
    forall u | Consuming(after, u) ensures u == after.dispatcher {
      assert Consuming(states[m], u);
    }
  }

  /** What is in the queue when nobody consumes after a drain found it empty: exactly the events
      accepted since - and there are none unless, when the drain ended, somebody was publishing who
      had passed the latch test before it was set. */
  lemma LeftoverCameLate(states: seq<State>, steps: seq<Step>, m: nat, j: nat, t: Thread)
    requires Run(states, steps) && m < j < |states| && steps[m] == DrainDone(t) && LatchedFrom(states, steps, m, j)
    requires forall k :: m < k < j ==> !steps[k].Dequeue?
    ensures |states[m].accepted| <= |states[j].accepted|
    ensures Events(states[j], states[j].queue) == states[j].accepted[|states[m].accepted|..]
    ensures states[j].queue != [] ==> !NobodyPublishing(states[m])
    ensures Quiet(states[j]) ==> (PoolFree(states[j]) <==> states[j].accepted == states[m].accepted)
  {
    assert StepAt(states, steps, m);
    RunHasInv(states, steps, m);
    RunHasInv(states, steps, j);
    DequeuedKept(states, steps, m, j);
    var s := states[j];
    assert s.accepted == AllDequeued(s.dequeued) + Events(s, s.queue);
    assert states[m].accepted == AllDequeued(states[m].dequeued);
    if NobodyPublishing(states[m]) {
      NothingEnqueued(states, steps, m, j);
    }
    if Quiet(s) && s.queue != [] {
      HeldIsAllocated(s, s.queue[0]);
      assert !PoolFree(s);
    } else if Quiet(s) {
      FreeIffReleased(s);
    }
  }

  lemma {:induction false} DequeuedKept(states: seq<State>, steps: seq<Step>, m: nat, j: nat)
    requires Run(states, steps) && m < j < |states| && steps[m].DrainDone?
    requires forall k :: m < k < j ==> !steps[k].Dequeue?
    ensures states[j].dequeued == states[m].dequeued
    decreases j
  {
    assert StepAt(states, steps, j - 1);
    OnlyDequeueTakes(states[j - 1], steps[j - 1], states[j]);
    if m + 1 < j {
      DequeuedKept(states, steps, m, j - 1);
    }
  }

  lemma OnlyDequeueTakes(s: State, step: Step, s': State)
    requires Next(s, step, s') && !step.Dequeue?
    ensures s'.dequeued == s.dequeued
  {
    match step
    case Allocate(t, b) => assert AllocateStep(s, t, b, s');
    case Enqueue(t) =>
    case Deliver(t) =>
    case Release(t) =>
    case _ => PlainOnlyMoves(s, step, s');
  }

  /** With the latch set, nobody in the middle of anything and the queue empty, nothing happens
      any more: no event is allocated until the latch is cleared. */
  lemma {:induction false} FreeStaysFree(states: seq<State>, steps: seq<Step>, i: nat, j: nat)
    requires Run(states, steps) && LatchedFrom(states, steps, i, j)
    requires Quiet(states[i]) && states[i].queue == []
    ensures Quiet(states[j]) && states[j].queue == [] && states[j].latch && states[j].pool == states[i].pool
    decreases j
  {
    if i < j {
      FreeStaysFree(states, steps, i, j - 1);
      assert StepAt(states, steps, j - 1);
      RestKept(states[j - 1], steps[j - 1], states[j]);
    }
  }

  lemma RestKept(s: State, step: Step, s': State)
    requires Next(s, step, s') && Quiet(s) && s.queue == [] && s.latch && step != SetLatch(false)
    ensures Quiet(s') && s'.queue == [] && s'.latch && s'.pool == s.pool
  {
    forall t | t in s.threads ensures !s.threads[t].Taken? && !s.threads[t].Releasing? {
      assert !Consuming(s, t);
    }
  }

  // The run that leaks: a pool and a queue of one place, dispatcher 0, and publisher 1, which
  // passes the latch test and is overtaken by a whole stop of thread 2.

  lemma Extend(states: seq<State>, steps: seq<Step>, step: Step, s': State)
    returns (states': seq<State>, steps': seq<Step>)
    requires Run(states, steps) && Next(states[|states| - 1], step, s')
    ensures states' == states + [s'] && steps' == steps + [step] && Run(states', steps')
  {
    states', steps' := states + [s'], steps + [step];
    forall i | 0 <= i < |steps'| ensures StepAt(states', steps', i) {
      assert i < |steps| ==> StepAt(states, steps, i);
    }
  }

  /** A scene of that run: the three threads' places, the latch, whether the dispatch thread is
      alive, and whether the event has been made and accepted. */
  function Scene(publisher: Pc, stopper: Pc, latch: bool, alive: bool, made: bool, queued: bool): State {
    State([if made then Some(1) else None], if queued then [0] else [], 1, latch,
          map[0 := Idle, 1 := publisher, 2 := stopper], 0, alive && stopper != Joining, alive,
          if made then 2 else 1, if queued then [1] else [], [], [],
          [if queued then Queue else if made then With(1) else Nobody])
  }

  lemma RunToAdmitted() returns (states: seq<State>, steps: seq<Step>)
    ensures Run(states, steps) && states[|states| - 1] == Scene(Admitted, Idle, true, true, false, false)
  {
    states, steps := [Scene(Idle, Idle, false, false, false, false)], [];
    states, steps := Extend(states, steps, StartDispatch, Scene(Idle, Idle, false, true, false, false));
    states, steps := Extend(states, steps, Admit(1), Scene(Admitted, Idle, false, true, false, false));
    states, steps := Extend(states, steps, SetLatch(true), Scene(Admitted, Idle, true, true, false, false));
  }

  lemma RunToEnded() returns (states: seq<State>, steps: seq<Step>)
    ensures Run(states, steps) && states[|states| - 1] == Scene(Admitted, Joining, true, false, false, false)
  {
    states, steps := RunToAdmitted();
    states, steps := Extend(states, steps, BeginStop(2), Scene(Admitted, Joining, true, true, false, false));
    states, steps := Extend(states, steps, LeaveLoop(false), Scene(Admitted, Joining, true, false, false, false));
  }

  lemma RunToDrained() returns (states: seq<State>, steps: seq<Step>)
    ensures Run(states, steps) && states[|states| - 1] == Scene(Admitted, Idle, true, false, false, false)
    ensures |steps| >= 2 && steps[|steps| - 2] == Join(2) && steps[|steps| - 1] == DrainDone(2)
  {
    states, steps := RunToEnded();
    states, steps := Extend(states, steps, Join(2), Scene(Admitted, Draining, true, false, false, false));
    states, steps := Extend(states, steps, DrainDone(2), Scene(Admitted, Idle, true, false, false, false));
  }

  lemma LateSteps()
    ensures AllocateStep(Scene(Admitted, Idle, true, false, false, false), 1, 0, Scene(Publishing(0), Idle, true, false, true, false))
    ensures AcceptStep(Scene(Publishing(0), Idle, true, false, true, false), 1, 0, Scene(Idle, Idle, true, false, true, true))
  {
  }

  /** A publisher that passed the latch test before the stop can enqueue after its drain: a run
      with a complete stop, join and drain by thread 2, after which everybody rests, the dispatch
      thread has ended, the latch is set - and a block is allocated, its event in the queue. */
  lemma LatePublisherLeaks() returns (states: seq<State>, steps: seq<Step>)
    ensures Run(states, steps)
    ensures exists p, m :: 0 <= p < m < |steps| && steps[p] == Join(2) && steps[m] == DrainDone(2)
    ensures var s := states[|states| - 1];
            && Quiet(s) && !s.alive && s.latch && (forall t :: t in s.threads ==> s.threads[t] == Idle)
            && s.queue == [0] && s.pool == [Some(1)]
  {
    states, steps := RunToDrained();
    ghost var p := |steps| - 2;
    LateSteps();
    states, steps := Extend(states, steps, Allocate(1, 0), Scene(Publishing(0), Idle, true, false, true, false));
    states, steps := Extend(states, steps, Enqueue(1), Scene(Idle, Idle, true, false, true, true));
    assert steps[p] == Join(2) && steps[p + 1] == DrainDone(2);
  }

  // ------------------------------------------------------------ the bus's own methods

  /** With nobody in the middle of anything, the allocated blocks are those queued, each once. */
  ghost predicate ValidBus(slots: seq<Option<Event>>, queue: seq<Block>) {
    && (forall b :: 0 <= b < |slots| ==> (slots[b].Some? <==> b in queue))
    && (forall i :: 0 <= i < |queue| ==> queue[i] < |slots|)
    && (forall i, j :: 0 <= i < j < |queue| ==> queue[i] != queue[j])
  }

  function QueuedEvents(slots: seq<Option<Event>>, queue: seq<Block>): (es: seq<Event>)
    ensures |es| == |queue|
  {
    seq(|queue|, i requires 0 <= i < |queue| =>
      if queue[i] < |slots| && slots[queue[i]].Some? then slots[queue[i]].value else 0)
  }

  lemma PublishOne(slots: seq<Option<Event>>, queue: seq<Block>, b: Block, event: Event)
    requires ValidBus(slots, queue) && b < |slots| && slots[b] == None
    ensures ValidBus(slots[b := Some(event)], queue + [b])
    ensures QueuedEvents(slots[b := Some(event)], queue + [b]) == QueuedEvents(slots, queue) + [event]
  {
  }

  lemma DrainOne(slots: seq<Option<Event>>, queue: seq<Block>)
    requires ValidBus(slots, queue) && queue != []
    ensures queue[0] < |slots| && slots[queue[0]].Some?
    ensures ValidBus(slots[queue[0] := None], queue[1..])
    ensures QueuedEvents(slots, queue)
         == [slots[queue[0]].value] + QueuedEvents(slots[queue[0] := None], queue[1..])
  {
    var b := queue[0];
    assert b in queue && queue == [b] + queue[1..];
    assert b !in queue[1..];
  }

  class Bus {
    const pool: array<Option<Event>>
    const capacity: nat
    var queue: seq<Block>

    ghost predicate Valid()
      reads this, pool
    {
      ValidBus(pool[..], queue)
    }

    ghost function Queued(): seq<Event>
      reads this, pool
    {
      QueuedEvents(pool[..], queue)
    }

    constructor (poolSize: nat, capacity: nat)
      ensures Valid() && fresh(pool) && pool.Length == poolSize && this.capacity == capacity && queue == []
    {
      pool := new Option<Event>[poolSize](_ => None);
      this.capacity := capacity;
      queue := [];
    }

    /** Publishes an event unless shutdown has begun, the pool is exhausted or the queue full;
        an event that is not accepted leaves no trace. */
    method Publish(event: Event, shuttingDown: bool) returns (accepted: bool)
      requires Valid()
      modifies this, pool
      ensures Valid()
      ensures accepted <==> !shuttingDown && |old(queue)| < capacity && None in old(pool[..])
      ensures Queued() == if accepted then old(Queued()) + [event] else old(Queued())
      ensures !accepted ==> pool[..] == old(pool[..]) && queue == old(queue)
    {
      accepted := false;
      if shuttingDown {
        return;
      }
      var b := 0;
      while b < pool.Length && pool[b].Some?
        invariant 0 <= b <= pool.Length
        invariant None !in pool[..b]
      {
        b := b + 1;
      }
      if b == pool.Length {
        assert pool[..] == pool[..b];
        return;
      }
      assert pool[..][b] == None;
      PublishOne(pool[..], queue, b, event);
      pool[b] := Some(event);
      if |queue| >= capacity {
        pool[b] := None;
        assert pool[..] == old(pool[..]);
        return;
      }
      queue := queue + [b];
      accepted := true;
    }

    /** Gives every queued event back to the pool without delivering it. */
    method Drain() returns (drained: seq<Event>)
      requires Valid()
      modifies this, pool
      ensures Valid() && queue == [] && drained == old(Queued())
      ensures forall b :: 0 <= b < pool.Length ==> pool[b] == None
    {
      drained := [];
      while queue != []
        invariant Valid() && drained + Queued() == old(Queued())
        decreases |queue|
      {
        DrainOne(pool[..], queue);
        var b := queue[0];
        queue := queue[1..];
        drained := drained + [pool[b].value];
        pool[b] := None;
      }
      assert forall b :: 0 <= b < |pool[..]| ==> pool[..][b] == None;
    }
  }
}
