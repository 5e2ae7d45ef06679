/** The task protocol of the real-time scheduler.

Any number of API threads add, remove and update tasks while one scheduler thread selects,
claims, runs user code without the lock, and settles the result. Each region under the tasks
mutex is one atomic step; reading the clock and starting or leaving user code are steps of
their own. A log records what happened to each block and each registration. */
module SchedulerTasks {
  import opened ReadySet
  import opened Wrappers

  type Block = nat

  /** Consecutive failures that deactivate a task, and for how long (in nanoseconds). */
  const MAX_FAILURES: nat := 10
  const BACKOFF: int := 100_000_000

  /** Task identifiers are 32-bit. */
  const ID_COUNT: nat := 0x1_0000_0000

  datatype Slot = Free | Used(task: Task)

  datatype Event =
    | Alloc(block: Block, serial: nat)
    | Begin(block: Block, id: Id)                              // a turn that claims a task
    | Skip(id: Id)                                             // a turn that claims none
    | Start(block: Block, serial: nat, at: int, period: Option<int>)  // period in force at selection
    | Finish(block: Block, serial: nat, start: int, end: int, ok: bool)
    | Dealloc(block: Block)
    | Chosen(ids: seq<Id>)                                     // the ready set of a new cycle

  datatype Log = NoEvents | Then(before: Log, event: Event)

  /** What the tasks mutex protects: the pool's blocks, the task map, the number the next
      registration will get - and the log. */
  datatype Store = Store(slots: seq<Slot>, tasks: map<Id, Block>, serial: nat, log: Log)

  predicate Holds(st: Store, b: Block) {
    b < |st.slots| && st.slots[b].Used?
  }

  function TaskAt(st: Store, b: Block): Task
    requires Holds(st, b)
  {
    st.slots[b].task
  }

  predicate Registered(st: Store, b: Block) {
    Holds(st, b) && st.slots[b].task.taskId in st.tasks && st.tasks[st.slots[b].task.taskId] == b
  }

  /** Every entry of the task map leads to an allocated block of that task, not one about to go. */
  ghost predicate Linked(st: Store) {
    forall id :: id in st.tasks ==> LinkedAt(st, id, st.tasks[id])
  }

  predicate LinkedAt(st: Store, id: Id, b: Block) {
    Holds(st, b) && st.slots[b].task.taskId == id && !st.slots[b].task.pendingRemoval
  }

  function IdOf(serial: nat): Id {
    serial % ID_COUNT
  }

  // ------------------------------------------------------------ what the locked regions do

  function NewTask(serial: nat, c: Constraints, now: int, later: int): Task {
    Task(IdOf(serial), serial, c, now + Nanos(c.period), later, true, false, false, 0, 0)
  }

  function Add(st: Store, b: Block, c: Constraints, now: int, later: int): Store
    requires b < |st.slots|
  {
    Store(st.slots[b := Used(NewTask(st.serial, c, now, later))], st.tasks[IdOf(st.serial) := b],
          st.serial + 1, Then(st.log, Alloc(b, st.serial)))
  }

  /** Deactivates the task of a block, then frees the block or leaves that to the scheduler. */
  function Dispose(st: Store, b: Block): Store
    requires Holds(st, b)
  {
    var t := TaskAt(st, b);
    if t.executing then st.(slots := st.slots[b := Used(t.(active := false, pendingRemoval := true))])
    else st.(slots := st.slots[b := Free], log := Then(st.log, Dealloc(b)))
  }

  ghost function Remove(st: Store, id: Id): (r: Store)
    requires Linked(st)
    ensures Linked(r) && r.tasks == st.tasks - {id}
  {
    if id in st.tasks then Dispose(st, st.tasks[id]).(tasks := st.tasks - {id}) else st
  }

  ghost function RemoveEach(st: Store, order: seq<Id>): (r: Store)
    requires Linked(st)
    ensures Linked(r)
  {
    if order == [] then st else Remove(RemoveEach(st, order[..|order| - 1]), order[|order| - 1])
  }

  function Constrained(t: Task, c: Constraints): Task {
    t.(constraints := c, nextExecution := t.lastExecution + Nanos(c.period))
  }

  ghost function Update(st: Store, id: Id, c: Constraints): Store
    requires Linked(st)
  {
    if id in st.tasks
    then st.(slots := st.slots[st.tasks[id] := Used(Constrained(TaskAt(st, st.tasks[id]), c))])
    else st
  }

  function Reactivated(t: Task, now: int): Task {
    if !t.active && t.failures > 0 && now >= t.reactivation then t.(active := true, failures := 0) else t
  }

  function ReactivatedSlot(st: Store, now: int, b: Block): Slot
    requires b < |st.slots|
  {
    if Registered(st, b) then Used(Reactivated(st.slots[b].task, now)) else st.slots[b]
  }

  function Reactivate(st: Store, now: int): Store {
    st.(slots := seq(|st.slots|, b requires 0 <= b < |st.slots| => ReactivatedSlot(st, now, b)))
  }

  /** Whether `picks` lists exactly the ready tasks, each once, with the period in force. */
  ghost predicate IsReadySet(st: Store, now: int, picks: seq<Candidate>) {
    && DistinctIds(picks)
    && (forall c :: c in picks ==>
          c.id in st.tasks && Holds(st, st.tasks[c.id])
          && Ready(TaskAt(st, st.tasks[c.id]), now)
          && c.period == TaskAt(st, st.tasks[c.id]).constraints.period)
    && (forall id :: id in st.tasks && Holds(st, st.tasks[id]) && Ready(TaskAt(st, st.tasks[id]), now)
          ==> id in Ids(picks))
  }

  predicate Claimable(st: Store, id: Id) {
    && id in st.tasks && Holds(st, st.tasks[id])
    && var t := TaskAt(st, st.tasks[id]); t.active && !t.executing
  }

  function Claim(st: Store, id: Id): Store {
    if Claimable(st, id)
    then var b := st.tasks[id];
         st.(slots := st.slots[b := Used(TaskAt(st, b).(executing := true))], log := Then(st.log, Begin(b, id)))
    else st.(log := Then(st.log, Skip(id)))
  }

  /** The bookkeeping after an execution. A failure does not move the next execution time. */
  function Settled(t: Task, start: int, end: int, ok: bool): Task {
    if ok then
      t.(lastExecution := start, nextExecution := start + Nanos(t.constraints.period),
         failures := 0, executing := false)
    else if t.failures + 1 >= MAX_FAILURES then
      t.(failures := t.failures + 1, active := false, reactivation := end + BACKOFF, executing := false)
    else
      t.(failures := t.failures + 1, executing := false)
  }

  function Settle(st: Store, b: Block, start: int, end: int, ok: bool): Store
    requires Holds(st, b)
  {
    var t := TaskAt(st, b);
    var log := Then(st.log, Finish(b, t.serial, start, end, ok));
    if t.pendingRemoval
    then st.(slots := st.slots[b := Free], log := Then(log, Dealloc(b)))
    else st.(slots := st.slots[b := Used(Settled(t, start, end, ok))], log := log)
  }

  // ------------------------------------------------------------------------ steps

  /** Where the scheduler thread is in its cycle. */
  datatype Work =
    | Top
    | Awake(now: int)                    // woke up and read the clock
    // the turns still to take, and whether the next one has passed the loop's test
    | Picking(rest: seq<Candidate>, admitted: bool)
    // user callback selects, at most `left` more times
    | CustomPicks(left: nat, admitted: bool)

  /** What it is doing with a task, if anything. */
  datatype Activity =
    | NoTask
    | Claimed(block: Block, period: Option<int>)
    | Running(block: Block, start: int)
    | Returned(block: Block, start: int, end: int, ok: bool)

  /** `running` is the flag that start raises and stop and halt clear; `Top` stands for the
      time between two cycles, whether or not a scheduler thread is alive. */
  datatype State = State(store: Store, clock: int, work: Work, activity: Activity, running: bool)

  datatype Step =
    | Tick(elapsed: nat)
    | AddTask(block: Block, c: Constraints, elapsed: nat)   // reads the clock twice
    | RemoveTask(id: Id)
    | RemoveAllTasks(order: seq<Id>)
    | UpdateTask(id: Id, c: Constraints)
    | RaiseRunning                        // only between cycles: the old thread is joined first
    | ClearRunning
    | Wake
    | Select(picks: seq<Candidate>)
    | SelectCustom
    | Admit                               // a turn is left and the running flag is up
    | Turn
    | CustomTurn(id: Id)
    | EndCycle                            // no turn is left, or the running flag is down
    | BeginRun
    | EndRun(ok: bool)
    | Finalize

  ghost predicate Init(s: State) {
    && (forall b :: 0 <= b < |s.store.slots| ==> s.store.slots[b] == Free)
    && s.store.tasks == map[] && s.store.serial == 1 && s.store.log == NoEvents
    && s.work == Top && s.activity == NoTask && !s.running
  }

  /** What the program dereferences without looking: map entries, and the scheduler's block. */
  ghost predicate NoDanglingPointer(s: State) {
    Linked(s.store) && (s.activity != NoTask ==> Holds(s.store, s.activity.block))
  }

  function Chose(s: State, id: Id, period: Option<int>): State {
    s.(store := Claim(s.store, id),
       activity := if Claimable(s.store, id) then Claimed(s.store.tasks[id], period) else NoTask)
  }

  /** Whether the cycle has turns left to take. */
  predicate TurnsLeft(work: Work) {
    (work.Picking? && work.rest != []) || (work.CustomPicks? && work.left > 0)
  }

  predicate Admitted(work: Work) {
    (work.Picking? || work.CustomPicks?) && work.admitted
  }

  ghost predicate AddStep(s: State, b: Block, c: Constraints, elapsed: nat, s': State) {
    && b < |s.store.slots| && s.store.slots[b].Free?
    && s' == s.(store := Add(s.store, b, c, s.clock, s.clock + elapsed), clock := s.clock + elapsed)
  }

  ghost predicate SelectStep(s: State, picks: seq<Candidate>, s': State) {
    && s.work.Awake? && s.activity.NoTask?
    && var st := Reactivate(s.store, s.work.now);
       && IsReadySet(st, s.work.now, picks)
       && s' == s.(store := st.(log := Then(st.log, Chosen(Ids(picks)))), work := Picking(picks, false))
  }

  ghost predicate TurnStep(s: State, s': State) {
    && s.work.Picking? && s.work.rest != [] && s.work.admitted && s.activity.NoTask?
    && var c := s.work.rest[0];
       if c.id == 0 then s' == s.(work := Top)
       else s' == Chose(s, c.id, Some(c.period)).(work := Picking(s.work.rest[1..], false))
  }

  ghost predicate CustomTurnStep(s: State, id: Id, s': State) {
    && s.work.CustomPicks? && s.work.left > 0 && s.work.admitted && s.activity.NoTask?
    && if id == 0 then s' == s.(work := Top)
       else s' == Chose(s, id, None).(work := CustomPicks(s.work.left - 1, false))
  }

  ghost predicate BeginRunStep(s: State, s': State)
    requires NoDanglingPointer(s)
  {
    && s.activity.Claimed?
    && var a := s.activity;
       s' == s.(store := s.store.(log := Then(s.store.log,
                  Start(a.block, TaskAt(s.store, a.block).serial, s.clock, a.period))),
                activity := Running(a.block, s.clock))
  }

  ghost predicate FinalizeStep(s: State, s': State)
    requires NoDanglingPointer(s)
  {
    && s.activity.Returned?
    && var a := s.activity;
       s' == s.(store := Settle(s.store, a.block, a.start, a.end, a.ok), activity := NoTask)
  }

  /** The steps that leave the store alone. */
  ghost predicate MoveStep(s: State, step: Step, s': State) {
    match step
    case Tick(elapsed) => s' == s.(clock := s.clock + elapsed)
    case RaiseRunning => s.work.Top? && s' == s.(running := true)
    case ClearRunning => s' == s.(running := false)
    case Wake => s.work.Top? && s.activity.NoTask? && s.running && s' == s.(work := Awake(s.clock))
    case Admit =>
      && TurnsLeft(s.work) && !s.work.admitted && s.activity.NoTask? && s.running
      && s' == s.(work := s.work.(admitted := true))
    case EndCycle =>
      && (s.work.Picking? || s.work.CustomPicks?) && !s.work.admitted && s.activity.NoTask?
      && (!TurnsLeft(s.work) || !s.running) && s' == s.(work := Top)
    case EndRun(ok) =>
      s.activity.Running? && s' == s.(activity := Returned(s.activity.block, s.activity.start, s.clock, ok))
    case _ => false
  }

  ghost predicate Next(s: State, step: Step, s': State) {
    && NoDanglingPointer(s)
    && match step
       case AddTask(b, c, elapsed) => AddStep(s, b, c, elapsed, s')
       case RemoveTask(id) => s' == s.(store := Remove(s.store, id))
       case RemoveAllTasks(order) =>
         (forall id :: id in order <==> id in s.store.tasks) && s' == s.(store := RemoveEach(s.store, order))
       case UpdateTask(id, c) => s' == s.(store := Update(s.store, id, c))
       case Select(picks) => SelectStep(s, picks, s')
       case SelectCustom =>
         && s.work.Awake? && s.activity.NoTask?
         && s' == s.(store := Reactivate(s.store, s.work.now), work := CustomPicks(|s.store.tasks|, false))
       case Turn => TurnStep(s, s')
       case CustomTurn(id) => CustomTurnStep(s, id, s')
       case BeginRun => BeginRunStep(s, s')
       case Finalize => FinalizeStep(s, s')
       case _ => MoveStep(s, step, s')
  }

  // ------------------------------------------------------------------ reading the log

  datatype Phase = Unallocated | Held | Begun | Started | Broken

  /** One event in the life of a block: Alloc (Begin Start Finish)* Dealloc, over and over. */
  function Advance(phase: Phase, e: Event, b: Block): Phase {
    match e
    case Alloc(b', _) => if b' != b then phase else if phase == Unallocated then Held else Broken
    case Begin(b', _) => if b' != b then phase else if phase == Held then Begun else Broken
    case Start(b', _, _, _) => if b' != b then phase else if phase == Begun then Started else Broken
    case Finish(b', _, _, _, _) => if b' != b then phase else if phase == Started then Held else Broken
    case Dealloc(b') => if b' != b then phase else if phase == Held then Unallocated else Broken
    case _ => phase
  }

  function PhaseOf(log: Log, b: Block): Phase {
    match log
    case NoEvents => Unallocated
    case Then(before, e) => Advance(PhaseOf(before, b), e, b)
  }

  /** When the last successful execution of a registration started. */
  function LastSuccess(log: Log, serial: nat): Option<int> {
    match log
    case NoEvents => None
    case Then(before, e) =>
      if e.Finish? && e.serial == serial && e.ok then Some(e.start) else LastSuccess(before, serial)
  }

  /** When its last execution ended. */
  function LastEnd(log: Log, serial: nat): int {
    match log
    case NoEvents => 0
    case Then(before, e) => if e.Finish? && e.serial == serial then e.end else LastEnd(before, serial)
  }

  /** Its failures in a row, counted up to the limit and then from one again. */
  function Streak(log: Log, serial: nat): nat {
    match log
    case NoEvents => 0
    case Then(before, e) =>
      if !(e.Finish? && e.serial == serial) then Streak(before, serial)
      else if e.ok then 0
      else if Streak(before, serial) >= MAX_FAILURES then 1
      else Streak(before, serial) + 1
  }

  /** Every execution selected by a policy starts no sooner than a period after the start of
      the last successful one. */
  predicate PeriodsKept(log: Log) {
    match log
    case NoEvents => true
    case Then(before, e) =>
      && PeriodsKept(before)
      && (e.Start? && e.period.Some? && LastSuccess(before, e.serial).Some? ==>
            e.at >= LastSuccess(before, e.serial).value + Nanos(e.period.value))
  }

  /** After a full streak of failures nothing starts before the back-off is over. */
  predicate BackoffKept(log: Log) {
    match log
    case NoEvents => true
    case Then(before, e) =>
      && BackoffKept(before)
      && (e.Start? && Streak(before, e.serial) == MAX_FAILURES ==>
            e.at >= LastEnd(before, e.serial) + BACKOFF)
  }

  /** The ids of the turns taken since the last ready set was chosen, and that set. */
  function Turns(log: Log): seq<Id> {
    match log
    case NoEvents => []
    case Then(before, e) =>
      if e.Chosen? then [] else if e.Begin? || e.Skip? then Turns(before) + [e.id] else Turns(before)
  }

  function LastChosen(log: Log): seq<Id> {
    match log
    case NoEvents => []
    case Then(before, e) => if e.Chosen? then e.ids else LastChosen(before)
  }

  /** All registrations in the log came before number n. */
  predicate LogBelow(log: Log, n: nat) {
    match log
    case NoEvents => true
    case Then(before, e) =>
      LogBelow(before, n) && (e.Alloc? || e.Start? || e.Finish? ==> e.serial < n)
  }

  // --------------------------------------------------------------------- invariant

  function PhaseNow(s: State, b: Block): Phase {
    if !Holds(s.store, b) then Unallocated
    else if s.activity == NoTask || s.activity.block != b then Held
    else if s.activity.Claimed? then Begun
    else Started
  }

  predicate Busy(s: State, b: Block) {
    s.activity != NoTask && s.activity.block == b
  }

  /** The failure count, the back-off and the times agree with what the log says happened. */
  predicate TimingOk(log: Log, t: Task, clock: int) {
    var n := Streak(log, t.serial);
    && n <= MAX_FAILURES
    && (t.failures == n || (n == MAX_FAILURES && t.failures == 0 && clock >= LastEnd(log, t.serial) + BACKOFF))
    && (t.failures == MAX_FAILURES ==> t.reactivation == LastEnd(log, t.serial) + BACKOFF)
    && (t.failures == MAX_FAILURES ==> !t.active && !t.executing)
    && (!t.active ==> t.failures == MAX_FAILURES || t.pendingRemoval)
    && (LastSuccess(log, t.serial).Some? ==>
          t.lastExecution == LastSuccess(log, t.serial).value
          && t.nextExecution == t.lastExecution + Nanos(t.constraints.period))
  }

  predicate TaskOk(s: State, b: Block, t: Task) {
    && (t.executing <==> Busy(s, b))
    && (t.pendingRemoval ==> t.executing)
    && t.serial < s.store.serial && t.taskId == IdOf(t.serial)
    && TimingOk(s.store.log, t, s.clock)
  }

  predicate SlotOk(s: State, b: Block) {
    && PhaseOf(s.store.log, b) == PhaseNow(s, b)
    && (Holds(s.store, b) ==> TaskOk(s, b, TaskAt(s.store, b)))
  }

  ghost predicate SerialsDiffer(st: Store) {
    forall a, b :: Holds(st, a) && Holds(st, b) && TaskAt(st, a).serial == TaskAt(st, b).serial ==> a == b
  }

  /** A period after the last success has passed, if there was one. */
  predicate PeriodPassed(log: Log, serial: nat, period: int, clock: int) {
    LastSuccess(log, serial).Some? ==> clock >= LastSuccess(log, serial).value + Nanos(period)
  }

  ghost predicate ClaimOk(s: State) {
    s.activity.Claimed? && s.activity.period.Some? && Holds(s.store, s.activity.block) ==>
      PeriodPassed(s.store.log, TaskAt(s.store, s.activity.block).serial, s.activity.period.value, s.clock)
  }

  ghost predicate PickOk(s: State, c: Candidate) {
    c.id in s.store.tasks && Holds(s.store, s.store.tasks[c.id]) ==>
      var t := TaskAt(s.store, s.store.tasks[c.id]);
      !t.executing && PeriodPassed(s.store.log, t.serial, c.period, s.clock)
  }

  ghost predicate CycleOk(s: State) {
    && (s.work.Awake? ==> s.work.now <= s.clock)
    && (s.work.Picking? ==>
          && DistinctIds(s.work.rest)
          && LastChosen(s.store.log) == Turns(s.store.log) + Ids(s.work.rest)
          && (forall c :: c in s.work.rest ==> PickOk(s, c))
          && (s.activity != NoTask && Holds(s.store, s.activity.block) ==>
                TaskAt(s.store, s.activity.block).taskId !in Ids(s.work.rest)))
    && (s.work.Top? || s.work.Awake? ==> s.activity.NoTask?)
  }

  ghost predicate Inv(s: State) {
    && NoDanglingPointer(s)
    && (forall b: Block :: SlotOk(s, b))
    && SerialsDiffer(s.store)
    && LogBelow(s.store.log, s.store.serial)
    && ClaimOk(s) && CycleOk(s)
    && PeriodsKept(s.store.log) && BackoffKept(s.store.log)
  }

  lemma InitHasInv(s: State)
    requires Init(s)
    ensures Inv(s)
  {
  }

  // ------------------------------------------------ the invariant is inductive, step by step

  lemma TickKeepsInv(s: State, elapsed: nat)
    requires Inv(s)
    ensures Inv(s.(clock := s.clock + elapsed))
  {
    var s' := s.(clock := s.clock + elapsed);
    forall b: Block ensures SlotOk(s', b) {
      assert SlotOk(s, b);
    }
    if s.work.Picking? {
      forall c | c in s.work.rest ensures PickOk(s', c) {
        assert PickOk(s, c);
      }
    }
  }

  lemma {:induction false} NothingKnownYet(log: Log, serial: nat)
    requires LogBelow(log, serial)
    ensures LastSuccess(log, serial) == None && Streak(log, serial) == 0
  {
    if log.Then? {
      NothingKnownYet(log.before, serial);
    }
  }

  lemma {:induction false} LogStaysBelow(log: Log, m: nat, n: nat)
    requires LogBelow(log, m) && m <= n
    ensures LogBelow(log, n)
  {
    if log.Then? {
      LogStaysBelow(log.before, m, n);
    }
  }

  lemma AddKeepsSlot(s: State, b: Block, c: Constraints, elapsed: nat, other: Block)
    requires Inv(s) && b < |s.store.slots| && s.store.slots[b].Free?
    ensures SlotOk(s.(store := Add(s.store, b, c, s.clock, s.clock + elapsed), clock := s.clock + elapsed), other)
  {
    assert SlotOk(s, other);
    assert SlotOk(s, b);
    NothingKnownYet(s.store.log, s.store.serial);
  }

  lemma AddKeepsInv(s: State, b: Block, c: Constraints, elapsed: nat)
    requires Inv(s) && b < |s.store.slots| && s.store.slots[b].Free?
    ensures Inv(s.(store := Add(s.store, b, c, s.clock, s.clock + elapsed), clock := s.clock + elapsed))
  {
    var s' := s.(store := Add(s.store, b, c, s.clock, s.clock + elapsed), clock := s.clock + elapsed);
    forall other: Block ensures SlotOk(s', other) {
      AddKeepsSlot(s, b, c, elapsed, other);
    }
    LogStaysBelow(s.store.log, s.store.serial, s.store.serial + 1);
    NothingKnownYet(s.store.log, s.store.serial);
    forall x, y | Holds(s'.store, x) && Holds(s'.store, y) && TaskAt(s'.store, x).serial == TaskAt(s'.store, y).serial
      ensures x == y
    {
      assert SlotOk(s, x) && SlotOk(s, y);
    }
    if s.work.Picking? {
      forall p | p in s.work.rest ensures PickOk(s', p) {
        assert PickOk(s, p);
      }
    }
    forall id | id in s'.store.tasks ensures LinkedAt(s'.store, id, s'.store.tasks[id]) {
      assert id in s.store.tasks ==> LinkedAt(s.store, id, s.store.tasks[id]);
    }
  }

  /** No block came or changed its registration. */
  ghost predicate NoNewTasks(st: Store, st': Store) {
    forall b :: Holds(st', b) ==> Holds(st, b) && TaskAt(st', b).serial == TaskAt(st, b).serial
  }

  lemma SerialsStillDiffer(st: Store, st': Store)
    requires SerialsDiffer(st) && NoNewTasks(st, st')
    ensures SerialsDiffer(st')
  {
  }

  lemma RemoveKeepsInv(s: State, id: Id)
    requires Inv(s)
    ensures Inv(s.(store := Remove(s.store, id)))
  {
    var s' := s.(store := Remove(s.store, id));
    if id in s.store.tasks {
      var gone := s.store.tasks[id];
      assert LinkedAt(s.store, id, gone);
      forall b: Block ensures SlotOk(s', b) {
        assert SlotOk(s, b);
      }
      if s.work.Picking? {
        forall c | c in s.work.rest ensures PickOk(s', c) {
          assert PickOk(s, c);
        }
      }
      assert SlotOk(s, gone);
      SerialsStillDiffer(s.store, s'.store);
    }
  }

  lemma {:induction false} RemoveEachKeepsInv(s: State, order: seq<Id>)
    requires Inv(s)
    ensures Inv(s.(store := RemoveEach(s.store, order)))
  {
    if order != [] {
      RemoveEachKeepsInv(s, order[..|order| - 1]);
      RemoveKeepsInv(s.(store := RemoveEach(s.store, order[..|order| - 1])), order[|order| - 1]);
    }
  }

  lemma UpdateKeepsInv(s: State, id: Id, c: Constraints)
    requires Inv(s)
    ensures Inv(s.(store := Update(s.store, id, c)))
  {
    var s' := s.(store := Update(s.store, id, c));
    if id in s.store.tasks {
      var b := s.store.tasks[id];
      assert LinkedAt(s.store, id, b);
      forall other: Block ensures SlotOk(s', other) {
        assert SlotOk(s, other);
      }
      if s.work.Picking? {
        forall p | p in s.work.rest ensures PickOk(s', p) {
          assert PickOk(s, p);
        }
      }
      SerialsStillDiffer(s.store, s'.store);
    }
  }

  lemma ReactivateKeepsTask(s: State, now: int, b: Block)
    requires Inv(s) && now <= s.clock && s.activity == NoTask
    ensures SlotOk(s.(store := Reactivate(s.store, now)), b)
  {
    assert SlotOk(s, b);
  }

  lemma ReactivateKeepsInv(s: State, now: int, work: Work)
    requires Inv(s) && now <= s.clock && s.activity == NoTask && !work.Picking? && (work.Awake? ==> work.now <= s.clock)
    ensures Inv(s.(store := Reactivate(s.store, now), work := work))
  {
    var s' := s.(store := Reactivate(s.store, now), work := work);
    forall b: Block ensures SlotOk(s', b) {
      ReactivateKeepsTask(s, now, b);
    }
    SerialsStillDiffer(s.store, s'.store);
    forall id | id in s'.store.tasks ensures LinkedAt(s'.store, id, s'.store.tasks[id]) {
      assert LinkedAt(s.store, id, s.store.tasks[id]);
    }
  }

  /** Recording the chosen ready set, once the tasks are reactivated. */
  lemma ChosenKeepsInv(s: State, now: int, picks: seq<Candidate>)
    requires Inv(s) && now <= s.clock && s.activity == NoTask && IsReadySet(s.store, now, picks)
    ensures Inv(s.(store := s.store.(log := Then(s.store.log, Chosen(Ids(picks)))), work := Picking(picks, false)))
  {
    var s' := s.(store := s.store.(log := Then(s.store.log, Chosen(Ids(picks)))), work := Picking(picks, false));
    forall b: Block ensures SlotOk(s', b) {
      assert SlotOk(s, b);
    }
    SerialsStillDiffer(s.store, s'.store);
    forall id | id in s'.store.tasks ensures LinkedAt(s'.store, id, s'.store.tasks[id]) {
      assert LinkedAt(s.store, id, s.store.tasks[id]);
    }
    forall c | c in picks ensures PickOk(s', c) {
      assert SlotOk(s, s.store.tasks[c.id]);
    }
  }

  lemma ClaimKeepsSlot(s: State, id: Id, period: Option<int>, b: Block)
    requires Inv(s) && s.activity == NoTask
    ensures SlotOk(Chose(s, id, period), b)
  {
    assert SlotOk(s, b);
    assert id in s.store.tasks ==> LinkedAt(s.store, id, s.store.tasks[id]);
  }

  lemma ClaimKeepsTables(s: State, id: Id, period: Option<int>)
    requires Inv(s) && s.activity == NoTask
    ensures var s' := Chose(s, id, period);
            NoDanglingPointer(s') && SerialsDiffer(s'.store) && LogBelow(s'.store.log, s'.store.serial)
            && PeriodsKept(s'.store.log) && BackoffKept(s'.store.log)
  {
    var s' := Chose(s, id, period);
    assert id in s.store.tasks ==> LinkedAt(s.store, id, s.store.tasks[id]);
    SerialsStillDiffer(s.store, s'.store);
    forall id | id in s'.store.tasks ensures LinkedAt(s'.store, id, s'.store.tasks[id]) {
      assert LinkedAt(s.store, id, s.store.tasks[id]);
    }
  }

  /** Moving the first id from the turns to take to the turns taken. */
  lemma HeadTaken(turns: seq<Id>, picks: seq<Candidate>, chosen: seq<Id>)
    requires picks != [] && DistinctIds(picks) && chosen == turns + Ids(picks)
    ensures chosen == turns + [picks[0].id] + Ids(picks[1..])
    ensures DistinctIds(picks[1..]) && picks[0].id !in Ids(picks[1..])
    ensures forall p :: p in picks[1..] ==> p in picks && p.id != picks[0].id
  {
    assert Ids(picks) == [picks[0].id] + Ids(picks[1..]);
  }

  /** A claim leaves the other tasks of the ready set ready to be picked. */
  lemma OtherPickOk(s: State, id: Id, period: Option<int>, p: Candidate)
    requires Inv(s) && s.activity == NoTask && PickOk(s, p) && p.id != id
    ensures PickOk(Chose(s, id, period), p)
  {
    assert id in s.store.tasks ==> LinkedAt(s.store, id, s.store.tasks[id]);
    assert p.id in s.store.tasks ==> LinkedAt(s.store, p.id, s.store.tasks[p.id]);
  }

  lemma TurnKeepsCycle(s: State)
    requires Inv(s) && s.activity == NoTask && s.work.Picking? && s.work.rest != []
    ensures var s' := Chose(s, s.work.rest[0].id, Some(s.work.rest[0].period)).(work := Picking(s.work.rest[1..], false));
            ClaimOk(s') && CycleOk(s')
  {
    var c, rest := s.work.rest[0], s.work.rest[1..];
    var s' := Chose(s, c.id, Some(c.period)).(work := Picking(rest, false));
    assert PickOk(s, c);
    HeadTaken(Turns(s.store.log), s.work.rest, LastChosen(s.store.log));
    assert c.id in s.store.tasks ==> LinkedAt(s.store, c.id, s.store.tasks[c.id]);
    forall p | p in rest ensures PickOk(s', p) {
      assert PickOk(s, p);
      OtherPickOk(s, c.id, Some(c.period), p);
    }
  }

  lemma TurnKeepsInv(s: State)
    requires Inv(s) && s.activity == NoTask && s.work.Picking? && s.work.rest != []
    ensures Inv(Chose(s, s.work.rest[0].id, Some(s.work.rest[0].period)).(work := Picking(s.work.rest[1..], false)))
  {
    var c := s.work.rest[0];
    var s' := Chose(s, c.id, Some(c.period));
    ClaimKeepsTables(s, c.id, Some(c.period));
    TurnKeepsCycle(s);
    forall b: Block ensures SlotOk(s'.(work := Picking(s.work.rest[1..], false)), b) {
      ClaimKeepsSlot(s, c.id, Some(c.period), b);
      assert SlotOk(s', b);
    }
  }

  lemma CustomTurnKeepsInv(s: State, id: Id, left: nat)
    requires Inv(s) && s.activity == NoTask && s.work.CustomPicks?
    ensures Inv(Chose(s, id, None).(work := CustomPicks(left, false)))
  {
    var s' := Chose(s, id, None);
    ClaimKeepsTables(s, id, None);
    forall b: Block ensures SlotOk(s'.(work := CustomPicks(left, false)), b) {
      ClaimKeepsSlot(s, id, None, b);
      assert SlotOk(s', b);
    }
  }

  lemma BeginRunKeepsInv(s: State, s': State)
    requires Inv(s) && BeginRunStep(s, s')
    ensures Inv(s')
  {
    var a := s.activity;
    assert SlotOk(s, a.block);
    forall b: Block ensures SlotOk(s', b) {
      assert SlotOk(s, b);
    }
    SerialsStillDiffer(s.store, s'.store);
    forall id | id in s'.store.tasks ensures LinkedAt(s'.store, id, s'.store.tasks[id]) {
      assert LinkedAt(s.store, id, s.store.tasks[id]);
    }
    if s.work.Picking? {
      forall c | c in s.work.rest ensures PickOk(s', c) {
        assert PickOk(s, c);
      }
    }
  }

  lemma EndRunKeepsInv(s: State, ok: bool, s': State)
    requires Inv(s) && MoveStep(s, EndRun(ok), s')
    ensures Inv(s')
  {
    forall b: Block ensures SlotOk(s', b) {
      assert SlotOk(s, b);
    }
    if s.work.Picking? {
      forall c | c in s.work.rest ensures PickOk(s', c) {
        assert PickOk(s, c);
      }
    }
  }

  lemma SettleKeepsSlot(s: State, s': State, b: Block)
    requires Inv(s) && FinalizeStep(s, s')
    ensures SlotOk(s', b)
  {
    var mine := s.activity.block;
    assert SlotOk(s, b) && SlotOk(s, mine);
    assert Holds(s.store, b) && b != mine ==> TaskAt(s.store, b).serial != TaskAt(s.store, mine).serial;
  }

  lemma SettleKeepsCycle(s: State, s': State)
    requires Inv(s) && FinalizeStep(s, s')
    ensures ClaimOk(s') && CycleOk(s')
  {
    var mine := s.activity.block;
    assert SlotOk(s, mine);
    if s.work.Picking? {
      forall c | c in s.work.rest ensures PickOk(s', c) {
        assert PickOk(s, c);
        if c.id in s.store.tasks {
          var b := s.store.tasks[c.id];
          assert LinkedAt(s.store, c.id, b) && SlotOk(s, b);
          var k :| 0 <= k < |s.work.rest| && s.work.rest[k] == c;
          assert Ids(s.work.rest)[k] == c.id;
          assert b != mine;
          assert TaskAt(s.store, b).serial != TaskAt(s.store, mine).serial;
        }
      }
    }
  }

  lemma SettleKeepsInv(s: State, s': State)
    requires Inv(s) && FinalizeStep(s, s')
    ensures Inv(s')
  {
    var mine := s.activity.block;
    assert SlotOk(s, mine);
    forall b: Block ensures SlotOk(s', b) {
      SettleKeepsSlot(s, s', b);
    }
    SettleKeepsCycle(s, s');
    SerialsStillDiffer(s.store, s'.store);
    forall id | id in s'.store.tasks ensures LinkedAt(s'.store, id, s'.store.tasks[id]) {
      assert LinkedAt(s.store, id, s.store.tasks[id]);
    }
  }

  /** Changing only the scheduler thread's place between tasks. */
  lemma MoveKeepsInv(s: State, work: Work)
    requires Inv(s) && s.activity == NoTask && (work.Top? || work == Awake(s.clock))
    ensures Inv(s.(work := work))
  {
    forall b: Block ensures SlotOk(s.(work := work), b) {
      assert SlotOk(s, b);
    }
  }

  /** Changing only the running flag, or admitting a turn. */
  lemma FlagKeepsInv(s: State, s': State)
    requires Inv(s) && s'.store == s.store && s'.clock == s.clock && s'.activity == s.activity
    requires s'.work == s.work || (TurnsLeft(s.work) && s'.work == s.work.(admitted := true))
    ensures Inv(s')
  {
    forall b: Block ensures SlotOk(s', b) {
      assert SlotOk(s, b);
    }
    if s.work.Picking? {
      forall c | c in s.work.rest ensures PickOk(s', c) {
        assert PickOk(s, c);
      }
    }
  }

  lemma NextKeepsInv(s: State, step: Step, s': State)
    requires Inv(s) && Next(s, step, s')
    ensures Inv(s')
  {
    match step
    case AddTask(b, c, elapsed) => AddKeepsInv(s, b, c, elapsed);
    case RemoveTask(id) => RemoveKeepsInv(s, id);
    case RemoveAllTasks(order) => RemoveEachKeepsInv(s, order);
    case UpdateTask(id, c) => UpdateKeepsInv(s, id, c);
    case Select(picks) => SelectKeepsInv(s, picks, s');
    case SelectCustom => ReactivateKeepsInv(s, s.work.now, CustomPicks(|s.store.tasks|, false));
    case Turn => TurnStepKeepsInv(s, s');
    case CustomTurn(id) => CustomTurnStepKeepsInv(s, id, s');
    case BeginRun => BeginRunKeepsInv(s, s');
    case Finalize => SettleKeepsInv(s, s');
    case _ => MoveStepKeepsInv(s, step, s');
  }

  lemma SelectKeepsInv(s: State, picks: seq<Candidate>, s': State)
    requires Inv(s) && SelectStep(s, picks, s')
    ensures Inv(s')
  {
    ReactivateKeepsInv(s, s.work.now, s.work);
    ChosenKeepsInv(s.(store := Reactivate(s.store, s.work.now)), s.work.now, picks);
  }

  lemma TurnStepKeepsInv(s: State, s': State)
    requires Inv(s) && TurnStep(s, s')
    ensures Inv(s')
  {
    if s.work.rest[0].id == 0 {
      MoveKeepsInv(s, Top);
    } else {
      TurnKeepsInv(s);
    }
  }

  lemma CustomTurnStepKeepsInv(s: State, id: Id, s': State)
    requires Inv(s) && CustomTurnStep(s, id, s')
    ensures Inv(s')
  {
    if id == 0 {
      MoveKeepsInv(s, Top);
    } else {
      CustomTurnKeepsInv(s, id, s.work.left - 1);
    }
  }

  lemma MoveStepKeepsInv(s: State, step: Step, s': State)
    requires Inv(s) && MoveStep(s, step, s')
    ensures Inv(s')
  {
    match step
    case Tick(elapsed) => TickKeepsInv(s, elapsed);
    case RaiseRunning => FlagKeepsInv(s, s');
    case ClearRunning => FlagKeepsInv(s, s');
    case Wake => MoveKeepsInv(s, Awake(s.clock));
    case Admit => FlagKeepsInv(s, s');
    case EndCycle => MoveKeepsInv(s, Top);
    case EndRun(ok) => EndRunKeepsInv(s, ok, s');
  }

  // ------------------------------------------------------------------ whole runs

  /** A run: states[i] goes to states[i + 1] by steps[i]. */
  ghost predicate Run(states: seq<State>, steps: seq<Step>) {
    && |states| == |steps| + 1
    && Init(states[0])
    && forall i :: 0 <= i < |steps| ==> StepAt(states, steps, i)
  }

  ghost predicate StepAt(states: seq<State>, steps: seq<Step>, i: nat)
    requires i < |steps| && |states| == |steps| + 1
  {
    Next(states[i], steps[i], states[i + 1])
  }

  lemma {:induction false} RunHasInv(states: seq<State>, steps: seq<Step>, k: nat)
    requires Run(states, steps) && k < |states|
    ensures Inv(states[k])
  {
    if k == 0 {
      InitHasInv(states[0]);
    } else {
      RunHasInv(states, steps, k - 1);
      assert StepAt(states, steps, k - 1);
      NextKeepsInv(states[k - 1], steps[k - 1], states[k]);
    }
  }

  /** In every run, whatever the interleaving: no pointer the program follows dangles, every
      block lives by Alloc (Begin Start Finish)* Dealloc - so it is freed once, never while it
      is executing, and never handed out while allocated - and the executing flag marks
      exactly the block the scheduler is working on. */
  lemma BlocksAreSafe(states: seq<State>, steps: seq<Step>, k: nat, b: Block)
    requires Run(states, steps) && k < |states|
    ensures var s := states[k];
            && NoDanglingPointer(s)
            && PhaseOf(s.store.log, b) != Broken
            && (PhaseOf(s.store.log, b) == Unallocated <==> !Holds(s.store, b))
            && (Holds(s.store, b) ==> (TaskAt(s.store, b).executing <==> Busy(s, b)))
  {
    RunHasInv(states, steps, k);
    assert SlotOk(states[k], b);
  }

  /** In every run: an execution the policies selected starts at least a period - the one in
      force at its selection - after the start of the last successful one; after a full streak
      of failures no execution, however selected, starts before the back-off is over. */
  lemma ExecutionsKeepTheirDistance(states: seq<State>, steps: seq<Step>, k: nat)
    requires Run(states, steps) && k < |states|
    ensures PeriodsKept(states[k].store.log) && BackoffKept(states[k].store.log)
  {
    RunHasInv(states, steps, k);
  }

  /** A registered task is inactive exactly while its failure count stands at the limit, and
      its log then ends in a full streak of failures. */
  lemma InactiveMeansFailing(states: seq<State>, steps: seq<Step>, k: nat, id: Id)
    requires Run(states, steps) && k < |states| && id in states[k].store.tasks
    ensures var st := states[k].store;
            && Holds(st, st.tasks[id])
            && var t := TaskAt(st, st.tasks[id]);
               && (!t.active <==> t.failures == MAX_FAILURES)
               && (!t.active ==> Streak(st.log, t.serial) == MAX_FAILURES)
  {
    RunHasInv(states, steps, k);
    var st := states[k].store;
    assert LinkedAt(st, id, st.tasks[id]);
    assert SlotOk(states[k], st.tasks[id]);
  }

  /** While a cycle picks from its ready set, the turns taken and the turns left are together
      that set in its order, without repeats. */
  lemma TurnsFollowTheReadySet(states: seq<State>, steps: seq<Step>, k: nat)
    requires Run(states, steps) && k < |states| && states[k].work.Picking?
    ensures var s := states[k];
            && LastChosen(s.store.log) == Turns(s.store.log) + Ids(s.work.rest)
            && DistinctIds(s.work.rest)
  {
    RunHasInv(states, steps, k);
  }

  /** A turn claims its task exactly if that is still registered and active, and its number is
      not 0: the check that it is not executing never decides, since nothing executes between
      turns. Number 0 ends the cycle, without a trace. */
  lemma TurnRunsIfRegisteredAndActive(states: seq<State>, steps: seq<Step>, k: nat)
    requires Run(states, steps) && k < |steps| && steps[k].Turn?
    ensures states[k].work.Picking? && states[k].work.rest != []
    ensures var st, id, s' := states[k].store, states[k].work.rest[0].id, states[k + 1];
            && (id in st.tasks ==> Holds(st, st.tasks[id]))
            && (s'.activity.Claimed? <==> id != 0 && id in st.tasks && TaskAt(st, st.tasks[id]).active)
            && Turns(s'.store.log) == Turns(st.log) + (if id == 0 then [] else [id])
            && ClaimsIn(s'.store.log) == ClaimsIn(st.log) + (if s'.activity.Claimed? then [id] else [])
            && (s'.work.Top? <==> id == 0)
  {
    RunHasInv(states, steps, k);
    assert StepAt(states, steps, k);
    var st, id := states[k].store, states[k].work.rest[0].id;
    if id in st.tasks {
      assert LinkedAt(st, id, st.tasks[id]);
      assert SlotOk(states[k], st.tasks[id]);
    }
  }

  // ------------------------------------------------------------------ whole cycles

  /** The ids claimed since the last ready set was chosen, and the ids of the tasks started. */
  function ClaimsIn(log: Log): seq<Id> {
    match log
    case NoEvents => []
    case Then(before, e) => if e.Chosen? then [] else if e.Begin? then ClaimsIn(before) + [e.id] else ClaimsIn(before)
  }

  function RunsIn(log: Log): seq<Id> {
    match log
    case NoEvents => []
    case Then(before, e) =>
      if e.Chosen? then [] else if e.Start? then RunsIn(before) + [IdOf(e.serial)] else RunsIn(before)
  }

  predicate NoRepeats(ids: seq<Id>) {
    forall i, j :: 0 <= i < j < |ids| ==> ids[i] != ids[j]
  }

  /** Registrations are numbered from 1. */
  ghost predicate SerialsOk(st: Store) {
    st.serial >= 1 && forall b :: Holds(st, b) ==> TaskAt(st, b).serial >= 1
  }

  /** What has been claimed has been started, but for a task just claimed; no turn was taken for
      number 0, and no ready set had it before the counter wrapped. */
  ghost predicate CycleHistoryOk(s: State) {
    && (s.activity.Claimed? ==> Holds(s.store, s.activity.block))
    && ClaimsIn(s.store.log) ==
         RunsIn(s.store.log) + (if s.activity.Claimed? then [TaskAt(s.store, s.activity.block).taskId] else [])
    && (s.work.Picking? ==>
          && NoRepeats(LastChosen(s.store.log)) && 0 !in Turns(s.store.log)
          && (0 in LastChosen(s.store.log) ==> s.store.serial > ID_COUNT))
  }

  /** Without leaving the counter's range no identifier is 0. */
  lemma NoIdZeroBeforeWrap(s: State)
    requires Inv(s) && SerialsOk(s.store) && s.store.serial <= ID_COUNT
    ensures 0 !in s.store.tasks
  {
    forall id | id in s.store.tasks ensures id != 0 {
      assert LinkedAt(s.store, id, s.store.tasks[id]);
      assert SlotOk(s, s.store.tasks[id]);
    }
  }

  lemma {:induction false} RemoveEachKeepsNumbers(st: Store, order: seq<Id>)
    requires Linked(st)
    ensures var r := RemoveEach(st, order);
            && r.serial == st.serial && NoNewTasks(st, r)
            && Turns(r.log) == Turns(st.log) && LastChosen(r.log) == LastChosen(st.log)
            && ClaimsIn(r.log) == ClaimsIn(st.log) && RunsIn(r.log) == RunsIn(st.log)
  {
    if order != [] {
      RemoveEachKeepsNumbers(st, order[..|order| - 1]);
      RemoveKeepsNumbers(RemoveEach(st, order[..|order| - 1]), order[|order| - 1]);
    }
  }

  lemma RemoveKeepsNumbers(st: Store, id: Id)
    requires Linked(st)
    ensures var r := Remove(st, id);
            && r.serial == st.serial && NoNewTasks(st, r)
            && Turns(r.log) == Turns(st.log) && LastChosen(r.log) == LastChosen(st.log)
            && ClaimsIn(r.log) == ClaimsIn(st.log) && RunsIn(r.log) == RunsIn(st.log)
  {
    if id in st.tasks {
      assert LinkedAt(st, id, st.tasks[id]);
    }
  }

  /** Only adding a task brings a new registration. */
  lemma OnlyAddingRegisters(s: State, step: Step, s': State)
    requires Linked(s.store) && Next(s, step, s') && !step.AddTask?
    ensures NoNewTasks(s.store, s'.store) && s'.store.serial == s.store.serial
  {
    match step
    case RemoveTask(id) => RemoveKeepsNumbers(s.store, id);
    case RemoveAllTasks(order) => RemoveEachKeepsNumbers(s.store, order);
    case UpdateTask(id, c) =>
      if id in s.store.tasks {
        assert LinkedAt(s.store, id, s.store.tasks[id]);
      }
    case Turn => ClaimKeepsNumbers(s.store, s.work.rest[0].id);
    case CustomTurn(id) => ClaimKeepsNumbers(s.store, id);
    case _ =>
  }

  lemma NextKeepsSerials(s: State, step: Step, s': State)
    requires Linked(s.store) && SerialsOk(s.store) && Next(s, step, s')
    ensures SerialsOk(s'.store) && s'.store.serial >= s.store.serial
  {
    if step.AddTask? {
      forall b | Holds(s'.store, b) ensures TaskAt(s'.store, b).serial >= 1 {
        assert b != step.block ==> Holds(s.store, b);
      }
    } else {
      OnlyAddingRegisters(s, step, s');
    }
  }

  lemma ClaimKeepsNumbers(st: Store, id: Id)
    requires Linked(st)
    ensures Claim(st, id).serial == st.serial && NoNewTasks(st, Claim(st, id))
  {
    if id in st.tasks {
      assert LinkedAt(st, id, st.tasks[id]);
    }
  }

  /** The task a claim is about keeps its number, whatever is removed, added or updated. */
  lemma ClaimedTaskKept(s: State, step: Step, s': State)
    requires Inv(s) && Inv(s') && Next(s, step, s') && s.activity.Claimed? && s'.activity.Claimed?
    ensures Holds(s'.store, s.activity.block) && s'.activity == s.activity
    ensures TaskAt(s'.store, s.activity.block).taskId == TaskAt(s.store, s.activity.block).taskId
  {
    var b := s.activity.block;
    assert SlotOk(s, b) && SlotOk(s', b);
    match step
    case RemoveTask(id) => RemoveKeepsNumbers(s.store, id);
    case RemoveAllTasks(order) => RemoveEachKeepsNumbers(s.store, order);
    case UpdateTask(id, c) =>
      if id in s.store.tasks {
        assert LinkedAt(s.store, id, s.store.tasks[id]);
      }
    case _ =>
  }

  lemma SelectKeepsCycleHistory(s: State, picks: seq<Candidate>, s': State)
    requires Inv(s) && SerialsOk(s.store) && SelectStep(s, picks, s')
    ensures CycleHistoryOk(s')
  {
    ReactivateKeepsInv(s, s.work.now, s.work);
    assert Ids(picks) == LastChosen(s'.store.log);
    if 0 in Ids(picks) && s.store.serial <= ID_COUNT {
      NoIdZeroBeforeWrap(s);
    }
  }

  lemma TurnKeepsCycleHistory(s: State, s': State)
    requires Inv(s) && CycleHistoryOk(s) && TurnStep(s, s')
    ensures CycleHistoryOk(s')
  {
    var id := s.work.rest[0].id;
    if id in s.store.tasks {
      assert LinkedAt(s.store, id, s.store.tasks[id]);
    }
  }

  lemma CustomTurnKeepsCycleHistory(s: State, id: Id, s': State)
    requires Inv(s) && CycleHistoryOk(s) && CustomTurnStep(s, id, s')
    ensures CycleHistoryOk(s')
  {
    if id in s.store.tasks {
      assert LinkedAt(s.store, id, s.store.tasks[id]);
    }
  }

  lemma BeginRunKeepsCycleHistory(s: State, s': State)
    requires Inv(s) && CycleHistoryOk(s) && BeginRunStep(s, s')
    ensures CycleHistoryOk(s')
  {
    assert SlotOk(s, s.activity.block);
  }

  lemma FinalizeKeepsCycleHistory(s: State, s': State)
    requires Inv(s) && CycleHistoryOk(s) && FinalizeStep(s, s')
    ensures CycleHistoryOk(s')
  {
    var a := s.activity;
    SettleKeepsNumbers(s.store, a.block, a.start, a.end, a.ok);
  }

  lemma SettleKeepsNumbers(st: Store, b: Block, start: int, end: int, ok: bool)
    requires Holds(st, b)
    ensures var r := Settle(st, b, start, end, ok);
            && r.serial == st.serial
            && Turns(r.log) == Turns(st.log) && LastChosen(r.log) == LastChosen(st.log)
            && ClaimsIn(r.log) == ClaimsIn(st.log) && RunsIn(r.log) == RunsIn(st.log)
  {
    var log := Then(st.log, Finish(b, TaskAt(st, b).serial, start, end, ok));
    assert Turns(log) == Turns(st.log) && LastChosen(log) == LastChosen(st.log);
    assert ClaimsIn(log) == ClaimsIn(st.log) && RunsIn(log) == RunsIn(st.log);
  }

  /** Steps that record nothing about the cycle, and leave the claim. */
  lemma RecordsKeepCycleHistory(s: State, s': State)
    requires CycleHistoryOk(s) && s'.work == s.work && s'.activity == s.activity && s'.store.serial >= s.store.serial
    requires Turns(s'.store.log) == Turns(s.store.log) && LastChosen(s'.store.log) == LastChosen(s.store.log)
    requires ClaimsIn(s'.store.log) == ClaimsIn(s.store.log) && RunsIn(s'.store.log) == RunsIn(s.store.log)
    requires s.activity.Claimed? ==>
               && Holds(s'.store, s.activity.block)
               && TaskAt(s'.store, s.activity.block).taskId == TaskAt(s.store, s.activity.block).taskId
    ensures CycleHistoryOk(s')
  {
  }

  lemma ApiKeepsCycleHistory(s: State, step: Step, s': State)
    requires Inv(s) && Inv(s') && CycleHistoryOk(s) && Next(s, step, s') && s'.store.serial >= s.store.serial
    requires step.AddTask? || step.RemoveTask? || step.RemoveAllTasks? || step.UpdateTask?
    ensures CycleHistoryOk(s')
  {
    if s.activity.Claimed? {
      ClaimedTaskKept(s, step, s');
    }
    match step
    case AddTask(b, c, elapsed) =>
    case RemoveTask(id) => RemoveKeepsNumbers(s.store, id);
    case RemoveAllTasks(order) => RemoveEachKeepsNumbers(s.store, order);
    case UpdateTask(id, c) =>
    RecordsKeepCycleHistory(s, s');
  }

  lemma MoveKeepsCycleHistory(s: State, step: Step, s': State)
    requires CycleHistoryOk(s) && MoveStep(s, step, s')
    ensures CycleHistoryOk(s')
  {
  }

  lemma NextKeepsCycleHistory(s: State, step: Step, s': State)
    requires Inv(s) && Inv(s') && SerialsOk(s.store) && CycleHistoryOk(s) && Next(s, step, s')
    requires s'.store.serial >= s.store.serial
    ensures CycleHistoryOk(s')
  {
    match step
    case AddTask(_, _, _) => ApiKeepsCycleHistory(s, step, s');
    case RemoveTask(_) => ApiKeepsCycleHistory(s, step, s');
    case RemoveAllTasks(_) => ApiKeepsCycleHistory(s, step, s');
    case UpdateTask(_, _) => ApiKeepsCycleHistory(s, step, s');
    case Select(picks) => SelectKeepsCycleHistory(s, picks, s');
    case SelectCustom =>
    case Turn => TurnKeepsCycleHistory(s, s');
    case CustomTurn(id) => CustomTurnKeepsCycleHistory(s, id, s');
    case BeginRun => BeginRunKeepsCycleHistory(s, s');
    case Finalize => FinalizeKeepsCycleHistory(s, s');
    case _ => MoveKeepsCycleHistory(s, step, s');
  }

  ghost predicate HistoryOk(s: State) {
    SerialsOk(s.store) && CycleHistoryOk(s)
  }

  lemma InitHasHistory(s: State)
    requires Init(s)
    ensures HistoryOk(s)
  {
  }

  lemma NextKeepsHistory(s: State, step: Step, s': State)
    requires Inv(s) && HistoryOk(s) && Next(s, step, s')
    ensures HistoryOk(s')
  {
    NextKeepsInv(s, step, s');
    NextKeepsSerials(s, step, s');
    NextKeepsCycleHistory(s, step, s');
  }

  lemma {:induction false} RunHasHistory(states: seq<State>, steps: seq<Step>, k: nat)
    requires Run(states, steps) && k < |states|
    ensures HistoryOk(states[k])
  {
    if k == 0 {
      InitHasHistory(states[0]);
    } else {
      RunHasHistory(states, steps, k - 1);
      RunHasInv(states, steps, k - 1);
      assert StepAt(states, steps, k - 1);
      NextKeepsHistory(states[k - 1], steps[k - 1], states[k]);
    }
  }

  /** A cycle that ends with the running flag up has taken the turn of every task of its ready
      set, in order, if and only if none of them is numbered 0 - and none is before the 32-bit
      counter wrapped. Otherwise it stopped right before that one. */
  lemma CycleTakesEveryTurn(states: seq<State>, steps: seq<Step>, k: nat)
    requires Run(states, steps) && k < |steps|
    requires states[k].work.Picking? && states[k + 1].work.Top? && states[k + 1].running
    ensures var log := states[k + 1].store.log;
            && (Turns(log) == LastChosen(log) <==> 0 !in LastChosen(log))
            && (0 in LastChosen(log) ==>
                  |Turns(log)| < |LastChosen(log)| && LastChosen(log)[|Turns(log)|] == 0
                  && Turns(log) == LastChosen(log)[..|Turns(log)|])
    ensures states[k].store.serial <= ID_COUNT ==> 0 !in LastChosen(states[k + 1].store.log)
  {
    RunHasInv(states, steps, k);
    RunHasHistory(states, steps, k);
    assert StepAt(states, steps, k);
    var s := states[k];
    var turns, rest, chosen := Turns(s.store.log), Ids(s.work.rest), LastChosen(s.store.log);
    assert chosen == turns + rest;
    if steps[k].Turn? {
      assert rest[0] == 0 && chosen[|turns|] == rest[0];
    }
  }

  lemma {:induction false} ClaimsAmongTurns(log: Log)
    requires NoRepeats(Turns(log))
    ensures NoRepeats(ClaimsIn(log)) && forall id :: id in ClaimsIn(log) ==> id in Turns(log)
  {
    if log.Then? && !log.event.Chosen? {
      assert NoRepeats(Turns(log.before)) by {
        assert Turns(log.before) == Turns(log)[..|Turns(log.before)|];
      }
      ClaimsAmongTurns(log.before);
      if log.event.Begin? {
        assert Turns(log)[|Turns(log.before)|] == log.event.id;
        assert log.event.id !in Turns(log.before);
      }
    }
  }

  /** In every cycle, at any moment between tasks: the tasks run since the ready set was chosen
      are exactly those claimed in their turns, in that order, and each ran once. */
  lemma ReadyTasksRunOnce(states: seq<State>, steps: seq<Step>, k: nat)
    requires Run(states, steps) && k < |states| && states[k].activity.NoTask?
    ensures RunsIn(states[k].store.log) == ClaimsIn(states[k].store.log)
    ensures states[k].work.Picking? ==>
              && NoRepeats(RunsIn(states[k].store.log))
              && forall id :: id in RunsIn(states[k].store.log) ==> id in Turns(states[k].store.log)
  {
    RunHasInv(states, steps, k);
    RunHasHistory(states, steps, k);
    var log := states[k].store.log;
    if states[k].work.Picking? {
      assert Turns(log) == LastChosen(log)[..|Turns(log)|];
      ClaimsAmongTurns(log);
    }
  }

  /** How many turns are taken from state i to state j of a run. */
  function TurnsTaken(steps: seq<Step>, i: nat, j: nat): nat
    requires i <= j <= |steps|
  {
    if i == j then 0
    else TurnsTaken(steps, i, j - 1) + (if steps[j - 1].Turn? || steps[j - 1].CustomTurn? then 1 else 0)
  }

  /** Once the running flag is down, and until it is raised, at most one more turn is taken: one
      that had passed the loop's test before. */
  lemma {:induction false} HaltLetsOneTurnPass(states: seq<State>, steps: seq<Step>, i: nat, j: nat)
    requires Run(states, steps) && i <= j < |states| && !states[i].running
    requires forall k :: i <= k < j ==> !steps[k].RaiseRunning?
    ensures !states[j].running
    ensures TurnsTaken(steps, i, j) + (if Admitted(states[j].work) then 1 else 0)
         <= if Admitted(states[i].work) then 1 else 0
    decreases j
  {
    if i < j {
      HaltLetsOneTurnPass(states, steps, i, j - 1);
      assert StepAt(states, steps, j - 1);
    }
  }

  // ------------------------------------------------------ allocated blocks are accounted for

  /** An allocated block neither registered nor waiting for the scheduler to free it. */
  predicate Leaked(st: Store, b: Block) {
    Holds(st, b) && !Registered(st, b) && !TaskAt(st, b).pendingRemoval
  }

  ghost predicate Accounted(st: Store) {
    forall b: Block :: !Leaked(st, b)
  }

  function Allocated(st: Store): set<Block> {
    set b | 0 <= b < |st.slots| && st.slots[b].Used?
  }

  /** Without leaks the allocated blocks are the registered ones and at most one orphan, which
      is executing and due for removal. */
  lemma AllocatedBlocks(s: State) returns (orphans: set<Block>)
    requires Inv(s) && Accounted(s.store)
    ensures Allocated(s.store) == s.store.tasks.Values + orphans && orphans !! s.store.tasks.Values
    ensures |orphans| <= 1
    ensures forall b :: b in orphans ==> Holds(s.store, b) && TaskAt(s.store, b).pendingRemoval && Busy(s, b)
  {
    var st := s.store;
    orphans := if s.activity != NoTask && TaskAt(st, s.activity.block).pendingRemoval then {s.activity.block} else {};
    forall b ensures b in Allocated(st) <==> b in st.tasks.Values + orphans {
      assert SlotOk(s, b) && !Leaked(st, b);
      if b in st.tasks.Values {
        var id :| id in st.tasks && st.tasks[id] == b;
        assert LinkedAt(st, id, b);
      }
    }
    forall b | b in st.tasks.Values ensures b !in orphans {
      var id :| id in st.tasks && st.tasks[id] == b;
      assert LinkedAt(st, id, b);
    }
  }

  lemma RemoveLeaks(s: State, id: Id, b: Block)
    requires Inv(s)
    ensures Leaked(Remove(s.store, id), b) <==> Leaked(s.store, b)
  {
    if id in s.store.tasks {
      assert LinkedAt(s.store, id, s.store.tasks[id]);
    }
    assert SlotOk(s, b);
  }

  lemma {:induction false} RemoveEachLeaks(s: State, order: seq<Id>, b: Block)
    requires Inv(s)
    ensures Leaked(RemoveEach(s.store, order), b) <==> Leaked(s.store, b)
  {
    if order != [] {
      RemoveEachLeaks(s, order[..|order| - 1], b);
      RemoveEachKeepsInv(s, order[..|order| - 1]);
      RemoveLeaks(s.(store := RemoveEach(s.store, order[..|order| - 1])), order[|order| - 1], b);
    }
  }

  lemma ClaimLeaks(s: State, id: Id, b: Block)
    requires Inv(s)
    ensures Leaked(Claim(s.store, id), b) <==> Leaked(s.store, b)
  {
    if id in s.store.tasks {
      assert LinkedAt(s.store, id, s.store.tasks[id]);
    }
  }

  lemma AddLeaks(s: State, b: Block, c: Constraints, elapsed: nat, s': State, other: Block)
    requires Inv(s) && AddStep(s, b, c, elapsed, s')
    ensures var id := IdOf(s.store.serial);
            Leaked(s'.store, other) <==> Leaked(s.store, other) || (id in s.store.tasks && s.store.tasks[id] == other)
  {
    assert SlotOk(s, other);
    var id := IdOf(s.store.serial);
    if id in s.store.tasks {
      assert LinkedAt(s.store, id, s.store.tasks[id]);
    }
  }

  lemma UpdateLeaks(st: Store, id: Id, c: Constraints, b: Block)
    requires Linked(st)
    ensures Leaked(Update(st, id, c), b) <==> Leaked(st, b)
  {
    if id in st.tasks {
      assert LinkedAt(st, id, st.tasks[id]);
    }
  }

  lemma ReactivateLeaks(st: Store, now: int, b: Block)
    ensures Leaked(Reactivate(st, now), b) <==> Leaked(st, b)
  {
  }

  lemma SettleLeaks(s: State, s': State, b: Block)
    requires Inv(s) && FinalizeStep(s, s')
    ensures Leaked(s'.store, b) <==> Leaked(s.store, b)
  {
    assert SlotOk(s, b) && SlotOk(s, s.activity.block);
  }

  /** Only adding a task under an identifier still in use leaks: the block it was in use for.
      And what is leaked stays leaked. */
  lemma NextLeaks(s: State, step: Step, s': State, b: Block)
    requires Inv(s) && Next(s, step, s')
    ensures Leaked(s'.store, b) <==>
              Leaked(s.store, b)
              || (step.AddTask? && IdOf(s.store.serial) in s.store.tasks && s.store.tasks[IdOf(s.store.serial)] == b)
  {
    match step
    case AddTask(at, c, elapsed) => AddLeaks(s, at, c, elapsed, s', b);
    case RemoveTask(id) => RemoveLeaks(s, id, b);
    case RemoveAllTasks(order) => RemoveEachLeaks(s, order, b);
    case UpdateTask(id, c) => UpdateLeaks(s.store, id, c, b);
    case Select(_) => ReactivateLeaks(s.store, s.work.now, b);
    case SelectCustom => ReactivateLeaks(s.store, s.work.now, b);
    case Turn => ClaimLeaks(s, s.work.rest[0].id, b);
    case CustomTurn(id) => ClaimLeaks(s, id, b);
    case BeginRun =>
    case Finalize => SettleLeaks(s, s', b);
    case _ =>
  }

  /** The identifier the next registration gets is in use. */
  predicate IdInUse(st: Store) {
    IdOf(st.serial) in st.tasks
  }

  /** In every run, the allocated blocks are accounted for at a state if and only if no task
      was added before it under an identifier still in use. */
  lemma {:induction false} AccountedIffNoIdReused(states: seq<State>, steps: seq<Step>, k: nat)
    requires Run(states, steps) && k < |states|
    ensures Accounted(states[k].store) <==>
              forall i :: 0 <= i < k ==> (steps[i].AddTask? ==> !IdInUse(states[i].store))
  {
    if k > 0 {
      AccountedIffNoIdReused(states, steps, k - 1);
      RunHasInv(states, steps, k - 1);
      var s, step, s' := states[k - 1], steps[k - 1], states[k];
      assert StepAt(states, steps, k - 1);
      forall b: Block
        ensures Leaked(s'.store, b) <==>
                  Leaked(s.store, b)
                  || (step.AddTask? && IdInUse(s.store) && s.store.tasks[IdOf(s.store.serial)] == b)
      {
        NextLeaks(s, step, s', b);
      }
      if step.AddTask? && IdInUse(s.store) {
        assert Leaked(s'.store, s.store.tasks[IdOf(s.store.serial)]);
      }
      if !Accounted(s.store) {
        var b: Block :| Leaked(s.store, b);
        assert Leaked(s'.store, b);
      }
    }
  }

  /** Before the counter wraps no identifier is in use twice. */
  lemma NoIdReusedBeforeWrap(s: State)
    requires Inv(s) && s.store.serial < ID_COUNT
    ensures !IdInUse(s.store)
  {
    forall id | id in s.store.tasks ensures id < s.store.serial {
      assert LinkedAt(s.store, id, s.store.tasks[id]);
      assert SlotOk(s, s.store.tasks[id]);
    }
  }

  // The run that leaks: one task stays registered while 2^32 - 1 others come and go.

  function One(c: Constraints): Task {
    NewTask(1, c, 0, 0)
  }

  /** The first task is registered in block 0, block 1 is free, the next number is n. */
  ghost predicate Churned(s: State, c: Constraints, n: nat) {
    && s.store.slots == [Used(One(c)), Free] && s.store.tasks == map[1 := 0] && s.store.serial == n
    && s.clock == 0 && s.work == Top && s.activity == NoTask
  }

  lemma Extend(states: seq<State>, steps: seq<Step>, step: Step, s': State)
    requires Run(states, steps) && Next(states[|states| - 1], step, s')
    ensures Run(states + [s'], steps + [step])
  {
    forall i | 0 <= i < |steps| + 1 ensures StepAt(states + [s'], steps + [step], i) {
      assert i < |steps| ==> StepAt(states, steps, i);
    }
  }

  lemma AddNext(s: State, b: Block, c: Constraints) returns (s': State)
    requires Linked(s.store) && s.activity == NoTask && b < |s.store.slots| && s.store.slots[b] == Free
    ensures Next(s, AddTask(b, c, 0), s')
    ensures s' == s.(store := Add(s.store, b, c, s.clock, s.clock))
  {
    s' := s.(store := Add(s.store, b, c, s.clock, s.clock), clock := s.clock + 0);
  }

  /** One more task comes and goes. */
  lemma ChurnOnce(s: State, c: Constraints, n: nat) returns (mid: State, s': State)
    requires Churned(s, c, n) && 2 <= n <= ID_COUNT
    ensures Next(s, AddTask(1, c, 0), mid) && Next(mid, RemoveTask(IdOf(n)), s') && Churned(s', c, n + 1)
  {
    assert IdOf(n) != 1;
    mid := AddNext(s, 1, c);
    assert mid.store.tasks == map[1 := 0, IdOf(n) := 1];
    s' := mid.(store := Remove(mid.store, IdOf(n)));
    assert s'.store.tasks == map[1 := 0];
    assert s'.store.slots == [Used(One(c)), Free];
  }

  lemma {:induction false} Churn(c: Constraints, n: nat) returns (states: seq<State>, steps: seq<Step>)
    requires 2 <= n <= ID_COUNT + 1
    ensures Run(states, steps) && Churned(states[|states| - 1], c, n)
  {
    if n == 2 {
      var start := State(Store([Free, Free], map[], 1, NoEvents), 0, Top, NoTask, false);
      var s' := AddNext(start, 0, c);
      states, steps := [start] + [s'], [] + [AddTask(0, c, 0)];
      Extend([start], [], AddTask(0, c, 0), s');
    } else {
      states, steps := Churn(c, n - 1);
      var mid, s' := ChurnOnce(states[|states| - 1], c, n - 1);
      Extend(states, steps, AddTask(1, c, 0), mid);
      states, steps := states + [mid], steps + [AddTask(1, c, 0)];
      Extend(states, steps, RemoveTask(IdOf(n - 1)), s');
      states, steps := states + [s'], steps + [RemoveTask(IdOf(n - 1))];
    }
  }

  /** The wrapped identifier counter does leak: a run of a pool with two blocks that ends with
      block 0 allocated, not registered, and never to be freed. */
  lemma WrappedIdLeaks() returns (states: seq<State>, steps: seq<Step>)
    ensures Run(states, steps) && Leaked(states[|states| - 1].store, 0)
  {
    var c := Constraints(1000, 1000, Normal);
    states, steps := Churn(c, ID_COUNT + 1);
    var s := states[|states| - 1];
    var s' := AddNext(s, 1, c);
    Extend(states, steps, AddTask(1, c, 0), s');
    states, steps := states + [s'], steps + [AddTask(1, c, 0)];
    assert IdOf(ID_COUNT + 1) == 1;
  }

  // The run that loses turns: the task registered when the counter has wrapped gets number 0.

  /** Tasks 1 and 0 are registered in the two blocks, and ready at the clock's time. */
  ghost predicate ZeroRegistered(s: State, c: Constraints) {
    && s.store.slots == [Used(One(c)), Used(NewTask(ID_COUNT, c, 0, 0))] && s.store.tasks == map[1 := 0, 0 := 1]
    && s.clock == Nanos(c.period) && s.activity == NoTask
  }

  /** The ready set of the two tasks, number 0 first. */
  function ZeroFirst(c: Constraints): seq<Candidate> {
    [ToCandidate(NewTask(ID_COUNT, c, 0, 0)), ToCandidate(One(c))]
  }

  lemma ZeroFirstIsReadySet(s: State, c: Constraints)
    requires ZeroRegistered(s, c)
    ensures Reactivate(s.store, s.clock) == s.store && IsReadySet(s.store, s.clock, ZeroFirst(c))
    ensures Ids(ZeroFirst(c)) == [0, 1] && Linked(s.store)
  {
    assert IdOf(ID_COUNT) == 0 && IdOf(1) == 1;
    assert Reactivate(s.store, s.clock).slots == s.store.slots;
    assert Ids(ZeroFirst(c))[0] == 0 && Ids(ZeroFirst(c))[1] == 1;
    assert LinkedAt(s.store, 0, 1) && LinkedAt(s.store, 1, 0);
  }

  lemma RunToZero(c: Constraints) returns (states: seq<State>, steps: seq<Step>)
    requires c.period >= 0
    ensures Run(states, steps) && ZeroRegistered(states[|states| - 1], c)
    ensures states[|states| - 1].work == Top && states[|states| - 1].running
  {
    states, steps := Churn(c, ID_COUNT);
    var s := states[|states| - 1];
    assert Linked(s.store) by {
      assert LinkedAt(s.store, 1, 0);
    }
    var added := AddNext(s, 1, c);
    Extend(states, steps, AddTask(1, c, 0), added);
    states, steps := states + [added], steps + [AddTask(1, c, 0)];
    assert IdOf(ID_COUNT) == 0;
    assert LinkedAt(added.store, 0, 1) && LinkedAt(added.store, 1, 0);
    var later := added.(clock := Nanos(c.period));
    Extend(states, steps, Tick(Nanos(c.period)), later);
    states, steps := states + [later], steps + [Tick(Nanos(c.period))];
    var up := later.(running := true);
    Extend(states, steps, RaiseRunning, up);
    states, steps := states + [up], steps + [RaiseRunning];
  }

  /** A cycle can lose the turn of a ready, registered, active task: a run that chooses the
      ready set [0, 1] and ends the cycle at its first entry, with the running flag up, no turn
      taken, and both tasks as ready as before. */
  lemma IdZeroEndsTheCycle() returns (states: seq<State>, steps: seq<Step>)
    ensures Run(states, steps)
    ensures var s := states[|states| - 1];
            && s.work.Top? && s.running && s.activity == NoTask
            && LastChosen(s.store.log) == [0, 1] && Turns(s.store.log) == []
            && (forall id :: id in [0, 1] ==>
                  && id in s.store.tasks && Holds(s.store, s.store.tasks[id])
                  && Ready(TaskAt(s.store, s.store.tasks[id]), s.clock))
  {
    var c := Constraints(1000, 1000, Normal);
    states, steps := RunToZero(c);
    var s := states[|states| - 1];
    ZeroFirstIsReadySet(s, c);
    var picks := ZeroFirst(c);
    var awake := s.(work := Awake(s.clock));
    Extend(states, steps, Wake, awake);
    states, steps := states + [awake], steps + [Wake];
    var picking := awake.(store := s.store.(log := Then(s.store.log, Chosen([0, 1]))), work := Picking(picks, false));
    Extend(states, steps, Select(picks), picking);
    states, steps := states + [picking], steps + [Select(picks)];
    assert LinkedAt(picking.store, 0, 1) && LinkedAt(picking.store, 1, 0);
    var admitted := picking.(work := Picking(picks, true));
    Extend(states, steps, Admit, admitted);
    states, steps := states + [admitted], steps + [Admit];
    var ended := admitted.(work := Top);
    Extend(states, steps, Turn, ended);
    states, steps := states + [ended], steps + [Turn];
  }

  // ------------------------------------------------------------ the locked regions as code

  ghost function TaskOfId(st: Store, id: Id): Task
    requires Linked(st) && id in st.tasks
  {
    assert LinkedAt(st, id, st.tasks[id]);
    TaskAt(st, st.tasks[id])
  }

  /** The tasks a traversal has met so far, in the order it met them. */
  ghost predicate Met(st: Store, met: set<Id>, ts: seq<Task>)
    requires Linked(st)
  {
    && Distinct(ts) && met <= st.tasks.Keys
    && (forall i :: 0 <= i < |ts| ==> ts[i].taskId in met && TaskOfId(st, ts[i].taskId) == ts[i])
    && (forall id :: id in met ==> TaskOfId(st, id) in ts)
  }

  lemma MeetOne(st: Store, met: set<Id>, ts: seq<Task>, id: Id)
    requires Linked(st) && Met(st, met, ts) && id in st.tasks && id !in met
    ensures Met(st, met + {id}, ts + [TaskOfId(st, id)])
  {
    assert LinkedAt(st, id, st.tasks[id]);
  }

  /** A traversal that met every registered task collects exactly the ready set. */
  lemma TraversalFindsReadySet(st: Store, now: int, policy: Policy, cursor: Id, ts: seq<Task>, picks: seq<Candidate>)
    requires Linked(st) && Met(st, st.tasks.Keys, ts)
    requires Ordering(policy, cursor, Candidates(ts, now), picks)
    ensures IsReadySet(st, now, picks)
  {
    ReadySetIsExact(policy, cursor, ts, now, picks);
    forall c | c in picks
      ensures c.id in st.tasks && Ready(TaskOfId(st, c.id), now)
              && c.period == TaskOfId(st, c.id).constraints.period
    {
      PermutationKeepsMembers(Candidates(ts, now), picks, c);
      CandidateIsReadyTask(ts, now, c);
    }
    forall id | id in st.tasks && Ready(TaskOfId(st, id), now) ensures id in Ids(picks) {
      assert LinkedAt(st, id, st.tasks[id]);
      var i :| 0 <= i < |ts| && ts[i] == TaskOfId(st, id);
    }
  }

  lemma ReactivateKeepsLinked(st: Store, now: int)
    requires Linked(st)
    ensures Linked(Reactivate(st, now))
  {
    var r := Reactivate(st, now);
    forall id | id in r.tasks ensures LinkedAt(r, id, r.tasks[id]) {
      assert LinkedAt(st, id, st.tasks[id]);
    }
  }

  /** The blocks when the tasks in `met` have been visited. */
  function Visited(st: Store, now: int, met: set<Id>): (r: seq<Slot>)
    ensures |r| == |st.slots|
  {
    seq(|st.slots|, b requires 0 <= b < |st.slots| =>
      if Registered(st, b) && st.slots[b].task.taskId in met then ReactivatedSlot(st, now, b) else st.slots[b])
  }

  lemma VisitOne(st: Store, now: int, met: set<Id>, id: Id)
    requires Linked(st) && id in st.tasks && id !in met
    ensures LinkedAt(st, id, st.tasks[id])
    ensures Visited(st, now, met)[st.tasks[id]] == st.slots[st.tasks[id]]
    ensures Visited(st, now, met + {id})
         == Visited(st, now, met)[st.tasks[id] := Used(Reactivated(TaskOfId(st, id), now))]
    ensures Linked(Reactivate(st, now))
    ensures TaskOfId(Reactivate(st, now), id) == Reactivated(TaskOfId(st, id), now)
  {
    ReactivateKeepsLinked(st, now);
    assert LinkedAt(st, id, st.tasks[id]);
    var b := st.tasks[id];
    forall other | 0 <= other < |st.slots|
      ensures Visited(st, now, met + {id})[other]
           == Visited(st, now, met)[b := Used(Reactivated(TaskOfId(st, id), now))][other]
    {
    }
  }

  /** What a traversal has done after meeting the tasks in `met`: the blocks, and the candidates. */
  ghost predicate Traversed(st: Store, now: int, met: set<Id>, slots: seq<Slot>, ts: seq<Task>, cs: seq<Candidate>)
    requires Linked(st)
  {
    ReactivateKeepsLinked(st, now);
    slots == Visited(st, now, met) && Met(Reactivate(st, now), met, ts) && cs == Candidates(ts, now)
  }

  lemma TraverseOne(st: Store, now: int, met: set<Id>, slots: seq<Slot>, ts: seq<Task>, cs: seq<Candidate>, id: Id)
    returns (b: Block, task: Task)
    requires Linked(st) && Traversed(st, now, met, slots, ts, cs) && id in st.tasks && id !in met
    ensures b == st.tasks[id] && b < |slots| && slots[b].Used? && task == Reactivated(slots[b].task, now)
    ensures Traversed(st, now, met + {id}, slots[b := Used(task)], ts + [task], cs + Contribution(task, now))
  {
    b := st.tasks[id];
    VisitOne(st, now, met, id);
    task := Reactivated(TaskOfId(st, id), now);
    MeetOne(Reactivate(st, now), met, ts, id);
    CandidatesAppend(ts, [task], now);
    assert Candidates([task], now) == Contribution(task, now);
  }

  lemma TraversedNoneOrAll(st: Store, now: int)
    requires Linked(st)
    ensures Traversed(st, now, {}, st.slots, [], [])
    ensures Linked(Reactivate(st, now)) && Visited(st, now, st.tasks.Keys) == Reactivate(st, now).slots
  {
    ReactivateKeepsLinked(st, now);
  }

  /** The task table of the scheduler. Each method is one region under the tasks mutex; clock
      readings are passed in. */
  class RealTimeScheduler {
    const pool: array<Slot>
    var tasks: map<Id, Block>
    var serial: nat                  // the program keeps it modulo 2^32
    var lastSelectedTask: Id
    ghost var log: Log

    ghost function Contents(): Store
      reads this, pool
    {
      Store(pool[..], tasks, serial, log)
    }

    constructor (capacity: nat)
      ensures fresh(pool) && pool.Length == capacity
      ensures forall now :: Init(State(Contents(), now, Top, NoTask, false))
    {
      pool := new Slot[capacity](_ => Free);
      tasks, serial, lastSelectedTask, log := map[], 1, 0, NoEvents;
    }

    method AddTask(c: Constraints, now: int, later: int) returns (id: Id, ghost b: Block)
      modifies this, pool
      ensures if exists free: Block :: free < |old(pool[..])| && old(pool[..])[free] == Free
              then b < |old(pool[..])| && old(pool[..])[b] == Free
                   && Contents() == Add(old(Contents()), b, c, now, later) && id == IdOf(old(serial))
              else Contents() == old(Contents()) && id == 0
      ensures lastSelectedTask == old(lastSelectedTask)
    {
      var k := 0;
      while k < pool.Length && pool[k] != Free
        invariant 0 <= k <= pool.Length
        invariant forall j :: 0 <= j < k ==> pool[j] != Free
      {
        k := k + 1;
      }
      b := k;
      if k == pool.Length {
        return 0, b;
      }
      id := IdOf(serial);
      log := Then(log, Alloc(b, serial));
      pool[k] := Used(NewTask(serial, c, now, later));
      tasks := tasks[id := k];
      serial := serial + 1;
    }

    method RemoveTask(id: Id) returns (found: bool)
      requires Linked(Contents())
      modifies this, pool
      ensures Contents() == Remove(old(Contents()), id) && found == (id in old(tasks))
      ensures lastSelectedTask == old(lastSelectedTask)
    {
      found := id in tasks;
      if found {
        assert LinkedAt(Contents(), id, tasks[id]);
        var b := tasks[id];
        tasks := tasks - {id};
        DisposeOf(b);
      }
    }

    /** Deactivates a task; its block is freed now, or by the scheduler if it is executing. */
    method DisposeOf(b: Block)
      requires Holds(Contents(), b)
      modifies this`log, pool
      ensures Contents() == Dispose(old(Contents()), b)
    {
      var task := pool[b].task.(active := false);
      if task.executing {
        pool[b] := Used(task.(pendingRemoval := true));
      } else {
        pool[b] := Free;
        log := Then(log, Dealloc(b));
      }
    }

    /** Disposes of every task in some order, then empties the task map. */
    method RemoveAllTasks() returns (ghost order: seq<Id>)
      requires Linked(Contents())
      modifies this, pool
      ensures forall id :: id in order <==> id in old(tasks)
      ensures Contents() == RemoveEach(old(Contents()), order) && tasks == map[]
      ensures lastSelectedTask == old(lastSelectedTask)
    {
      order := [];
      var todo := tasks.Keys;
      ghost var was := Contents();
      while todo != {}
        invariant tasks == was.tasks && serial == was.serial && todo <= tasks.Keys
        invariant forall id :: id in order <==> id in tasks.Keys - todo
        invariant RemoveEach(was, order) == Store(pool[..], tasks - (tasks.Keys - todo), serial, log)
        invariant lastSelectedTask == old(lastSelectedTask)
        decreases todo
      {
        var id :| id in todo;
        ghost var so := RemoveEach(was, order);
        assert id in so.tasks && LinkedAt(so, id, so.tasks[id]);
        DisposeOf(tasks[id]);
        assert order + [id] != [] && (order + [id])[..|order|] == order;
        order := order + [id];
        todo := todo - {id};
        assert tasks - (tasks.Keys - todo) == so.tasks - {id};
      }
      tasks := map[];
    }

    method UpdateTaskConstraints(id: Id, c: Constraints) returns (found: bool)
      requires Linked(Contents())
      modifies pool
      ensures Contents() == Update(old(Contents()), id, c) && found == (id in tasks)
    {
      found := id in tasks;
      if found {
        assert LinkedAt(Contents(), id, tasks[id]);
        pool[tasks[id]] := Used(Constrained(pool[tasks[id]].task, c));
      }
    }

    /** One traversal reactivates tasks whose back-off is over and collects the ready ones,
        which are then put in the order of the policy. */
    method SelectReadyTasksForCycle(policy: Policy, now: int) returns (picks: seq<Candidate>, ghost ts: seq<Task>)
      requires Linked(Contents())
      modifies this, pool
      ensures var st := Reactivate(old(Contents()), now);
              Contents() == st.(log := Then(st.log, Chosen(Ids(picks)))) && IsReadySet(st, now, picks)
      ensures Ordering(policy, old(lastSelectedTask), Candidates(ts, now), picks)
      ensures lastSelectedTask == if policy == RoundRobin && picks != [] then picks[|picks| - 1].id
                                  else old(lastSelectedTask)
    {
      ghost var was := Contents();
      var candidates;
      candidates, ts := Traverse(now);
      picks, lastSelectedTask := OrderCandidates(policy, lastSelectedTask, candidates);
      TraversalFindsReadySet(Reactivate(was, now), now, policy, old(lastSelectedTask), ts, picks);
      log := Then(log, Chosen(Ids(picks)));
    }

    /** The locked half of the selection. */
    method Traverse(now: int) returns (candidates: seq<Candidate>, ghost ts: seq<Task>)
      requires Linked(Contents())
      modifies pool
      ensures Contents() == Reactivate(old(Contents()), now) && Linked(Contents())
      ensures Met(Contents(), tasks.Keys, ts) && candidates == Candidates(ts, now)
    {
      ghost var was, met := Contents(), {};
      TraversedNoneOrAll(was, now);
      var todo := tasks.Keys;
      candidates, ts := [], [];
      while todo != {}
        invariant todo <= tasks.Keys && met == tasks.Keys - todo
        invariant Traversed(was, now, met, pool[..], ts, candidates)
        decreases todo
      {
        var id :| id in todo;
        ghost var b, seen := TraverseOne(was, now, met, pool[..], ts, candidates, id);
        var task := Visit(tasks[id], now);
        candidates := candidates + if Ready(task, now) then [ToCandidate(task)] else [];
        ts, met := ts + [task], met + {id};
        todo := todo - {id};
        assert met == tasks.Keys - todo;
      }
      assert met == tasks.Keys;
    }

    method Visit(b: Block, now: int) returns (task: Task)
      requires b < pool.Length && pool[b].Used?
      modifies pool
      ensures task == Reactivated(old(pool[b].task), now) && pool[..] == old(pool[..])[b := Used(task)]
    {
      task := pool[b].task;
      if !task.active && task.failures > 0 && now >= task.reactivation {
        task := task.(active := true);
        task := task.(failures := 0);
      }
      pool[b] := Used(task);
    }

    /** The claim a turn makes before it runs a task without the lock. */
    method ClaimTask(id: Id) returns (claimed: Option<Block>)
      requires Linked(Contents())
      modifies this`log, pool
      ensures Contents() == Claim(old(Contents()), id)
      ensures claimed == if Claimable(old(Contents()), id) then Some(tasks[id]) else None
    {
      claimed := None;
      if id in tasks {
        var b := tasks[id];
        assert LinkedAt(Contents(), id, b);
        if pool[b].task.active && !pool[b].task.executing {
          claimed := Some(b);
          pool[b] := Used(pool[b].task.(executing := true));
          log := Then(log, Begin(b, id));
          return;
        }
      }
      log := Then(log, Skip(id));
    }

    /** Books the result of an execution, releases the claim, and frees the block if the task
        was removed meanwhile. */
    method FinalizeTaskExecution(b: Block, start: int, end: int, ok: bool)
      requires Holds(Contents(), b)
      modifies this`log, pool
      ensures Contents() == Settle(old(Contents()), b, start, end, ok)
    {
      var task := pool[b].task;
      log := Then(log, Finish(b, task.serial, start, end, ok));
      if ok {
        task := task.(lastExecution := start);
        task := task.(nextExecution := task.lastExecution + Nanos(task.constraints.period));
        task := task.(failures := 0);
      } else {
        task := task.(failures := task.failures + 1);
        if task.failures >= MAX_FAILURES {
          task := task.(active := false);
          task := task.(reactivation := end + BACKOFF);
        }
      }
      pool[b] := Used(task.(executing := false));
      if task.pendingRemoval {
        pool[b] := Free;
        log := Then(log, Dealloc(b));
      }
    }
  }
}
