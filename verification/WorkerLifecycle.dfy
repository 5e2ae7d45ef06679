/** The start / stop / halt / join protocol of the scheduler and its worker thread.

Any number of external threads, and the worker itself from inside a task, call the
scheduler's control functions. Every access to a shared flag, the published thread id, the
thread handle or a mutex is one atomic step; the worker runs the same call code as everybody
else, so that it never blocks is something to be proved, not something built in. */
module WorkerLifecycle {
  import opened Wrappers

  type ThreadId = nat

  /** Where a thread is inside one of the calls; the name says what it does next. */
  datatype Call =
    | NoCall
    // RealTimeScheduler::start
    | StartSelfTest | StartLock | StartTestRunning
    // WorkerThread::start, still inside it
    | SpawnSelfTest | SpawnLock | SpawnJoinStale | SpawnRaiseRunning | SpawnThread | SpawnUnlock
    // real-time tuning through withHandle
    | TuneLock | TuneUnlock
    | StartUnlock
    // RealTimeScheduler::stop: the two halves of halt, then the locked part
    | StopHalt | StopWake | StopSelfTest | StopLock | StopClear | StopWakeLocked
    // WorkerThread::join, inside stop or on its own
    | JoinSelfTest(inStop: bool) | JoinLock(inStop: bool) | JoinWait(inStop: bool) | JoinUnlock(inStop: bool)
    | StopUnlock
    // halt, pause, resume
    | HaltStore | HaltWake | PauseStore | ResumeStore | ResumeWake
    // addTask, once the task is registered
    | AddTestRunning | AddWake

  /** Where the worker is in its life. `InTask(n)` may still make n control calls. */
  datatype Phase =
    | Born             // running, id not yet published
    | LoopTop          // about to read the running flag
    | PauseTest        // about to read the paused flag
    | WakeTest         // about to evaluate the wake-up condition of a paused wait
    | FallingAsleep    // found it false, not yet asleep
    | Asleep
    | TimedWait        // waiting for the next cycle; always returns
    | InTask(calls: nat)
    | Leaving          // loop left, id not yet cleared
    | Cleared          // id cleared, thread about to end

  datatype Thread = External(call: Call) | Worker(call: Call, phase: Phase)

  datatype State = State(
    threads: map<ThreadId, Thread>,     // the live threads
    running: bool,
    paused: bool,
    lifecycle: Option<ThreadId>,        // holder of lifecycleMutex_
    handleLock: Option<ThreadId>,       // holder of handleMutex_
    handle: Option<ThreadId>,           // the joinable thread handle
    published: Option<ThreadId>,        // the published worker id
    crashed: bool)                      // a self-join, or a joinable handle overwritten

  ghost predicate Init(s: State) {
    && (forall t :: t in s.threads ==> s.threads[t] == External(NoCall))
    && !s.running && !s.paused && s.lifecycle == None && s.handleLock == None
    && s.handle == None && s.published == None && !s.crashed
  }

  // ------------------------------------------------------------------- steps

  datatype Step =
    | Appear(t: ThreadId)                    // a new external thread
    | Vanish(t: ThreadId)
    | Begin(t: ThreadId, call: Call)
    | Proceed(t: ThreadId, spawned: ThreadId, tune: bool)   // next statement of the current call
    | Live(t: ThreadId, calls: nat, more: bool)          // next statement of the worker's own loop

  predicate IsEntry(c: Call) {
    c in {StartSelfTest, StopHalt, JoinSelfTest(false), HaltStore, PauseStore, ResumeStore, AddTestRunning}
  }

  predicate IsWorker(s: State, t: ThreadId) {
    t in s.threads && s.threads[t].Worker?
  }

  /** The lock-free self test: is the published id this thread's own? */
  predicate OnWorkerThread(s: State, t: ThreadId) {
    s.published == Some(t)
  }

  /** notify_all, or notify_one - only the worker ever waits: asleep, it goes back to evaluating its condition. */
  function Woken(threads: map<ThreadId, Thread>): map<ThreadId, Thread> {
    map t | t in threads ::
      if threads[t].Worker? && threads[t].phase == Asleep then threads[t].(phase := WakeTest) else threads[t]
  }

  /** A handle can be joined once its thread has ended. */
  predicate Joinable(s: State) {
    s.handle.Some? ==> s.handle.value !in s.threads
  }

  predicate Blocked(s: State, t: ThreadId)
    requires t in s.threads
  {
    match s.threads[t].call
    case StartLock => s.lifecycle.Some?
    case StopLock => s.lifecycle.Some?
    case SpawnLock => s.handleLock.Some?
    case TuneLock => s.handleLock.Some?
    case JoinLock(_) => s.handleLock.Some?
    case SpawnJoinStale => !Joinable(s) && s.handle != Some(t)
    case JoinWait(_) => !Joinable(s) && s.handle != Some(t)
    case _ => false
  }

  datatype LockUse = Untouched | Take | Drop
  datatype HandleUse = Kept | Forgotten | Assigned

  /** What one statement of a call does: where the call goes on, the flags it leaves, and its
      use of the mutexes, the handle and the condition variable. */
  datatype Effect = Effect(call: Call, running: bool, paused: bool, lifecycle: LockUse,
                           handleLock: LockUse, handle: HandleUse, wakes: bool, crash: bool)

  /** What a statement reads: the flags, whether the published id and the handle are the
      caller's own, whether there is a handle, and whether real-time tuning is on. */
  datatype View = View(running: bool, paused: bool, ownId: bool, ownHandle: bool, hasHandle: bool, tune: bool)

  function Just(v: View, c: Call): Effect {
    Effect(c, v.running, v.paused, Untouched, Untouched, Kept, false, false)
  }

  /** The program: the effect of the statement that comes next in each call. */
  function Statement(c: Call, v: View): Effect {
    match c
    case NoCall => Just(v, NoCall)
    case StartSelfTest => Just(v, if v.ownId then NoCall else StartLock)
    case StartLock => Just(v, StartTestRunning).(lifecycle := Take)
    case StartTestRunning => Just(v, if v.running then StartUnlock else SpawnSelfTest)
    case SpawnSelfTest => Just(v, if v.ownId then StartUnlock else SpawnLock)
    case SpawnLock => Just(v, SpawnJoinStale).(handleLock := Take)
    case SpawnJoinStale => Just(v, SpawnRaiseRunning).(handle := Forgotten, crash := v.ownHandle)
    case SpawnRaiseRunning => Just(v, SpawnThread).(running := true, paused := false)
    case SpawnThread => Just(v, SpawnUnlock).(handle := Assigned, crash := v.hasHandle)
    case SpawnUnlock => Just(v, if v.tune then TuneLock else StartUnlock).(handleLock := Drop)
    case TuneLock => Just(v, TuneUnlock).(handleLock := Take)
    case TuneUnlock => Just(v, StartUnlock).(handleLock := Drop)
    case StartUnlock => Just(v, NoCall).(lifecycle := Drop)
    case StopHalt => Just(v, StopWake).(running := false)
    case StopWake => Just(v, StopSelfTest).(wakes := true)
    case StopSelfTest => Just(v, if v.ownId then NoCall else StopLock)
    case StopLock => Just(v, StopClear).(lifecycle := Take)
    case StopClear => Just(v, StopWakeLocked).(running := false)
    case StopWakeLocked => Just(v, JoinSelfTest(true)).(wakes := true)
    case JoinSelfTest(inStop) =>
      Just(v, if !v.ownId then JoinLock(inStop) else if inStop then StopUnlock else NoCall)
    case JoinLock(inStop) => Just(v, JoinWait(inStop)).(handleLock := Take)
    case JoinWait(inStop) => Just(v, JoinUnlock(inStop)).(handle := Forgotten, crash := v.ownHandle)
    case JoinUnlock(inStop) => Just(v, if inStop then StopUnlock else NoCall).(handleLock := Drop)
    case StopUnlock => Just(v, NoCall).(lifecycle := Drop)
    case HaltStore => Just(v, HaltWake).(running := false)
    case HaltWake => Just(v, NoCall).(wakes := true)
    case PauseStore => Just(v, NoCall).(paused := true)
    case ResumeStore => Just(v, ResumeWake).(paused := false)
    case ResumeWake => Just(v, NoCall).(wakes := true)
    case AddTestRunning => Just(v, if v.running then AddWake else NoCall)
    case AddWake => Just(v, NoCall).(wakes := true)
  }

  function LockAfter(holder: Option<ThreadId>, use: LockUse, t: ThreadId): Option<ThreadId> {
    match use
    case Untouched => holder
    case Take => Some(t)
    case Drop => None
  }

  function EffectOf(s: State, t: ThreadId, tune: bool): Effect
    requires t in s.threads
  {
    Statement(s.threads[t].call,
              View(s.running, s.paused, OnWorkerThread(s, t), s.handle == Some(t), s.handle.Some?, tune))
  }

  /** The state after a statement of thread t that has this effect. */
  function Affected(s: State, t: ThreadId, spawned: ThreadId, e: Effect): State
    requires t in s.threads
  {
    if e.crash then s.(crashed := true)
    else
      var moved := s.threads[t := s.threads[t].(call := e.call)];
      var woken := if e.wakes then Woken(moved) else moved;
      var threads := if e.handle == Assigned then woken[spawned := Worker(NoCall, Born)] else woken;
      var handle := if e.handle == Kept then s.handle else if e.handle == Forgotten then None else Some(spawned);
      State(threads, e.running, e.paused, LockAfter(s.lifecycle, e.lifecycle, t),
            LockAfter(s.handleLock, e.handleLock, t), handle, s.published, s.crashed)
  }

  /** The state after the next statement of the call thread t is in. */
  function Proceeded(s: State, t: ThreadId, spawned: ThreadId, tune: bool): State
    requires t in s.threads && !Blocked(s, t)
  {
    Affected(s, t, spawned, EffectOf(s, t, tune))
  }

  /** Where the worker's loop goes from each point; `calls` is how many control calls the task
      it may start will make, `more` whether the cycle has another ready task. */
  function NextPhase(p: Phase, running: bool, paused: bool, calls: nat, more: bool): Phase {
    match p
    case Born => LoopTop
    case LoopTop => if running then PauseTest else Leaving
    case PauseTest => if paused then WakeTest else TimedWait
    case WakeTest => if !paused || !running then LoopTop else FallingAsleep
    case FallingAsleep => Asleep
    case Asleep => Asleep
    case TimedWait => if running then InTask(calls) else Leaving
    case InTask(_) => if more && running then InTask(calls) else LoopTop
    case Leaving => Cleared
    case Cleared => Cleared
  }

  /** The state after the next statement of the worker's loop. The published id is set first
      and cleared last. */
  function Lived(s: State, t: ThreadId, calls: nat, more: bool): State
    requires IsWorker(s, t)
  {
    var p := s.threads[t].phase;
    if p == Cleared then s.(threads := s.threads - {t})
    else
      s.(threads := s.threads[t := Worker(s.threads[t].call, NextPhase(p, s.running, s.paused, calls, more))],
         published := if p == Born then Some(t) else if p == Leaving then None else s.published)
  }

  predicate Enabled(s: State, step: Step) {
    match step
    // The system does not hand out the id of a thread that still has to be joined.
    case Appear(t) => t !in s.threads && s.handle != Some(t)
    case Vanish(t) => t in s.threads && s.threads[t] == External(NoCall)
    case Begin(t, call) =>
      && t in s.threads && s.threads[t].call == NoCall && IsEntry(call)
      && (s.threads[t].Worker? ==> s.threads[t].phase.InTask? && s.threads[t].phase.calls > 0)
    case Proceed(t, spawned, tune) =>
      && t in s.threads && s.threads[t].call != NoCall && !Blocked(s, t)
      && (s.threads[t].call == SpawnThread ==> spawned !in s.threads)
    case Live(t, calls, more) =>
      IsWorker(s, t) && s.threads[t].call == NoCall && s.threads[t].phase != Asleep
  }

  function Apply(s: State, step: Step): State
    requires Enabled(s, step)
  {
    match step
    case Appear(t) => s.(threads := s.threads[t := External(NoCall)])
    case Vanish(t) => s.(threads := s.threads - {t})
    case Begin(t, call) =>
      s.(threads := s.threads[t := if s.threads[t].External? then External(call)
                                   else Worker(call, InTask(s.threads[t].phase.calls - 1))])
    case Proceed(t, spawned, tune) => Proceeded(s, t, spawned, tune)
    case Live(t, calls, more) => Lived(s, t, calls, more)
  }

  // --------------------------------------------------------------- invariant

  predicate HoldsLifecycle(c: Call) {
    match c
    case StartTestRunning => true
    case SpawnSelfTest => true
    case SpawnLock => true
    case SpawnJoinStale => true
    case SpawnRaiseRunning => true
    case SpawnThread => true
    case SpawnUnlock => true
    case TuneLock => true
    case TuneUnlock => true
    case StartUnlock => true
    case StopClear => true
    case StopWakeLocked => true
    case StopUnlock => true
    case JoinSelfTest(inStop) => inStop
    case JoinLock(inStop) => inStop
    case JoinWait(inStop) => inStop
    case JoinUnlock(inStop) => inStop
    case _ => false
  }

  predicate HoldsHandleLock(c: Call) {
    match c
    case SpawnJoinStale => true
    case SpawnRaiseRunning => true
    case SpawnThread => true
    case SpawnUnlock => true
    case TuneUnlock => true
    case JoinWait(_) => true
    case JoinUnlock(_) => true
    case _ => false
  }

  /** The calls in whose middle the running flag is down and must stay down. */
  predicate KeepsStopped(c: Call) {
    match c
    case SpawnSelfTest => true
    case SpawnLock => true
    case SpawnJoinStale => true
    case SpawnRaiseRunning => true
    case StopWakeLocked => true
    case StopUnlock => true
    case JoinSelfTest(inStop) => inStop
    case JoinLock(inStop) => inStop
    case JoinWait(inStop) => inStop
    case JoinUnlock(inStop) => inStop
    case _ => false
  }

  /** All a worker ever executes of the control functions: up to the self test, no further. */
  predicate NeverWaits(c: Call) {
    match c
    case NoCall => true
    case StartSelfTest => true
    case StopHalt => true
    case StopWake => true
    case StopSelfTest => true
    case JoinSelfTest(inStop) => !inStop
    case HaltStore => true
    case HaltWake => true
    case PauseStore => true
    case ResumeStore => true
    case ResumeWake => true
    case AddTestRunning => true
    case AddWake => true
    case _ => false
  }

  predicate Identified(p: Phase) {
    p != Born && p != Cleared
  }

  ghost predicate OneWorker(s: State) {
    && (forall t :: t in s.threads ==> (s.threads[t].Worker? <==> s.handle == Some(t)))
    && (forall t :: IsWorker(s, t) ==>
          && NeverWaits(s.threads[t].call)
          && (s.threads[t].call != NoCall ==> s.threads[t].phase.InTask?)
          && (Identified(s.threads[t].phase) <==> s.published == Some(t)))
    && (s.published.Some? ==> IsWorker(s, s.published.value))
  }

  ghost predicate LifecycleLockOk(s: State) {
    && (s.lifecycle.Some? ==> s.lifecycle.value in s.threads)
    && (forall t :: t in s.threads ==> (HoldsLifecycle(s.threads[t].call) <==> s.lifecycle == Some(t)))
  }

  ghost predicate HandleLockOk(s: State) {
    && (s.handleLock.Some? ==> s.handleLock.value in s.threads)
    && (forall t :: t in s.threads ==> (HoldsHandleLock(s.threads[t].call) <==> s.handleLock == Some(t)))
  }

  ghost predicate FlagsOk(s: State) {
    && (forall t :: t in s.threads && KeepsStopped(s.threads[t].call) ==> !s.running)
    && (forall t :: t in s.threads && s.threads[t].call in {SpawnRaiseRunning, SpawnThread} ==> s.handle == None)
    && !s.crashed
  }

  ghost predicate Inv(s: State) {
    OneWorker(s) && LifecycleLockOk(s) && HandleLockOk(s) && FlagsOk(s)
  }

  lemma InitHasInv(s: State)
    requires Init(s)
    ensures Inv(s)
  {
  }

  // ------------------------------------------------ facts about the program text

  /** A statement takes a mutex exactly when it enters the part of the program that holds it,
      and drops it exactly when it leaves that part. */
  lemma StatementLocks(c: Call, v: View)
    ensures var e := Statement(c, v);
            && (e.lifecycle == Take <==> !HoldsLifecycle(c) && HoldsLifecycle(e.call))
            && (e.lifecycle == Drop <==> HoldsLifecycle(c) && !HoldsLifecycle(e.call))
            && (e.handleLock == Take <==> !HoldsHandleLock(c) && HoldsHandleLock(e.call))
            && (e.handleLock == Drop <==> HoldsHandleLock(c) && !HoldsHandleLock(e.call))
  {
  }

  lemma StatementFlags(c: Call, v: View)
    ensures var e := Statement(c, v);
            && (e.running && !v.running ==> c == SpawnRaiseRunning)
            && (e.handle != Kept ==> HoldsHandleLock(c))
            && (KeepsStopped(e.call) && e.running ==> v.running && KeepsStopped(c))
            && (e.call == SpawnRaiseRunning ==> c == SpawnJoinStale && e.handle == Forgotten)
            && (e.call == SpawnThread ==> c == SpawnRaiseRunning && e.handle == Kept)
            && (KeepsStopped(c) ==> HoldsLifecycle(c))
            && (e.handle == Assigned <==> c == SpawnThread)
  {
  }

  lemma StatementCrash(c: Call, v: View)
    requires Statement(c, v).crash
    ensures HoldsHandleLock(c) && if c == SpawnThread then v.hasHandle else v.ownHandle
  {
  }

  /** On its own thread no call gets past the self test. */
  lemma StatementOnWorker(c: Call, v: View)
    requires NeverWaits(c) && v.ownId
    ensures NeverWaits(Statement(c, v).call)
    ensures Statement(c, v).handle == Kept && !Statement(c, v).crash
  {
  }

  // ------------------------------------------------ the invariant is inductive

  /** A thread as the others' invariants see it: a wake-up does not change it. */
  predicate Alike(a: Thread, b: Thread) {
    && a.Worker? == b.Worker? && a.call == b.call
    && (a.Worker? ==> Identified(a.phase) == Identified(b.phase) && a.phase.InTask? == b.phase.InTask?)
  }

  lemma JoinDoesNotCrash(s: State, t: ThreadId, tune: bool)
    requires Inv(s) && t in s.threads && !Blocked(s, t)
    ensures !EffectOf(s, t, tune).crash
  {
    if EffectOf(s, t, tune).crash {
      StatementCrash(s.threads[t].call, View(s.running, s.paused, OnWorkerThread(s, t), s.handle == Some(t), s.handle.Some?, tune));
    }
  }

  /** A statement changes the call of its own thread only, and only spawning adds a thread. */
  ghost predicate Framed(s: State, t: ThreadId, spawned: ThreadId, call: Call, u: ThreadId, s': State)
    requires t in s.threads
  {
    && (u in s.threads && u != t ==> u in s'.threads && Alike(s.threads[u], s'.threads[u]))
    && (u == t ==> u in s'.threads && Alike(s.threads[t].(call := call), s'.threads[t]))
    && (u !in s.threads && u in s'.threads ==>
          u == spawned && s'.threads[u] == Worker(NoCall, Born) && s.threads[t].call == SpawnThread)
  }

  lemma AffectedFrame(s: State, t: ThreadId, spawned: ThreadId, e: Effect, u: ThreadId)
    requires t in s.threads && !e.crash
    requires e.handle == Assigned ==> s.threads[t].call == SpawnThread && spawned !in s.threads
    ensures Framed(s, t, spawned, e.call, u, Affected(s, t, spawned, e))
  {
  }

  lemma ProceedFrame(s: State, t: ThreadId, spawned: ThreadId, tune: bool, u: ThreadId)
    requires Inv(s) && Enabled(s, Proceed(t, spawned, tune))
    ensures Framed(s, t, spawned, EffectOf(s, t, tune).call, u, Proceeded(s, t, spawned, tune))
  {
    JoinDoesNotCrash(s, t, tune);
    StatementFlags(s.threads[t].call, View(s.running, s.paused, OnWorkerThread(s, t), s.handle == Some(t), s.handle.Some?, tune));
    AffectedFrame(s, t, spawned, EffectOf(s, t, tune), u);
  }

  lemma ProceedKeepsLifecycleLock(s: State, t: ThreadId, spawned: ThreadId, tune: bool)
    requires Inv(s) && Enabled(s, Proceed(t, spawned, tune))
    ensures LifecycleLockOk(Proceeded(s, t, spawned, tune))
  {
    var s' := Proceeded(s, t, spawned, tune);
    JoinDoesNotCrash(s, t, tune);
    StatementLocks(s.threads[t].call,
                   View(s.running, s.paused, OnWorkerThread(s, t), s.handle == Some(t), s.handle.Some?, tune));
    ProceedFrame(s, t, spawned, tune, t);
    forall u | u in s'.threads
      ensures HoldsLifecycle(s'.threads[u].call) <==> s'.lifecycle == Some(u)
    {
      ProceedFrame(s, t, spawned, tune, u);
    }
    if s.lifecycle.Some? {
      ProceedFrame(s, t, spawned, tune, s.lifecycle.value);
    }
  }

  lemma ProceedKeepsHandleLock(s: State, t: ThreadId, spawned: ThreadId, tune: bool)
    requires Inv(s) && Enabled(s, Proceed(t, spawned, tune))
    ensures HandleLockOk(Proceeded(s, t, spawned, tune))
  {
    var s' := Proceeded(s, t, spawned, tune);
    JoinDoesNotCrash(s, t, tune);
    StatementLocks(s.threads[t].call,
                   View(s.running, s.paused, OnWorkerThread(s, t), s.handle == Some(t), s.handle.Some?, tune));
    ProceedFrame(s, t, spawned, tune, t);
    forall u | u in s'.threads
      ensures HoldsHandleLock(s'.threads[u].call) <==> s'.handleLock == Some(u)
    {
      ProceedFrame(s, t, spawned, tune, u);
    }
    if s.handleLock.Some? {
      ProceedFrame(s, t, spawned, tune, s.handleLock.value);
    }
  }

  lemma ProceedKeepsFlags(s: State, t: ThreadId, spawned: ThreadId, tune: bool)
    requires Inv(s) && Enabled(s, Proceed(t, spawned, tune))
    ensures FlagsOk(Proceeded(s, t, spawned, tune))
  {
    var s' := Proceeded(s, t, spawned, tune);
    var view := View(s.running, s.paused, OnWorkerThread(s, t), s.handle == Some(t), s.handle.Some?, tune);
    JoinDoesNotCrash(s, t, tune);
    StatementFlags(s.threads[t].call, view);
    forall u | u in s'.threads
      ensures KeepsStopped(s'.threads[u].call) ==> !s'.running
      ensures s'.threads[u].call in {SpawnRaiseRunning, SpawnThread} ==> s'.handle == None
    {
      ProceedFrame(s, t, spawned, tune, u);
      if u in s.threads {
        StatementFlags(s.threads[u].call, view);
      }
    }
  }

  lemma ProceedKeepsOneWorker(s: State, t: ThreadId, spawned: ThreadId, tune: bool)
    requires Inv(s) && Enabled(s, Proceed(t, spawned, tune))
    ensures OneWorker(Proceeded(s, t, spawned, tune))
  {
    var s' := Proceeded(s, t, spawned, tune);
    var view := View(s.running, s.paused, OnWorkerThread(s, t), s.handle == Some(t), s.handle.Some?, tune);
    JoinDoesNotCrash(s, t, tune);
    StatementFlags(s.threads[t].call, view);
    if s.threads[t].Worker? {
      StatementOnWorker(s.threads[t].call, view);
    }
    forall u | u in s'.threads
      ensures s'.threads[u].Worker? <==> s'.handle == Some(u)
      ensures s'.threads[u].Worker? ==>
                && NeverWaits(s'.threads[u].call)
                && (s'.threads[u].call != NoCall ==> s'.threads[u].phase.InTask?)
                && (Identified(s'.threads[u].phase) <==> s'.published == Some(u))
    {
      ProceedFrame(s, t, spawned, tune, u);
    }
    if s.published.Some? {
      ProceedFrame(s, t, spawned, tune, s.published.value);
    }
  }

  lemma LiveKeepsOneWorker(s: State, t: ThreadId, calls: nat, more: bool)
    requires Inv(s) && Enabled(s, Live(t, calls, more))
    ensures OneWorker(Lived(s, t, calls, more))
  {
  }

  lemma LiveKeepsLocksAndFlags(s: State, t: ThreadId, calls: nat, more: bool)
    requires Inv(s) && Enabled(s, Live(t, calls, more))
    ensures LifecycleLockOk(Lived(s, t, calls, more)) && HandleLockOk(Lived(s, t, calls, more))
    ensures FlagsOk(Lived(s, t, calls, more))
  {
  }

  lemma EntriesHoldNothing(c: Call)
    requires IsEntry(c)
    ensures NeverWaits(c) && !HoldsLifecycle(c) && !HoldsHandleLock(c) && !KeepsStopped(c)
  {
  }

  lemma BeginKeepsOneWorker(s: State, t: ThreadId, call: Call)
    requires OneWorker(s) && Enabled(s, Begin(t, call)) && NeverWaits(call)
    ensures OneWorker(Apply(s, Begin(t, call)))
  {
  }

  lemma BeginKeepsInv(s: State, t: ThreadId, call: Call)
    requires Inv(s) && Enabled(s, Begin(t, call))
    ensures Inv(Apply(s, Begin(t, call)))
  {
    EntriesHoldNothing(call);
    BeginKeepsOneWorker(s, t, call);
    var s' := Apply(s, Begin(t, call));
    assert LifecycleLockOk(s') && HandleLockOk(s');
  }

  lemma ComeAndGoKeepsInv(s: State, step: Step)
    requires Inv(s) && Enabled(s, step) && (step.Appear? || step.Vanish?)
    ensures Inv(Apply(s, step))
  {
  }

  lemma NextKeepsInv(s: State, step: Step)
    requires Inv(s) && Enabled(s, step)
    ensures Inv(Apply(s, step))
  {
    match step
    case Proceed(t, spawned, tune) =>
      ProceedKeepsOneWorker(s, t, spawned, tune);
      ProceedKeepsLifecycleLock(s, t, spawned, tune);
      ProceedKeepsHandleLock(s, t, spawned, tune);
      ProceedKeepsFlags(s, t, spawned, tune);
    case Live(t, calls, more) =>
      LiveKeepsOneWorker(s, t, calls, more);
      LiveKeepsLocksAndFlags(s, t, calls, more);
    case Begin(t, call) => BeginKeepsInv(s, t, call);
    case _ => ComeAndGoKeepsInv(s, step);
  }

  // ------------------------------------------------------------------ whole runs

  /** A run: states[i] goes to states[i + 1] by steps[i]. */
  ghost predicate Run(states: seq<State>, steps: seq<Step>) {
    && |states| == |steps| + 1
    && Init(states[0])
    && forall i :: 0 <= i < |steps| ==> StepAt(states, steps, i)
  }

  ghost predicate StepAt(states: seq<State>, steps: seq<Step>, i: nat)
    requires i < |steps| && |states| == |steps| + 1
  {
    Enabled(states[i], steps[i]) && states[i + 1] == Apply(states[i], steps[i])
  }

  lemma {:induction false} RunHasInv(states: seq<State>, steps: seq<Step>, k: nat)
    requires Run(states, steps) && k < |states|
    ensures Inv(states[k])
  {
    if k == 0 {
      InitHasInv(states[0]);
    } else {
      RunHasInv(states, steps, k - 1);
      assert StepAt(states, steps, k - 1);
      NextKeepsInv(states[k - 1], steps[k - 1]);
    }
  }

  /** In every state of every run: nobody joined itself or overwrote a joinable handle, at most
      one loop thread is alive and the handle is its own, and the published id is either empty
      or that of the live worker. */
  lemma RunIsSafe(states: seq<State>, steps: seq<Step>, k: nat)
    requires Run(states, steps) && k < |states|
    ensures var s := states[k];
            && !s.crashed
            && (forall t: ThreadId, u: ThreadId :: IsWorker(s, t) && IsWorker(s, u) ==> t == u)
            && (forall t: ThreadId :: IsWorker(s, t) ==> s.handle == Some(t))
            && (s.published.Some? ==> IsWorker(s, s.published.value))
  {
    RunHasInv(states, steps, k);
    forall t: ThreadId | IsWorker(states[k], t)
      ensures states[k].handle == Some(t)
    {
      assert t in states[k].threads;
    }
  }

  /** The running flag is raised only when no loop thread is alive and no handle is left to
      join: a loop that was told to stop never sees the flag come back. */
  lemma RunningIsRaisedAfterJoin(states: seq<State>, steps: seq<Step>, k: nat)
    requires Run(states, steps) && k < |steps|
    requires !states[k].running && states[k + 1].running
    ensures forall t :: !IsWorker(states[k], t)
    ensures states[k].handle == None
  {
    var s, step := states[k], steps[k];
    RunHasInv(states, steps, k);
    assert StepAt(states, steps, k);
    if step.Proceed? {
      var t := step.t;
      StatementFlags(s.threads[t].call,
                     View(s.running, s.paused, OnWorkerThread(s, t), s.handle == Some(t), s.handle.Some?, step.tune));
      assert s.threads[t].call == SpawnRaiseRunning;
    }
  }

  // ---------------------------------------------------------- no cycle of waiting

  /** Thread a cannot go on before thread b does something. */
  ghost predicate WaitsFor(s: State, a: ThreadId, b: ThreadId) {
    && a in s.threads && b in s.threads
    && match s.threads[a].call
       case StartLock => s.lifecycle == Some(b)
       case StopLock => s.lifecycle == Some(b)
       case SpawnLock => s.handleLock == Some(b)
       case TuneLock => s.handleLock == Some(b)
       case JoinLock(_) => s.handleLock == Some(b)
       case SpawnJoinStale => s.handle == Some(b)
       case JoinWait(_) => s.handle == Some(b)
       case _ => false
  }

  function Rank(t: Thread): nat {
    if t.Worker? then 0
    else if HoldsHandleLock(t.call) then 1
    else if HoldsLifecycle(t.call) then 2
    else 3
  }

  lemma WaitingGoesDown(s: State, a: ThreadId, b: ThreadId)
    requires Inv(s) && WaitsFor(s, a, b)
    ensures Rank(s.threads[b]) < Rank(s.threads[a])
  {
  }

  /** A thread that cannot take its next statement waits for some other thread. */
  lemma BlockedWaits(s: State, a: ThreadId) returns (b: ThreadId)
    requires Inv(s) && a in s.threads && Blocked(s, a)
    ensures WaitsFor(s, a, b) && a != b
  {
    match s.threads[a].call
    case StartLock => b := s.lifecycle.value;
    case StopLock => b := s.lifecycle.value;
    case SpawnLock => b := s.handleLock.value;
    case TuneLock => b := s.handleLock.value;
    case JoinLock(_) => b := s.handleLock.value;
    case SpawnJoinStale => b := s.handle.value;
    case JoinWait(_) => b := s.handle.value;
  }

  /** No chain of waiting threads of any length closes, in any state of any run. */
  lemma NoWaitCycle(states: seq<State>, steps: seq<Step>, k: nat, chain: seq<ThreadId>)
    requires Run(states, steps) && k < |states|
    requires |chain| >= 2
    requires forall i :: 0 <= i < |chain| - 1 ==> WaitsFor(states[k], chain[i], chain[i + 1])
    ensures chain[0] != chain[|chain| - 1]
  {
    RunHasInv(states, steps, k);
    var s := states[k];
    var i := 1;
    assert WaitsFor(s, chain[0], chain[1]);
    WaitingGoesDown(s, chain[0], chain[1]);
    while i < |chain| - 1
      invariant 1 <= i < |chain| && chain[i] in s.threads && chain[0] in s.threads
      invariant Rank(s.threads[chain[i]]) < Rank(s.threads[chain[0]])
    {
      assert WaitsFor(s, chain[i], chain[i + 1]);
      WaitingGoesDown(s, chain[i], chain[i + 1]);
      i := i + 1;
    }
  }

  /** The worker itself is never blocked: not on a mutex, not in a join. */
  lemma WorkerIsNeverBlocked(states: seq<State>, steps: seq<Step>, k: nat, t: ThreadId)
    requires Run(states, steps) && k < |states| && IsWorker(states[k], t)
    ensures !Blocked(states[k], t)
  {
    RunHasInv(states, steps, k);
  }

  /** A thread with a statement it can take now; a worker asleep has none. */
  predicate CanMove(s: State, t: ThreadId) {
    && t in s.threads
    && if s.threads[t].call != NoCall then !Blocked(s, t)
       else s.threads[t].Worker? && s.threads[t].phase != Asleep
  }

  /** Whatever call a thread is stuck in, somebody can move - or the worker sleeps. */
  lemma SomebodyMoves(s: State, t: ThreadId) returns (u: ThreadId)
    requires Inv(s) && t in s.threads && s.threads[t].call != NoCall
    ensures CanMove(s, u) || (IsWorker(s, u) && s.threads[u].phase == Asleep)
    decreases Rank(s.threads[t])
  {
    if Blocked(s, t) {
      u := BlockedWaits(s, t);
      WaitingGoesDown(s, t, u);
      if s.threads[u].External? {
        assert HoldsLifecycle(s.threads[u].call) || HoldsHandleLock(s.threads[u].call);
        u := SomebodyMoves(s, u);
      }
    } else {
      u := t;
    }
  }

  // -------------------------------------------------------- how long stop waits

  function CallWork(c: Call): nat {
    match c
    case StopHalt => 3
    case StopWake => 2
    case HaltStore => 2
    case ResumeStore => 2
    case AddTestRunning => 2
    case NoCall => 0
    case _ => 1
  }

  function PhaseWork(p: Phase): nat {
    match p
    case Cleared => 1
    case Leaving => 2
    case LoopTop => 3
    case Born => 4
    case WakeTest => 4
    case Asleep => 5
    case TimedWait => 5
    case FallingAsleep => 6
    case PauseTest => 6
    case InTask(n) => 7 + 4 * n
  }

  /** How many statements the live worker can still make while the running flag is down. */
  function WorkLeft(s: State): nat {
    if s.handle.Some? && IsWorker(s, s.handle.value)
    then PhaseWork(s.threads[s.handle.value].phase) + CallWork(s.threads[s.handle.value].call)
    else 0
  }

  predicate ByWorker(s: State, step: Step) {
    match step
    case Begin(t, _) => IsWorker(s, t)
    case Proceed(t, _, _) => IsWorker(s, t)
    case Live(_, _, _) => true
    case _ => false
  }

  /** Thread t is between having found or put the running flag down under lifecycleMutex_ and
      the end of its join. */
  predicate Stopping(s: State, t: ThreadId) {
    t in s.threads && KeepsStopped(s.threads[t].call) && s.threads[t].call != SpawnRaiseRunning
  }

  lemma WorkerStatementIsWork(s: State, step: Step)
    requires Inv(s) && !s.running && Enabled(s, step) && ByWorker(s, step)
    ensures WorkLeft(Apply(s, step)) < WorkLeft(s)
  {
    if step.Proceed? {
      var t := step.t;
      assert NeverWaits(s.threads[t].call);
      assert OnWorkerThread(s, t);
    }
  }

  lemma OthersAddNoWork(s: State, step: Step, t: ThreadId)
    requires Inv(s) && Stopping(s, t) && Enabled(s, step) && !ByWorker(s, step)
    ensures WorkLeft(Apply(s, step)) <= WorkLeft(s)
  {
    if step.Proceed? {
      OtherCallsAddNoWork(s, step.t, step.spawned, step.tune, t);
    }
  }

  /** Another thread's statement can only forget the handle of an ended worker or wake a
      sleeping one: spawning needs the mutex the stopping thread holds. */
  lemma OtherCallsAddNoWork(s: State, u: ThreadId, spawned: ThreadId, tune: bool, t: ThreadId)
    requires Inv(s) && Stopping(s, t) && Enabled(s, Proceed(u, spawned, tune)) && !IsWorker(s, u)
    ensures WorkLeft(Proceeded(s, u, spawned, tune)) <= WorkLeft(s)
  {
    JoinDoesNotCrash(s, u, tune);
    StatementFlags(s.threads[u].call,
                   View(s.running, s.paused, OnWorkerThread(s, u), s.handle == Some(u), s.handle.Some?, tune));
    assert HoldsLifecycle(s.threads[t].call);
    assert EffectOf(s, u, tune).handle != Assigned;
  }

  /** The number of statements the worker makes from state i to state j of a run. */
  function WorkerStatements(states: seq<State>, steps: seq<Step>, i: nat, j: nat): nat
    requires |states| == |steps| + 1 && i <= j < |states|
  {
    if i == j then 0
    else WorkerStatements(states, steps, i, j - 1) + (if ByWorker(states[j - 1], steps[j - 1]) then 1 else 0)
  }

  /** While a stop (or a start joining a stale loop) waits, however the other threads interleave,
      the running flag stays down and the worker makes at most as many statements as it had left
      when the wait began. */
  lemma {:induction false} StopWaitsForBoundedWork(states: seq<State>, steps: seq<Step>, i: nat, j: nat, t: ThreadId)
    requires Run(states, steps) && i <= j < |states|
    requires forall k :: i <= k <= j ==> Stopping(states[k], t)
    ensures !states[j].running
    ensures WorkerStatements(states, steps, i, j) + WorkLeft(states[j]) <= WorkLeft(states[i])
    decreases j
  {
    RunHasInv(states, steps, j);
    if i < j {
      RunHasInv(states, steps, j - 1);
      StopWaitsForBoundedWork(states, steps, i, j - 1, t);
      assert StepAt(states, steps, j - 1);
      if ByWorker(states[j - 1], steps[j - 1]) {
        WorkerStatementIsWork(states[j - 1], steps[j - 1]);
      } else {
        OthersAddNoWork(states[j - 1], steps[j - 1], t);
      }
    }
  }

  /** A stop at its join, or a start at the join of a stale loop. */
  predicate AtJoin(s: State, t: ThreadId) {
    t in s.threads && (s.threads[t].call == JoinWait(true) || s.threads[t].call == SpawnJoinStale)
  }

  /** Once the worker has no work left its join is not blocked, and while it has some it can
      move unless it is asleep. */
  lemma WorkLeftOrJoinable(s: State, t: ThreadId)
    requires Inv(s) && AtJoin(s, t)
    ensures WorkLeft(s) == 0 <==> !Blocked(s, t)
    ensures WorkLeft(s) > 0 ==>
              && s.handle.Some? && IsWorker(s, s.handle.value)
              && (CanMove(s, s.handle.value) <==> s.threads[s.handle.value].phase != Asleep)
  {
    if s.handle.Some? && s.handle.value in s.threads {
      assert IsWorker(s, s.handle.value);
    }
  }

  // -------------------------------------------------------------- lost wake-ups
  //
  // The flags are changed without the mutex of the condition variable, so a wake-up sent after
  // the worker evaluated its condition and before it fell asleep is lost.

  predicate WorkerAt(s: State, phase: Phase) {
    s.handle.Some? && IsWorker(s, s.handle.value) && s.threads[s.handle.value].phase == phase
  }

  /** The worker sleeps, or will without looking at its condition again. */
  predicate Drowsy(s: State) {
    WorkerAt(s, FallingAsleep) || WorkerAt(s, Asleep)
  }

  predicate IsWakeUp(s: State, step: Step) {
    step.Proceed? && step.t in s.threads
    && s.threads[step.t].call in {StopWake, StopWakeLocked, HaltWake, ResumeWake, AddWake}
  }

  /** A wake-up that finds the worker asleep; any other is lost. */
  predicate Wakes(s: State, step: Step) {
    IsWakeUp(s, step) && WorkerAt(s, Asleep)
  }

  /** The condition of the paused wait holds. */
  predicate Released(s: State) {
    !s.paused || !s.running
  }

  /** A statement of a call changes a worker's phase only by waking it. */
  lemma PhaseDuringCall(s: State, t: ThreadId, spawned: ThreadId, tune: bool, u: ThreadId)
    requires Inv(s) && Enabled(s, Proceed(t, spawned, tune)) && IsWorker(Proceeded(s, t, spawned, tune), u)
    ensures var p := Proceeded(s, t, spawned, tune).threads[u].phase;
            p == Born || (IsWorker(s, u) && (p == s.threads[u].phase || p == WakeTest))
  {
    JoinDoesNotCrash(s, t, tune);
  }

  /** With its condition true a worker that is not drowsy does not get drowsy. */
  lemma StaysAwake(s: State, step: Step)
    requires Inv(s) && Released(s) && !Drowsy(s) && Enabled(s, step)
    ensures !Drowsy(Apply(s, step))
  {
    var s' := Apply(s, step);
    forall u | IsWorker(s', u) ensures s'.threads[u].phase != FallingAsleep && s'.threads[u].phase != Asleep {
      assert IsWorker(s, u) ==> s.handle == Some(u);
      if step.Proceed? {
        PhaseDuringCall(s, step.t, step.spawned, step.tune, u);
      }
    }
  }

  /** A drowsy worker stays drowsy, and so alive, until a wake-up finds it asleep. */
  lemma StaysDrowsy(s: State, step: Step)
    requires Inv(s) && Drowsy(s) && Enabled(s, step)
    ensures Drowsy(Apply(s, step)) <==> !Wakes(s, step)
  {
    if step.Proceed? {
      DrowsyDuringCall(s, step.t, step.spawned, step.tune);
    }
  }

  lemma StatementWakesOrJoins(c: Call, v: View)
    ensures Statement(c, v).wakes <==> c in {StopWake, StopWakeLocked, HaltWake, ResumeWake, AddWake}
    ensures Statement(c, v).handle == Forgotten <==> c == SpawnJoinStale || c.JoinWait?
    ensures Statement(c, v).handle == Assigned <==> c == SpawnThread
  {
  }

  /** While the worker is alive nobody gets past a join or spawns. */
  lemma HandleKept(s: State, t: ThreadId, tune: bool)
    requires Inv(s) && Drowsy(s) && t in s.threads && s.threads[t].call != NoCall && !Blocked(s, t)
    ensures s.threads[t].External? && EffectOf(s, t, tune).handle == Kept && !EffectOf(s, t, tune).crash
    ensures EffectOf(s, t, tune).wakes
            <==> s.threads[t].call in {StopWake, StopWakeLocked, HaltWake, ResumeWake, AddWake}
  {
    StatementWakesOrJoins(s.threads[t].call,
                          View(s.running, s.paused, OnWorkerThread(s, t), s.handle == Some(t), s.handle.Some?, tune));
    JoinDoesNotCrash(s, t, tune);
  }

  /** Another thread's statement leaves a drowsy worker where it is, or wakes it. */
  lemma DrowsyDuringCall(s: State, t: ThreadId, spawned: ThreadId, tune: bool)
    requires Inv(s) && Drowsy(s) && Enabled(s, Proceed(t, spawned, tune))
    ensures var w, s' := s.handle.value, Proceeded(s, t, spawned, tune);
            s'.handle == s.handle && IsWorker(s', w)
            && s'.threads[w].phase == if Wakes(s, Proceed(t, spawned, tune)) then WakeTest else s.threads[w].phase
  {
    HandleKept(s, t, tune);
    var w, e := s.handle.value, EffectOf(s, t, tune);
    var moved := s.threads[t := External(e.call)];
    assert moved[w] == s.threads[w];
    assert Proceeded(s, t, spawned, tune).threads == if e.wakes then Woken(moved) else moved;
  }

  ghost predicate ReleasedFrom(states: seq<State>, i: nat, j: nat) {
    i <= j < |states| && forall m :: i <= m <= j ==> Released(states[m])
  }

  /** No wake-up from state i up to state j found the worker asleep. */
  ghost predicate NobodyWakes(states: seq<State>, steps: seq<Step>, i: nat, j: nat) {
    j <= |steps| && |states| == |steps| + 1 && forall m :: i <= m < j ==> !Wakes(states[m], steps[m])
  }

  /** While the condition of the wait holds, a worker is drowsy exactly if it was and nobody woke it. */
  lemma {:induction false} DrowsyUntilWoken(states: seq<State>, steps: seq<Step>, i: nat, j: nat)
    requires Run(states, steps) && ReleasedFrom(states, i, j)
    ensures Drowsy(states[j]) <==> Drowsy(states[i]) && NobodyWakes(states, steps, i, j)
    decreases j
  {
    if i < j {
      DrowsyUntilWoken(states, steps, i, j - 1);
      RunHasInv(states, steps, j - 1);
      assert StepAt(states, steps, j - 1);
      if Drowsy(states[j - 1]) {
        StaysDrowsy(states[j - 1], steps[j - 1]);
      } else {
        StaysAwake(states[j - 1], steps[j - 1]);
      }
    }
  }

  /** Whoever sends a wake-up - stop, halt, resume or addTask - with the flags as they should be
      then and later: the worker is drowsy afterwards if and only if it was between its condition
      and its sleep at that very moment, and nobody else has woken it since. */
  lemma WakeUpIsLostIffFallingAsleep(states: seq<State>, steps: seq<Step>, k: nat, j: nat)
    requires Run(states, steps) && k < j && ReleasedFrom(states, k, j) && IsWakeUp(states[k], steps[k])
    ensures Drowsy(states[j]) <==> WorkerAt(states[k], FallingAsleep) && NobodyWakes(states, steps, k + 1, j)
  {
    DrowsyUntilWoken(states, steps, k, j);
    if WorkerAt(states[k], FallingAsleep) {
      assert !Wakes(states[k], steps[k]);
    }
  }

  ghost predicate StoppingFrom(states: seq<State>, i: nat, j: nat, t: ThreadId) {
    i <= j < |states| && forall m :: i <= m <= j ==> Stopping(states[m], t)
  }

  lemma StoppingIsReleased(states: seq<State>, steps: seq<Step>, i: nat, j: nat, t: ThreadId)
    requires Run(states, steps) && StoppingFrom(states, i, j, t)
    ensures ReleasedFrom(states, i, j)
  {
    forall m | i <= m <= j ensures Released(states[m]) {
      RunHasInv(states, steps, m);
      assert Stopping(states[m], t);
    }
  }

  /** The join is free, or the worker can go on; and it is free once the worker has made the
      statements it had left at state i. */
  ghost predicate JoinEnds(states: seq<State>, steps: seq<Step>, i: nat, j: nat, t: ThreadId)
    requires |states| == |steps| + 1 && i <= j < |states| && t in states[j].threads
  {
    && (!Blocked(states[j], t) || (states[j].handle.Some? && CanMove(states[j], states[j].handle.value)))
    && (WorkerStatements(states, steps, i, j) >= WorkLeft(states[i]) ==> !Blocked(states[j], t))
  }

  /** Thread t, stopping since state i, is at its join in state j: blocked as long as the worker
      is drowsy, and otherwise the join ends. */
  lemma JoinEndsUnlessDrowsy(states: seq<State>, steps: seq<Step>, i: nat, j: nat, t: ThreadId)
    requires Run(states, steps) && StoppingFrom(states, i, j, t) && AtJoin(states[j], t)
    ensures if Drowsy(states[j]) then Blocked(states[j], t) else JoinEnds(states, steps, i, j, t)
  {
    RunHasInv(states, steps, j);
    WorkLeftOrJoinable(states[j], t);
    StopWaitsForBoundedWork(states, steps, i, j, t);
  }

  /** A start that waits for a stale loop sends no wake-up itself: it waits for good exactly if
      the loop's thread was drowsy when it found the flag down, and nobody wakes it. */
  lemma StaleJoinEndsUnlessDrowsy(states: seq<State>, steps: seq<Step>, i: nat, j: nat, t: ThreadId)
    requires Run(states, steps) && StoppingFrom(states, i, j, t) && AtJoin(states[j], t)
    ensures if Drowsy(states[i]) && NobodyWakes(states, steps, i, j) then Blocked(states[j], t)
            else JoinEnds(states, steps, i, j, t)
  {
    StoppingIsReleased(states, steps, i, j, t);
    DrowsyUntilWoken(states, steps, i, j);
    JoinEndsUnlessDrowsy(states, steps, i, j, t);
  }

  /** A stop that sends its last wake-up in step k and is at its join in state j is blocked - and
      stays so - if and only if the worker was between its condition and its sleep at that step,
      and nobody else has woken it since. */
  lemma StopReturnsUnlessWakeUpLost(states: seq<State>, steps: seq<Step>, k: nat, j: nat, t: ThreadId)
    requires Run(states, steps) && k < j && StoppingFrom(states, k, j, t) && AtJoin(states[j], t)
    requires states[k].threads[t].call == StopWakeLocked && steps[k].Proceed? && steps[k].t == t
    ensures if WorkerAt(states[k], FallingAsleep) && NobodyWakes(states, steps, k + 1, j)
            then Blocked(states[j], t) else JoinEnds(states, steps, k, j, t)
  {
    StoppingIsReleased(states, steps, k, j, t);
    WakeUpIsLostIffFallingAsleep(states, steps, k, j);
    JoinEndsUnlessDrowsy(states, steps, k, j, t);
  }

  /** A resume that sends its wake-up in step k, with no further pause: the worker sleeps on
      although it is not paused, exactly in the same case. */
  lemma ResumeWakesUnlessWakeUpLost(states: seq<State>, steps: seq<Step>, k: nat, j: nat, t: ThreadId)
    requires Run(states, steps) && k < j < |states|
    requires t in states[k].threads && states[k].threads[t].call == ResumeWake && steps[k].Proceed? && steps[k].t == t
    requires forall m :: k <= m <= j ==> !states[m].paused
    ensures Drowsy(states[j]) <==> WorkerAt(states[k], FallingAsleep) && NobodyWakes(states, steps, k + 1, j)
  {
    assert ReleasedFrom(states, k, j) by {
      forall m | k <= m <= j ensures Released(states[m]) {
      }
    }
    WakeUpIsLostIffFallingAsleep(states, steps, k, j);
  }

  // ------------------------------------------------------- nothing is lost without pause

  /** The calls begun in a run are among those allowed. */
  ghost predicate BeginsOnly(steps: seq<Step>, allowed: set<Call>) {
    forall i :: 0 <= i < |steps| ==> (steps[i].Begin? ==> steps[i].call in allowed)
  }

  /** Nobody pauses or has paused, and the worker is nowhere near the paused wait. */
  ghost predicate NeverPaused(s: State) {
    && !s.paused
    && forall t :: t in s.threads ==>
         && s.threads[t].call != PauseStore
         && (s.threads[t].Worker? ==> s.threads[t].phase !in {WakeTest, FallingAsleep, Asleep})
  }

  lemma StatementPause(c: Call, v: View)
    requires c != PauseStore
    ensures Statement(c, v).paused ==> v.paused
    ensures Statement(c, v).call != PauseStore
  {
  }

  lemma ProceedKeepsNeverPaused(s: State, t: ThreadId, spawned: ThreadId, tune: bool)
    requires Inv(s) && NeverPaused(s) && Enabled(s, Proceed(t, spawned, tune))
    ensures NeverPaused(Proceeded(s, t, spawned, tune))
  {
    var s' := Proceeded(s, t, spawned, tune);
    JoinDoesNotCrash(s, t, tune);
    StatementPause(s.threads[t].call,
                   View(s.running, s.paused, OnWorkerThread(s, t), s.handle == Some(t), s.handle.Some?, tune));
    forall u | u in s'.threads
      ensures s'.threads[u].call != PauseStore
      ensures s'.threads[u].Worker? ==> s'.threads[u].phase !in {WakeTest, FallingAsleep, Asleep}
    {
      ProceedFrame(s, t, spawned, tune, u);
    }
  }

  lemma NextKeepsNeverPaused(s: State, step: Step)
    requires Inv(s) && NeverPaused(s) && Enabled(s, step) && (step.Begin? ==> step.call != PauseStore)
    ensures NeverPaused(Apply(s, step))
  {
    match step
    case Proceed(t, spawned, tune) => ProceedKeepsNeverPaused(s, t, spawned, tune);
    case Live(t, calls, more) => LiveKeepsNeverPaused(s, t, calls, more);
    case _ => ComeAndGoKeepsNeverPaused(s, step);
  }

  lemma LiveKeepsNeverPaused(s: State, t: ThreadId, calls: nat, more: bool)
    requires NeverPaused(s) && Enabled(s, Live(t, calls, more))
    ensures NeverPaused(Lived(s, t, calls, more))
  {
  }

  lemma ComeAndGoKeepsNeverPaused(s: State, step: Step)
    requires NeverPaused(s) && Enabled(s, step) && (step.Appear? || step.Vanish? || step.Begin?)
    requires step.Begin? ==> step.call != PauseStore
    ensures NeverPaused(Apply(s, step))
  {
  }

  lemma {:induction false} RunWithoutPause(states: seq<State>, steps: seq<Step>, k: nat)
    requires Run(states, steps) && k < |states|
    requires forall i :: 0 <= i < k ==> (steps[i].Begin? ==> steps[i].call != PauseStore)
    ensures NeverPaused(states[k])
  {
    if k > 0 {
      RunWithoutPause(states, steps, k - 1);
      RunHasInv(states, steps, k - 1);
      assert StepAt(states, steps, k - 1);
      NextKeepsNeverPaused(states[k - 1], steps[k - 1]);
    }
  }

  /** In a run in which nobody has called pause, every stop and every start that waits returns:
      the join is free or the worker can go on, for no more statements than it had left. */
  lemma StopReturnsWithoutPause(states: seq<State>, steps: seq<Step>, i: nat, j: nat, t: ThreadId)
    requires Run(states, steps) && StoppingFrom(states, i, j, t) && AtJoin(states[j], t)
    requires forall m :: 0 <= m < j ==> (steps[m].Begin? ==> steps[m].call != PauseStore)
    ensures JoinEnds(states, steps, i, j, t)
  {
    RunWithoutPause(states, steps, j);
    JoinEndsUnlessDrowsy(states, steps, i, j, t);
  }

  // A run in which the wake-ups of a stop are lost: thread 1 starts the scheduler, pauses it,
  // and stops it while worker 9 is between its condition and its sleep.

  /** What the run below calls. */
  function HangingCalls(): set<Call> {
    {StartSelfTest, PauseStore, StopHalt}
  }

  /** The run goes on with one more step. */
  lemma Extend(states: seq<State>, steps: seq<Step>, step: Step, s': State, calls: set<Call>)
    returns (states': seq<State>, steps': seq<Step>)
    requires Run(states, steps) && BeginsOnly(steps, calls)
    requires Enabled(states[|states| - 1], step) && Apply(states[|states| - 1], step) == s'
    requires step.Begin? ==> step.call in calls
    ensures Run(states', steps') && states'[|states'| - 1] == s' && BeginsOnly(steps', calls)
  {
    states', steps' := states + [s'], steps + [step];
    forall i | 0 <= i < |steps'| ensures StepAt(states', steps', i) {
      assert i < |steps| ==> StepAt(states, steps, i);
    }
  }

  /** What thread 1, the only external thread, has: its call, the flags, the two mutexes. */
  datatype Solo = Solo(call: Call, running: bool, paused: bool, lifecycle: bool, handleLock: bool)

  /** The state made of thread 1 and, if there is one, worker 9 at the given point. */
  function Scene(solo: Solo, worker: Option<Phase>): State {
    var alone := map[1 := External(solo.call)];
    State(if worker.Some? then alone[9 := Worker(NoCall, worker.value)] else alone,
          solo.running, solo.paused,
          if solo.lifecycle then Some(1) else None, if solo.handleLock then Some(1) else None,
          if worker.Some? then Some(9) else None,
          if worker.Some? && worker.value != Born then Some(9) else None, false)
  }

  function UsedLock(held: bool, use: LockUse): bool {
    use == Take || (use == Untouched && held)
  }

  function SoloEffect(solo: Solo, worker: Option<Phase>): Effect {
    Statement(solo.call, View(solo.running, solo.paused, false, false, worker.Some?, false))
  }

  function SoloAfter(solo: Solo, e: Effect): Solo {
    Solo(e.call, e.running, e.paused, UsedLock(solo.lifecycle, e.lifecycle), UsedLock(solo.handleLock, e.handleLock))
  }

  function SoloNext(solo: Solo, worker: Option<Phase>): Solo {
    SoloAfter(solo, SoloEffect(solo, worker))
  }

  /** Thread 1 can take its next statement, and it is not one that spawns or crashes. */
  predicate SoloCanStep(solo: Solo, worker: Option<Phase>) {
    && solo.call != NoCall && !Blocked(Scene(solo, worker), 1) && worker != Some(Asleep)
    && LeavesHandle(SoloEffect(solo, worker), worker) && solo.call != SpawnThread
  }

  predicate LeavesHandle(e: Effect, worker: Option<Phase>) {
    e.handle != Assigned && (e.handle == Forgotten ==> worker == None) && !e.crash
  }

  lemma SoloThreads(solo: Solo, solo': Solo, worker: Option<Phase>)
    requires worker != Some(Asleep)
    ensures var s := Scene(solo, worker);
            var moved := s.threads[1 := s.threads[1].(call := solo'.call)];
            moved == Scene(solo', worker).threads && Woken(moved) == moved
  {
  }

  lemma SoloLock(held: bool, use: LockUse)
    ensures LockAfter(if held then Some(1) else None, use, 1) == if UsedLock(held, use) then Some(1) else None
  {
  }

  lemma SoloIsAffected(solo: Solo, worker: Option<Phase>, e: Effect)
    requires worker != Some(Asleep) && LeavesHandle(e, worker)
    ensures Affected(Scene(solo, worker), 1, 9, e) == Scene(SoloAfter(solo, e), worker)
  {
    SoloThreads(solo, SoloAfter(solo, e), worker);
    SoloLock(solo.lifecycle, e.lifecycle);
    SoloLock(solo.handleLock, e.handleLock);
  }

  lemma SoloProceeds(solo: Solo, worker: Option<Phase>)
    requires SoloCanStep(solo, worker)
    ensures Proceeded(Scene(solo, worker), 1, 9, false) == Scene(SoloNext(solo, worker), worker)
  {
    assert EffectOf(Scene(solo, worker), 1, false) == SoloEffect(solo, worker);
    SoloIsAffected(solo, worker, SoloEffect(solo, worker));
  }

  /** The run goes on with thread 1's next statement. */
  lemma SoloStep(states: seq<State>, steps: seq<Step>, solo: Solo, worker: Option<Phase>, calls: set<Call>)
    returns (states': seq<State>, steps': seq<Step>, solo': Solo)
    requires Run(states, steps) && BeginsOnly(steps, calls) && states[|states| - 1] == Scene(solo, worker)
    requires SoloCanStep(solo, worker)
    ensures solo' == SoloNext(solo, worker)
    ensures Run(states', steps') && BeginsOnly(steps', calls) && states'[|states'| - 1] == Scene(solo', worker)
  {
    SoloProceeds(solo, worker);
    solo' := SoloNext(solo, worker);
    states', steps' := Extend(states, steps, Proceed(1, 9, false), Scene(solo', worker), calls);
  }

  lemma RunToLocked(calls: set<Call>) returns (states: seq<State>, steps: seq<Step>)
    requires HangingCalls() <= calls
    ensures Run(states, steps) && BeginsOnly(steps, calls) && states[|states| - 1] == Scene(Solo(SpawnSelfTest, false, false, true, false), None)
  {
    var solo := Solo(StartSelfTest, false, false, false, false);
    states, steps := [Scene(solo.(call := NoCall), None)], [];
    states, steps := Extend(states, steps, Begin(1, StartSelfTest), Scene(solo, None), calls);
    states, steps, solo := SoloStep(states, steps, solo, None, calls);
    states, steps, solo := SoloStep(states, steps, solo, None, calls);
    states, steps, solo := SoloStep(states, steps, solo, None, calls);
  }

  lemma RunToSpawn(calls: set<Call>) returns (states: seq<State>, steps: seq<Step>)
    requires HangingCalls() <= calls
    ensures Run(states, steps) && BeginsOnly(steps, calls) && states[|states| - 1] == Scene(Solo(SpawnThread, true, false, true, true), None)
  {
    states, steps := RunToLocked(calls);
    var solo := Solo(SpawnSelfTest, false, false, true, false);
    states, steps, solo := SoloStep(states, steps, solo, None, calls);
    states, steps, solo := SoloStep(states, steps, solo, None, calls);
    states, steps, solo := SoloStep(states, steps, solo, None, calls);
    states, steps, solo := SoloStep(states, steps, solo, None, calls);
  }

  lemma RunToSpawned(calls: set<Call>) returns (states: seq<State>, steps: seq<Step>)
    requires HangingCalls() <= calls
    ensures Run(states, steps) && BeginsOnly(steps, calls) && states[|states| - 1] == Scene(Solo(SpawnUnlock, true, false, true, true), Some(Born))
  {
    states, steps := RunToSpawn(calls);
    var s, s' := Scene(Solo(SpawnThread, true, false, true, true), None), Scene(Solo(SpawnUnlock, true, false, true, true), Some(Born));
    assert Proceeded(s, 1, 9, false).threads == s'.threads;
    states, steps := Extend(states, steps, Proceed(1, 9, false), s', calls);
  }

  lemma RunToStarted(calls: set<Call>) returns (states: seq<State>, steps: seq<Step>)
    requires HangingCalls() <= calls
    ensures Run(states, steps) && BeginsOnly(steps, calls) && states[|states| - 1] == Scene(Solo(NoCall, true, false, false, false), Some(Born))
  {
    states, steps := RunToSpawned(calls);
    var solo := Solo(SpawnUnlock, true, false, true, true);
    states, steps, solo := SoloStep(states, steps, solo, Some(Born), calls);
    states, steps, solo := SoloStep(states, steps, solo, Some(Born), calls);
  }

  /** Thread 1 has started the scheduler and then paused it. */
  lemma RunToPaused(calls: set<Call>) returns (states: seq<State>, steps: seq<Step>)
    requires HangingCalls() <= calls
    ensures Run(states, steps) && BeginsOnly(steps, calls) && states[|states| - 1] == Scene(Solo(NoCall, true, true, false, false), Some(Born))
  {
    states, steps := RunToStarted(calls);
    var solo := Solo(PauseStore, true, false, false, false);
    states, steps := Extend(states, steps, Begin(1, PauseStore), Scene(solo, Some(Born)), calls);
    states, steps, solo := SoloStep(states, steps, solo, Some(Born), calls);
  }

  /** The worker reads the paused flag and its condition, and is about to fall asleep. */
  lemma RunToFallingAsleep(calls: set<Call>) returns (states: seq<State>, steps: seq<Step>)
    requires HangingCalls() <= calls
    ensures Run(states, steps) && BeginsOnly(steps, calls)
    ensures states[|states| - 1] == Scene(Solo(NoCall, true, true, false, false), Some(FallingAsleep))
  {
    states, steps := RunToPaused(calls);
    var solo := Solo(NoCall, true, true, false, false);
    states, steps := Extend(states, steps, Live(9, 0, false), Scene(solo, Some(LoopTop)), calls);
    states, steps := Extend(states, steps, Live(9, 0, false), Scene(solo, Some(PauseTest)), calls);
    states, steps := Extend(states, steps, Live(9, 0, false), Scene(solo, Some(WakeTest)), calls);
    states, steps := Extend(states, steps, Live(9, 0, false), Scene(solo, Some(FallingAsleep)), calls);
  }

  lemma RunToStopLock(calls: set<Call>) returns (states: seq<State>, steps: seq<Step>)
    requires HangingCalls() <= calls
    ensures Run(states, steps) && BeginsOnly(steps, calls)
    ensures states[|states| - 1] == Scene(Solo(StopLock, false, true, false, false), Some(FallingAsleep))
  {
    states, steps := RunToFallingAsleep(calls);
    var solo := Solo(StopHalt, true, true, false, false);
    states, steps := Extend(states, steps, Begin(1, StopHalt), Scene(solo, Some(FallingAsleep)), calls);
    states, steps, solo := SoloStep(states, steps, solo, Some(FallingAsleep), calls);
    states, steps, solo := SoloStep(states, steps, solo, Some(FallingAsleep), calls);
    states, steps, solo := SoloStep(states, steps, solo, Some(FallingAsleep), calls);
  }

  /** Thread 1 sends both wake-ups of its stop before the worker is asleep. */
  lemma RunToLostWakeUps(calls: set<Call>) returns (states: seq<State>, steps: seq<Step>)
    requires HangingCalls() <= calls
    ensures Run(states, steps) && BeginsOnly(steps, calls)
    ensures states[|states| - 1] == Scene(Solo(JoinSelfTest(true), false, true, true, false), Some(FallingAsleep))
  {
    states, steps := RunToStopLock(calls);
    var solo := Solo(StopLock, false, true, false, false);
    states, steps, solo := SoloStep(states, steps, solo, Some(FallingAsleep), calls);
    states, steps, solo := SoloStep(states, steps, solo, Some(FallingAsleep), calls);
    states, steps, solo := SoloStep(states, steps, solo, Some(FallingAsleep), calls);
  }

  /** A stop (or a start at a stale join) is blocked, and no thread can take a step of its own. */
  ghost predicate Hung(s: State) {
    (exists t :: AtJoin(s, t) && Blocked(s, t)) && forall t: ThreadId :: !CanMove(s, t)
  }

  /** A stop of a paused scheduler can hang: a run ends with the stop blocked at its join, the
      worker asleep, and no thread able to take a step of its own. */
  lemma StopCanHang(calls: set<Call>) returns (states: seq<State>, steps: seq<Step>)
    requires HangingCalls() <= calls
    ensures Run(states, steps) && BeginsOnly(steps, calls)
    ensures var s := states[|states| - 1];
            && AtJoin(s, 1) && Blocked(s, 1) && !s.running
            && IsWorker(s, 9) && s.threads[9].phase == Asleep
            && Hung(s)
  {
    states, steps := RunToLostWakeUps(calls);
    var solo := Solo(JoinSelfTest(true), false, true, true, false);
    states, steps, solo := SoloStep(states, steps, solo, Some(FallingAsleep), calls);
    states, steps, solo := SoloStep(states, steps, solo, Some(FallingAsleep), calls);
    assert solo == Solo(JoinWait(true), false, true, true, true);
    states, steps := Extend(states, steps, Live(9, 0, false), Scene(solo, Some(Asleep)), calls);
    assert AtJoin(states[|states| - 1], 1) && Blocked(states[|states| - 1], 1);
  }

  /** A run that begins only allowed calls and ends hung. */
  ghost predicate RunHangs(states: seq<State>, steps: seq<Step>, allowed: set<Call>) {
    Run(states, steps) && BeginsOnly(steps, allowed) && Hung(states[|states| - 1])
  }

  lemma NoHangWithoutPause(states: seq<State>, steps: seq<Step>)
    requires Run(states, steps)
    requires forall i :: 0 <= i < |steps| ==> (steps[i].Begin? ==> steps[i].call != PauseStore)
    ensures !Hung(states[|states| - 1])
  {
    var k := |states| - 1;
    RunHasInv(states, steps, k);
    RunWithoutPause(states, steps, k);
    forall t | AtJoin(states[k], t) && Blocked(states[k], t) ensures exists u: ThreadId :: CanMove(states[k], u) {
      WorkLeftOrJoinable(states[k], t);
      assert CanMove(states[k], states[k].handle.value);
    }
  }

  /** Callers who start and stop can be hung, by some interleaving of theirs, if and only if some
      of them may also call pause. */
  lemma CallersCanHangIffTheyPause(allowed: set<Call>)
    requires StartSelfTest in allowed && StopHalt in allowed
    ensures (exists states, steps :: RunHangs(states, steps, allowed)) <==> PauseStore in allowed
  {
    if PauseStore in allowed {
      var states, steps := StopCanHang(allowed);
      assert RunHangs(states, steps, allowed);
    } else {
      forall states, steps ensures !RunHangs(states, steps, allowed) {
        if Run(states, steps) && BeginsOnly(steps, allowed) {
          NoHangWithoutPause(states, steps);
        }
      }
    }
  }

  lemma RunToResumed(calls: set<Call>) returns (states: seq<State>, steps: seq<Step>)
    requires HangingCalls() <= calls && ResumeStore in calls
    ensures Run(states, steps) && BeginsOnly(steps, calls)
    ensures states[|states| - 1] == Scene(Solo(NoCall, true, false, false, false), Some(FallingAsleep))
  {
    states, steps := RunToFallingAsleep(calls);
    var solo := Solo(ResumeStore, true, true, false, false);
    states, steps := Extend(states, steps, Begin(1, ResumeStore), Scene(solo, Some(FallingAsleep)), calls);
    states, steps, solo := SoloStep(states, steps, solo, Some(FallingAsleep), calls);
    states, steps, solo := SoloStep(states, steps, solo, Some(FallingAsleep), calls);
  }

  /** The wake-up of a resume can be lost just so: a run ends with the scheduler running, not
      paused, nobody in a call - and its worker asleep. */
  lemma ResumeCanBeLost() returns (states: seq<State>, steps: seq<Step>)
    ensures Run(states, steps)
    ensures var s := states[|states| - 1];
            && s.running && !s.paused && WorkerAt(s, Asleep)
            && (forall t: ThreadId :: t in s.threads ==> s.threads[t].call == NoCall)
            && (forall t: ThreadId :: !CanMove(s, t))
  {
    var calls := HangingCalls() + {ResumeStore};
    states, steps := RunToResumed(calls);
    var solo := Solo(NoCall, true, false, false, false);
    states, steps := Extend(states, steps, Live(9, 0, false), Scene(solo, Some(Asleep)), calls);
  }
}
