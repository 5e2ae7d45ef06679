/** Tearing the system down: who joins the worker threads, and whether the scheduler is stopped.

The owner thread makes the system's lifecycle calls; other threads, and the system's three
worker threads from inside callbacks, make emergency stops at any time. Every transition, every
use of the teardown mutex and of the scheduler's lifecycle mutex, every store to the scheduler's
running flag and every join is one atomic step. */
module Teardown {
  import opened SystemStates
  import opened Wrappers

  datatype Worker = Dispatch | Monitor | Scheduler

  datatype Thread = Owner | Outside(id: nat) | OfWorker(worker: Worker)

  /** Where an emergency shutdown returns to: its caller, a failed stop, or a reset. */
  datatype Back = ToCaller | ToStop | ToReset

  /** For whom the scheduler is stopped; `ForReplace` and `ForCleanup` destroy it. */
  datatype Purpose = ForReplace | ForStart | ForStop | ForFatal(back: Back) | ForCleanup

  /** Where a thread is inside a call; the name says what it does next. */
  datatype Pc =
    | Idle
    // initialize
    | InitJoin(worker: Worker) | InitParts | InitOpen | InitLayout | InitLoops | InitClose | InitFail
    // start
    | StartOpen | StartTake | StartRaise | StartSpawn | StartUnits | StartClose | StartFail
    // pause and resume
    | ShiftOpen(pausing: bool) | ShiftClose(pausing: bool)
    // stop
    | StopOpen | StopToken | StopJoin(worker: Worker) | StopRelease(ok: bool) | StopClose
    // emergencyShutdown
    | FatalStore(back: Back) | FatalToken(back: Back) | FatalJoin(worker: Worker, back: Back) | FatalRelease(back: Back)
    // reset, after its emergency shutdown
    | ResetToken | ResetRelease | ResetJoin(worker: Worker) | ResetUnset
    // stopping the scheduler: clear the flag, clear it again under the mutex, join
    | TimerHalt(purpose: Purpose) | TimerClear(purpose: Purpose) | TimerJoin(purpose: Purpose)

  /** The fatal state is stored or reset, the scheduler's flag is raised or cleared, a start fails. */
  datatype Event = StoredFatal | WasReset | Raised | Cleared | StartFailed

  datatype Log = NoEvents | Then(before: Log, event: Event)

  datatype State = State(
    state: SystemState,
    token: Option<Thread>,       // holder of the teardown mutex
    timerLock: Option<Thread>,   // holder of the scheduler's lifecycle mutex
    running: bool,               // the scheduler's flag
    alive: set<Worker>, pcs: map<Thread, Pc>, log: Log)

  ghost predicate Init(s: State) {
    && s.state == UNINITIALIZED && s.token == None && s.timerLock == None
    && !s.running && s.alive == {} && s.log == NoEvents
    && Owner in s.pcs && (forall w :: OfWorker(w) in s.pcs)
    && (forall t :: t in s.pcs ==> s.pcs[t] == Idle)
  }

  // -------------------------------------------------------------------- the program

  /** How a statement that may fail turns out; `Absent`: there is no scheduler. */
  datatype Outcome = Fine | Absent | FailsEarly | FailsLate

  datatype LockUse = Untouched | Take | Drop

  datatype Effect = Effect(pc: Pc, state: SystemState, token: LockUse, timerLock: LockUse,
                           spawns: set<Worker>, event: Option<Event>)

  /** What a statement reads: the shared fields, whether the token is free, and whether the thread
      is the scheduler's own. */
  datatype View = View(state: SystemState, tokenFree: bool, running: bool, onScheduler: bool, outcome: Outcome)

  function Just(v: View, pc: Pc): Effect {
    Effect(pc, v.state, Untouched, Untouched, {}, None)
  }

  /** A transition: to `done` if it is legal, else the state stays and the call goes to `refused`. */
  function Attempt(v: View, to: SystemState, done: Pc, refused: Pc): Effect {
    if Legal(v.state, to) then Just(v, done).(state := to) else Just(v, refused)
  }

  /** Where an emergency shutdown goes on when it is over. */
  function Returned(back: Back): Pc {
    if back == ToReset then ResetToken else Idle
  }

  /** Where a call goes on when the scheduler has been stopped. */
  function AfterTimer(purpose: Purpose, outcome: Outcome): Pc {
    match purpose
    case ForReplace => InitOpen
    case ForStart => Idle
    case ForStop => StopRelease(outcome == Fine)
    case ForFatal(back) => FatalRelease(back)
    case ForCleanup => Idle
  }

  function Statement(pc: Pc, v: View): Effect {
    match pc
    case Idle => Just(v, Idle)
    case InitJoin(w) => Just(v, if w == Monitor then InitJoin(Dispatch) else InitParts)
    case InitParts => Just(v, if v.outcome == Fine then TimerHalt(ForReplace) else Idle)
    case InitOpen => Attempt(v, INITIALIZING, InitLayout, Idle)
    case InitLayout =>
      Just(v, match v.outcome case Fine => InitLoops case FailsLate => InitFail case _ => Idle)
    case InitLoops => Just(v, InitClose).(spawns := {Monitor, Dispatch})
    case InitClose => Attempt(v, INITIALIZED, Idle, TimerHalt(ForCleanup))
    case InitFail => Attempt(v, ERROR, TimerHalt(ForCleanup), TimerHalt(ForCleanup))
    case StartOpen => Attempt(v, STARTING, StartTake, Idle)
    case StartTake =>
      if v.running || v.outcome == Absent then Just(v, StartUnits) else Just(v, StartRaise).(timerLock := Take)
    case StartRaise =>
      if v.outcome == FailsEarly then Just(v, StartFail).(timerLock := Drop, event := Some(StartFailed))
      else Just(v, StartSpawn).(event := Some(Raised))
    case StartSpawn =>
      if v.outcome == Fine then Just(v, StartUnits).(timerLock := Drop, spawns := {Scheduler})
      else Just(v, StartFail).(timerLock := Drop, event := Some(StartFailed))
    case StartUnits =>
      if v.outcome == Fine then Just(v, StartClose) else Just(v, StartFail).(event := Some(StartFailed))
    case StartClose => Attempt(v, RUNNING, Idle, TimerHalt(ForStart))
    case StartFail => Attempt(v, ERROR, Idle, Idle)
    case ShiftOpen(pausing) => Attempt(v, if pausing then PAUSING else RESUMING, ShiftClose(pausing), Idle)
    case ShiftClose(pausing) =>
      Attempt(v, if v.outcome != Fine then ERROR else if pausing then PAUSED else RUNNING, Idle, Idle)
    case StopOpen => Attempt(v, STOPPING, StopToken, Idle)
    case StopToken => Just(v, StopJoin(Dispatch)).(token := Take)
    case StopJoin(w) => Just(v, if w == Dispatch then StopJoin(Monitor) else TimerHalt(ForStop))
    case StopRelease(ok) => Just(v, if ok then StopClose else FatalStore(ToStop)).(token := Drop)
    case StopClose => Attempt(v, STOPPED, Idle, Idle)
    case FatalStore(back) =>
      Just(v, FatalToken(back)).(
        state := FATAL_ERROR, event := if v.state == FATAL_ERROR then None else Some(StoredFatal))
    case FatalToken(back) =>
      if v.tokenFree then Just(v, FatalJoin(Dispatch, back)).(token := Take) else Just(v, Returned(back))
    case FatalJoin(w, back) => Just(v, if w == Dispatch then FatalJoin(Monitor, back) else TimerHalt(ForFatal(back)))
    case FatalRelease(back) => Just(v, Returned(back)).(token := Drop)
    case ResetToken => Just(v, ResetRelease).(token := Take)
    case ResetRelease => Just(v, ResetJoin(Dispatch)).(token := Drop)
    case ResetJoin(w) => Just(v, if w == Dispatch then ResetJoin(Monitor) else ResetUnset)
    case ResetUnset =>
      Attempt(v, UNINITIALIZED, TimerHalt(ForCleanup), TimerHalt(ForCleanup)).(
        event := if Legal(v.state, UNINITIALIZED) then Some(WasReset) else None)
    case TimerHalt(purpose) =>
      Just(v, if v.onScheduler then AfterTimer(purpose, v.outcome) else TimerClear(purpose)).(
        event := Some(Cleared))
    case TimerClear(purpose) => Just(v, TimerJoin(purpose)).(timerLock := Take, event := Some(Cleared))
    case TimerJoin(purpose) => Just(v, AfterTimer(purpose, v.outcome)).(timerLock := Drop)
  }

  // -------------------------------------------------------------------------- steps

  datatype Step =
    | Begin(t: Thread, pc: Pc)
    | Proceed(t: Thread, outcome: Outcome)
    | End(w: Worker)   // a worker leaves its loop, the scheduler's only with the flag down

  /** Whom a statement joins, if anybody. */
  function Joins(pc: Pc): Option<Worker> {
    match pc
    case InitJoin(w) => Some(w)
    case StartRaise => Some(Scheduler)
    case StopJoin(w) => Some(w)
    case FatalJoin(w, _) => Some(w)
    case ResetJoin(w) => Some(w)
    case TimerJoin(_) => Some(Scheduler)
    case _ => None
  }

  /** Whom a thread has to wait for before it can go on: the holder of a mutex, or a live thread
      it joins. Joining oneself is refused and does not wait. */
  function Awaited(s: State, t: Thread): Option<Thread>
    requires t in s.pcs
  {
    match s.pcs[t]
    case StopToken => s.token
    case ResetToken => s.token
    case TimerClear(_) => s.timerLock
    case StartTake => s.timerLock
    case pc =>
      match Joins(pc)
      case Some(w) => if w in s.alive && t != OfWorker(w) then Some(OfWorker(w)) else None
      case None => None
  }

  predicate Blocked(s: State, t: Thread)
    requires t in s.pcs
  {
    Awaited(s, t).Some?
  }

  predicate IsEntry(t: Thread, pc: Pc) {
    || pc == FatalStore(ToCaller)
    || (t == Owner && (pc in {InitJoin(Monitor), StartOpen, StopOpen, FatalStore(ToReset)} || pc.ShiftOpen?))
  }

  predicate Enabled(s: State, step: Step) {
    match step
    case Begin(t, pc) =>
      t in s.pcs && s.pcs[t] == Idle && IsEntry(t, pc) && (t.OfWorker? ==> t.worker in s.alive)
    case Proceed(t, _) => t in s.pcs && s.pcs[t] != Idle && !Blocked(s, t)
    case End(w) =>
      w in s.alive && OfWorker(w) in s.pcs && s.pcs[OfWorker(w)] == Idle && (w == Scheduler ==> !s.running)
  }

  function LockAfter(holder: Option<Thread>, use: LockUse, t: Thread): Option<Thread> {
    match use
    case Untouched => holder
    case Take => Some(t)
    case Drop => None
  }

  function ViewOf(s: State, t: Thread, outcome: Outcome): View {
    View(s.state, s.token == None, s.running, t == OfWorker(Scheduler), outcome)
  }

  function RunningAfter(running: bool, event: Option<Event>): bool {
    if event == Some(Raised) then true else if event == Some(Cleared) then false else running
  }

  function Logged(log: Log, event: Option<Event>): Log {
    if event.Some? then Then(log, event.value) else log
  }

  function Updated(s: State, t: Thread, e: Effect): State {
    State(e.state, LockAfter(s.token, e.token, t), LockAfter(s.timerLock, e.timerLock, t),
          RunningAfter(s.running, e.event), s.alive + e.spawns, s.pcs[t := e.pc], Logged(s.log, e.event))
  }

  ghost predicate BeginStep(s: State, t: Thread, pc: Pc, s': State) {
    Enabled(s, Begin(t, pc)) && s' == s.(pcs := s.pcs[t := pc])
  }

  /** A thread that is not blocked makes a statement that has this effect. */
  ghost predicate Moves(s: State, t: Thread, e: Effect, s': State) {
    t in s.pcs && !Blocked(s, t) && s' == Updated(s, t, e)
  }

  ghost predicate ProceedStep(s: State, t: Thread, outcome: Outcome, s': State) {
    && Enabled(s, Proceed(t, outcome))
    && Moves(s, t, Statement(s.pcs[t], ViewOf(s, t, outcome)), s')
  }

  ghost predicate EndStep(s: State, w: Worker, s': State) {
    Enabled(s, End(w)) && s' == s.(alive := s.alive - {w})
  }

  ghost predicate Next(s: State, step: Step, s': State) {
    match step
    case Begin(t, pc) => BeginStep(s, t, pc, s')
    case Proceed(t, outcome) => ProceedStep(s, t, outcome, s')
    case End(w) => EndStep(s, w, s')
  }

  ghost predicate Run(states: seq<State>, steps: seq<Step>) {
    && |states| == |steps| + 1
    && Init(states[0])
    && forall i :: 0 <= i < |steps| ==> StepAt(states, steps, i)
  }

  ghost predicate StepAt(states: seq<State>, steps: seq<Step>, i: nat)
    requires i < |steps| && |states| == |steps| + 1
  {
    Next(states[i], steps[i], states[i + 1])
  }

  // --------------------------------------------------------------- who holds what

  /** The section in which emergencyShutdown and stop join the worker threads. */
  predicate InSection(pc: Pc) {
    match pc
    case StopJoin(_) => true
    case StopRelease(_) => true
    case FatalJoin(_, _) => true
    case FatalRelease(_) => true
    case TimerHalt(p) => p.ForStop? || p.ForFatal?
    case TimerClear(p) => p.ForStop? || p.ForFatal?
    case TimerJoin(p) => p.ForStop? || p.ForFatal?
    case _ => false
  }

  predicate HoldsToken(pc: Pc) {
    InSection(pc) || pc == ResetRelease
  }

  predicate HoldsTimer(pc: Pc) {
    pc == StartRaise || pc == StartSpawn || pc.TimerJoin?
  }

  /** What threads other than the owner ever do: emergency shutdowns. */
  predicate EmergencyOnly(pc: Pc) {
    match pc
    case Idle => true
    case FatalStore(back) => back == ToCaller
    case FatalToken(back) => back == ToCaller
    case FatalJoin(_, back) => back == ToCaller
    case FatalRelease(back) => back == ToCaller
    case TimerHalt(p) => p == ForFatal(ToCaller)
    case TimerClear(p) => p == ForFatal(ToCaller)
    case TimerJoin(p) => p == ForFatal(ToCaller)
    case _ => false
  }

  ghost predicate TokenOk(s: State) {
    && (s.token.Some? ==> s.token.value in s.pcs)
    && (forall t :: t in s.pcs ==> (HoldsToken(s.pcs[t]) <==> s.token == Some(t)))
  }

  ghost predicate TimerLockOk(s: State) {
    && (s.timerLock.Some? ==> s.timerLock.value in s.pcs)
    && (forall t :: t in s.pcs ==> (HoldsTimer(s.pcs[t]) <==> s.timerLock == Some(t)))
  }

  ghost predicate RolesOk(s: State) {
    && Owner in s.pcs && (forall w :: OfWorker(w) in s.pcs)
    && (forall t :: t in s.pcs && t != Owner ==> EmergencyOnly(s.pcs[t]))
    && (forall w :: OfWorker(w) in s.pcs && w !in s.alive ==> s.pcs[OfWorker(w)] == Idle)
    && !s.pcs[OfWorker(Scheduler)].TimerClear? && !s.pcs[OfWorker(Scheduler)].TimerJoin?
  }

  ghost predicate LocksOk(s: State) {
    TokenOk(s) && TimerLockOk(s) && RolesOk(s)
  }

  predicate Takes(use: LockUse, before: bool, after: bool) {
    use == Take <==> !before && after
  }

  predicate Drops(use: LockUse, before: bool, after: bool) {
    use == Drop <==> before && !after
  }

  predicate TokenUse(pc: Pc, tokenFree: bool, e: Effect) {
    && Takes(e.token, HoldsToken(pc), HoldsToken(e.pc)) && Drops(e.token, HoldsToken(pc), HoldsToken(e.pc))
    && (e.token == Take ==> pc == StopToken || pc == ResetToken || tokenFree)
  }

  lemma StatementTakesToken(pc: Pc, v: View)
    ensures Takes(Statement(pc, v).token, HoldsToken(pc), HoldsToken(Statement(pc, v).pc))
  {
  }

  lemma StatementDropsToken(pc: Pc, v: View)
    ensures Drops(Statement(pc, v).token, HoldsToken(pc), HoldsToken(Statement(pc, v).pc))
  {
  }

  lemma StatementToken(pc: Pc, v: View)
    ensures TokenUse(pc, v.tokenFree, Statement(pc, v))
  {
    StatementTakesToken(pc, v);
    StatementDropsToken(pc, v);
  }

  predicate TimerUse(pc: Pc, e: Effect) {
    && Takes(e.timerLock, HoldsTimer(pc), HoldsTimer(e.pc)) && Drops(e.timerLock, HoldsTimer(pc), HoldsTimer(e.pc))
    && (e.timerLock == Take ==> pc == StartTake || pc.TimerClear?)
  }

  lemma StatementTakesTimer(pc: Pc, v: View)
    ensures Takes(Statement(pc, v).timerLock, HoldsTimer(pc), HoldsTimer(Statement(pc, v).pc))
  {
  }

  lemma StatementDropsTimer(pc: Pc, v: View)
    ensures Drops(Statement(pc, v).timerLock, HoldsTimer(pc), HoldsTimer(Statement(pc, v).pc))
  {
  }

  lemma StatementTimer(pc: Pc, v: View)
    ensures TimerUse(pc, Statement(pc, v))
  {
    StatementTakesTimer(pc, v);
    StatementDropsTimer(pc, v);
  }

  predicate RoleKept(pc: Pc, onScheduler: bool, e: Effect) {
    EmergencyOnly(pc) ==>
      && EmergencyOnly(e.pc) && e.spawns == {}
      && (onScheduler && !pc.TimerClear? && !pc.TimerJoin? ==> !e.pc.TimerClear? && !e.pc.TimerJoin?)
  }

  lemma StatementRoles(pc: Pc, v: View)
    ensures RoleKept(pc, v.onScheduler, Statement(pc, v))
  {
  }

  lemma MoveKeepsToken(s: State, t: Thread, e: Effect, s': State)
    requires TokenOk(s) && Moves(s, t, e, s') && TokenUse(s.pcs[t], s.token == None, e)
    ensures TokenOk(s')
  {
  }

  lemma MoveKeepsTimerLock(s: State, t: Thread, e: Effect, s': State)
    requires TimerLockOk(s) && Moves(s, t, e, s') && TimerUse(s.pcs[t], e)
    ensures TimerLockOk(s')
  {
  }

  lemma MoveKeepsRoles(s: State, t: Thread, e: Effect, s': State)
    requires RolesOk(s) && Moves(s, t, e, s') && s.pcs[t] != Idle
    requires RoleKept(s.pcs[t], t == OfWorker(Scheduler), e)
    ensures RolesOk(s')
  {
  }

  lemma ProceedKeepsLocks(s: State, t: Thread, outcome: Outcome, s': State)
    requires LocksOk(s) && ProceedStep(s, t, outcome, s')
    ensures LocksOk(s')
  {
    var v := ViewOf(s, t, outcome);
    var e := Statement(s.pcs[t], v);
    StatementToken(s.pcs[t], v);
    StatementTimer(s.pcs[t], v);
    StatementRoles(s.pcs[t], v);
    MoveKeepsToken(s, t, e, s');
    MoveKeepsTimerLock(s, t, e, s');
    MoveKeepsRoles(s, t, e, s');
  }

  lemma BeginKeepsLocks(s: State, t: Thread, pc: Pc, s': State)
    requires LocksOk(s) && BeginStep(s, t, pc, s')
    ensures LocksOk(s')
  {
    assert !HoldsToken(pc) && !HoldsTimer(pc) && (t != Owner ==> EmergencyOnly(pc));
  }

  lemma NextKeepsLocks(s: State, step: Step, s': State)
    requires LocksOk(s) && Next(s, step, s')
    ensures LocksOk(s')
  {
    match step
    case Begin(t, pc) => BeginKeepsLocks(s, t, pc, s');
    case Proceed(t, outcome) => ProceedKeepsLocks(s, t, outcome, s');
    case End(w) =>
  }

  lemma {:induction false} RunHasLocksOk(states: seq<State>, steps: seq<Step>, k: nat)
    requires Run(states, steps) && k < |states|
    ensures LocksOk(states[k])
  {
    if k > 0 {
      RunHasLocksOk(states, steps, k - 1);
      assert StepAt(states, steps, k - 1);
      NextKeepsLocks(states[k - 1], steps[k - 1], states[k]);
    }
  }

  /** In every state of every run at most one thread is in the section that joins the workers. */
  lemma OneInSection(states: seq<State>, steps: seq<Step>, k: nat, t: Thread, u: Thread)
    requires Run(states, steps) && k < |states| && t in states[k].pcs && u in states[k].pcs
    requires InSection(states[k].pcs[t]) && InSection(states[k].pcs[u])
    ensures t == u
  {
    RunHasLocksOk(states, steps, k);
  }

  // ------------------------------------------------------- no cycle of waiting

  /** Thread a cannot go on before thread b does something. */
  ghost predicate WaitsFor(s: State, a: Thread, b: Thread) {
    a in s.pcs && b in s.pcs && Awaited(s, a) == Some(b)
  }

  /** A worker outside the section waits for nobody; the scheduler's thread inside it only for
      such workers; who holds the scheduler's mutex only for the scheduler's thread; and so on. */
  function Rank(t: Thread, pc: Pc): nat {
    if t.OfWorker? && !InSection(pc) then 0
    else if t == OfWorker(Scheduler) then 1
    else if HoldsTimer(pc) then 2
    else if InSection(pc) then 3
    else 4
  }

  lemma WaitingGoesDown(s: State, a: Thread, b: Thread)
    requires LocksOk(s) && WaitsFor(s, a, b)
    ensures Rank(b, s.pcs[b]) < Rank(a, s.pcs[a])
  {
    assert a != Owner ==> EmergencyOnly(s.pcs[a]);
    assert b != Owner ==> EmergencyOnly(s.pcs[b]);
    assert HoldsToken(s.pcs[b]) <==> s.token == Some(b);
    assert HoldsToken(s.pcs[a]) <==> s.token == Some(a);
    assert HoldsTimer(s.pcs[b]) <==> s.timerLock == Some(b);
  }

  /** A thread that cannot go on waits for some other thread. */
  lemma BlockedWaits(states: seq<State>, steps: seq<Step>, k: nat, a: Thread)
    requires Run(states, steps) && k < |states| && a in states[k].pcs && Blocked(states[k], a)
    ensures WaitsFor(states[k], a, Awaited(states[k], a).value) && a != Awaited(states[k], a).value
  {
    RunHasLocksOk(states, steps, k);
    WaitingGoesDown(states[k], a, Awaited(states[k], a).value);
  }

  /** In every state of every run, no chain of waiting threads of any length closes. */
  lemma NoWaitCycle(states: seq<State>, steps: seq<Step>, k: nat, chain: seq<Thread>)
    requires Run(states, steps) && k < |states| && |chain| >= 2
    requires forall i :: 0 <= i < |chain| - 1 ==> WaitsFor(states[k], chain[i], chain[i + 1])
    ensures chain[0] != chain[|chain| - 1]
  {
    RunHasLocksOk(states, steps, k);
    var s := states[k];
    assert WaitsFor(s, chain[0], chain[1]);
    WaitingGoesDown(s, chain[0], chain[1]);
    var i := 1;
    while i < |chain| - 1
      invariant 1 <= i < |chain| && chain[i] in s.pcs && chain[0] in s.pcs
      invariant Rank(chain[i], s.pcs[chain[i]]) < Rank(chain[0], s.pcs[chain[0]])
    {
      assert WaitsFor(s, chain[i], chain[i + 1]);
      WaitingGoesDown(s, chain[i], chain[i + 1]);
      i := i + 1;
    }
  }

  lemma EmergencyReturns(s: State, t: Thread, outcome: Outcome, s': State)
    requires ProceedStep(s, t, outcome, s') && s.pcs[t] == FatalToken(ToCaller) && s.token.Some?
    ensures t in s'.pcs && s'.pcs[t] == Idle
  {
  }

  /** A worker that is being joined from within the section never waits; an emergency shutdown
      of its own finds the token taken and returns. */
  lemma JoinedWorkerReturns(states: seq<State>, steps: seq<Step>, k: nat, t: Thread, w: Worker)
    requires Run(states, steps) && k < |states| && t in states[k].pcs && t != OfWorker(w)
    requires InSection(states[k].pcs[t]) && WaitsFor(states[k], t, OfWorker(w))
    ensures !Blocked(states[k], OfWorker(w))
    ensures k < |steps| && steps[k].Proceed? && steps[k].t == OfWorker(w) && states[k].pcs[OfWorker(w)].FatalToken? ==>
              OfWorker(w) in states[k + 1].pcs && states[k + 1].pcs[OfWorker(w)] == Idle
  {
    RunHasLocksOk(states, steps, k);
    assert HoldsToken(states[k].pcs[t]);
    assert EmergencyOnly(states[k].pcs[OfWorker(w)]) && !HoldsToken(states[k].pcs[OfWorker(w)]);
    if k < |steps| && steps[k].Proceed? && steps[k].t == OfWorker(w) && states[k].pcs[OfWorker(w)].FatalToken? {
      assert StepAt(states, steps, k);
      EmergencyReturns(states[k], steps[k].t, steps[k].outcome, states[k + 1]);
    }
  }

  // ------------------------------------------------ the scheduler's flag, exactly

  /** The scheduler was raised last, not cleared. */
  predicate SchedulerUp(log: Log) {
    match log
    case NoEvents => false
    case Then(before, event) => if event.Raised? || event.Cleared? then event.Raised? else SchedulerUp(before)
  }

  /** The fatal state was stored last, not reset. */
  predicate FatalStands(log: Log) {
    match log
    case NoEvents => false
    case Then(before, event) =>
      if event.StoredFatal? || event.WasReset? then event.StoredFatal? else FatalStands(before)
  }

  /** With the fatal state standing: the scheduler was cleared since it was stored. */
  predicate ClearedSinceFatal(log: Log) {
    match log
    case NoEvents => false
    case Then(before, event) =>
      event.Cleared? || (!event.StoredFatal? && !event.WasReset? && ClearedSinceFatal(before))
  }

  /** A start raised the scheduler after it had been cleared, and then failed before its last
      transition; nothing happened since. */
  predicate LateFailure(log: Log) {
    && log.Then? && log.event == StartFailed
    && log.before.Then? && log.before.event == Raised
    && ClearedSinceFatal(log.before.before)
  }

  ghost predicate LogOk(s: State) {
    (s.running <==> SchedulerUp(s.log)) && (s.state == FATAL_ERROR <==> FatalStands(s.log))
  }

  predicate AboutToRaise(pc: Pc) {
    pc == StartTake || pc == StartRaise
  }

  predicate JustRaised(pc: Pc) {
    pc == StartSpawn || pc == StartUnits || pc == StartClose || pc == TimerHalt(ForStart)
  }

  /** If the scheduler is up although it was cleared since the fatal state was stored, then the
      start that raised it is still under way, or failed. `pc` is the owner's. */
  predicate UpIsExplained(state: SystemState, running: bool, log: Log, pc: Pc) {
    state == FATAL_ERROR && running && ClearedSinceFatal(log) ==>
      || (log.event == Raised && ClearedSinceFatal(log.before) && JustRaised(pc))
      || (LateFailure(log) && !AboutToRaise(pc) && !JustRaised(pc))
  }

  ghost predicate FlagOk(s: State) {
    && LogOk(s) && Owner in s.pcs
    && UpIsExplained(s.state, s.running, s.log, s.pcs[Owner])
  }

  /** What the events go with. */
  predicate EventShape(pc: Pc, before: SystemState, e: Effect) {
    match e.event
    case Some(StoredFatal) => before != FATAL_ERROR && e.state == FATAL_ERROR && e.pc.FatalToken?
    case Some(WasReset) => e.state == UNINITIALIZED && pc == ResetUnset
    case Some(Raised) => e.state == before && pc == StartRaise && e.pc == StartSpawn
    case Some(Cleared) => e.state == before
    case Some(StartFailed) => e.state == before && e.pc == StartFail && (AboutToRaise(pc) || JustRaised(pc))
    case None => e.state == FATAL_ERROR <==> before == FATAL_ERROR
  }

  lemma StatementEvents(pc: Pc, v: View)
    ensures EventShape(pc, v.state, Statement(pc, v))
  {
  }

  /** A start that raised the scheduler goes on, fails or clears it; */
  predicate RaisedShape(pc: Pc, e: Effect) {
    JustRaised(pc) ==> JustRaised(e.pc) || e.event == Some(StartFailed) || e.event == Some(Cleared)
  }

  /** and under the fatal state none gets as far as to raise it. */
  predicate StartShape(pc: Pc, e: Effect) {
    && (JustRaised(e.pc) ==> JustRaised(pc) || AboutToRaise(pc))
    && (AboutToRaise(e.pc) ==> AboutToRaise(pc))
  }

  lemma StatementRaised(pc: Pc, v: View)
    requires v.state == FATAL_ERROR
    ensures RaisedShape(pc, Statement(pc, v))
  {
  }

  lemma StatementStarts(pc: Pc, v: View)
    requires v.state == FATAL_ERROR
    ensures StartShape(pc, Statement(pc, v))
  {
  }

  lemma OwnerIsExplained(pc: Pc, state: SystemState, running: bool, log: Log, e: Effect)
    requires UpIsExplained(state, running, log, pc)
    requires EventShape(pc, state, e) && (state == FATAL_ERROR ==> RaisedShape(pc, e) && StartShape(pc, e))
    ensures UpIsExplained(e.state, RunningAfter(running, e.event), Logged(log, e.event), e.pc)
  {
  }

  lemma OthersAreExplained(pc: Pc, state: SystemState, running: bool, log: Log, e: Effect, owner: Pc)
    requires UpIsExplained(state, running, log, owner) && EmergencyOnly(pc) && EventShape(pc, state, e)
    ensures UpIsExplained(e.state, RunningAfter(running, e.event), Logged(log, e.event), owner)
  {
  }

  lemma MoveKeepsFlag(s: State, t: Thread, e: Effect, s': State)
    requires RolesOk(s) && FlagOk(s) && Moves(s, t, e, s')
    requires EventShape(s.pcs[t], s.state, e) && (s.state == FATAL_ERROR ==> RaisedShape(s.pcs[t], e) && StartShape(s.pcs[t], e))
    ensures FlagOk(s')
  {
    if t == Owner {
      OwnerIsExplained(s.pcs[t], s.state, s.running, s.log, e);
    } else {
      OthersAreExplained(s.pcs[t], s.state, s.running, s.log, e, s.pcs[Owner]);
    }
  }

  lemma ProceedKeepsFlag(s: State, t: Thread, outcome: Outcome, s': State)
    requires LocksOk(s) && FlagOk(s) && ProceedStep(s, t, outcome, s')
    ensures FlagOk(s')
  {
    var v := ViewOf(s, t, outcome);
    StatementEvents(s.pcs[t], v);
    if s.state == FATAL_ERROR {
      StatementRaised(s.pcs[t], v);
      StatementStarts(s.pcs[t], v);
    }
    MoveKeepsFlag(s, t, Statement(s.pcs[t], v), s');
  }

  lemma BeginKeepsFlag(s: State, t: Thread, pc: Pc, s': State)
    requires FlagOk(s) && BeginStep(s, t, pc, s')
    ensures FlagOk(s')
  {
    assert !AboutToRaise(pc) && !JustRaised(pc);
  }

  lemma NextKeepsFlag(s: State, step: Step, s': State)
    requires LocksOk(s) && FlagOk(s) && Next(s, step, s')
    ensures FlagOk(s')
  {
    match step
    case Begin(t, pc) => BeginKeepsFlag(s, t, pc, s');
    case Proceed(t, outcome) => ProceedKeepsFlag(s, t, outcome, s');
    case End(w) =>
  }

  lemma StepOf(states: seq<State>, steps: seq<Step>, k: nat)
    requires Run(states, steps) && 0 < k < |states|
    ensures LocksOk(states[k - 1]) && Next(states[k - 1], steps[k - 1], states[k])
  {
    RunHasLocksOk(states, steps, k - 1);
    assert StepAt(states, steps, k - 1);
  }

  lemma StepKeepsFlag(states: seq<State>, steps: seq<Step>, k: nat)
    requires Run(states, steps) && 0 < k < |states| && FlagOk(states[k - 1])
    ensures FlagOk(states[k])
  {
    StepOf(states, steps, k);
    NextKeepsFlag(states[k - 1], steps[k - 1], states[k]);
  }

  lemma {:induction false} RunHasFlagOk(states: seq<State>, steps: seq<Step>, k: nat)
    requires Run(states, steps) && k < |states|
    ensures FlagOk(states[k])
  {
    if k > 0 {
      RunHasFlagOk(states, steps, k - 1);
      StepKeepsFlag(states, steps, k);
    }
  }

  ghost predicate AllReturned(s: State) {
    forall t :: t in s.pcs ==> s.pcs[t] == Idle
  }

  /** With all calls returned under the fatal state, the scheduler is up if and only if a start
      raised it after it had been stopped and then failed, or nobody stopped it since the fatal
      state was stored. */
  lemma UpUnderFatalIff(states: seq<State>, steps: seq<Step>, k: nat)
    requires Run(states, steps) && k < |states| && states[k].state == FATAL_ERROR && AllReturned(states[k])
    ensures var s := states[k];
            s.running <==> LateFailure(s.log) || (SchedulerUp(s.log) && !ClearedSinceFatal(s.log))
  {
    RunHasFlagOk(states, steps, k);
    assert LateFailure(states[k].log) ==> SchedulerUp(states[k].log.before);
  }

  // ----------------------------------- an emergency shutdown does stop the scheduler

  /** Inside an emergency shutdown, past its transition. */
  predicate PastStore(pc: Pc) {
    match pc
    case FatalToken(_) => true
    case FatalJoin(_, _) => true
    case FatalRelease(_) => true
    case TimerHalt(p) => p.ForFatal?
    case TimerClear(p) => p.ForFatal?
    case TimerJoin(p) => p.ForFatal?
    case _ => false
  }

  /** Inside a reset, past its emergency shutdown. */
  predicate InReset(pc: Pc) {
    pc == ResetToken || pc == ResetRelease || pc.ResetJoin? || pc == ResetUnset
  }

  /** In the section, with the scheduler still to be stopped. */
  predicate Stopping(pc: Pc) {
    InSection(pc) && (pc.StopJoin? || pc.FatalJoin? || pc.TimerHalt? || pc.TimerClear?)
  }

  /** In an emergency shutdown that has stopped the scheduler. */
  predicate PastClear(pc: Pc) {
    pc.FatalRelease? || (pc.TimerJoin? && pc.purpose.ForFatal?)
  }

  /** In a stop that has lowered the flag. */
  predicate StopDone(pc: Pc) {
    pc == TimerClear(ForStop) || pc == TimerJoin(ForStop) || pc.StopRelease?
  }

  /** A thread that is going to stop the scheduler, or to try. */
  ghost predicate Pending(s: State, t: Thread) {
    t in s.pcs && (s.pcs[t].FatalToken? || Stopping(s.pcs[t]))
  }

  ghost predicate SectionPending(s: State, t: Thread) {
    t in s.pcs && Stopping(s.pcs[t])
  }

  /** A step is quiet unless it is a reset's transition while another thread's emergency shutdown
      is under way. */
  ghost predicate Quiet(s: State, step: Step) {
    step.Proceed? && step.t in s.pcs && s.pcs[step.t] == ResetUnset ==>
      forall t :: t in s.pcs && t != step.t ==> !PastStore(s.pcs[t])
  }

  ghost predicate QuietResets(states: seq<State>, steps: seq<Step>, k: nat)
    requires k <= |steps| && k <= |states|
  {
    forall i :: 0 <= i < k ==> Quiet(states[i], steps[i])
  }

  /** Emergency shutdowns and resets under way stand under the fatal state, */
  ghost predicate FatalOk(s: State) {
    forall t :: t in s.pcs && (PastStore(s.pcs[t]) || InReset(s.pcs[t])) ==> s.state == FATAL_ERROR
  }

  /** those past stopping the scheduler have it cleared, */
  ghost predicate ClearedOk(s: State) {
    forall t :: t in s.pcs && PastClear(s.pcs[t]) ==> ClearedSinceFatal(s.log)
  }

  /** a stop past it keeps it down, */
  ghost predicate StopOk(s: State)
    requires Owner in s.pcs
  {
    StopDone(s.pcs[Owner]) ==> !s.running
  }

  /** a reset waits for whoever is to clear it, */
  ghost predicate ResetOk(s: State)
    requires Owner in s.pcs
  {
    && (InReset(s.pcs[Owner]) ==> ClearedSinceFatal(s.log) || exists t :: SectionPending(s, t))
    && (InReset(s.pcs[Owner]) && s.pcs[Owner] != ResetToken ==> ClearedSinceFatal(s.log))
  }

  /** and under the fatal state the scheduler has been cleared, is going to be, or is down. */
  ghost predicate CoverOk(s: State)
    requires Owner in s.pcs
  {
    s.state == FATAL_ERROR ==>
      || ClearedSinceFatal(s.log)
      || (!s.running && !AboutToRaise(s.pcs[Owner]))
      || exists t :: Pending(s, t)
  }

  ghost predicate Covered(s: State) {
    FatalOk(s) && ClearedOk(s) && Owner in s.pcs && StopOk(s) && ResetOk(s) && CoverOk(s)
  }

  predicate FatalShape(pc: Pc, before: SystemState, e: Effect) {
    (PastStore(pc) || InReset(pc) ==> before == FATAL_ERROR) ==>
      (PastStore(e.pc) || InReset(e.pc) ==> e.state == FATAL_ERROR)
  }

  /** Only its transition leads into an emergency shutdown, only an emergency shutdown into the
      rest of a reset. */
  lemma StatementEnters(pc: Pc, v: View)
    ensures PastStore(Statement(pc, v).pc) ==> PastStore(pc) || pc.FatalStore?
    ensures InReset(Statement(pc, v).pc) ==> InReset(pc) || PastStore(pc)
  {
  }

  lemma StatementFatal(pc: Pc, v: View)
    ensures FatalShape(pc, v.state, Statement(pc, v))
  {
    StatementEnters(pc, v);
  }

  predicate StopShape(pc: Pc, tokenFree: bool, e: Effect) {
    && (Stopping(pc) ==> Stopping(e.pc) || e.event == Some(Cleared))
    && (pc.FatalToken? && tokenFree ==> Stopping(e.pc))
  }

  lemma StatementStops(pc: Pc, v: View)
    ensures StopShape(pc, v.tokenFree, Statement(pc, v))
  {
  }

  predicate ClearShape(pc: Pc, e: Effect) {
    PastClear(e.pc) ==> e.event == Some(Cleared) || (PastClear(pc) && e.event == None)
  }

  lemma StatementClears(pc: Pc, v: View)
    ensures ClearShape(pc, Statement(pc, v))
  {
  }

  predicate DownShape(pc: Pc, e: Effect) {
    StopDone(e.pc) ==> e.event == Some(Cleared) || (StopDone(pc) && e.event == None)
  }

  lemma StatementKeepsDown(pc: Pc, v: View)
    ensures DownShape(pc, Statement(pc, v))
  {
  }

  predicate ResetShape(pc: Pc, tokenFree: bool, e: Effect) {
    !InReset(pc) && InReset(e.pc) ==>
      && e.pc == ResetToken && e.event == None
      && ((pc.FatalToken? && !tokenFree) || pc.FatalRelease?)
  }

  lemma StatementResets(pc: Pc, v: View)
    ensures ResetShape(pc, v.tokenFree, Statement(pc, v))
  {
  }

  /** A thread moves as a statement may make it move. */
  ghost predicate ShapedMove(s: State, t: Thread, e: Effect, s': State) {
    && Moves(s, t, e, s')
    && EventShape(s.pcs[t], s.state, e) && (s.state == FATAL_ERROR ==> RaisedShape(s.pcs[t], e) && StartShape(s.pcs[t], e))
    && FatalShape(s.pcs[t], s.state, e) && StopShape(s.pcs[t], s.token == None, e)
    && ClearShape(s.pcs[t], e) && DownShape(s.pcs[t], e) && ResetShape(s.pcs[t], s.token == None, e)
  }

  lemma MoveKeepsFatal(s: State, t: Thread, e: Effect, s': State)
    requires LocksOk(s) && FatalOk(s) && ShapedMove(s, t, e, s')
    requires s.pcs[t] == ResetUnset ==> forall u :: u in s.pcs && u != t ==> !PastStore(s.pcs[u])
    ensures FatalOk(s')
  {
    if s.pcs[t] == ResetUnset {
      assert t == Owner;
      assert forall u :: u in s.pcs && u != t ==> EmergencyOnly(s.pcs[u]) && !InReset(s.pcs[u]);
    }
  }

  /** Under the fatal state a clearing is not forgotten; who was to clear the scheduler goes on to,
      or has done it. */
  lemma ClearedIsKept(s: State, t: Thread, e: Effect, s': State)
    requires ShapedMove(s, t, e, s')
    ensures s.state == FATAL_ERROR && s'.state == FATAL_ERROR && ClearedSinceFatal(s.log) ==> ClearedSinceFatal(s'.log)
    ensures Stopping(s.pcs[t]) && !Stopping(s'.pcs[t]) ==> ClearedSinceFatal(s'.log)
  {
  }

  lemma MoveKeepsCleared(s: State, t: Thread, e: Effect, s': State)
    requires FatalOk(s) && FatalOk(s') && ClearedOk(s) && ShapedMove(s, t, e, s')
    ensures ClearedOk(s')
  {
    ClearedIsKept(s, t, e, s');
    forall u | u in s'.pcs && PastClear(s'.pcs[u]) ensures ClearedSinceFatal(s'.log) {
      assert s'.state == FATAL_ERROR;
      if u != t {
        assert PastClear(s.pcs[u]) && s.state == FATAL_ERROR;
      }
    }
  }

  lemma MoveKeepsStop(s: State, t: Thread, e: Effect, s': State)
    requires RolesOk(s) && StopOk(s) && ShapedMove(s, t, e, s')
    ensures StopOk(s')
  {
    assert t != Owner ==> EmergencyOnly(s.pcs[t]) && s.pcs[t] != StartRaise;
  }

  /** Whoever holds the teardown mutex is going to stop the scheduler, or it is cleared or down. */
  lemma HolderStops(s: State, h: Thread)
    requires LocksOk(s) && ClearedOk(s) && StopOk(s) && ResetOk(s) && s.token == Some(h)
    ensures h in s.pcs
    ensures SectionPending(s, h) || ClearedSinceFatal(s.log) || (h == Owner && !s.running && InSection(s.pcs[h]))
  {
    assert HoldsToken(s.pcs[h]);
    assert h != Owner ==> EmergencyOnly(s.pcs[h]);
  }

  lemma SectionMoves(s: State, t: Thread, e: Effect, s': State, u: Thread)
    requires ShapedMove(s, t, e, s') && SectionPending(s, u)
    ensures SectionPending(s', u) || ClearedSinceFatal(s'.log)
  {
    ClearedIsKept(s, t, e, s');
  }

  lemma ResetStays(s: State, t: Thread, e: Effect, s': State)
    requires LocksOk(s) && FatalOk(s) && ResetOk(s) && ShapedMove(s, t, e, s') && s'.state == FATAL_ERROR
    requires InReset(s.pcs[Owner])
    ensures ClearedSinceFatal(s'.log) || exists u :: SectionPending(s', u)
    ensures s.pcs[Owner] != ResetToken || t == Owner ==> ClearedSinceFatal(s'.log)
  {
    ClearedIsKept(s, t, e, s');
    if !ClearedSinceFatal(s.log) {
      var u :| SectionPending(s, u);
      assert HoldsToken(s.pcs[u]);
      SectionMoves(s, t, e, s', u);
    }
  }

  lemma ResetEntered(s: State, e: Effect, s': State)
    requires LocksOk(s) && ClearedOk(s) && StopOk(s) && ResetOk(s) && ShapedMove(s, Owner, e, s')
    requires !InReset(s.pcs[Owner]) && InReset(s'.pcs[Owner])
    ensures s'.pcs[Owner] == ResetToken
    ensures ClearedSinceFatal(s'.log) || exists u :: SectionPending(s', u)
  {
    assert s'.log == s.log;
    if s.pcs[Owner].FatalToken? {
      var h := s.token.value;
      HolderStops(s, h);
      assert h != Owner by { assert !HoldsToken(s.pcs[Owner]); }
      assert s'.pcs[h] == s.pcs[h];
      assert SectionPending(s, h) ==> SectionPending(s', h);
    }
  }

  lemma MoveKeepsReset(s: State, t: Thread, e: Effect, s': State)
    requires LocksOk(s) && FatalOk(s) && FatalOk(s') && ClearedOk(s) && StopOk(s) && ResetOk(s)
    requires ShapedMove(s, t, e, s')
    ensures ResetOk(s')
  {
    if InReset(s'.pcs[Owner]) {
      assert s'.state == FATAL_ERROR;
      if InReset(s.pcs[Owner]) {
        ResetStays(s, t, e, s');
      } else {
        assert t == Owner;
        ResetEntered(s, e, s');
      }
    }
  }

  /** Under the fatal state nobody raises the scheduler who was not about to. */
  lemma DownStays(s: State, t: Thread, e: Effect, s': State)
    requires RolesOk(s) && ShapedMove(s, t, e, s') && s.state == FATAL_ERROR
    requires !s.running && !AboutToRaise(s.pcs[Owner])
    ensures !s'.running && !AboutToRaise(s'.pcs[Owner])
  {
    assert t != Owner ==> EmergencyOnly(s.pcs[t]) && s.pcs[t] != StartRaise;
  }

  /** Who was going to stop the scheduler still is, or has stopped it, or somebody else will. */
  lemma PendingMoves(s: State, t: Thread, e: Effect, s': State, u: Thread)
    requires LocksOk(s) && Covered(s) && ShapedMove(s, t, e, s') && Pending(s, u)
    requires s.state == FATAL_ERROR && s'.state == FATAL_ERROR
    ensures || ClearedSinceFatal(s'.log) || (!s'.running && !AboutToRaise(s'.pcs[Owner]))
            || exists w :: Pending(s', w)
  {
    ClearedIsKept(s, t, e, s');
    if SectionPending(s, u) {
      SectionMoves(s, t, e, s', u);
      assert SectionPending(s', u) ==> Pending(s', u);
    } else if t != u || s.token == None {
      assert Pending(s', u);
    } else {
      var h := s.token.value;
      HolderStops(s, h);
      assert h != t by { assert !HoldsToken(s.pcs[t]); }
      assert SectionPending(s, h) ==> Pending(s', h);
      if h == Owner && !s.running && InSection(s.pcs[h]) {
        DownStays(s, t, e, s');
      }
    }
  }

  lemma MoveKeepsCover(s: State, t: Thread, e: Effect, s': State)
    requires LocksOk(s) && Covered(s) && ShapedMove(s, t, e, s')
    ensures CoverOk(s')
  {
    ClearedIsKept(s, t, e, s');
    if s'.state == FATAL_ERROR && s.state != FATAL_ERROR {
      assert Pending(s', t);
    } else if s'.state == FATAL_ERROR && !ClearedSinceFatal(s.log) {
      if !s.running && !AboutToRaise(s.pcs[Owner]) {
        DownStays(s, t, e, s');
      } else {
        var u :| Pending(s, u);
        PendingMoves(s, t, e, s', u);
      }
    }
  }

  lemma MoveKeepsCovered(s: State, t: Thread, e: Effect, s': State)
    requires LocksOk(s) && Covered(s) && ShapedMove(s, t, e, s')
    requires s.pcs[t] == ResetUnset ==> forall u :: u in s.pcs && u != t ==> !PastStore(s.pcs[u])
    ensures Covered(s')
  {
    MoveKeepsFatal(s, t, e, s');
    MoveKeepsCleared(s, t, e, s');
    MoveKeepsStop(s, t, e, s');
    MoveKeepsReset(s, t, e, s');
    MoveKeepsCover(s, t, e, s');
  }

  lemma ProceedIsShaped(s: State, t: Thread, outcome: Outcome, s': State)
    requires ProceedStep(s, t, outcome, s')
    ensures ShapedMove(s, t, Statement(s.pcs[t], ViewOf(s, t, outcome)), s')
  {
    var v := ViewOf(s, t, outcome);
    StatementEvents(s.pcs[t], v);
    if s.state == FATAL_ERROR {
      StatementRaised(s.pcs[t], v);
      StatementStarts(s.pcs[t], v);
    }
    StatementFatal(s.pcs[t], v);
    StatementStops(s.pcs[t], v);
    StatementClears(s.pcs[t], v);
    StatementKeepsDown(s.pcs[t], v);
    StatementResets(s.pcs[t], v);
  }

  lemma ProceedKeepsCovered(s: State, t: Thread, outcome: Outcome, s': State)
    requires LocksOk(s) && Covered(s) && ProceedStep(s, t, outcome, s') && Quiet(s, Proceed(t, outcome))
    ensures Covered(s')
  {
    ProceedIsShaped(s, t, outcome, s');
    MoveKeepsCovered(s, t, Statement(s.pcs[t], ViewOf(s, t, outcome)), s');
  }

  lemma BeginKeepsReset(s: State, t: Thread, pc: Pc, s': State)
    requires Owner in s.pcs && ResetOk(s) && BeginStep(s, t, pc, s')
    ensures ResetOk(s')
  {
    assert !InReset(pc);
    assert forall u :: SectionPending(s, u) ==> SectionPending(s', u);
  }

  lemma BeginKeepsCover(s: State, t: Thread, pc: Pc, s': State)
    requires Owner in s.pcs && CoverOk(s) && BeginStep(s, t, pc, s')
    ensures CoverOk(s')
  {
    assert !AboutToRaise(pc);
    assert forall u :: Pending(s, u) ==> Pending(s', u);
  }

  lemma BeginKeepsCovered(s: State, t: Thread, pc: Pc, s': State)
    requires Covered(s) && BeginStep(s, t, pc, s')
    ensures Covered(s')
  {
    assert !PastStore(pc) && !PastClear(pc) && !StopDone(pc) && !InReset(pc);
    BeginKeepsReset(s, t, pc, s');
    BeginKeepsCover(s, t, pc, s');
  }

  lemma EndKeepsCovered(s: State, w: Worker, s': State)
    requires Covered(s) && EndStep(s, w, s')
    ensures Covered(s')
  {
    assert forall u :: SectionPending(s, u) ==> SectionPending(s', u);
    assert forall u :: Pending(s, u) ==> Pending(s', u);
  }

  lemma NextKeepsCovered(s: State, step: Step, s': State)
    requires LocksOk(s) && Covered(s) && Next(s, step, s') && Quiet(s, step)
    ensures Covered(s')
  {
    match step
    case Begin(t, pc) => BeginKeepsCovered(s, t, pc, s');
    case Proceed(t, outcome) => ProceedKeepsCovered(s, t, outcome, s');
    case End(w) => EndKeepsCovered(s, w, s');
  }

  lemma StepKeepsCovered(states: seq<State>, steps: seq<Step>, k: nat)
    requires Run(states, steps) && 0 < k < |states| && QuietResets(states, steps, k) && Covered(states[k - 1])
    ensures Covered(states[k])
  {
    StepOf(states, steps, k);
    assert Quiet(states[k - 1], steps[k - 1]);
    NextKeepsCovered(states[k - 1], steps[k - 1], states[k]);
  }

  lemma StartIsCovered(s: State)
    requires Init(s)
    ensures Covered(s)
  {
  }

  lemma QuietBefore(states: seq<State>, steps: seq<Step>, k: nat)
    requires 0 < k <= |steps| && k <= |states| && QuietResets(states, steps, k)
    ensures QuietResets(states, steps, k - 1)
  {
  }

  lemma {:induction false} RunIsCovered(states: seq<State>, steps: seq<Step>, k: nat)
    requires Run(states, steps) && k < |states| && QuietResets(states, steps, k)
    ensures Covered(states[k])
  {
    if k == 0 {
      StartIsCovered(states[0]);
    } else {
      QuietBefore(states, steps, k);
      RunIsCovered(states, steps, k - 1);
      StepKeepsCovered(states, steps, k);
    }
  }

  /** If no reset made its transition in the middle of an emergency shutdown: with all calls
      returned under the fatal state, the scheduler is up if and only if a start raised it after
      it had been stopped, and then failed before its last transition. */
  lemma UpUnderFatalIffStartFailed(states: seq<State>, steps: seq<Step>, k: nat)
    requires Run(states, steps) && k < |states| && QuietResets(states, steps, k)
    requires states[k].state == FATAL_ERROR && AllReturned(states[k])
    ensures states[k].running <==> LateFailure(states[k].log)
  {
    UpUnderFatalIff(states, steps, k);
    RunIsCovered(states, steps, k);
    assert forall t :: !Pending(states[k], t);
  }

  // ------------------------------------------------------------ two runs that leave it up

  /** The owner, two other threads, and workers that make no calls. */
  datatype Scene = Scene(
    state: SystemState, token: Option<Thread>, timerLock: Option<Thread>, running: bool, alive: set<Worker>,
    owner: Pc, first: Pc, second: Pc, log: Log)

  function Shown(x: Scene): State {
    State(x.state, x.token, x.timerLock, x.running, x.alive,
          map[Owner := x.owner, Outside(0) := x.first, Outside(1) := x.second,
              OfWorker(Dispatch) := Idle, OfWorker(Monitor) := Idle, OfWorker(Scheduler) := Idle], x.log)
  }

  ghost predicate At(states: seq<State>, steps: seq<Step>, x: Scene) {
    Run(states, steps) && states[|states| - 1] == Shown(x)
  }

  predicate Seated(t: Thread) {
    t == Owner || t == Outside(0) || t == Outside(1)
  }

  function PcOf(x: Scene, t: Thread): Pc
    requires Seated(t)
  {
    if t == Owner then x.owner else if t == Outside(0) then x.first else x.second
  }

  function WithPc(x: Scene, t: Thread, pc: Pc): Scene {
    if t == Owner then x.(owner := pc) else if t == Outside(0) then x.(first := pc) else x.(second := pc)
  }

  /** Appends a step. */
  lemma Go(states: seq<State>, steps: seq<Step>, step: Step, x: Scene)
    returns (states': seq<State>, steps': seq<Step>)
    requires Run(states, steps) && Next(states[|states| - 1], step, Shown(x))
    ensures At(states', steps', x)
  {
    states', steps' := states + [Shown(x)], steps + [step];
    forall i | 0 <= i < |steps'| ensures StepAt(states', steps', i) {
      assert i < |steps| ==> StepAt(states, steps, i);
    }
  }

  function After(x: Scene, t: Thread, e: Effect): Scene {
    WithPc(Scene(e.state, LockAfter(x.token, e.token, t), LockAfter(x.timerLock, e.timerLock, t),
                 RunningAfter(x.running, e.event), x.alive + e.spawns, x.owner, x.first, x.second,
                 Logged(x.log, e.event)), t, e.pc)
  }

  /** A call begins. */
  lemma Call(states: seq<State>, steps: seq<Step>, x: Scene, t: Thread, pc: Pc)
    returns (states': seq<State>, steps': seq<Step>, x': Scene)
    requires At(states, steps, x) && Seated(t)
    requires PcOf(x, t) == Idle && IsEntry(t, pc)
    ensures x' == WithPc(x, t, pc) && At(states', steps', x')
  {
    x' := WithPc(x, t, pc);
    states', steps' := Go(states, steps, Begin(t, pc), x');
  }

  /** Nobody keeps a thread at this point waiting. */
  predicate Free(x: Scene, pc: Pc) {
    match pc
    case StopToken => x.token == None
    case ResetToken => x.token == None
    case TimerClear(_) => x.timerLock == None
    case StartTake => x.timerLock == None
    case _ => Joins(pc).Some? ==> Joins(pc).value !in x.alive
  }

  lemma FreeIsNotBlocked(x: Scene, t: Thread)
    requires Seated(t)
    requires Free(x, PcOf(x, t))
    ensures !Blocked(Shown(x), t)
  {
    assert Shown(x).pcs[t] == PcOf(x, t);
  }

  lemma ShownAfter(x: Scene, t: Thread, e: Effect)
    requires Seated(t)
    ensures Shown(After(x, t, e)) == Updated(Shown(x), t, e)
  {
    assert Shown(After(x, t, e)).pcs == Shown(x).pcs[t := e.pc];
  }

  function Moved(x: Scene, t: Thread, outcome: Outcome): Scene
    requires Seated(t)
  {
    After(x, t, Statement(PcOf(x, t), View(x.state, x.token == None, x.running, false, outcome)))
  }

  /** It makes its next statement. */
  lemma Move(states: seq<State>, steps: seq<Step>, x: Scene, t: Thread, outcome: Outcome)
    returns (states': seq<State>, steps': seq<Step>, x': Scene)
    requires At(states, steps, x) && Seated(t)
    requires PcOf(x, t) != Idle && Free(x, PcOf(x, t))
    ensures x' == Moved(x, t, outcome) && At(states', steps', x')
  {
    x' := Moved(x, t, outcome);
    FreeIsNotBlocked(x, t);
    ShownAfter(x, t, Statement(PcOf(x, t), View(x.state, x.token == None, x.running, false, outcome)));
    assert ProceedStep(Shown(x), t, outcome, Shown(x'));
    states', steps' := Go(states, steps, Proceed(t, outcome), x');
  }

  /** A worker ends. */
  lemma Leave(states: seq<State>, steps: seq<Step>, x: Scene, w: Worker)
    returns (states': seq<State>, steps': seq<Step>, x': Scene)
    requires At(states, steps, x) && w in x.alive && (w == Scheduler ==> !x.running)
    ensures x' == x.(alive := x.alive - {w}) && At(states', steps', x')
  {
    x' := x.(alive := x.alive - {w});
    states', steps' := Go(states, steps, End(w), x');
  }

  function ClearedTwice(log: Log): Log {
    Then(Then(log, Cleared), Cleared)
  }

  lemma HaltsScheduler(states: seq<State>, steps: seq<Step>, x: Scene, t: Thread, purpose: Purpose)
    returns (states': seq<State>, steps': seq<Step>, x': Scene)
    requires At(states, steps, x) && Seated(t) && PcOf(x, t) == TimerHalt(purpose)
    ensures x' == WithPc(x.(running := false, log := Then(x.log, Cleared)), t, TimerClear(purpose))
    ensures At(states', steps', x')
  {
    states', steps', x' := Move(states, steps, x, t, Fine);
  }

  lemma ClearsScheduler(states: seq<State>, steps: seq<Step>, x: Scene, t: Thread, purpose: Purpose)
    returns (states': seq<State>, steps': seq<Step>, x': Scene)
    requires At(states, steps, x) && Seated(t) && PcOf(x, t) == TimerClear(purpose) && x.timerLock == None
    ensures x' == WithPc(x.(running := false, timerLock := Some(t), log := Then(x.log, Cleared)), t, TimerJoin(purpose))
    ensures At(states', steps', x')
  {
    states', steps', x' := Move(states, steps, x, t, Fine);
  }

  lemma JoinsScheduler(states: seq<State>, steps: seq<Step>, x: Scene, t: Thread, purpose: Purpose)
    returns (states': seq<State>, steps': seq<Step>, x': Scene)
    requires At(states, steps, x) && Seated(t) && PcOf(x, t) == TimerJoin(purpose) && Scheduler !in x.alive
    ensures x' == WithPc(x.(timerLock := None), t, AfterTimer(purpose, Fine))
    ensures At(states', steps', x')
  {
    states', steps', x' := Move(states, steps, x, t, Fine);
  }

  /** The owner, or one of the other two, stops the scheduler. */
  lemma StopsScheduler(states: seq<State>, steps: seq<Step>, x: Scene, t: Thread, purpose: Purpose)
    returns (states': seq<State>, steps': seq<Step>, x': Scene)
    requires At(states, steps, x) && Seated(t) && PcOf(x, t) == TimerHalt(purpose)
    requires x.timerLock == None && Scheduler !in x.alive
    ensures x' == WithPc(x.(running := false, log := ClearedTwice(x.log)), t, AfterTimer(purpose, Fine))
    ensures At(states', steps', x')
  {
    states', steps', x' := HaltsScheduler(states, steps, x, t, purpose);
    states', steps', x' := ClearsScheduler(states', steps', x', t, purpose);
    states', steps', x' := JoinsScheduler(states', steps', x', t, purpose);
  }

  lemma TakesToken(states: seq<State>, steps: seq<Step>, x: Scene, t: Thread, back: Back)
    returns (states': seq<State>, steps': seq<Step>, x': Scene)
    requires At(states, steps, x) && Seated(t) && PcOf(x, t) == FatalToken(back) && x.token == None
    ensures x' == WithPc(x.(token := Some(t)), t, FatalJoin(Dispatch, back))
    ensures At(states', steps', x')
  {
    states', steps', x' := Move(states, steps, x, t, Fine);
  }

  lemma JoinsDispatch(states: seq<State>, steps: seq<Step>, x: Scene, t: Thread, back: Back)
    returns (states': seq<State>, steps': seq<Step>, x': Scene)
    requires At(states, steps, x) && Seated(t) && PcOf(x, t) == FatalJoin(Dispatch, back) && Dispatch !in x.alive
    ensures x' == WithPc(x, t, FatalJoin(Monitor, back))
    ensures At(states', steps', x')
  {
    states', steps', x' := Move(states, steps, x, t, Fine);
  }

  lemma JoinsMonitor(states: seq<State>, steps: seq<Step>, x: Scene, t: Thread, back: Back)
    returns (states': seq<State>, steps': seq<Step>, x': Scene)
    requires At(states, steps, x) && Seated(t) && PcOf(x, t) == FatalJoin(Monitor, back) && Monitor !in x.alive
    ensures x' == WithPc(x, t, TimerHalt(ForFatal(back)))
    ensures At(states', steps', x')
  {
    states', steps', x' := Move(states, steps, x, t, Fine);
  }

  /** An emergency shutdown, with the teardown mutex free, comes to where it stops the scheduler. */
  lemma JoinsWorkers(states: seq<State>, steps: seq<Step>, x: Scene, t: Thread, back: Back)
    returns (states': seq<State>, steps': seq<Step>, x': Scene)
    requires At(states, steps, x) && Seated(t) && PcOf(x, t) == FatalToken(back) && x.token == None && x.alive == {}
    ensures x' == WithPc(x.(token := Some(t)), t, TimerHalt(ForFatal(back))) && At(states', steps', x')
  {
    states', steps', x' := TakesToken(states, steps, x, t, back);
    states', steps', x' := JoinsDispatch(states', steps', x', t, back);
    states', steps', x' := JoinsMonitor(states', steps', x', t, back);
  }

  lemma InitializeOpens(states: seq<State>, steps: seq<Step>, x: Scene)
    returns (states': seq<State>, steps': seq<Step>, x': Scene)
    requires At(states, steps, x) && x.owner == Idle && x.alive == {}
    ensures x' == x.(owner := TimerHalt(ForReplace)) && At(states', steps', x')
  {
    states', steps', x' := Call(states, steps, x, Owner, InitJoin(Monitor));
    states', steps', x' := Move(states', steps', x', Owner, Fine);
    states', steps', x' := Move(states', steps', x', Owner, Fine);
    states', steps', x' := Move(states', steps', x', Owner, Fine);
  }

  lemma InitializeWorks(states: seq<State>, steps: seq<Step>, x: Scene)
    returns (states': seq<State>, steps': seq<Step>, x': Scene)
    requires At(states, steps, x) && x.owner == InitOpen && x.state == UNINITIALIZED
    ensures x' == x.(owner := InitLoops, state := INITIALIZING)
    ensures At(states', steps', x')
  {
    states', steps', x' := Move(states, steps, x, Owner, Fine);
    states', steps', x' := Move(states', steps', x', Owner, Fine);
  }

  lemma InitializeCloses(states: seq<State>, steps: seq<Step>, x: Scene)
    returns (states': seq<State>, steps': seq<Step>, x': Scene)
    requires At(states, steps, x) && x.owner == InitLoops && x.state == INITIALIZING
    ensures x' == x.(owner := Idle, state := INITIALIZED, alive := x.alive + {Monitor, Dispatch})
    ensures At(states', steps', x')
  {
    states', steps', x' := Move(states, steps, x, Owner, Fine);
    states', steps', x' := Move(states', steps', x', Owner, Fine);
  }

  /** Initialize, after which the two loops end again. */
  lemma Initializes(states: seq<State>, steps: seq<Step>, x: Scene)
    returns (states': seq<State>, steps': seq<Step>, x': Scene)
    requires At(states, steps, x)
    requires x.owner == Idle && x.state == UNINITIALIZED && x.timerLock == None && x.alive == {}
    ensures x' == x.(state := INITIALIZED, running := false, log := ClearedTwice(x.log)) && At(states', steps', x')
  {
    states', steps', x' := InitializeOpens(states, steps, x);
    states', steps', x' := StopsScheduler(states', steps', x', Owner, ForReplace);
    states', steps', x' := InitializeWorks(states', steps', x');
    states', steps', x' := InitializeCloses(states', steps', x');
    states', steps', x' := Leave(states', steps', x', Dispatch);
    states', steps', x' := Leave(states', steps', x', Monitor);
  }

  /** A start is let in; */
  lemma StartOpens(states: seq<State>, steps: seq<Step>, x: Scene)
    returns (states': seq<State>, steps': seq<Step>, x': Scene)
    requires At(states, steps, x) && x.owner == Idle && x.state == INITIALIZED
    ensures x' == x.(owner := StartTake, state := STARTING) && At(states', steps', x')
  {
    states', steps', x' := Call(states, steps, x, Owner, StartOpen);
    states', steps', x' := Move(states', steps', x', Owner, Fine);
  }

  /** it raises the scheduler. */
  lemma StartRaises(states: seq<State>, steps: seq<Step>, x: Scene)
    returns (states': seq<State>, steps': seq<Step>, x': Scene)
    requires At(states, steps, x) && x.owner == StartTake && !x.running && x.timerLock == None && x.alive == {}
    ensures x' == x.(owner := StartUnits, running := true, alive := {Scheduler}, log := Then(x.log, Raised))
    ensures At(states', steps', x')
  {
    states', steps', x' := Move(states, steps, x, Owner, Fine);
    states', steps', x' := Move(states', steps', x', Owner, Fine);
    states', steps', x' := Move(states', steps', x', Owner, Fine);
  }

  /** An emergency shutdown stores the fatal state. */
  lemma EmergencyStores(states: seq<State>, steps: seq<Step>, x: Scene, t: Thread)
    returns (states': seq<State>, steps': seq<Step>, x': Scene)
    requires At(states, steps, x) && (t == Outside(0) || t == Outside(1))
    requires PcOf(x, t) == Idle && x.state != FATAL_ERROR
    ensures x' == WithPc(x.(state := FATAL_ERROR, log := Then(x.log, StoredFatal)), t, FatalToken(ToCaller))
    ensures At(states', steps', x')
  {
    states', steps', x' := Call(states, steps, x, t, FatalStore(ToCaller));
    states', steps', x' := Move(states', steps', x', t, Fine);
  }

  function AtFirst(): Scene {
    Scene(UNINITIALIZED, None, None, false, {}, Idle, Idle, Idle, NoEvents)
  }

  lemma Start() returns (states: seq<State>, steps: seq<Step>)
    ensures At(states, steps, AtFirst())
  {
    states, steps := [Shown(AtFirst())], [];
    forall w: Worker ensures OfWorker(w) in states[0].pcs {
      assert w == Dispatch || w == Monitor || w == Scheduler;
    }
  }

  /** An emergency shutdown comes to where it stops the scheduler, and stops it. */
  lemma Tears(states: seq<State>, steps: seq<Step>, x: Scene, t: Thread, back: Back)
    returns (states': seq<State>, steps': seq<Step>, x': Scene)
    requires At(states, steps, x) && Seated(t) && PcOf(x, t) == FatalToken(back)
    requires x.token == None && x.timerLock == None && x.alive == {}
    ensures x' == WithPc(x.(token := Some(t), running := false, log := ClearedTwice(x.log)), t, FatalRelease(back))
    ensures At(states', steps', x')
  {
    states', steps', x' := JoinsWorkers(states, steps, x, t, back);
    states', steps', x' := StopsScheduler(states', steps', x', t, ForFatal(back));
  }

  lemma Releases(states: seq<State>, steps: seq<Step>, x: Scene, t: Thread, back: Back)
    returns (states': seq<State>, steps': seq<Step>, x': Scene)
    requires At(states, steps, x) && Seated(t) && PcOf(x, t) == FatalRelease(back)
    ensures x' == WithPc(x.(token := None), t, Returned(back)) && At(states', steps', x')
  {
    states', steps', x' := Move(states, steps, x, t, Fine);
  }

  /** A start is let in, an emergency shutdown stops the scheduler and returns, */
  lemma StoppedBeforeRaised() returns (states: seq<State>, steps: seq<Step>, x: Scene)
    ensures At(states, steps, x) && ClearedSinceFatal(x.log)
    ensures x == Scene(FATAL_ERROR, None, None, false, {}, StartTake, Idle, Idle, x.log)
  {
    states, steps := Start();
    states, steps, x := Initializes(states, steps, AtFirst());
    states, steps, x := StartOpens(states, steps, x);
    states, steps, x := EmergencyStores(states, steps, x, Outside(0));
    states, steps, x := Tears(states, steps, x, Outside(0), ToCaller);
    states, steps, x := Releases(states, steps, x, Outside(0), ToCaller);
  }

  /** and the start raises it and then fails: */
  lemma StartFailsLate(states: seq<State>, steps: seq<Step>, x: Scene)
    returns (states': seq<State>, steps': seq<Step>, x': Scene)
    requires At(states, steps, x) && x.owner == StartUnits && x.state == FATAL_ERROR
    ensures x' == x.(owner := Idle, log := Then(x.log, StartFailed)) && At(states', steps', x')
  {
    states', steps', x' := Move(states, steps, x, Owner, FailsLate);
    states', steps', x' := Move(states', steps', x', Owner, Fine);
  }

  /** all calls have returned under the fatal state, and the scheduler is up. */
  lemma FailedStartLeavesItUp() returns (states: seq<State>, steps: seq<Step>)
    ensures Run(states, steps)
    ensures var s := states[|states| - 1];
            s.state == FATAL_ERROR && AllReturned(s) && s.running && Scheduler in s.alive && LateFailure(s.log)
  {
    var x;
    states, steps, x := StoppedBeforeRaised();
    states, steps, x := StartRaises(states, steps, x);
    states, steps, x := StartFailsLate(states, steps, x);
  }

  lemma ResetStores(states: seq<State>, steps: seq<Step>, x: Scene)
    returns (states': seq<State>, steps': seq<Step>, x': Scene)
    requires At(states, steps, x) && x.owner == Idle && x.state == FATAL_ERROR
    ensures x' == x.(owner := FatalToken(ToReset)) && At(states', steps', x')
  {
    states', steps', x' := Call(states, steps, x, Owner, FatalStore(ToReset));
    states', steps', x' := Move(states', steps', x', Owner, Fine);
  }

  lemma ResetWaits(states: seq<State>, steps: seq<Step>, x: Scene)
    returns (states': seq<State>, steps': seq<Step>, x': Scene)
    requires At(states, steps, x) && x.owner == ResetToken && x.token == None
    ensures x' == x.(owner := ResetJoin(Dispatch)) && At(states', steps', x')
  {
    states', steps', x' := Move(states, steps, x, Owner, Fine);
    states', steps', x' := Move(states', steps', x', Owner, Fine);
  }

  lemma ResetJoinsOne(states: seq<State>, steps: seq<Step>, x: Scene, w: Worker)
    returns (states': seq<State>, steps': seq<Step>, x': Scene)
    requires At(states, steps, x) && x.owner == ResetJoin(w) && w !in x.alive
    ensures x' == x.(owner := if w == Dispatch then ResetJoin(Monitor) else ResetUnset) && At(states', steps', x')
  {
    states', steps', x' := Move(states, steps, x, Owner, Fine);
  }

  lemma ResetUnsets(states: seq<State>, steps: seq<Step>, x: Scene)
    returns (states': seq<State>, steps': seq<Step>, x': Scene)
    requires At(states, steps, x) && x.owner == ResetUnset && x.state == FATAL_ERROR
    ensures x' == x.(owner := TimerHalt(ForCleanup), state := UNINITIALIZED, log := Then(x.log, WasReset))
    ensures At(states', steps', x')
  {
    states', steps', x' := Move(states, steps, x, Owner, Fine);
  }

  /** An emergency shutdown is about to try for the teardown mutex when a reset comes, stops the
      scheduler and waits for nobody; */
  lemma ResetBeforeTransition() returns (states: seq<State>, steps: seq<Step>, x: Scene)
    ensures At(states, steps, x)
    ensures x == Scene(FATAL_ERROR, None, None, false, {}, ResetUnset, FatalToken(ToCaller), Idle, x.log)
  {
    states, steps := Start();
    states, steps, x := EmergencyStores(states, steps, AtFirst(), Outside(0));
    states, steps, x := ResetStores(states, steps, x);
    states, steps, x := Tears(states, steps, x, Owner, ToReset);
    states, steps, x := Releases(states, steps, x, Owner, ToReset);
    states, steps, x := ResetWaits(states, steps, x);
    states, steps, x := ResetJoinsOne(states, steps, x, Dispatch);
    states, steps, x := ResetJoinsOne(states, steps, x, Monitor);
  }

  /** the emergency shutdown tears down and still holds the mutex while the reset ends; */
  lemma ResetPastEmergency() returns (states: seq<State>, steps: seq<Step>, x: Scene)
    ensures At(states, steps, x)
    ensures x == Scene(UNINITIALIZED, Some(Outside(0)), None, false, {}, Idle, FatalRelease(ToCaller), Idle, x.log)
  {
    states, steps, x := ResetBeforeTransition();
    states, steps, x := Tears(states, steps, x, Outside(0), ToCaller);
    states, steps, x := ResetUnsets(states, steps, x);
    states, steps, x := StopsScheduler(states, steps, x, Owner, ForCleanup);
  }

  lemma StartCloses(states: seq<State>, steps: seq<Step>, x: Scene)
    returns (states': seq<State>, steps': seq<Step>, x': Scene)
    requires At(states, steps, x) && x.owner == StartUnits && x.state == STARTING
    ensures x' == x.(owner := Idle, state := RUNNING) && At(states', steps', x')
  {
    states', steps', x' := Move(states, steps, x, Owner, Fine);
    states', steps', x' := Move(states', steps', x', Owner, Fine);
  }

  /** the system is initialized and started again; */
  lemma StartedMeanwhile() returns (states: seq<State>, steps: seq<Step>, x: Scene)
    ensures At(states, steps, x) && SchedulerUp(x.log)
    ensures x == Scene(RUNNING, Some(Outside(0)), None, true, {Scheduler}, Idle, FatalRelease(ToCaller), Idle, x.log)
  {
    states, steps, x := ResetPastEmergency();
    states, steps, x := Initializes(states, steps, x);
    states, steps, x := StartOpens(states, steps, x);
    states, steps, x := StartRaises(states, steps, x);
    states, steps, x := StartCloses(states, steps, x);
  }

  lemma SkipsTeardown(states: seq<State>, steps: seq<Step>, x: Scene, t: Thread)
    returns (states': seq<State>, steps': seq<Step>, x': Scene)
    requires At(states, steps, x) && Seated(t) && PcOf(x, t) == FatalToken(ToCaller) && x.token.Some?
    ensures x' == WithPc(x, t, Idle) && At(states', steps', x')
  {
    states', steps', x' := Move(states, steps, x, t, Fine);
  }

  /** and a second emergency shutdown finds the mutex taken and leaves the teardown to the first,
      which is past it: all calls have returned under the fatal state, no start has failed, and
      the scheduler is up. */
  lemma SkippedTeardownLeavesItUp() returns (states: seq<State>, steps: seq<Step>)
    ensures Run(states, steps)
    ensures var s := states[|states| - 1];
            s.state == FATAL_ERROR && AllReturned(s) && s.running && Scheduler in s.alive && !LateFailure(s.log)
  {
    var x;
    states, steps, x := StartedMeanwhile();
    states, steps, x := EmergencyStores(states, steps, x, Outside(1));
    states, steps, x := SkipsTeardown(states, steps, x, Outside(1));
    states, steps, x := Releases(states, steps, x, Outside(0), ToCaller);
  }
}
