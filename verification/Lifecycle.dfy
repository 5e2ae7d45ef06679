/** The system's lifecycle state machine with emergency stops.

Any number of threads run the lifecycle calls, emergency stops among them, beside the worker
loops. Every transition is one atomic step under the state mutex; every access to the shutdown
latch, a loop's own flag or the state from outside that mutex is a step of its own. */
module Lifecycle {
  import opened SystemStates

  type ThreadId = nat
  type LoopId = nat

  /** The controller's own fields. */
  class LifecycleController {
    var currentState: SystemState
    var isShuttingDown: bool

    constructor ()
      ensures currentState == UNINITIALIZED && !isShuttingDown
    {
      currentState, isShuttingDown := UNINITIALIZED, false;
    }

    method Transition(newState: SystemState) returns (ok: bool)
      modifies this`currentState
      ensures ok <==> Legal(old(currentState), newState)
      ensures currentState == if ok then newState else old(currentState)
    {
      if newState == FATAL_ERROR {
        ok := true;
      } else {
        match currentState {
          case UNINITIALIZED => ok := newState == INITIALIZING;
          case INITIALIZING => ok := newState == INITIALIZED || newState == ERROR;
          case INITIALIZED => ok := newState == STARTING;
          case STARTING => ok := newState == RUNNING || newState == ERROR;
          case RUNNING => ok := newState == PAUSING || newState == STOPPING || newState == ERROR;
          case PAUSING => ok := newState == PAUSED || newState == ERROR;
          case PAUSED => ok := newState == RESUMING || newState == STOPPING || newState == ERROR;
          case RESUMING => ok := newState == RUNNING || newState == ERROR;
          case STOPPING => ok := newState == STOPPED;
          case STOPPED => ok := newState == STARTING || newState == UNINITIALIZED;
          case ERROR => ok := true;
          case FATAL_ERROR => ok := newState == UNINITIALIZED;
        }
      }
      if ok {
        currentState := newState;
      }
    }

    method ClearShutdownLatch()
      modifies this`isShuttingDown
      ensures !isShuttingDown
    {
      isShuttingDown := false;
    }

    method RequestShutdown()
      modifies this`isShuttingDown
      ensures isShuttingDown
    {
      isShuttingDown := true;
    }

    /** True while the latch is set, and in the four states from stopping on. */
    method ShutdownRequested() returns (r: bool)
      ensures r <==> isShuttingDown || currentState in {STOPPING, STOPPED, ERROR, FATAL_ERROR}
    {
      r := isShuttingDown || Ordinal(currentState) >= Ordinal(STOPPING);
    }
  }

  // -------------------------------------------------------------------------- calls

  datatype Op = Initialize | StartUp | Pause | Resume | Stop

  function Opening(op: Op): SystemState {
    match op
    case Initialize => INITIALIZING case StartUp => STARTING case Pause => PAUSING
    case Resume => RESUMING case Stop => STOPPING
  }

  function Closing(op: Op): SystemState {
    match op
    case Initialize => INITIALIZED case StartUp => RUNNING case Pause => PAUSED
    case Resume => RUNNING case Stop => STOPPED
  }

  /** On whose behalf an emergency shutdown runs. */
  datatype Cause = Hook | StopFailed | Resetting

  /** Where a thread is inside a lifecycle call; the name says what it does next. */
  datatype Call =
    | NoCall
    | Open(op: Op)                // the opening transition
    | Work(op: Op)                // components; may fail, or throw
    | ClearLatch                  // initialize only
    | StartLoops                  // initialize only
    | SetLatch                    // stop only
    | StopLoops                   // stop only
    | Close(op: Op)               // the last transition
    | Fail(op: Op)                // the transition to the error state
    | StoreFatal(cause: Cause)    // emergency shutdown: first the state,
    | LatchFatal(cause: Cause)    // then the latch,
    | HaltLoops(cause: Cause)     // then the loops' flags
    | Unset                       // reset: the transition to the uninitialized state
    | Returning(op: Op, ok: bool)

  /** A worker loop reads its flag, the latch and the state one after the other. */
  datatype LoopPc = Off | TestFlag | TestLatch | TestState | Body

  datatype Loop = Loop(enabled: bool, pc: LoopPc, entries: nat)

  datatype State = State(
    state: SystemState, latch: bool,
    calls: map<ThreadId, Call>, loops: map<LoopId, Loop>)

  /** How a statement that may fail turns out. */
  datatype Outcome = Fine | NotLoaded | Fails   // NotLoaded: initialize, its configuration

  datatype Step =
    | Begin(t: ThreadId, call: Call)
    | Proceed(t: ThreadId, outcome: Outcome)
    | Switch(t: ThreadId, l: LoopId)   // a call starts or halts one more loop
    | Live(l: LoopId)

  predicate IsEntry(c: Call) {
    c.Open? || c == StoreFatal(Hook) || c == StoreFatal(Resetting)
  }

  function SetCall(s: State, t: ThreadId, c: Call): State {
    s.(calls := s.calls[t := c])
  }

  /** A transition: to `done` if it is legal, else the state stays and the call goes to `refused`. */
  function Attempt(s: State, t: ThreadId, to: SystemState, done: Call, refused: Call): State {
    if Legal(s.state, to) then SetCall(s, t, done).(state := to) else SetCall(s, t, refused)
  }

  function SetLoop(s: State, l: LoopId, enabled: bool, spawn: bool): State {
    if l !in s.loops then s
    else if !spawn then s.(loops := s.loops[l := s.loops[l].(enabled := enabled)])
    else if s.loops[l].pc == Off then s.(loops := s.loops[l := s.loops[l].(enabled := enabled, pc := TestFlag)])
    else s
  }

  /** A call that starts or halts loops does so one a step, before it goes on. */
  function Switched(s: State, t: ThreadId, l: LoopId): State
    requires t in s.calls
  {
    match s.calls[t]
    case StartLoops => SetLoop(s, l, true, true)
    case StopLoops => SetLoop(s, l, false, false)
    case HaltLoops(_) => SetLoop(s, l, false, false)
    case _ => s
  }

  /** The next statement of a call. */
  function Proceeded(s: State, t: ThreadId, outcome: Outcome): State
    requires t in s.calls
  {
    match s.calls[t]
    case NoCall => s
    case Open(op) =>
      var onward := if op == Stop then SetLatch else Work(op);
      if op == Initialize && outcome != Fine then SetCall(s, t, Returning(op, false))   // refused, or no components
      else Attempt(s, t, Opening(op), onward, Returning(op, false))
    case Work(op) =>
      if outcome == Fine then SetCall(s, t, if op == Initialize then ClearLatch else Close(op))
      else if op == Stop then SetCall(s, t, StoreFatal(StopFailed))
      else if op == Initialize && outcome == NotLoaded then SetCall(s, t, Returning(op, false))
      else SetCall(s, t, Fail(op))
    case ClearLatch => SetCall(s, t, StartLoops).(latch := false)
    case StartLoops => SetCall(s, t, Close(Initialize))
    case SetLatch => SetCall(s, t, StopLoops).(latch := true)
    case StopLoops => SetCall(s, t, Work(Stop))
    case Close(op) => Attempt(s, t, Closing(op), Returning(op, true), Returning(op, false))
    case Fail(op) => Attempt(s, t, ERROR, Returning(op, false), Returning(op, false))
    case StoreFatal(cause) => Attempt(s, t, FATAL_ERROR, LatchFatal(cause), LatchFatal(cause))
    case LatchFatal(cause) => SetCall(s, t, HaltLoops(cause)).(latch := true)
    case HaltLoops(cause) =>
      SetCall(s, t, match cause case Hook => NoCall case StopFailed => Returning(Stop, false) case Resetting => Unset)
    case Unset => Attempt(s, t, UNINITIALIZED, NoCall, NoCall)
    case Returning(_, _) => SetCall(s, t, NoCall)
  }

  /** The next statement of a worker loop. */
  function Lived(s: State, loop: Loop): Loop {
    match loop.pc
    case Off => loop
    case TestFlag => loop.(pc := if loop.enabled then TestLatch else Off)
    case TestLatch => loop.(pc := if s.latch then Off else TestState)
    case TestState =>
      if Ordinal(s.state) >= Ordinal(STOPPING) then loop.(pc := Off)
      else loop.(pc := Body, entries := loop.entries + 1)
    case Body => loop.(pc := TestFlag)
  }

  ghost predicate Next(s: State, step: Step, s': State) {
    match step
    case Begin(t, call) =>
      t in s.calls && s.calls[t] == NoCall && IsEntry(call) && s' == SetCall(s, t, call)
    case Proceed(t, outcome) => t in s.calls && s' == Proceeded(s, t, outcome)
    case Switch(t, l) => t in s.calls && s' == Switched(s, t, l)
    case Live(l) => l in s.loops && s' == s.(loops := s.loops[l := Lived(s, s.loops[l])])
  }

  ghost predicate Init(s: State) {
    && s.state == UNINITIALIZED && !s.latch
    && (forall t :: t in s.calls ==> s.calls[t] == NoCall)
    && (forall l :: l in s.loops ==> s.loops[l] == Loop(false, Off, 0))
  }

  ghost predicate Run(states: seq<State>, steps: seq<Step>) {
    && |states| == |steps| + 1
    && Init(states[0])
    && forall i :: 0 <= i < |steps| ==> StepAt(states, steps, i)
  }

  ghost predicate StepAt(states: seq<State>, steps: seq<Step>, i: nat)
    requires i < |steps| && |states| == |steps| + 1
  {
    Next(states[i], steps[i], states[i + 1])
  }

  // ------------------------------------------------------------------- e-stops win

  /** The step is a reset's request of the uninitialized state. */
  predicate IsReset(s: State, step: Step) {
    step.Proceed? && step.t in s.calls && s.calls[step.t] == Unset
  }

  ghost predicate NoReset(states: seq<State>, steps: seq<Step>, i: nat, j: nat)
    requires j <= |steps| && j <= |states|
  {
    forall k :: i <= k < j ==> !IsReset(states[k], steps[k])
  }

  /** An emergency stop is never refused: its transition stores the fatal state from any state. */
  lemma EmergencyStopStores(states: seq<State>, steps: seq<Step>, k: nat)
    requires Run(states, steps) && k < |steps| && steps[k].Proceed?
    requires steps[k].t in states[k].calls && states[k].calls[steps[k].t].StoreFatal?
    ensures states[k + 1].state == FATAL_ERROR
  {
    assert StepAt(states, steps, k);
  }

  lemma FatalIsKept(states: seq<State>, steps: seq<Step>, k: nat)
    requires Run(states, steps) && k < |steps| && states[k].state == FATAL_ERROR && !IsReset(states[k], steps[k])
    ensures states[k + 1].state == FATAL_ERROR
  {
    assert StepAt(states, steps, k);
  }

  /** From the moment the fatal state is stored it stays, whatever calls go on or begin, until
      a reset requests the uninitialized state. */
  lemma {:induction false} FatalSticks(states: seq<State>, steps: seq<Step>, i: nat, j: nat)
    requires Run(states, steps) && i <= j < |states| && states[i].state == FATAL_ERROR
    requires NoReset(states, steps, i, j)
    ensures states[j].state == FATAL_ERROR
    decreases j
  {
    if i < j {
      FatalSticks(states, steps, i, j - 1);
      FatalIsKept(states, steps, j - 1);
    }
  }

  predicate Succeeding(s: State, t: ThreadId) {
    t in s.calls && s.calls[t].Returning? && s.calls[t].ok
  }

  lemma NoNewSuccess(states: seq<State>, steps: seq<Step>, k: nat, t: ThreadId)
    requires Run(states, steps) && k < |steps| && states[k].state == FATAL_ERROR && Succeeding(states[k + 1], t)
    ensures Succeeding(states[k], t) && states[k + 1].calls[t] == states[k].calls[t]
  {
    assert StepAt(states, steps, k);
  }

  /** A call about to return true while the emergency stop is in force was already about to
      when it came: its last transition was made before. Any call whose last transition comes
      later returns false. */
  lemma {:induction false} LateCallsFail(states: seq<State>, steps: seq<Step>, i: nat, j: nat, t: ThreadId)
    requires Run(states, steps) && i <= j < |states| && states[i].state == FATAL_ERROR
    requires NoReset(states, steps, i, j) && Succeeding(states[j], t)
    ensures Succeeding(states[i], t) && states[j].calls[t] == states[i].calls[t]
    decreases j
  {
    if i < j {
      FatalSticks(states, steps, i, j - 1);
      NoNewSuccess(states, steps, j - 1, t);
      LateCallsFail(states, steps, i, j - 1, t);
    }
  }

  /** A call that makes its last transition under an emergency stop goes on to return false. */
  lemma LastTransitionRefused(states: seq<State>, steps: seq<Step>, i: nat, k: nat, t: ThreadId, op: Op)
    requires Run(states, steps) && i <= k < |steps| && states[i].state == FATAL_ERROR
    requires NoReset(states, steps, i, k)
    requires steps[k].Proceed? && steps[k].t == t && t in states[k].calls && states[k].calls[t] == Close(op)
    ensures t in states[k + 1].calls && states[k + 1].calls[t] == Returning(op, false)
    ensures states[k + 1].state == FATAL_ERROR
  {
    FatalSticks(states, steps, i, k);
    assert StepAt(states, steps, k);
  }

  // ------------------------------------------------------------------- worker loops end

  lemma LoopNotAdmitted(states: seq<State>, steps: seq<Step>, k: nat, l: LoopId)
    requires Run(states, steps) && k < |steps| && states[k].state == FATAL_ERROR && l in states[k].loops
    ensures l in states[k + 1].loops && states[k + 1].loops[l].entries == states[k].loops[l].entries
    ensures states[k].loops[l].pc != Body ==> states[k + 1].loops[l].pc != Body
  {
    assert StepAt(states, steps, k);
  }

  /** Under an emergency stop no loop, running or started since, is admitted to another
      iteration - even when an initialize clears the latch and starts loops after it. At most
      the iteration a loop was already admitted to is finished. */
  lemma {:induction false} NoFurtherIterations(states: seq<State>, steps: seq<Step>, i: nat, j: nat, l: LoopId)
    requires Run(states, steps) && i <= j < |states| && states[i].state == FATAL_ERROR
    requires NoReset(states, steps, i, j) && l in states[i].loops
    ensures l in states[j].loops && states[j].loops[l].entries == states[i].loops[l].entries
    ensures states[i].loops[l].pc != Body ==> states[j].loops[l].pc != Body
    decreases j
  {
    if i < j {
      NoFurtherIterations(states, steps, i, j - 1, l);
      FatalSticks(states, steps, i, j - 1);
      LoopNotAdmitted(states, steps, j - 1, l);
    }
  }

  function StepsLeft(pc: LoopPc): nat {
    match pc
    case Off => 0 case TestState => 1 case TestLatch => 2 case TestFlag => 3 case Body => 4
  }

  lemma LoopComesCloser(s: State, step: Step, s': State, l: LoopId)
    requires Next(s, step, s') && s.state == FATAL_ERROR && l in s.loops && s.loops[l].pc != Off
    ensures l in s'.loops
    ensures if step == Live(l) then StepsLeft(s'.loops[l].pc) < StepsLeft(s.loops[l].pc) else s'.loops[l].pc == s.loops[l].pc
  {
  }

  /** Each of its own steps brings a loop closer to its end, and no other step but a start sets
      it back: four steps of a loop end it. */
  lemma LoopsEnd(states: seq<State>, steps: seq<Step>, i: nat, k: nat, l: LoopId)
    requires Run(states, steps) && i <= k < |steps| && states[i].state == FATAL_ERROR
    requires NoReset(states, steps, i, k) && l in states[k].loops && states[k].loops[l].pc != Off
    ensures l in states[k + 1].loops
    ensures var was, now := StepsLeft(states[k].loops[l].pc), StepsLeft(states[k + 1].loops[l].pc);
            if steps[k] == Live(l) then now < was else now == was
  {
    FatalSticks(states, steps, i, k);
    assert StepAt(states, steps, k);
    LoopComesCloser(states[k], steps[k], states[k + 1], l);
  }

  // ---------------------------------------------------- why the loops must read the state

  function Scene(state: SystemState, latch: bool, init: Call, stop: Call, loop: LoopPc): State {
    State(state, latch, map[0 := init, 1 := stop], map[7 := Loop(loop != Off, loop, 0)])
  }

  /** Appends a step of a given thread. */
  lemma Go(states: seq<State>, steps: seq<Step>, step: Step, s': State)
    returns (states': seq<State>, steps': seq<Step>)
    requires Run(states, steps) && Next(states[|states| - 1], step, s')
    ensures Run(states', steps') && states'[|states'| - 1] == s'
  {
    states', steps' := states + [s'], steps + [step];
    forall i | 0 <= i < |steps'| ensures StepAt(states', steps', i) {
      assert i < |steps| ==> StepAt(states, steps, i);
    }
  }

  /** Initialize has done its work and is about to clear the latch. */
  lemma InitializeUnderWay() returns (states: seq<State>, steps: seq<Step>)
    ensures Run(states, steps)
    ensures states[|states| - 1] == Scene(INITIALIZING, false, ClearLatch, NoCall, Off)
  {
    var start := Scene(UNINITIALIZED, false, NoCall, NoCall, Off);
    states, steps := [start], [];
    states, steps := Go(states, steps, Begin(0, Open(Initialize)), Scene(UNINITIALIZED, false, Open(Initialize), NoCall, Off));
    states, steps := Go(states, steps, Proceed(0, Fine), Scene(INITIALIZING, false, Work(Initialize), NoCall, Off));
    states, steps := Go(states, steps, Proceed(0, Fine), Scene(INITIALIZING, false, ClearLatch, NoCall, Off));
  }

  /** An emergency stop comes in between, stores the fatal state, sets the latch, */
  lemma StopDuringInitialize() returns (states: seq<State>, steps: seq<Step>)
    ensures Run(states, steps)
    ensures states[|states| - 1] == Scene(FATAL_ERROR, true, ClearLatch, HaltLoops(Hook), Off)
  {
    states, steps := InitializeUnderWay();
    states, steps := Go(states, steps, Begin(1, StoreFatal(Hook)), Scene(INITIALIZING, false, ClearLatch, StoreFatal(Hook), Off));
    states, steps := Go(states, steps, Proceed(1, Fine), Scene(FATAL_ERROR, false, ClearLatch, LatchFatal(Hook), Off));
    states, steps := Go(states, steps, Proceed(1, Fine), Scene(FATAL_ERROR, true, ClearLatch, HaltLoops(Hook), Off));
  }

  /** and is over before initialize clears the latch and starts a loop. */
  lemma LoopStartedAfterStop() returns (states: seq<State>, steps: seq<Step>)
    ensures Run(states, steps)
    ensures states[|states| - 1] == Scene(FATAL_ERROR, false, StartLoops, NoCall, TestFlag)
  {
    states, steps := StopDuringInitialize();
    states, steps := Go(states, steps, Proceed(1, Fine), Scene(FATAL_ERROR, true, ClearLatch, NoCall, Off));
    states, steps := Go(states, steps, Proceed(0, Fine), Scene(FATAL_ERROR, false, StartLoops, NoCall, Off));
    states, steps := Go(states, steps, Switch(0, 7), Scene(FATAL_ERROR, false, StartLoops, NoCall, TestFlag));
  }

  /** The latch alone would not do: in some run, after an emergency stop came and went, a loop
      that initialize started later has found its flag set and the latch clear, and only its
      reading of the state keeps it from going on. */
  lemma LatchAloneIsNotEnough() returns (states: seq<State>, steps: seq<Step>)
    ensures Run(states, steps)
    ensures states[|states| - 1] == Scene(FATAL_ERROR, false, StartLoops, NoCall, TestState)
  {
    states, steps := LoopStartedAfterStop();
    states, steps := Go(states, steps, Live(7), Scene(FATAL_ERROR, false, StartLoops, NoCall, TestLatch));
    states, steps := Go(states, steps, Live(7), Scene(FATAL_ERROR, false, StartLoops, NoCall, TestState));
  }
}
