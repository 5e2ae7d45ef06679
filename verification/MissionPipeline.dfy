/** The mission graph executor. Any thread may issue commands; they only fill slots, which the
scheduler thread drains on its ticks. Each region under the state mutex, each access to a slot
and each call of a user hook is one atomic step; the other threads interleave with all of them.

The graph is fixed once ticking begins, and elements are identified by their names. */
module MissionPipeline {
  import opened Wrappers

  type Name = string

  datatype Result = Awaiting | Default | Option1 | Option2 | Option3 | Failure

  datatype Status = Idle | Executing | Paused | Finished | Aborted | Failed

  datatype Transition = Transition(target: Name, condition: Result)

  datatype Graph = Graph(elements: set<Name>, transitions: map<Name, seq<Transition>>, start: Name)

  // The command codes of the control port.
  const ABORT := 1
  const RESTART := 2
  const PAUSE := 3
  const RESUME := 4

  /** What the state mutex protects, besides the graph. */
  datatype Board = Board(current: Option<Name>, status: Status)

  predicate ValidGraph(g: Graph) {
    && g.start in g.elements
    && forall from :: from in g.transitions ==>
         from in g.elements
         && forall i :: 0 <= i < |g.transitions[from]| ==> g.transitions[from][i].target in g.elements
  }

  /** The target of the first transition with this condition. */
  function FirstTarget(ts: seq<Transition>, r: Result): Option<Name> {
    if ts == [] then None else if ts[0].condition == r then Some(ts[0].target) else FirstTarget(ts[1..], r)
  }

  /** Where result r of element e leads, if anywhere. */
  function Successor(g: Graph, e: Name, r: Result): Option<Name> {
    if e !in g.transitions then None
    else
      var t := FirstTarget(g.transitions[e], r);
      if t.Some? && t.value in g.elements then t else None
  }

  // ---------------------------------------------------------- what the locked regions do

  function Start(g: Graph, b: Board): Board {
    if b.status != Idle then b
    else if ValidGraph(g) then Board(Some(g.start), Executing)
    else b.(status := Failed)
  }

  function Abort(b: Board): Board {
    if b.status == Executing || b.status == Paused then Board(None, Aborted) else b
  }

  function Pause(b: Board): Board {
    if b.status == Executing then b.(status := Paused) else b
  }

  function Resume(b: Board): Board {
    if b.status == Paused then b.(status := Executing) else b
  }

  /** Whether the board still is as it was before the hook ran without the lock. */
  predicate Unchanged(b: Board, e: Name) {
    b.current == Some(e) && b.status == Executing
  }

  function Apply(b: Board, e: Name, r: Result, next: Option<Name>): Board {
    if !Unchanged(b, e) then b
    else if r == Failure then Board(None, Failed)
    else if next == None then Board(None, Finished)
    else b.(current := next)
  }

  // ------------------------------------------------------------------------- steps

  datatype Event = Started | Enter(e: Name) | Execute(e: Name, r: Result) | Exit(e: Name) | Reset(e: Name)

  /** The user hooks called so far, and the moments the pipeline was started. */
  datatype Trace = Nothing | Then(before: Trace, event: Event)

  datatype Afterwards = Done | Resets(restart: bool) | Entering(next: Name)

  /** Where the scheduler thread is; the name says what it does next. */
  datatype Pc =
    | Waiting                                        // between ticks
    // processAsync
    | TakeReset
    | ClearStart(toExit: Option<Name>)
    | TakeStart
    | StartImmediate(restart: bool)
    | TestControl
    | ReadControl
    | Command(code: int)
    // the hooks
    | ExitHook(toExit: Option<Name>, afterwards: Afterwards)
    | ResetHooks(todo: set<Name>, restart: bool)
    | EnterHook(e: Name, drain: bool)                // drain: the control port is still to be read
    | ExecuteHook(e: Name)
    // processSync
    | Snapshot
    | Lookup(e: Name, r: Result)
    | Applying(e: Name, r: Result, next: Option<Name>)

  datatype State = State(
    board: Board, pendingReset: bool, pendingStart: bool, control: int, updated: bool,
    armed: nat,          // callers of startPipeline that passed the check and have not set the slot
    pc: Pc, trace: Trace)

  datatype Step =
    // any thread
    | RequestReset | PutCommand(code: int) | RaiseUpdated | ClearUpdated
    | StartCheck | StartStore
    // the scheduler thread
    | TickAsync | TickSync | Proceed(r: Result, e: Name)   // r, e: what a hook returns, which is reset next

  predicate Init(s: State) {
    && s.board == Board(None, Idle) && !s.pendingReset && !s.pendingStart && !s.updated && s.armed == 0
    && s.pc == Waiting && s.trace == Nothing
  }

  function Log(s: State, e: Event): State {
    s.(trace := Then(s.trace, e))
  }

  /** The scheduler thread's next statement. */
  function Proceeded(g: Graph, s: State, r: Result, e: Name): State {
    match s.pc
    case Waiting => s
    case TakeReset =>
      if s.pendingReset
      then s.(pendingReset := false, board := Board(None, Idle), pc := ClearStart(s.board.current))
      else s.(pc := TakeStart)
    case ClearStart(toExit) => s.(pendingStart := false, pc := ExitHook(toExit, Resets(false)))
    case TakeStart =>
      if s.pendingStart then s.(pendingStart := false, pc := StartImmediate(false)) else s.(pc := TestControl)
    case StartImmediate(restart) =>
      var onward := if restart then Waiting else TestControl;
      if s.board.status == Idle && ValidGraph(g)
      then Log(s, Started).(board := Start(g, s.board), pc := EnterHook(g.start, !restart))
      else s.(board := Start(g, s.board), pc := onward)
    case TestControl => s.(pc := if s.updated then ReadControl else Waiting)
    case ReadControl => s.(updated := false, pc := Command(s.control))
    case Command(code) =>
      if code == ABORT then
        var toExit := if s.board.status == Executing || s.board.status == Paused then s.board.current else None;
        s.(board := Abort(s.board), pc := ExitHook(toExit, Done))
      else if code == RESTART then
        s.(board := Board(None, Idle), pc := ExitHook(s.board.current, Resets(true)))
      else if code == PAUSE then s.(board := Pause(s.board), pc := Waiting)
      else if code == RESUME then s.(board := Resume(s.board), pc := Waiting)
      else s.(pc := Waiting)
    case ExitHook(toExit, afterwards) =>
      var onward := match afterwards
        case Done => Waiting
        case Resets(restart) => ResetHooks(g.elements, restart)
        case Entering(next) => EnterHook(next, false);
      if toExit == None then s.(pc := onward) else Log(s, Exit(toExit.value)).(pc := onward)
    case ResetHooks(todo, restart) =>
      if todo == {} then s.(pc := if restart then StartImmediate(true) else TakeStart)
      else if e in todo then Log(s, Reset(e)).(pc := ResetHooks(todo - {e}, restart))
      else s
    case EnterHook(entered, drain) => Log(s, Enter(entered)).(pc := if drain then TestControl else Waiting)
    case Snapshot =>
      s.(pc := if s.board.status == Executing && s.board.current != None
               then ExecuteHook(s.board.current.value) else Waiting)
    case ExecuteHook(run) =>
      Log(s, Execute(run, r)).(pc := if r == Awaiting then Waiting
                                     else if r == Failure then Applying(run, r, None)
                                     else Lookup(run, r))
    case Lookup(run, result) => s.(pc := Applying(run, result, Successor(g, run, result)))
    case Applying(run, result, next) =>
      var onward := if !Unchanged(s.board, run) then Waiting
                    else ExitHook(Some(run), if result != Failure && next != None then Entering(next.value) else Done);
      s.(board := Apply(s.board, run, result, next), pc := onward)
  }

  ghost predicate Next(g: Graph, s: State, step: Step, s': State) {
    match step
    case RequestReset => s' == s.(pendingReset := true)
    case PutCommand(code) => s' == s.(control := code)
    case RaiseUpdated => s' == s.(updated := true)
    case ClearUpdated => s' == s.(updated := false)
    case StartCheck =>
      s' == if s.board.status != Idle then s
            else if ValidGraph(g) then s.(armed := s.armed + 1)
            else s.(board := s.board.(status := Failed))
    case StartStore => s.armed > 0 && s' == s.(armed := s.armed - 1, pendingStart := true)
    case TickAsync => s.pc == Waiting && s' == s.(pc := TakeReset)
    case TickSync => s.pc == Waiting && s' == s.(pc := Snapshot)
    case Proceed(r, e) => s' == Proceeded(g, s, r, e)
  }

  // ------------------------------------------------------------- the hook discipline

  /** Where a trace of hooks leaves the mission. */
  datatype Place =
    | Between
    | Starting
    | Arriving(e: Name)
    | Inside(e: Name, last: Result)     // last: the result of its last execution, or Awaiting
    | Broken

  /** Leaving an element: on its result, to the successor if there is one; on a command, out. */
  function Left(g: Graph, e: Name, last: Result): Place {
    if last == Awaiting || last == Failure || Successor(g, e, last) == None then Between
    else Arriving(Successor(g, e, last).value)
  }

  function Advance(g: Graph, p: Place, event: Event): Place {
    match event
    case Started => if p == Between then Starting else Broken
    case Enter(e) => if (p == Starting && e == g.start) || p == Arriving(e) then Inside(e, Awaiting) else Broken
    case Execute(e, r) => if p == Inside(e, Awaiting) then Inside(e, r) else Broken
    case Exit(e) => if p.Inside? && p.e == e then Left(g, e, p.last) else Broken
    case Reset(e) => if p == Between && e in g.elements then Between else Broken
  }

  function PlaceOf(g: Graph, trace: Trace): Place {
    match trace
    case Nothing => Between
    case Then(before, event) => Advance(g, PlaceOf(g, before), event)
  }

  /** The elements reset since the last other hook. */
  function ResetSince(trace: Trace): set<Name> {
    if trace.Then? && trace.event.Reset? then ResetSince(trace.before) + {trace.event.e} else {}
  }

  predicate Live(status: Status) {
    status == Executing || status == Paused
  }

  /** The place of a mission that is not in the middle of a change. */
  function Settled(b: Board): Place {
    if b.current == None then Between else Inside(b.current.value, Awaiting)
  }

  predicate PcOk(g: Graph, s: State) {
    var place := PlaceOf(g, s.trace);
    match s.pc
    case ClearStart(toExit) => s.board.current == None && place == Settled(Board(toExit, Idle))
    case ExitHook(toExit, Entering(next)) =>
      && toExit.Some? && s.board == Board(Some(next), Executing)
      && place.Inside? && place.e == toExit.value && Left(g, place.e, place.last) == Arriving(next)
    case ExitHook(toExit, _) =>
      && s.board.current == None
      && if toExit == None then place == Between
         else place.Inside? && place.e == toExit.value && Left(g, place.e, place.last) == Between
    case ResetHooks(todo, _) =>
      s.board.current == None && place == Between && todo <= g.elements && g.elements <= ResetSince(s.trace) + todo
    case StartImmediate(true) => s.board.current == None && place == Between && g.elements <= ResetSince(s.trace)
    case EnterHook(e, _) =>
      s.board == Board(Some(e), Executing) && ((place == Starting && e == g.start) || place == Arriving(e))
    case ExecuteHook(e) => s.board == Board(Some(e), Executing) && place == Inside(e, Awaiting)
    case Lookup(e, r) =>
      s.board == Board(Some(e), Executing) && place == Inside(e, r) && r != Awaiting && r != Failure
    case Applying(e, r, next) =>
      && s.board == Board(Some(e), Executing) && place == Inside(e, r) && r != Awaiting
      && next == if r == Failure then None else Successor(g, e, r)
    case _ => place == Settled(s.board)
  }

  predicate BoardOk(b: Board) {
    b.current.Some? <==> Live(b.status)
  }

  predicate Inv(g: Graph, s: State) {
    BoardOk(s.board) && PcOk(g, s) && (s.armed > 0 || s.pendingStart ==> ValidGraph(g))
  }

  // ------------------------------------------------------------- the invariant is inductive

  /** A start that is refused fails an idle mission, whatever the scheduler thread is about. */
  lemma RefusalKeepsPcOk(g: Graph, s: State, s': State)
    requires Inv(g, s) && s.board.status == Idle && s' == s.(board := s.board.(status := Failed))
    ensures PcOk(g, s')
  {
  }

  lemma StartCheckKeepsInv(g: Graph, s: State, s': State)
    requires Inv(g, s) && Next(g, s, StartCheck, s')
    ensures Inv(g, s')
    ensures Live(s.board.status) ==> s'.board == s.board
  {
    if s.board.status == Idle && !ValidGraph(g) {
      RefusalKeepsPcOk(g, s, s');
    }
  }

  lemma SlotsKeepInv(g: Graph, s: State, step: Step, s': State)
    requires Inv(g, s) && Next(g, s, step, s') && !step.Proceed? && !step.StartCheck?
    ensures Inv(g, s') && s'.board == s.board
  {
  }

  /** Whatever the other threads do, they leave the board of a live mission alone. */
  lemma OthersKeepInv(g: Graph, s: State, step: Step, s': State)
    requires Inv(g, s) && Next(g, s, step, s') && !step.Proceed?
    ensures Inv(g, s')
    ensures Live(s.board.status) ==> s'.board == s.board
  {
    if step.StartCheck? {
      StartCheckKeepsInv(g, s, s');
    } else {
      SlotsKeepInv(g, s, step, s');
    }
  }

  lemma DrainKeepsInv(g: Graph, s: State, r: Result, e: Name)
    requires Inv(g, s) && (s.pc.Waiting? || s.pc.TakeReset? || s.pc.ClearStart? || s.pc.TakeStart?)
    ensures Inv(g, Proceeded(g, s, r, e))
  {
  }

  lemma StartKeepsInv(g: Graph, s: State, r: Result, e: Name)
    requires Inv(g, s) && s.pc.StartImmediate?
    ensures Inv(g, Proceeded(g, s, r, e))
  {
  }

  lemma ControlKeepsInv(g: Graph, s: State, r: Result, e: Name)
    requires Inv(g, s) && (s.pc.TestControl? || s.pc.ReadControl?)
    ensures Inv(g, Proceeded(g, s, r, e))
  {
  }

  lemma AbortKeepsInv(g: Graph, s: State, r: Result, e: Name)
    requires Inv(g, s) && s.pc == Command(ABORT)
    ensures Inv(g, Proceeded(g, s, r, e))
  {
  }

  lemma RestartKeepsInv(g: Graph, s: State, r: Result, e: Name)
    requires Inv(g, s) && s.pc == Command(RESTART)
    ensures Inv(g, Proceeded(g, s, r, e))
  {
  }

  lemma CommandKeepsInv(g: Graph, s: State, r: Result, e: Name)
    requires Inv(g, s) && s.pc.Command?
    ensures Inv(g, Proceeded(g, s, r, e))
  {
    if s.pc.code == ABORT {
      AbortKeepsInv(g, s, r, e);
    } else if s.pc.code == RESTART {
      RestartKeepsInv(g, s, r, e);
    }
  }

  lemma ExitKeepsInv(g: Graph, s: State, r: Result, e: Name)
    requires Inv(g, s) && s.pc.ExitHook? && s.pc.afterwards == Done
    ensures Inv(g, Proceeded(g, s, r, e))
  {
  }

  lemma ExitToResetKeepsInv(g: Graph, s: State, r: Result, e: Name)
    requires Inv(g, s) && s.pc.ExitHook? && s.pc.afterwards.Resets?
    ensures Inv(g, Proceeded(g, s, r, e))
  {
  }

  lemma ExitToEnterKeepsInv(g: Graph, s: State, r: Result, e: Name)
    requires Inv(g, s) && s.pc.ExitHook? && s.pc.afterwards.Entering?
    ensures Inv(g, Proceeded(g, s, r, e))
  {
  }

  lemma ResetHookKeepsInv(g: Graph, s: State, r: Result, e: Name)
    requires Inv(g, s) && s.pc.ResetHooks?
    ensures Inv(g, Proceeded(g, s, r, e))
  {
  }

  lemma EnterHookKeepsInv(g: Graph, s: State, r: Result, e: Name)
    requires Inv(g, s) && s.pc.EnterHook?
    ensures Inv(g, Proceeded(g, s, r, e))
  {
  }

  lemma ExecuteHookKeepsInv(g: Graph, s: State, r: Result, e: Name)
    requires Inv(g, s) && s.pc.ExecuteHook?
    ensures Inv(g, Proceeded(g, s, r, e))
  {
  }

  lemma LookupKeepsInv(g: Graph, s: State, r: Result, e: Name)
    requires Inv(g, s) && (s.pc.Snapshot? || s.pc.Lookup?)
    ensures Inv(g, Proceeded(g, s, r, e))
  {
  }

  lemma ApplyingKeepsInv(g: Graph, s: State, r: Result, e: Name)
    requires Inv(g, s) && s.pc.Applying?
    ensures Inv(g, Proceeded(g, s, r, e))
  {
  }

  lemma ProceedKeepsInv(g: Graph, s: State, r: Result, e: Name)
    requires Inv(g, s)
    ensures Inv(g, Proceeded(g, s, r, e))
  {
    match s.pc
    case StartImmediate(_) => StartKeepsInv(g, s, r, e);
    case TestControl => ControlKeepsInv(g, s, r, e);
    case ReadControl => ControlKeepsInv(g, s, r, e);
    case Command(_) => CommandKeepsInv(g, s, r, e);
    case ExitHook(_, Done) => ExitKeepsInv(g, s, r, e);
    case ExitHook(_, Resets(_)) => ExitToResetKeepsInv(g, s, r, e);
    case ExitHook(_, Entering(_)) => ExitToEnterKeepsInv(g, s, r, e);
    case ResetHooks(_, _) => ResetHookKeepsInv(g, s, r, e);
    case EnterHook(_, _) => EnterHookKeepsInv(g, s, r, e);
    case ExecuteHook(_) => ExecuteHookKeepsInv(g, s, r, e);
    case Snapshot => LookupKeepsInv(g, s, r, e);
    case Lookup(_, _) => LookupKeepsInv(g, s, r, e);
    case Applying(_, _, _) => ApplyingKeepsInv(g, s, r, e);
    case _ => DrainKeepsInv(g, s, r, e);
  }

  lemma NextKeepsInv(g: Graph, s: State, step: Step, s': State)
    requires Inv(g, s) && Next(g, s, step, s')
    ensures Inv(g, s')
  {
    if step.Proceed? {
      ProceedKeepsInv(g, s, step.r, step.e);
    } else {
      OthersKeepInv(g, s, step, s');
    }
  }

  // -------------------------------------------------------------------- whole runs

  ghost predicate Run(g: Graph, states: seq<State>, steps: seq<Step>) {
    && |states| == |steps| + 1
    && Init(states[0])
    && forall i :: 0 <= i < |steps| ==> Next(g, states[i], steps[i], states[i + 1])
  }

  lemma {:induction false} RunHasInv(g: Graph, states: seq<State>, steps: seq<Step>, k: nat)
    requires Run(g, states, steps) && k < |states|
    ensures Inv(g, states[k])
  {
    if k > 0 {
      RunHasInv(g, states, steps, k - 1);
      NextKeepsInv(g, states[k - 1], steps[k - 1], states[k]);
    }
  }

  /** In every run the hooks called so far are blocks Enter(e) Execute(e)* Exit(e), where an
      element executes again only while it answers Awaiting, where a deciding result is
      followed by the exit and the entry of the first matching successor, and where resets
      fall between blocks. An element is current exactly while the mission is executing or
      paused. */
  lemma HooksFollowTheGraph(g: Graph, states: seq<State>, steps: seq<Step>, k: nat)
    requires Run(g, states, steps) && k < |states|
    ensures PlaceOf(g, states[k].trace) != Broken
    ensures states[k].board.current.Some? <==> Live(states[k].board.status)
  {
    RunHasInv(g, states, steps, k);
  }

  /** Between ticks the mission stands inside its current element, or inside none. */
  lemma TraceTellsCurrentElement(g: Graph, states: seq<State>, steps: seq<Step>, k: nat)
    requires Run(g, states, steps) && k < |states| && states[k].pc == Waiting
    ensures PlaceOf(g, states[k].trace) == Settled(states[k].board)
  {
    RunHasInv(g, states, steps, k);
  }

  /** The check made after execute() ran without the lock never fails: the result is applied. */
  lemma RecheckNeverFails(g: Graph, states: seq<State>, steps: seq<Step>, k: nat)
    requires Run(g, states, steps) && k < |states|
    ensures states[k].pc.Applying? ==> Unchanged(states[k].board, states[k].pc.e)
    ensures states[k].pc.Lookup? ==> Unchanged(states[k].board, states[k].pc.e)
  {
    RunHasInv(g, states, steps, k);
  }

  lemma ExecuteStep(g: Graph, s: State, step: Step, s': State)
    requires Inv(g, s) && Next(g, s, step, s')
    requires s'.trace.Then? && s'.trace.event.Execute? && s'.trace != s.trace
    ensures s.pc == ExecuteHook(s'.trace.event.e) && !s'.pc.ExecuteHook?
  {
  }

  /** An element executes only as the current element of an executing mission: never while the
      mission is paused, and never twice for one tick. */
  lemma ExecutesOnlyWhileExecuting(g: Graph, states: seq<State>, steps: seq<Step>, k: nat)
    requires Run(g, states, steps) && k < |steps|
    requires states[k + 1].trace.Then? && states[k + 1].trace.event.Execute? && states[k + 1].trace != states[k].trace
    ensures states[k].board == Board(Some(states[k + 1].trace.event.e), Executing)
    ensures states[k].pc == ExecuteHook(states[k + 1].trace.event.e) && !states[k + 1].pc.ExecuteHook?
  {
    RunHasInv(g, states, steps, k);
    ExecuteStep(g, states[k], steps[k], states[k + 1]);
  }

  /** A restart starts again only when every element has been reset since the last other hook. */
  lemma RestartResetsEverything(g: Graph, states: seq<State>, steps: seq<Step>, k: nat)
    requires Run(g, states, steps) && k < |states| && states[k].pc == StartImmediate(true)
    ensures g.elements <= ResetSince(states[k].trace)
  {
    RunHasInv(g, states, steps, k);
  }

  predicate EndsWith(trace: Trace, event: Event) {
    trace.Then? && trace.event == event
  }

  /** Reading the discipline off a trace: an entered element is the start element of a start
      just made, or the first matching successor of the element just left, whose last hook
      before its exit was the execution that gave the deciding result. */
  lemma EntriesFormAWalk(g: Graph, before: Trace, e: Name)
    requires PlaceOf(g, Then(before, Enter(e))) != Broken
    ensures (EndsWith(before, Started) && e == g.start)
            || exists d: Name, r: Result :: EndsWith(before, Exit(d)) && EndsWith(before.before, Execute(d, r))
                                            && r != Awaiting && r != Failure && Successor(g, d, r) == Some(e)
  {
    assert before.Then?;
    if before.event.Exit? {
      var p := PlaceOf(g, before.before);
      assert before.before.Then? && before.before.event == Execute(p.e, p.last);
      assert EndsWith(before, Exit(p.e)) && EndsWith(before.before, Execute(p.e, p.last));
    }
  }

  /** No element is left, executed or reset out of turn: before its exit or execution it was
      entered, and nothing but its own executions happened since. */
  lemma {:induction false} InsideMeansEntered(g: Graph, trace: Trace) returns (entry: Trace)
    requires PlaceOf(g, trace).Inside?
    ensures EndsWith(entry, Enter(PlaceOf(g, trace).e)) && OnlyExecutionsSince(entry, trace, PlaceOf(g, trace).e)
  {
    if trace.event.Enter? {
      entry := trace;
    } else {
      entry := InsideMeansEntered(g, trace.before);
    }
  }

  predicate OnlyExecutionsSince(entry: Trace, trace: Trace, e: Name) {
    entry == trace
    || (trace.Then? && trace.event.Execute? && trace.event.e == e && OnlyExecutionsSince(entry, trace.before, e))
  }

  // --------------------------------------------------------------- reset beats start

  /** The drain pass of a reset, from clearing the start slot to reading it. */
  predicate Cancelling(s: State) {
    || s.pc.ClearStart?
    || (!s.pendingStart && s.board.current == None
        && (s.pc == TakeStart || (s.pc.ExitHook? && s.pc.afterwards == Resets(false))
            || (s.pc.ResetHooks? && !s.pc.restart)))
  }

  lemma CancellingGoesOn(g: Graph, s: State, step: Step, s': State)
    requires Inv(g, s) && Next(g, s, step, s') && step != StartStore && Cancelling(s) && s.pc != TakeStart
    ensures Cancelling(s')
  {
  }

  lemma CancellingGoesOnInRun(g: Graph, states: seq<State>, steps: seq<Step>, k: nat)
    requires Run(g, states, steps) && k < |steps|
    requires steps[k] != StartStore && Cancelling(states[k]) && states[k].pc != TakeStart
    ensures Cancelling(states[k + 1])
  {
    RunHasInv(g, states, steps, k);
    CancellingGoesOn(g, states[k], steps[k], states[k + 1]);
  }

  /** A drained reset cancels a start requested before it: when its drain pass comes to read the
      start slot the slot is empty and no element is current, unless a start was stored since. */
  lemma {:induction false} ResetCancelsStart(g: Graph, states: seq<State>, steps: seq<Step>, i: nat, j: nat)
    requires Run(g, states, steps) && i <= j < |states| && states[i].pc.ClearStart?
    requires forall k :: i <= k < j ==> steps[k] != StartStore && states[k].pc != TakeStart
    ensures Cancelling(states[j])
    ensures states[j].pc == TakeStart ==> !states[j].pendingStart && states[j].board.current == None
    decreases j
  {
    if i < j {
      ResetCancelsStart(g, states, steps, i, j - 1);
      CancellingGoesOnInRun(g, states, steps, j - 1);
    }
  }

  // ------------------------------------------------------------ the locked regions as code

  lemma FirstTargetSkips(ts: seq<Transition>, k: nat, r: Result)
    requires k <= |ts| && forall i :: 0 <= i < k ==> ts[i].condition != r
    ensures FirstTarget(ts, r) == FirstTarget(ts[k..], r)
  {
    if k > 0 {
      FirstTargetSkips(ts[1..], k - 1, r);
      assert ts[1..][k - 1..] == ts[k..];
    } else {
      assert ts[0..] == ts;
    }
  }

  /** The executor's own state. Each method is one region under the state mutex. */
  class Pipeline {
    var elements: set<Name>
    var transitions: map<Name, seq<Transition>>
    var startElementName: Name
    var currentElement: Option<Name>
    var status: Status

    function TheGraph(): Graph
      reads this
    {
      Graph(elements, transitions, startElementName)
    }

    function TheBoard(): Board
      reads this
    {
      Board(currentElement, status)
    }

    constructor ()
      ensures TheGraph() == Graph({}, map[], "") && TheBoard() == Board(None, Idle)
    {
      elements, transitions, startElementName, currentElement, status := {}, map[], "", None, Idle;
    }

    /** The first element added becomes the start element. */
    method AddElement(name: Name)
      modifies this`elements, this`startElementName
      ensures elements == old(elements) + {name}
      ensures startElementName == if old(startElementName) == "" then name else old(startElementName)
    {
      elements := elements + {name};
      if startElementName != "" {
        return;
      }
      startElementName := name;
    }

    method AddTransition(from: Name, to: Name, condition: Result)
      modifies this`transitions
      ensures transitions.Keys == old(transitions).Keys + {from}
      ensures transitions[from] == (if from in old(transitions) then old(transitions)[from] else [])
                                   + [Transition(to, condition)]
      ensures forall other :: other in old(transitions) && other != from ==> transitions[other] == old(transitions)[other]
    {
      var before := if from in transitions then transitions[from] else [];
      transitions := transitions[from := before + [Transition(to, condition)]];
    }

    method SetStartElement(name: Name)
      modifies this`startElementName
      ensures startElementName == name
    {
      startElementName := name;
    }

    method ValidateGraph() returns (ok: bool)
      ensures ok <==> ValidGraph(TheGraph())
    {
      if startElementName !in elements {
        return false;
      }
      var todo := transitions.Keys;
      while todo != {}
        invariant todo <= transitions.Keys
        invariant forall from :: from in transitions.Keys - todo ==>
                    from in elements
                    && forall i :: 0 <= i < |transitions[from]| ==> transitions[from][i].target in elements
        decreases todo
      {
        var from :| from in todo;
        if from !in elements {
          return false;
        }
        var i := 0;
        while i < |transitions[from]|
          invariant 0 <= i <= |transitions[from]|
          invariant forall j :: 0 <= j < i ==> transitions[from][j].target in elements
        {
          if transitions[from][i].target !in elements {
            return false;
          }
          i := i + 1;
        }
        todo := todo - {from};
      }
      ok := true;
    }

    /** The check of startPipeline: whether the caller goes on to request the start. */
    method StartPipeline() returns (armed: bool)
      modifies this`status
      ensures armed <==> old(status) == Idle && ValidGraph(TheGraph())
      ensures status == if old(status) == Idle && !ValidGraph(TheGraph()) then Failed else old(status)
    {
      if status != Idle {
        return false;
      }
      armed := ValidateGraph();
      if !armed {
        status := Failed;
      }
    }

    method StartImmediately() returns (toEnter: Option<Name>)
      modifies this`currentElement, this`status
      ensures TheBoard() == Start(TheGraph(), old(TheBoard()))
      ensures toEnter == if old(status) == Idle && ValidGraph(TheGraph()) then Some(startElementName) else None
    {
      toEnter := None;
      if status != Idle {
        return;
      }
      var ok := ValidateGraph();
      if !ok {
        status := Failed;
      } else {
        currentElement, status := Some(startElementName), Executing;
        toEnter := currentElement;
      }
    }

    method AbortMission() returns (toExit: Option<Name>)
      modifies this`currentElement, this`status
      ensures TheBoard() == Abort(old(TheBoard()))
      ensures toExit == if Live(old(status)) then old(currentElement) else None
    {
      toExit := None;
      if status == Executing || status == Paused {
        toExit := currentElement;
        status := Aborted;
        currentElement := None;
      }
    }

    /** The common region of reset and restart: everything stops, and is to be reset. */
    method ClearMission() returns (toExit: Option<Name>, toReset: set<Name>)
      modifies this`currentElement, this`status
      ensures TheBoard() == Board(None, Idle)
      ensures toExit == old(currentElement) && toReset == elements
    {
      toExit, toReset := currentElement, elements;
      currentElement := None;
      status := Idle;
    }

    method PauseMission()
      modifies this`status
      ensures TheBoard() == Pause(old(TheBoard()))
    {
      if status == Executing {
        status := Paused;
      }
    }

    method ResumeMission()
      modifies this`status
      ensures TheBoard() == Resume(old(TheBoard()))
    {
      if status == Paused {
        status := Executing;
      }
    }

    /** Searches the transitions of an element for the first one with this condition. */
    method FindSuccessor(e: Name, r: Result) returns (next: Option<Name>)
      ensures next == Successor(TheGraph(), e, r)
    {
      next := None;
      if e in transitions {
        var ts := transitions[e];
        var i := 0;
        while i < |ts|
          invariant 0 <= i <= |ts|
          invariant forall j :: 0 <= j < i ==> ts[j].condition != r
        {
          if ts[i].condition == r {
            FirstTargetSkips(ts, i, r);
            if ts[i].target in elements {
              next := Some(ts[i].target);
            }
            return;
          }
          i := i + 1;
        }
        FirstTargetSkips(ts, i, r);
      }
    }

    /** Applies a deciding result, if the element is still current and executing. */
    method ApplyResult(e: Name, r: Result, next: Option<Name>) returns (applied: bool)
      modifies this`currentElement, this`status
      ensures TheBoard() == Apply(old(TheBoard()), e, r, next) && applied == Unchanged(old(TheBoard()), e)
    {
      applied := false;
      if currentElement == Some(e) && status == Executing {
        if r == Failure {
          currentElement, status := None, Failed;
        } else if next == None {
          currentElement, status := None, Finished;
        } else {
          currentElement := next;
        }
        applied := true;
      }
    }
  }
}
