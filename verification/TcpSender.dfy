/** Concurrent senders on one TCP client, with short writes, errors, a receive thread that
may declare the connection dead, and stop and reconnect running beside them.

The atomic steps are single socket calls, flag accesses and mutex operations; any number of
threads interleave them. */
module TcpSender {
  import opened TcpFraming
  import opened Wrappers

  type Thread = nat

  /** One connection: the bytes handed to the kernel, whether it was shut down, and the
      payloads of the sends that completed on it, in order. */
  datatype Connection = Connection(wire: Bytes, down: bool, whole: seq<Bytes>)

  /** Where a thread is inside `send`. From `Writing` to `Counting` it holds the socket mutex. */
  datatype Pc =
    | Idle
    | Admitted(payload: Bytes)              // passed the alive and length checks
    | Writing(payload: Bytes, sent: nat)    // about to make a socket call
    | Failing(payload: Bytes, sent: nat)    // about to clear the alive flag
    | ShuttingDown(payload: Bytes, sent: nat) // about to shut the socket down
    | Poisoned                              // about to release the mutex
    | Counting                              // about to count the message and release

  datatype State = State(
    connections: seq<Connection>,
    sock: Option<nat>,          // index of the open connection
    alive: bool,
    owner: Option<Thread>,      // holder of the socket mutex
    pcs: map<Thread, Pc>,
    messagesSent: nat)

  predicate HoldsMutex(pc: Pc) {
    pc.Writing? || pc.Failing? || pc.ShuttingDown? || pc.Poisoned? || pc.Counting?
  }

  ghost predicate Init(s: State) {
    s.connections == [] && s.sock == None && !s.alive && s.owner == None && s.messagesSent == 0 &&
    forall t :: t in s.pcs ==> s.pcs[t] == Idle
  }

  // ----------------------------------------------------------------- send loop

  /** What one socket call answers: it took up to n bytes, was interrupted, or failed. */
  datatype Reply = Took(n: nat) | Eintr | Failed

  function TotalTaken(replies: seq<Reply>): nat {
    if replies == [] then 0
    else TotalTaken(replies[..|replies| - 1]) +
         (if replies[|replies| - 1].Took? then replies[|replies| - 1].n else 0)
  }

  /** The send loop: offers the rest of the bytes until all are taken or a call fails. `replies`
      are the answers of the successive socket calls; the loop is `blocked` if it is still
      waiting after the last of them. `put` is what reached the wire. */
  method SendAll(bytes: Bytes, replies: seq<Reply>)
    returns (ok: bool, blocked: bool, put: Bytes, used: nat)
    ensures used <= |replies| && put <= bytes
    ensures |put| == if TotalTaken(replies[..used]) < |bytes| then TotalTaken(replies[..used]) else |bytes|
    ensures ok <==> put == bytes
    ensures blocked ==> !ok && used == |replies|
    ensures !ok && !blocked ==> used > 0 && (replies[used - 1] == Failed || replies[used - 1] == Took(0))
  {
    put, used := [], 0;
    while |put| < |bytes|
      invariant used <= |replies| && put <= bytes
      invariant |put| == if TotalTaken(replies[..used]) < |bytes| then TotalTaken(replies[..used]) else |bytes|
      decreases |replies| - used
    {
      if used == |replies| {
        return false, true, put, used;
      }
      var reply := replies[used];
      assert replies[..used + 1][..used] == replies[..used];
      used := used + 1;
      match reply {
        case Eintr => continue;
        case Failed => return false, false, put, used;
        case Took(n) =>
          if n == 0 {
            break;
          }
          var offset := |put|;
          var taken := if n <= |bytes| - offset then n else |bytes| - offset;
          put := put + bytes[offset..offset + taken];
      }
    }
    ok, blocked := |put| == |bytes|, false;
  }

  // ------------------------------------------------------------------- steps

  datatype Step =
    | Refuse(t: Thread)                       // the alive or length check fails
    | Admit(t: Thread, payload: Bytes)
    | LockClosed(t: Thread)                   // mutex taken, socket found closed, released
    | Lock(t: Thread)
    | Accept(t: Thread, n: nat)               // the kernel takes n bytes
    | Interrupted(t: Thread)
    | NoMore(t: Thread)                       // the kernel takes none, or reports an error
    | ClearAlive(t: Thread)
    | Shutdown(t: Thread)
    | Release(t: Thread)
    | Count(t: Thread)
    | ReceiverDies                            // the receive loop clears the alive flag
    | StopShutsDown                           // stop(): shutdown without the socket mutex
    | Close                                   // stop() or start(): close under the mutex
    | Connect                                 // start(): a new connection under the mutex
    | SetAlive                                // start(): after a successful connect

  /** The part of the frame the current socket call offers: first the header, then the payload. */
  function Offered(payload: Bytes, sent: nat): (limit: nat)
    requires Sendable(payload)
  {
    if sent < FRAME_HEADER_SIZE then FRAME_HEADER_SIZE else |Encode(payload)|
  }

  function SetPc(s: State, t: Thread, pc: Pc): State {
    s.(pcs := s.pcs[t := pc])
  }

  function SetOpen(s: State, c: Connection): State
    requires s.sock.Some? && s.sock.value < |s.connections|
  {
    s.(connections := s.connections[s.sock.value := c])
  }

  ghost predicate At(s: State, t: Thread) {
    t in s.pcs
  }

  ghost predicate Open(s: State) {
    s.sock.Some? && s.sock.value < |s.connections|
  }

  predicate WritingAt(s: State, t: Thread, payload: Bytes, sent: nat) {
    t in s.pcs && s.pcs[t] == Writing(payload, sent)
  }

  /** The kernel can take n more bytes of the frame. */
  ghost predicate Takes(s: State, t: Thread, payload: Bytes, sent: nat, n: nat) {
    && WritingAt(s, t, payload, sent) && Open(s) && Sendable(payload)
    && !s.connections[s.sock.value].down && 0 < n && sent + n <= Offered(payload, sent) <= |Encode(payload)|
  }

  ghost predicate AcceptMore(s: State, t: Thread, payload: Bytes, sent: nat, n: nat, s': State) {
    && Takes(s, t, payload, sent, n) && sent + n < |Encode(payload)|
    && var c := s.connections[s.sock.value];
       s' == SetPc(SetOpen(s, c.(wire := c.wire + Encode(payload)[sent..sent + n])), t, Writing(payload, sent + n))
  }

  ghost predicate AcceptLast(s: State, t: Thread, payload: Bytes, sent: nat, n: nat, s': State) {
    && Takes(s, t, payload, sent, n) && sent + n == |Encode(payload)|
    && var c := s.connections[s.sock.value];
       s' == SetPc(SetOpen(s, Connection(c.wire + Encode(payload)[sent..sent + n], c.down, c.whole + [payload])), t, Counting)
  }

  ghost predicate AcceptStep(s: State, t: Thread, payload: Bytes, sent: nat, n: nat, s': State) {
    AcceptMore(s, t, payload, sent, n, s') || AcceptLast(s, t, payload, sent, n, s')
  }

  ghost predicate ShutdownStep(s: State, t: Thread, s': State) {
    && At(s, t) && s.pcs[t].ShuttingDown? && Open(s)
    && s' == SetPc(SetOpen(s, s.connections[s.sock.value].(down := true)), t, Poisoned)
  }

  ghost predicate StopStep(s: State, s': State) {
    Open(s) && s' == SetOpen(s, s.connections[s.sock.value].(down := true))
  }

  ghost predicate ConnectStep(s: State, s': State) {
    && s.owner == None && s.sock == None
    && s' == s.(connections := s.connections + [Connection([], false, [])], sock := Some(|s.connections|))
  }

  /** The steps that leave all connections as they are: those of a sender, and the others. */
  ghost predicate SenderStep(s: State, step: Step, s': State) {
    match step
    case Refuse(t) =>
      At(s, t) && s.pcs[t].Idle? && s' == s
    case Admit(t, payload) =>
      At(s, t) && s.pcs[t].Idle? && s.alive && Sendable(payload) && s' == SetPc(s, t, Admitted(payload))
    case LockClosed(t) =>
      At(s, t) && s.pcs[t].Admitted? && s.owner == None && s.sock == None && s' == SetPc(s, t, Idle)
    case Lock(t) =>
      At(s, t) && s.pcs[t].Admitted? && s.owner == None && s.sock.Some? &&
      s' == SetPc(s, t, Writing(s.pcs[t].payload, 0)).(owner := Some(t))
    case Interrupted(t) =>
      At(s, t) && s.pcs[t].Writing? && s' == s
    case NoMore(t) =>
      At(s, t) && s.pcs[t].Writing? && s' == SetPc(s, t, Failing(s.pcs[t].payload, s.pcs[t].sent))
    case ClearAlive(t) =>
      At(s, t) && s.pcs[t].Failing? &&
      s' == SetPc(s, t, ShuttingDown(s.pcs[t].payload, s.pcs[t].sent)).(alive := false)
    case Release(t) =>
      At(s, t) && s.pcs[t].Poisoned? && s' == SetPc(s, t, Idle).(owner := None)
    case Count(t) =>
      At(s, t) && s.pcs[t].Counting? &&
      s' == SetPc(s, t, Idle).(owner := None, messagesSent := s.messagesSent + 1)
    case _ => false
  }

  ghost predicate FlagStep(s: State, step: Step, s': State) {
    match step
    case ReceiverDies => s' == s.(alive := false)
    case Close => s.owner == None && s' == s.(sock := None)
    case SetAlive => s' == s.(alive := true)
    case _ => false
  }

  /** The relation between the states around one step. */
  ghost predicate Next(s: State, step: Step, s': State) {
    match step
    case Accept(t, n) =>
      At(s, t) && s.pcs[t].Writing? && AcceptStep(s, t, s.pcs[t].payload, s.pcs[t].sent, n, s')
    case Shutdown(t) => ShutdownStep(s, t, s')
    case StopShutsDown => StopStep(s, s')
    case Connect => ConnectStep(s, s')
    case ReceiverDies => FlagStep(s, step, s')
    case Close => FlagStep(s, step, s')
    case SetAlive => FlagStep(s, step, s')
    case _ => SenderStep(s, step, s')
  }

  // --------------------------------------------------------------- invariant

  /** The bytes of its frame a thread has put on the wire so far. */
  function Unfinished(pc: Pc): Bytes {
    if (pc.Writing? || pc.Failing? || pc.ShuttingDown?) && Sendable(pc.payload) && pc.sent <= |Encode(pc.payload)|
    then Encode(pc.payload)[..pc.sent]
    else []
  }

  /** The unfinished bytes of a connection: those of the mutex holder, if it is the open one. */
  function InFlight(s: State, i: nat): Bytes {
    if s.sock == Some(i) && s.owner.Some? && s.owner.value in s.pcs
    then Unfinished(s.pcs[s.owner.value])
    else []
  }

  predicate PcWellFormed(pc: Pc) {
    match pc
    case Admitted(p) => Sendable(p)
    case Writing(p, sent) => Sendable(p) && sent < |Encode(p)|
    case Failing(p, sent) => Sendable(p) && sent < |Encode(p)|
    case ShuttingDown(p, sent) => Sendable(p) && sent < |Encode(p)|
    case _ => true
  }

  /** Whole frames, then either the bytes in flight, or - once the connection is down - the
      beginning of a frame that will never be completed. */
  ghost predicate WellWritten(c: Connection, inFlight: Bytes) {
    && AllSendable(c.whole)
    && (c.wire == EncodeAll(c.whole) + inFlight
        || (c.down && inFlight == [] && exists cut :: CutFrame(cut) && c.wire == EncodeAll(c.whole) + cut))
  }

  function TotalWhole(cs: seq<Connection>): nat {
    if cs == [] then 0 else TotalWhole(cs[..|cs| - 1]) + |cs[|cs| - 1].whole|
  }

  predicate Counted(s: State) {
    TotalWhole(s.connections) ==
      s.messagesSent + (if s.owner.Some? && s.owner.value in s.pcs && s.pcs[s.owner.value].Counting? then 1 else 0)
  }

  /** The mutex discipline: exactly its owner is between taking and releasing it, and an owner
      that gave up has shut the connection down. */
  ghost predicate MutexOk(s: State) {
    && (s.owner.Some? ==> s.owner.value in s.pcs && HoldsMutex(s.pcs[s.owner.value]) && Open(s))
    && (forall t :: t in s.pcs && HoldsMutex(s.pcs[t]) ==> s.owner == Some(t))
    && (forall t :: t in s.pcs ==> PcWellFormed(s.pcs[t]))
    && (s.sock.Some? ==> Open(s))
    && (s.owner.Some? && s.pcs[s.owner.value].Poisoned? ==> s.connections[s.sock.value].down)
  }

  ghost predicate WiresOk(s: State) {
    forall i :: 0 <= i < |s.connections| ==> WellWritten(s.connections[i], InFlight(s, i))
  }

  ghost predicate Inv(s: State) {
    MutexOk(s) && WiresOk(s) && Counted(s)
  }

  // ---------------------------------------------------- the invariant is inductive

  lemma InitHasInv(s: State)
    requires Init(s)
    ensures Inv(s)
  {
  }

  /** Replacing one connection by one with the same completed payloads leaves the total. */
  lemma {:induction false} TotalWholeUpdate(cs: seq<Connection>, i: nat, c: Connection)
    requires i < |cs|
    ensures TotalWhole(cs[i := c]) == TotalWhole(cs) + |c.whole| - |cs[i].whole|
  {
    var n := |cs| - 1;
    if i == n {
      assert cs[i := c][..n] == cs[..n];
    } else {
      assert cs[i := c][..n] == cs[..n][i := c];
      TotalWholeUpdate(cs[..n], i, c);
    }
  }

  lemma EncodeAllSnoc(whole: seq<Bytes>, payload: Bytes)
    requires AllSendable(whole) && Sendable(payload)
    ensures AllSendable(whole + [payload])
    ensures EncodeAll(whole + [payload]) == EncodeAll(whole) + Encode(payload)
  {
    EncodeAllAppends(whole, [payload]);
    assert EncodeAll([payload]) == Encode(payload) + EncodeAll([payload][1..]) == Encode(payload);
  }

  lemma AcceptKeepsMutexOk(s: State, t: Thread, payload: Bytes, sent: nat, n: nat, s': State)
    requires MutexOk(s) && AcceptStep(s, t, payload, sent, n, s')
    ensures MutexOk(s')
  {
    assert PcWellFormed(s.pcs[t]) && s.owner == Some(t);
    assert Open(s') && s'.owner == s.owner;
  }

  lemma DownKeepsMutexOk(s: State, t: Thread, s': State)
    requires MutexOk(s) && (ShutdownStep(s, t, s') || StopStep(s, s'))
    ensures MutexOk(s')
  {
    assert Open(s') && s'.connections[s'.sock.value].down;
  }

  /** A sender moves on without touching the mutex. */
  lemma MoveKeepsMutexOk(s: State, t: Thread, pc: Pc, s': State)
    requires MutexOk(s) && t in s.pcs && HoldsMutex(pc) == HoldsMutex(s.pcs[t]) && PcWellFormed(pc) && !pc.Poisoned?
    requires s'.pcs == s.pcs[t := pc] && s'.owner == s.owner && s'.sock == s.sock && s'.connections == s.connections
    ensures MutexOk(s')
  {
  }

  /** A sender takes the mutex, or gives it back. */
  lemma LockKeepsMutexOk(s: State, t: Thread, pc: Pc, s': State)
    requires MutexOk(s) && t in s.pcs && PcWellFormed(pc) && !pc.Poisoned? && HoldsMutex(pc) != HoldsMutex(s.pcs[t])
    requires s'.pcs == s.pcs[t := pc] && s'.sock == s.sock && s'.connections == s.connections
    requires if HoldsMutex(pc) then s.owner == None && s'.owner == Some(t) && Open(s) else s'.owner == None
    ensures MutexOk(s')
  {
  }

  lemma SenderKeepsMutexOk(s: State, step: Step, s': State)
    requires MutexOk(s) && SenderStep(s, step, s')
    ensures MutexOk(s')
  {
    match step
    case Refuse(t) =>
    case Interrupted(t) =>
    case Lock(t) => LockKeepsMutexOk(s, t, s'.pcs[t], s');
    case Release(t) => LockKeepsMutexOk(s, t, s'.pcs[t], s');
    case Count(t) => LockKeepsMutexOk(s, t, s'.pcs[t], s');
    case Admit(t, _) => MoveKeepsMutexOk(s, t, s'.pcs[t], s');
    case LockClosed(t) => MoveKeepsMutexOk(s, t, s'.pcs[t], s');
    case NoMore(t) => MoveKeepsMutexOk(s, t, s'.pcs[t], s');
    case ClearAlive(t) => MoveKeepsMutexOk(s, t, s'.pcs[t], s');
  }

  lemma NextKeepsMutexOk(s: State, step: Step, s': State)
    requires MutexOk(s) && Next(s, step, s')
    ensures MutexOk(s')
  {
    match step
    case Accept(t, n) => AcceptKeepsMutexOk(s, t, s.pcs[t].payload, s.pcs[t].sent, n, s');
    case Shutdown(t) => DownKeepsMutexOk(s, t, s');
    case StopShutsDown => DownKeepsMutexOk(s, 0, s');
    case Connect =>
    case ReceiverDies =>
    case Close =>
    case SetAlive =>
    case _ => SenderKeepsMutexOk(s, step, s');
  }

  lemma AcceptKeepsCounted(s: State, t: Thread, payload: Bytes, sent: nat, n: nat, s': State)
    requires MutexOk(s) && Counted(s) && AcceptStep(s, t, payload, sent, n, s')
    ensures Counted(s')
  {
    assert s.owner == Some(t);
    TotalWholeUpdate(s.connections, s.sock.value, s'.connections[s.sock.value]);
  }

  lemma DownKeepsCounted(s: State, t: Thread, s': State)
    requires MutexOk(s) && Counted(s) && (ShutdownStep(s, t, s') || StopStep(s, s'))
    ensures Counted(s')
  {
    TotalWholeUpdate(s.connections, s.sock.value, s'.connections[s.sock.value]);
  }

  lemma SenderKeepsCounted(s: State, step: Step, s': State)
    requires MutexOk(s) && Counted(s) && SenderStep(s, step, s')
    ensures Counted(s')
  {
  }

  lemma ConnectKeepsCounted(s: State, s': State)
    requires Counted(s) && ConnectStep(s, s')
    ensures Counted(s')
  {
    assert s'.connections[..|s.connections|] == s.connections;
  }

  lemma NextKeepsCounted(s: State, step: Step, s': State)
    requires MutexOk(s) && Counted(s) && Next(s, step, s')
    ensures Counted(s')
  {
    match step
    case Accept(t, n) => AcceptKeepsCounted(s, t, s.pcs[t].payload, s.pcs[t].sent, n, s');
    case Shutdown(t) => DownKeepsCounted(s, t, s');
    case StopShutsDown => DownKeepsCounted(s, 0, s');
    case Connect => ConnectKeepsCounted(s, s');
    case ReceiverDies =>
    case Close =>
    case SetAlive =>
    case _ => SenderKeepsCounted(s, step, s');
  }

  /** The kernel takes n more bytes of the frame in flight. */
  lemma AcceptedBytes(c: Connection, payload: Bytes, sent: nat, n: nat)
    requires Sendable(payload) && sent + n <= |Encode(payload)| && 0 < n
    requires !c.down && WellWritten(c, Encode(payload)[..sent])
    ensures var wire := c.wire + Encode(payload)[sent..sent + n];
            if sent + n == |Encode(payload)| then WellWritten(Connection(wire, c.down, c.whole + [payload]), [])
            else WellWritten(c.(wire := wire), Encode(payload)[..sent + n])
  {
    var frame := Encode(payload);
    ConcatAssociates(EncodeAll(c.whole), frame[..sent], frame[sent..sent + n]);
    assert frame[..sent] + frame[sent..sent + n] == frame[..sent + n];
    if sent + n == |frame| {
      assert frame[..sent + n] == frame;
      EncodeAllSnoc(c.whole, payload);
      assert EncodeAll(c.whole + [payload]) + [] == EncodeAll(c.whole + [payload]);
    }
  }

  /** Shutting down turns the bytes in flight into a frame that stays cut. */
  lemma ShutDownBytes(c: Connection, payload: Bytes, sent: nat)
    requires Sendable(payload) && sent < |Encode(payload)|
    requires WellWritten(c, Encode(payload)[..sent])
    ensures WellWritten(c.(down := true), [])
  {
    assert CutFrame(Encode(payload)[..sent]);
  }

  /** The steps that change no connection leave the bytes in flight alone. */
  lemma SenderKeepsWires(s: State, step: Step, s': State, i: nat)
    requires MutexOk(s) && SenderStep(s, step, s')
    ensures s'.connections == s.connections && InFlight(s', i) == InFlight(s, i)
  {
    if step.Lock? {
      assert Encode(s.pcs[step.t].payload)[..0] == [];
    }
  }

  lemma FlagKeepsWires(s: State, step: Step, s': State, i: nat)
    requires FlagStep(s, step, s')
    ensures s'.connections == s.connections && InFlight(s', i) == InFlight(s, i)
  {
  }

  /** Only the open connection changes, and no other has bytes in flight. */
  lemma OthersKept(s: State, c: Connection, s': State, i: nat)
    requires i < |s.connections| && s.sock != Some(i) && Open(s) && s'.sock == s.sock
    requires s'.connections == s.connections[s.sock.value := c]
    ensures i < |s'.connections| && s'.connections[i] == s.connections[i]
    ensures InFlight(s', i) == InFlight(s, i) == []
  {
  }

  lemma AcceptKeepsWires(s: State, t: Thread, payload: Bytes, sent: nat, n: nat, s': State, i: nat)
    requires MutexOk(s) && AcceptStep(s, t, payload, sent, n, s')
    requires i < |s.connections| && WellWritten(s.connections[i], InFlight(s, i))
    ensures i < |s'.connections| && WellWritten(s'.connections[i], InFlight(s', i))
  {
    var k := s.sock.value;
    assert s'.connections == s.connections[k := s'.connections[k]];
    if i == k {
      assert s.owner == s'.owner == Some(t) && InFlight(s, k) == Encode(payload)[..sent];
      assert InFlight(s', k) == if sent + n == |Encode(payload)| then [] else Encode(payload)[..sent + n];
      AcceptedBytes(s.connections[k], payload, sent, n);
    } else {
      OthersKept(s, s'.connections[k], s', i);
    }
  }

  lemma ShutdownKeepsWires(s: State, t: Thread, s': State, i: nat)
    requires MutexOk(s) && ShutdownStep(s, t, s')
    requires i < |s.connections| && WellWritten(s.connections[i], InFlight(s, i))
    ensures i < |s'.connections| && WellWritten(s'.connections[i], InFlight(s', i))
  {
    var k := s.sock.value;
    assert s'.connections == s.connections[k := s'.connections[k]];
    if i == k {
      assert s.owner == s'.owner == Some(t) && InFlight(s', k) == [];
      assert PcWellFormed(s.pcs[t]);
      ShutDownBytes(s.connections[k], s.pcs[t].payload, s.pcs[t].sent);
    } else {
      OthersKept(s, s'.connections[k], s', i);
    }
  }

  lemma StopKeepsWires(s: State, s': State, i: nat)
    requires StopStep(s, s')
    requires i < |s.connections| && WellWritten(s.connections[i], InFlight(s, i))
    ensures i < |s'.connections| && WellWritten(s'.connections[i], InFlight(s', i))
  {
    assert InFlight(s', i) == InFlight(s, i);
  }

  lemma ConnectKeepsWires(s: State, s': State, i: nat)
    requires ConnectStep(s, s') && i < |s'.connections|
    requires i < |s.connections| ==> WellWritten(s.connections[i], InFlight(s, i))
    ensures WellWritten(s'.connections[i], InFlight(s', i))
  {
    assert InFlight(s', i) == InFlight(s, i) == [];
    assert EncodeAll([]) + [] == [];
  }

  lemma NextKeepsWiresOk(s: State, step: Step, s': State, i: nat)
    requires MutexOk(s) && WiresOk(s) && Next(s, step, s') && i < |s'.connections|
    ensures WellWritten(s'.connections[i], InFlight(s', i))
  {
    assert i < |s.connections| ==> WellWritten(s.connections[i], InFlight(s, i));
    match step
    case Accept(t, n) => AcceptKeepsWires(s, t, s.pcs[t].payload, s.pcs[t].sent, n, s', i);
    case Shutdown(t) => ShutdownKeepsWires(s, t, s', i);
    case StopShutsDown => StopKeepsWires(s, s', i);
    case Connect => ConnectKeepsWires(s, s', i);
    case ReceiverDies => FlagKeepsWires(s, step, s', i);
    case Close => FlagKeepsWires(s, step, s', i);
    case SetAlive => FlagKeepsWires(s, step, s', i);
    case _ => SenderKeepsWires(s, step, s', i);
  }

  lemma NextKeepsInv(s: State, step: Step, s': State)
    requires Inv(s) && Next(s, step, s')
    ensures Inv(s')
  {
    NextKeepsMutexOk(s, step, s');
    NextKeepsCounted(s, step, s');
    forall i | 0 <= i < |s'.connections|
      ensures WellWritten(s'.connections[i], InFlight(s', i))
    {
      NextKeepsWiresOk(s, step, s', i);
    }
  }

  // ------------------------------------------------------------------ whole runs

  /** A run: states[i] goes to states[i + 1] by steps[i]. */
  ghost predicate Run(states: seq<State>, steps: seq<Step>) {
    && |states| == |steps| + 1
    && Init(states[0])
    && forall i :: 0 <= i < |steps| ==> StepAt(states, steps, i)
  }

  ghost predicate StepAt(states: seq<State>, steps: seq<Step>, i: nat)
    requires i < |steps| && |states| == |steps| + 1
  {
    Next(states[i], steps[i], states[i + 1])
  }

  lemma {:induction false} RunHasInv(states: seq<State>, steps: seq<Step>, k: nat)
    requires Run(states, steps) && k < |states|
    ensures Inv(states[k])
  {
    if k == 0 {
      InitHasInv(states[0]);
    } else {
      RunHasInv(states, steps, k - 1);
      assert StepAt(states, steps, k - 1);
      NextKeepsInv(states[k - 1], steps[k - 1], states[k]);
    }
  }

  lemma WellWrittenIsRead(c: Connection, inFlight: Bytes)
    requires WellWritten(c, inFlight) && CutFrame(inFlight)
    ensures exists cut :: CutFrame(cut) && c.wire == EncodeAll(c.whole) + cut
    ensures ParseStream(c.wire).frames == c.whole && ParseStream(c.wire).verdict == Clean
  {
    var cut :| CutFrame(cut) && c.wire == EncodeAll(c.whole) + cut;
    FramesThenPartialIsRead(c.wire, c.whole, cut);
  }

  lemma UnfinishedIsCut(pc: Pc)
    requires PcWellFormed(pc)
    ensures CutFrame(Unfinished(pc)) && CutFrame([])
  {
    assert [] < Encode([]);
    if pc.Writing? || pc.Failing? || pc.ShuttingDown? {
      assert Encode(pc.payload)[..pc.sent] < Encode(pc.payload);
    }
  }

  /** In every state of every run, each connection carries the encodings of the payloads whose
      sends completed, followed by a strict beginning (possibly empty) of one more frame; a peer
      running the frame parser has read exactly those payloads and sees no violation. */
  lemma WireIsWholeFramesThenCut(states: seq<State>, steps: seq<Step>, k: nat, i: nat)
    requires Run(states, steps) && k < |states| && i < |states[k].connections|
    ensures var c := states[k].connections[i];
            && AllSendable(c.whole)
            && (exists cut :: CutFrame(cut) && c.wire == EncodeAll(c.whole) + cut)
            && ParseStream(c.wire).frames == c.whole
            && ParseStream(c.wire).verdict == Clean
  {
    RunHasInv(states, steps, k);
    var s := states[k];
    assert WellWritten(s.connections[i], InFlight(s, i));
    UnfinishedIsCut(if s.owner.Some? then s.pcs[s.owner.value] else Idle);
    WellWrittenIsRead(s.connections[i], InFlight(s, i));
  }

  /** Whenever no sender holds the mutex, the message counter is exactly the number of whole
      frames put on all the connections together. */
  lemma MessagesSentCountsWholeFrames(states: seq<State>, steps: seq<Step>, k: nat)
    requires Run(states, steps) && k < |states| && states[k].owner == None
    ensures states[k].messagesSent == TotalWhole(states[k].connections)
  {
    RunHasInv(states, steps, k);
  }

  lemma DownIsFrozen(s: State, step: Step, s': State, i: nat)
    requires Next(s, step, s') && i < |s.connections| && s.connections[i].down
    ensures i < |s'.connections| && s'.connections[i] == s.connections[i]
  {
  }

  /** A connection that ends in a cut frame nobody is writing any more is closed for good: no
      later step of the run puts another byte on it. */
  lemma {:induction false} NothingAfterCut(states: seq<State>, steps: seq<Step>, k: nat, j: nat, i: nat)
    requires Run(states, steps) && k <= j < |states| && i < |states[k].connections|
    requires InFlight(states[k], i) == []
    requires ParseStream(states[k].connections[i].wire).rest != []
    ensures i < |states[j].connections| && states[j].connections[i] == states[k].connections[i]
    decreases j
  {
    if k < j {
      NothingAfterCut(states, steps, k, j - 1, i);
      CutIsDown(states, steps, k, i);
      assert StepAt(states, steps, j - 1);
      DownIsFrozen(states[j - 1], steps[j - 1], states[j], i);
    }
  }

  lemma CutIsDown(states: seq<State>, steps: seq<Step>, k: nat, i: nat)
    requires Run(states, steps) && k < |states| && i < |states[k].connections|
    requires InFlight(states[k], i) == []
    requires ParseStream(states[k].connections[i].wire).rest != []
    ensures states[k].connections[i].down
  {
    RunHasInv(states, steps, k);
    var c := states[k].connections[i];
    assert WellWritten(c, InFlight(states[k], i));
    if c.wire == EncodeAll(c.whole) + [] {
      assert c.wire == EncodeAll(c.whole);
      ParseInvertsEncode(c.whole);
    }
  }
}
