/** The wire format of the TCP transport and its incremental receiver.

A frame is a two-byte magic, a big-endian 32-bit payload length, and the payload.
`Encode` is what the sender puts on the wire; `ParseStream` is the one-shot reading of
a whole byte stream; `ReceiveLoop` is the buffer-and-erase loop that reads the stream in
whatever chunks the socket delivers. */
module TcpFraming {

  type byte = x: int | 0 <= x < 256
  type Bytes = seq<byte>

  const FRAME_MAGIC_0: byte := 0xAF
  const FRAME_MAGIC_1: byte := 0x01
  const FRAME_HEADER_SIZE: nat := 6
  const MAX_FRAME_LENGTH: nat := 16 * 1024 * 1024

  /** A payload `send` accepts: the length guard of the sender. */
  predicate Sendable(payload: Bytes) {
    |payload| <= MAX_FRAME_LENGTH
  }

  // ------------------------------------------------------------------ encoding

  function LengthBytes(n: nat): (b: Bytes)
    requires n < 0x1_0000_0000
    ensures |b| == 4
  {
    [n / 0x100_0000 % 256, n / 0x1_0000 % 256, n / 0x100 % 256, n % 256]
  }

  function ReadLength(b: Bytes): (n: nat)
    requires |b| == 4
    ensures n < 0x1_0000_0000
  {
    (b[0] as int) * 0x100_0000 + (b[1] as int) * 0x1_0000 + (b[2] as int) * 0x100 + b[3] as int
  }

  lemma LengthRoundTrip(n: nat)
    requires n < 0x1_0000_0000
    ensures ReadLength(LengthBytes(n)) == n
  {
    var q1 := n / 0x100;
    var q2 := n / 0x1_0000;
    var q3 := n / 0x100_0000;
    assert q2 == q1 / 0x100 && q3 == q2 / 0x100;
    assert n == q1 * 0x100 + n % 256;
    assert q1 == q2 * 0x100 + q1 % 256;
    assert q2 == q3 * 0x100 + q2 % 256;
  }

  lemma LengthRoundTripBack(b: Bytes)
    requires |b| == 4
    ensures LengthBytes(ReadLength(b)) == b
  {
    var n := ReadLength(b);
    var hi1: int := (b[0] as int) * 0x1_0000 + (b[1] as int) * 0x100 + b[2] as int;
    var hi2: int := (b[0] as int) * 0x100 + b[1] as int;
    assert n == hi1 * 0x100 + b[3] as int && n / 0x100 == hi1;
    assert hi1 == hi2 * 0x100 + b[2] as int && hi1 / 0x100 == hi2;
    assert n / 0x1_0000 == hi2;
    assert hi2 / 0x100 == b[0];
    assert n / 0x100_0000 == b[0];
  }

  function Header(n: nat): (h: Bytes)
    requires n < 0x1_0000_0000
    ensures |h| == FRAME_HEADER_SIZE
  {
    [FRAME_MAGIC_0, FRAME_MAGIC_1] + LengthBytes(n)
  }

  function Encode(payload: Bytes): (f: Bytes)
    requires Sendable(payload)
    ensures |f| == FRAME_HEADER_SIZE + |payload|
  {
    Header(|payload|) + payload
  }

  predicate AllSendable(payloads: seq<Bytes>) {
    forall i :: 0 <= i < |payloads| ==> Sendable(payloads[i])
  }

  function EncodeAll(payloads: seq<Bytes>): Bytes
    requires AllSendable(payloads)
  {
    if payloads == [] then [] else Encode(payloads[0]) + EncodeAll(payloads[1..])
  }

  lemma {:induction false} EncodeAllAppends(a: seq<Bytes>, b: seq<Bytes>)
    requires AllSendable(a) && AllSendable(b)
    ensures AllSendable(a + b) && EncodeAll(a + b) == EncodeAll(a) + EncodeAll(b)
  {
    if a == [] {
      assert a + b == b;
    } else {
      assert AllSendable(a + b);
      assert (a + b)[0] == a[0] && (a + b)[1..] == a[1..] + b;
      EncodeAllAppends(a[1..], b);
    }
  }

  // ------------------------------------------------------- one-shot reading

  datatype Verdict = Clean | BadMagic | TooLong

  /** What the front of a buffer holds: too little to tell, a violation, or a whole frame. */
  datatype Front = NeedMore | Violation(verdict: Verdict) | Whole(length: nat)

  function Classify(b: Bytes): (f: Front)
    ensures f.Whole? ==> f.length <= MAX_FRAME_LENGTH && FRAME_HEADER_SIZE + f.length <= |b|
    ensures f.Violation? ==> f.verdict != Clean && b != []
  {
    if |b| == 0 then NeedMore
    else if b[0] != FRAME_MAGIC_0 || (|b| >= 2 && b[1] != FRAME_MAGIC_1) then Violation(BadMagic)
    else if |b| < FRAME_HEADER_SIZE then NeedMore
    else
      var length := ReadLength(b[2..6]);
      if length > MAX_FRAME_LENGTH then Violation(TooLong)
      else if |b| < FRAME_HEADER_SIZE + length then NeedMore
      else Whole(length)
  }

  datatype Parsed = Parsed(frames: seq<Bytes>, rest: Bytes, verdict: Verdict)

  function After(frames: seq<Bytes>, p: Parsed): Parsed {
    Parsed(frames + p.frames, p.rest, p.verdict)
  }

  /** The whole stream read at once, recursively. */
  function ParseStream(b: Bytes): Parsed
    decreases |b|
  {
    match Classify(b)
    case NeedMore => Parsed([], b, Clean)
    case Violation(v) => Parsed([], b, v)
    case Whole(n) =>
      After([b[FRAME_HEADER_SIZE..FRAME_HEADER_SIZE + n]], ParseStream(b[FRAME_HEADER_SIZE + n..]))
  }

  // ---------------------------------------------- the parser inverts the encoder

  lemma ClassifyEncoded(payload: Bytes, tail: Bytes)
    requires Sendable(payload)
    ensures Classify(Encode(payload) + tail) == Whole(|payload|)
  {
    var b := Encode(payload) + tail;
    assert b[2..6] == LengthBytes(|payload|);
    LengthRoundTrip(|payload|);
  }

  lemma ParseEncodedFront(payload: Bytes, tail: Bytes)
    requires Sendable(payload)
    ensures ParseStream(Encode(payload) + tail) == After([payload], ParseStream(tail))
  {
    ClassifyEncoded(payload, tail);
    var b := Encode(payload) + tail;
    assert b[FRAME_HEADER_SIZE..FRAME_HEADER_SIZE + |payload|] == payload;
    assert b[FRAME_HEADER_SIZE + |payload|..] == tail;
  }

  lemma AfterAfter(a: seq<Bytes>, b: seq<Bytes>, p: Parsed)
    ensures After(a, After(b, p)) == After(a + b, p)
    ensures After([], p) == p
  {
    assert a + (b + p.frames) == (a + b) + p.frames;
    assert [] + p.frames == p.frames;
  }

  lemma ConcatAssociates(a: Bytes, b: Bytes, c: Bytes)
    ensures a + (b + c) == (a + b) + c
  {
  }

  /** Whole frames at the front of any stream are read back exactly, and the reading of
      what follows is unaffected by them. */
  lemma {:induction false} ParseSkipsEncoded(payloads: seq<Bytes>, tail: Bytes)
    requires AllSendable(payloads)
    ensures ParseStream(EncodeAll(payloads) + tail) == After(payloads, ParseStream(tail))
  {
    if payloads == [] {
      AfterAfter([], [], ParseStream(tail));
      assert EncodeAll(payloads) + tail == tail;
    } else {
      var first, others := payloads[0], payloads[1..];
      var more := EncodeAll(others) + tail;
      assert EncodeAll(payloads) + tail == Encode(first) + more by {
        ConcatAssociates(Encode(first), EncodeAll(others), tail);
      }
      ParseEncodedFront(first, more);
      ParseSkipsEncoded(others, tail);
      AfterAfter([first], others, ParseStream(tail));
      assert payloads == [first] + others;
    }
  }

  /** Round trip: any concatenation of encoded payloads parses to exactly those payloads,
      with nothing left over. */
  lemma ParseInvertsEncode(payloads: seq<Bytes>)
    requires AllSendable(payloads)
    ensures ParseStream(EncodeAll(payloads)) == Parsed(payloads, [], Clean)
  {
    ParseSkipsEncoded(payloads, []);
    assert EncodeAll(payloads) + [] == EncodeAll(payloads);
    assert payloads + [] == payloads;
  }

  lemma WholeFrontIsEncoded(b: Bytes)
    requires Classify(b).Whole?
    ensures var n := Classify(b).length;
            b == Encode(b[FRAME_HEADER_SIZE..FRAME_HEADER_SIZE + n]) + b[FRAME_HEADER_SIZE + n..]
  {
    LengthRoundTripBack(b[2..6]);
    assert Header(Classify(b).length) == b[..FRAME_HEADER_SIZE];
  }

  lemma EncodeAllFirst(first: Bytes, others: seq<Bytes>)
    requires Sendable(first) && AllSendable(others)
    ensures AllSendable([first] + others)
    ensures EncodeAll([first] + others) == Encode(first) + EncodeAll(others)
  {
    assert ([first] + others)[1..] == others;
  }

  /** The other direction: whatever the verdict, the stream is the encoding of the frames
      that were read followed by the unread rest. */
  lemma {:induction false} ParseIsFaithful(b: Bytes)
    ensures AllSendable(ParseStream(b).frames)
    ensures b == EncodeAll(ParseStream(b).frames) + ParseStream(b).rest
    decreases |b|
  {
    if Classify(b).Whole? {
      var k := FRAME_HEADER_SIZE + Classify(b).length;
      var payload, tail := b[FRAME_HEADER_SIZE..k], b[k..];
      ParseIsFaithful(tail);
      WholeFrontIsEncoded(b);
      EncodeAllFirst(payload, ParseStream(tail).frames);
      ConcatAssociates(Encode(payload), EncodeAll(ParseStream(tail).frames), ParseStream(tail).rest);
    } else {
      assert b == EncodeAll([]) + b;
    }
  }

  /** The rest never has a whole frame in it, and on a clean stream it is shorter than a
      header plus the longest frame. */
  lemma {:induction false} RestIsShort(b: Bytes)
    ensures var p := ParseStream(b);
            && (p.verdict == Clean <==> Classify(p.rest).NeedMore?)
            && (p.verdict == Clean ==> |p.rest| < FRAME_HEADER_SIZE + MAX_FRAME_LENGTH)
            && (p.verdict != Clean ==> Classify(p.rest) == Violation(p.verdict))
    decreases |b|
  {
    match Classify(b)
    case NeedMore =>
    case Violation(v) =>
    case Whole(n) => RestIsShort(b[FRAME_HEADER_SIZE + n..]);
  }

  // ----------------------------------------------------- chunk independence

  lemma ClassifyExtends(a: Bytes, b: Bytes)
    ensures !Classify(a).NeedMore? ==> Classify(a + b) == Classify(a)
  {
    if |a| >= FRAME_HEADER_SIZE {
      assert (a + b)[2..6] == a[2..6];
    }
  }

  /** Reading a longer stream continues the reading of a prefix: a violation is final, and
      otherwise parsing resumes from the rest alone. */
  lemma {:induction false} ParseExtends(a: Bytes, b: Bytes)
    ensures var p := ParseStream(a);
            ParseStream(a + b) == if p.verdict == Clean then After(p.frames, ParseStream(p.rest + b))
                                  else Parsed(p.frames, p.rest + b, p.verdict)
    decreases |a|
  {
    if Classify(a).Whole? {
      var k := FRAME_HEADER_SIZE + Classify(a).length;
      var payload, tail := a[FRAME_HEADER_SIZE..k], a[k..];
      var p := ParseStream(tail);
      WholeFrontIsEncoded(a);
      ConcatAssociates(Encode(payload), tail, b);
      ParseEncodedFront(payload, tail + b);
      ParseExtends(tail, b);
      AfterAfter([payload], p.frames, ParseStream(p.rest + b));
    } else {
      ClassifyExtends(a, b);
      AfterAfter([], [], ParseStream(a + b));
    }
  }

  // ------------------------------------------------- what a clean stream is

  /** A strict beginning of some encoded payload. */
  ghost predicate CutFrame(b: Bytes) {
    exists payload :: Sendable(payload) && b < Encode(payload)
  }

  /** A strict beginning of a header (for any announced length), or of an encoded payload. */
  ghost predicate PartialFrame(rest: Bytes) {
    || (exists n: nat :: n < 0x1_0000_0000 && rest < Header(n))
    || CutFrame(rest)
  }

  lemma PartialFrameIsUndecided(rest: Bytes)
    ensures Classify(rest).NeedMore? <==> PartialFrame(rest)
  {
    if Classify(rest).NeedMore? {
      if |rest| < FRAME_HEADER_SIZE {
        var padded := [FRAME_MAGIC_0, FRAME_MAGIC_1] + (if |rest| <= 2 then [] else rest[2..]) + [0, 0, 0, 0];
        var n := ReadLength(padded[2..6]);
        LengthRoundTripBack(padded[2..6]);
        assert rest < Header(n);
      } else {
        var n := ReadLength(rest[2..6]);
        LengthRoundTripBack(rest[2..6]);
        assert rest[..FRAME_HEADER_SIZE] == Header(n);
        var payload := rest[FRAME_HEADER_SIZE..] + seq(n - (|rest| - FRAME_HEADER_SIZE), _ => 0);
        assert rest < Encode(payload);
      }
    }
    forall payload | Sendable(payload) && rest < Encode(payload)
      ensures Classify(rest).NeedMore?
    {
      if |rest| >= FRAME_HEADER_SIZE {
        assert rest[2..6] == Encode(payload)[2..6] == LengthBytes(|payload|);
        LengthRoundTrip(|payload|);
      }
    }
  }

  /** `b` is whole encoded payloads followed by a partial frame. */
  ghost predicate FramesThenPartial(b: Bytes, payloads: seq<Bytes>, rest: Bytes) {
    AllSendable(payloads) && PartialFrame(rest) && b == EncodeAll(payloads) + rest
  }

  lemma FramesThenPartialIsRead(b: Bytes, payloads: seq<Bytes>, rest: Bytes)
    requires FramesThenPartial(b, payloads, rest)
    ensures ParseStream(b) == Parsed(payloads, rest, Clean)
  {
    PartialFrameIsUndecided(rest);
    ParseSkipsEncoded(payloads, rest);
    assert ParseStream(rest) == Parsed([], rest, Clean);
    assert payloads + [] == payloads;
  }

  /** A stream is read without violation exactly when it is whole encoded payloads followed
      by a partial frame, and then those payloads are what is delivered. */
  lemma CleanIffFramesThenPartial(b: Bytes)
    ensures ParseStream(b).verdict == Clean
            <==> exists payloads, rest :: FramesThenPartial(b, payloads, rest)
    ensures forall payloads, rest :: FramesThenPartial(b, payloads, rest)
              ==> ParseStream(b) == Parsed(payloads, rest, Clean)
  {
    if ParseStream(b).verdict == Clean {
      ParseIsFaithful(b);
      RestIsShort(b);
      PartialFrameIsUndecided(ParseStream(b).rest);
      assert FramesThenPartial(b, ParseStream(b).frames, ParseStream(b).rest);
    }
    forall payloads, rest | FramesThenPartial(b, payloads, rest)
      ensures ParseStream(b) == Parsed(payloads, rest, Clean)
    {
      FramesThenPartialIsRead(b, payloads, rest);
    }
  }

  /** Two different lists of payloads never share an encoding. */
  lemma EncodingIsInjective(a: seq<Bytes>, b: seq<Bytes>)
    requires AllSendable(a) && AllSendable(b)
    requires EncodeAll(a) == EncodeAll(b)
    ensures a == b
  {
    ParseInvertsEncode(a);
    ParseInvertsEncode(b);
  }

  // -------------------------------------------------------- the receive loop

  /** One outcome of a blocking receive call. */
  datatype Received = Data(bytes: Bytes) | Timeout | EndOfStream | ReceiveError

  function Stream(events: seq<Received>): Bytes {
    if events == [] then []
    else Stream(events[..|events| - 1]) +
         (if events[|events| - 1].Data? then events[|events| - 1].bytes else [])
  }

  lemma StreamSnoc(events: seq<Received>, k: nat)
    requires k < |events|
    ensures Stream(events[..k + 1])
         == Stream(events[..k]) + (if events[k].Data? then events[k].bytes else [])
  {
    assert events[..k + 1][..k] == events[..k];
  }

  /** One more receive outcome, parsed from where the buffer was left. */
  lemma {:induction false} ReceiveMore(events: seq<Received>, taken: nat, frames: seq<Bytes>, buffer: Bytes)
    requires taken < |events|
    requires ParseStream(Stream(events[..taken])) == Parsed(frames, buffer, Clean)
    ensures ParseStream(Stream(events[..taken + 1]))
         == if events[taken].Data? then After(frames, ParseStream(buffer + events[taken].bytes))
            else Parsed(frames, buffer, Clean)
  {
    StreamSnoc(events, taken);
    var before := Stream(events[..taken]);
    if events[taken].Data? {
      ParseExtends(before, events[taken].bytes);
    } else {
      assert before + [] == before;
    }
  }

  /** Every reading of the loop flags from number `first` up to `last` said to go on. */
  ghost predicate AllGoing(going: nat -> bool, first: nat, last: nat) {
    forall k :: first <= k < last ==> going(k)
  }

  /** What a loop that consumed so many outcomes has delivered: a loop that nobody stopped, exactly
      what the one-shot parser finds; a stopped loop a prefix of its frames. */
  ghost predicate Delivered(events: seq<Received>, taken: nat, dispatched: seq<Bytes>, buffer: Bytes,
                            verdict: Verdict, halted: bool)
    requires taken <= |events|
  {
    var p := ParseStream(Stream(events[..taken]));
    dispatched <= p.frames && (!halted ==> p == Parsed(dispatched, buffer, verdict))
  }

  lemma {:induction false} NothingDelivered(events: seq<Received>)
    ensures Delivered(events, 0, [], [], Clean, false)
  {
  }

  lemma {:induction false} HaltedDelivered(events: seq<Received>, taken: nat, dispatched: seq<Bytes>, buffer: Bytes, verdict: Verdict)
    requires taken <= |events| && Delivered(events, taken, dispatched, buffer, verdict, false)
    ensures Delivered(events, taken, dispatched, buffer, verdict, true)
  {
  }

  lemma {:induction false} NoDataDelivered(events: seq<Received>, k: nat, dispatched: seq<Bytes>, buffer: Bytes)
    requires k < |events| && !events[k].Data? && Delivered(events, k, dispatched, buffer, Clean, false)
    ensures Delivered(events, k + 1, dispatched, buffer, Clean, false)
  {
    ReceiveMore(events, k, dispatched, buffer);
  }

  /** Reading the flags stops at the first reading that says stop. */
  ghost predicate Polled(going: nat -> bool, halted: bool, polls: nat) {
    if halted then polls > 0 && !going(polls - 1) && AllGoing(going, 0, polls - 1) else AllGoing(going, 0, polls)
  }

  lemma PolledOn(going: nat -> bool, first: nat, halted: bool, polls: nat)
    requires AllGoing(going, 0, first)
    requires if halted then polls > first && !going(polls - 1) && AllGoing(going, first, polls - 1)
             else polls >= first && AllGoing(going, first, polls)
    ensures Polled(going, halted, polls)
  {
  }

  /** Appends the bytes received to the buffer and dispatches its complete frames. */
  method HandleData(events: seq<Received>, k: nat, sofar: seq<Bytes>, received: Bytes, going: nat -> bool, first: nat)
    returns (dispatched: seq<Bytes>, buffer: Bytes, verdict: Verdict, halted: bool, polls: nat)
    requires k < |events| && events[k].Data? && Delivered(events, k, sofar, received, Clean, false)
    requires Polled(going, false, first)
    ensures Polled(going, halted, polls)
    ensures Delivered(events, k + 1, dispatched, buffer, verdict, halted)
  {
    ReceiveMore(events, k, sofar, received);
    dispatched, buffer, verdict, halted, polls := DrainBuffer(sofar, received + events[k].bytes, going, first);
    PolledOn(going, first, halted, polls);
  }

  /** The receive thread: `events` are the outcomes of its successive receive calls.

      The two loop flags are read before every receive and before every frame; a handler, a
      failed send or a stop may have cleared either at any moment, so the k-th reading is an
      arbitrary `going(k)`. `polls` readings were made, `taken` outcomes were consumed. */
  method ReceiveLoop(events: seq<Received>, going: nat -> bool)
    returns (dispatched: seq<Bytes>, buffer: Bytes, verdict: Verdict, halted: bool, taken: nat, polls: nat)
    ensures taken <= |events|
    ensures Polled(going, halted, polls)
    ensures Delivered(events, taken, dispatched, buffer, verdict, halted)
    // It ends only by running out of input, on a reading that says stop, on a violation, or
    // when the connection ends.
    ensures taken < |events| ==>
              || halted || verdict != Clean
              || (taken > 0 && (events[taken - 1].EndOfStream? || events[taken - 1].ReceiveError?))
  {
    dispatched, buffer, verdict, halted, taken, polls := [], [], Clean, false, 0, 0;
    NothingDelivered(events);
    while taken < |events|
      invariant taken <= |events|
      invariant verdict == Clean && !halted
      invariant Polled(going, false, polls)
      invariant Delivered(events, taken, dispatched, buffer, Clean, false)
    {
      polls := polls + 1;
      PolledOn(going, polls - 1, !going(polls - 1), polls);
      if !going(polls - 1) {
        HaltedDelivered(events, taken, dispatched, buffer, Clean);
        halted := true;
        return;
      }
      var event := events[taken];
      taken := taken + 1;
      if event.Data? {
        dispatched, buffer, verdict, halted, polls := HandleData(events, taken - 1, dispatched, buffer, going, polls);
        if halted || verdict != Clean {
          return;
        }
      } else {
        NoDataDelivered(events, taken - 1, dispatched, buffer);
        if event.Timeout? {
          continue;
        }
        return;
      }
    }
  }

  /** The slices taken relative to `start` are the slices of the unread part. */
  lemma UnreadSlices(received: Bytes, start: nat, length: nat)
    requires start + FRAME_HEADER_SIZE + length <= |received|
    ensures received[start..][2..6] == received[start + 2..start + 6]
    ensures received[start..][FRAME_HEADER_SIZE..FRAME_HEADER_SIZE + length]
         == received[start + FRAME_HEADER_SIZE..start + FRAME_HEADER_SIZE + length]
    ensures received[start..][FRAME_HEADER_SIZE + length..] == received[start + FRAME_HEADER_SIZE + length..]
  {
  }

  /** The checks made on the unread part, in the loop's order. */
  method InspectFront(received: Bytes, start: nat) returns (front: Front)
    requires start <= |received|
    ensures front == Classify(received[start..])
  {
    var available := |received| - start;
    if available == 0 {
      return NeedMore;
    }
    if received[start] != FRAME_MAGIC_0 || (available >= 2 && received[start + 1] != FRAME_MAGIC_1) {
      return Violation(BadMagic);
    }
    if available < FRAME_HEADER_SIZE {
      return NeedMore;
    }
    var length := ReadLength(received[start + 2..start + 6]);
    UnreadSlices(received, start, 0);
    if length > MAX_FRAME_LENGTH {
      return Violation(TooLong);
    }
    if available < FRAME_HEADER_SIZE + length {
      return NeedMore;
    }
    return Whole(length);
  }

  lemma {:induction false} ParseWhole(b: Bytes, length: nat)
    requires Classify(b) == Whole(length)
    ensures FRAME_HEADER_SIZE + length <= |b|
    ensures ParseStream(b)
         == After([b[FRAME_HEADER_SIZE..FRAME_HEADER_SIZE + length]], ParseStream(b[FRAME_HEADER_SIZE + length..]))
  {
  }

  /** Reading on behind the frame at `start`. */
  lemma {:induction false} FrameTaken(dispatched: seq<Bytes>, received: Bytes, start: nat, length: nat)
    requires start <= |received| && Classify(received[start..]) == Whole(length)
    ensures start + FRAME_HEADER_SIZE + length <= |received|
    ensures var next := start + FRAME_HEADER_SIZE + length;
            After(dispatched, ParseStream(received[start..]))
            == After(dispatched + [received[start + FRAME_HEADER_SIZE..next]], ParseStream(received[next..]))
  {
    ParseWhole(received[start..], length);
    UnreadSlices(received, start, length);
    var next := start + FRAME_HEADER_SIZE + length;
    AfterAfter(dispatched, [received[start + FRAME_HEADER_SIZE..next]], ParseStream(received[next..]));
  }

  /** Copies out the frame at `start` and moves past it; what the whole buffer contributes
      stays the same. */
  method TakeFrame(dispatched: seq<Bytes>, received: Bytes, start: nat, length: nat)
    returns (longer: seq<Bytes>, next: nat)
    requires start <= |received| && Classify(received[start..]) == Whole(length)
    ensures dispatched < longer && start < next <= |received|
    ensures After(dispatched, ParseStream(received[start..])) == After(longer, ParseStream(received[next..]))
  {
    FrameTaken(dispatched, received, start, length);
    next := start + FRAME_HEADER_SIZE + length;
    var frame := received[start + FRAME_HEADER_SIZE..next];
    longer := dispatched + [frame];
  }

  lemma {:induction false} StopAtFront(dispatched: seq<Bytes>, b: Bytes)
    requires !Classify(b).Whole?
    ensures After(dispatched, ParseStream(b))
         == Parsed(dispatched, b, if Classify(b).Violation? then Classify(b).verdict else Clean)
  {
    assert dispatched + [] == dispatched;
  }

  /** Extracts and dispatches every complete frame of the buffer, then erases what was
      consumed. */
  method DrainBuffer(sofar: seq<Bytes>, received: Bytes, going: nat -> bool, first: nat)
    returns (dispatched: seq<Bytes>, buffer: Bytes, verdict: Verdict, halted: bool, polls: nat)
    ensures halted ==> polls > first && !going(polls - 1) && AllGoing(going, first, polls - 1) && verdict == Clean
    ensures !halted ==> polls > first && AllGoing(going, first, polls)
    ensures !halted ==> Parsed(dispatched, buffer, verdict) == After(sofar, ParseStream(received))
    ensures sofar <= dispatched <= After(sofar, ParseStream(received)).frames
  {
    dispatched, verdict, halted, polls := sofar, Clean, false, first;
    ghost var expected := After(sofar, ParseStream(received));
    var start: nat := 0;
    assert received[start..] == received;
    while true
      invariant start <= |received|
      invariant sofar <= dispatched
      invariant verdict == Clean && !halted
      invariant first <= polls && AllGoing(going, first, polls)
      invariant expected == After(dispatched, ParseStream(received[start..]))
      decreases |received| - start
    {
      polls := polls + 1;
      if !going(polls - 1) {
        halted := true;
        break;
      }
      var front := InspectFront(received, start);
      if !front.Whole? {
        StopAtFront(dispatched, received[start..]);
        verdict := if front.Violation? then front.verdict else Clean;
        break;
      }
      dispatched, start := TakeFrame(dispatched, received, start, front.length);
    }
    buffer := received[start..];
  }
}
