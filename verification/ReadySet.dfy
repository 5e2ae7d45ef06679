/** The ready set a scheduling cycle builds once, and the per-pick selectors it replaced.

The task map has no order of its own; `ts` is the order in which one traversal meets the tasks. */
module ReadySet {
  import opened Sorting

  type Id = nat

  datatype Policy = RoundRobin | PriorityBased | EarliestDeadlineFirst | RateMonotonic

  /** Priorities in the order of their raw values. */
  datatype Priority = Idle | Low | Normal | High | RealTime | Critical

  function Raw(p: Priority): nat {
    match p
    case Idle => 0
    case Low => 1
    case Normal => 2
    case High => 3
    case RealTime => 4
    case Critical => 5
  }

  /** Period and deadline in microseconds. */
  datatype Constraints = Constraints(period: int, deadline: int, priority: Priority)

  /** A task block. Times are in nanoseconds. `serial` is the number of the registration it
      belongs to; the program only keeps the identifier derived from it. */
  datatype Task = Task(
    taskId: Id, serial: nat, constraints: Constraints,
    nextExecution: int, lastExecution: int,
    active: bool, executing: bool, pendingRemoval: bool,
    failures: nat, reactivation: int)

  datatype Candidate = Candidate(id: Id, priority: Priority, deadline: int, period: int)

  /** The largest value of the 64-bit clock and duration representations. */
  const REP_MAX: int := 0x7FFF_FFFF_FFFF_FFFF

  function Nanos(microseconds: int): int {
    1000 * microseconds
  }

  predicate Ready(t: Task, now: int) {
    t.active && !t.executing && now >= t.nextExecution
  }

  function ToCandidate(t: Task): Candidate {
    Candidate(t.taskId, t.constraints.priority,
              t.nextExecution + Nanos(t.constraints.deadline), t.constraints.period)
  }

  /** What a policy compares; round robin compares nothing. */
  function Key(policy: Policy, c: Candidate): int {
    match policy
    case PriorityBased => Raw(c.priority)
    case EarliestDeadlineFirst => c.deadline
    case RateMonotonic => c.period
    case RoundRobin => 0
  }

  function KeyOf(policy: Policy): Candidate -> int {
    c => Key(policy, c)
  }

  predicate Distinct(ts: seq<Task>) {
    forall i, j :: 0 <= i < j < |ts| ==> ts[i].taskId != ts[j].taskId
  }

  predicate DistinctIds(cs: seq<Candidate>) {
    forall i, j :: 0 <= i < j < |cs| ==> cs[i].id != cs[j].id
  }

  function Ids(cs: seq<Candidate>): (ids: seq<Id>)
    ensures |ids| == |cs| && forall i :: 0 <= i < |cs| ==> ids[i] == cs[i].id
  {
    seq(|cs|, i requires 0 <= i < |cs| => cs[i].id)
  }

  function Contribution(t: Task, now: int): seq<Candidate> {
    if Ready(t, now) then [ToCandidate(t)] else []
  }

  /** The candidates one traversal collects. */
  function Candidates(ts: seq<Task>, now: int): seq<Candidate> {
    if ts == [] then [] else Contribution(ts[0], now) + Candidates(ts[1..], now)
  }

  lemma ConcatAssociates<T>(a: seq<T>, b: seq<T>, c: seq<T>)
    ensures a + (b + c) == a + b + c
  {
  }

  lemma {:induction false} CandidatesAppend(a: seq<Task>, b: seq<Task>, now: int)
    ensures Candidates(a + b, now) == Candidates(a, now) + Candidates(b, now)
  {
    if a == [] {
      assert a + b == b;
    } else {
      assert (a + b)[1..] == a[1..] + b && (a + b)[0] == a[0];
      CandidatesAppend(a[1..], b, now);
      ConcatAssociates(Contribution(a[0], now), Candidates(a[1..], now), Candidates(b, now));
    }
  }

  lemma {:induction false} CandidateIsReadyTask(ts: seq<Task>, now: int, c: Candidate)
    ensures c in Candidates(ts, now) <==> exists i :: 0 <= i < |ts| && Ready(ts[i], now) && ToCandidate(ts[i]) == c
  {
    if ts != [] {
      CandidateIsReadyTask(ts[1..], now, c);
      forall i | 0 <= i < |ts| && Ready(ts[i], now) && ToCandidate(ts[i]) == c
        ensures c in Candidates(ts, now)
      {
        if i > 0 {
          assert ts[1..][i - 1] == ts[i];
        }
      }
      if c in Candidates(ts[1..], now) {
        var i :| 0 <= i < |ts[1..]| && Ready(ts[1..][i], now) && ToCandidate(ts[1..][i]) == c;
        assert Ready(ts[i + 1], now) && ToCandidate(ts[i + 1]) == c;
      }
    }
  }

  lemma {:induction false} CandidatesDistinct(ts: seq<Task>, now: int)
    requires Distinct(ts)
    ensures DistinctIds(Candidates(ts, now))
  {
    if ts != [] {
      CandidatesDistinct(ts[1..], now);
      forall c | c in Candidates(ts[1..], now) ensures c.id != ts[0].taskId {
        CandidateIsReadyTask(ts[1..], now, c);
      }
    }
  }

  // -------------------------------------------------------------- once per cycle

  function IndexOf(cs: seq<Candidate>, id: Id): (i: nat)
    ensures i <= |cs| && (i < |cs| ==> cs[i].id == id)
    ensures forall j :: 0 <= j < i ==> cs[j].id != id
  {
    if cs == [] || cs[0].id == id then 0 else 1 + IndexOf(cs[1..], id)
  }

  /** Everything after the cursor first, if the cursor is among the candidates. */
  function RotatedPast(cs: seq<Candidate>, cursor: Id): seq<Candidate> {
    var i := IndexOf(cs, cursor);
    if i < |cs| then cs[i + 1..] + cs[..i + 1] else cs
  }

  /** What the cycle makes of its candidates: some key-sorted permutation (ties in any order),
      or the rotation past the cursor. */
  ghost predicate Ordering(policy: Policy, cursor: Id, cs: seq<Candidate>, ordered: seq<Candidate>) {
    && multiset(ordered) == multiset(cs)
    && if policy == RoundRobin then ordered == RotatedPast(cs, cursor) else SortedBy(KeyOf(policy), ordered)
  }

  lemma RotationIsPermutation(cs: seq<Candidate>, cursor: Id)
    ensures multiset(RotatedPast(cs, cursor)) == multiset(cs)
  {
    var i := IndexOf(cs, cursor);
    if i < |cs| {
      assert cs == cs[..i + 1] + cs[i + 1..];
    }
  }

  /** Finds the cursor's candidate and moves everything up to it to the end. */
  method RotatePast(cs: seq<Candidate>, cursor: Id) returns (r: seq<Candidate>)
    ensures r == RotatedPast(cs, cursor)
  {
    var i := 0;
    while i < |cs| && cs[i].id != cursor
      invariant 0 <= i <= |cs|
      invariant forall j :: 0 <= j < i ==> cs[j].id != cursor
    {
      i := i + 1;
    }
    assert i == IndexOf(cs, cursor);
    r := if i < |cs| then cs[i + 1..] + cs[..i + 1] else cs;
  }

  /** Sorts or rotates the candidates and moves the round-robin cursor to the last of them. */
  method OrderCandidates(policy: Policy, cursor: Id, cs: seq<Candidate>)
    returns (ordered: seq<Candidate>, cursor': Id)
    ensures Ordering(policy, cursor, cs, ordered)
    ensures cursor' == if policy == RoundRobin && ordered != [] then ordered[|ordered| - 1].id else cursor
  {
    if policy == RoundRobin {
      ordered := RotatePast(cs, cursor);
      RotationIsPermutation(cs, cursor);
    } else {
      ordered := Sort(KeyOf(policy), cs);
    }
    cursor' := if policy == RoundRobin && ordered != [] then ordered[|ordered| - 1].id else cursor;
  }

  lemma PermutationKeepsMembers(cs: seq<Candidate>, ordered: seq<Candidate>, c: Candidate)
    requires multiset(ordered) == multiset(cs)
    ensures c in ordered <==> c in cs
  {
    assert c in ordered <==> c in multiset(ordered);
    assert c in cs <==> c in multiset(cs);
  }

  /** A permutation of candidates with distinct ids has distinct ids. */
  lemma PermutationKeepsDistinct(cs: seq<Candidate>, ordered: seq<Candidate>)
    requires multiset(ordered) == multiset(cs) && DistinctIds(cs)
    ensures DistinctIds(ordered)
  {
    forall i, j | 0 <= i < j < |ordered| ensures ordered[i].id != ordered[j].id {
      var c, d := ordered[i], ordered[j];
      PermutationKeepsMembers(cs, ordered, c);
      PermutationKeepsMembers(cs, ordered, d);
      if c == d {
        TwiceInSeq(ordered, i, j);
        NoRepeats(cs, c);
      }
    }
  }

  lemma TwiceInSeq(s: seq<Candidate>, i: nat, j: nat)
    requires i < j < |s| && s[i] == s[j]
    ensures multiset(s)[s[i]] >= 2
  {
    assert s == s[..j] + s[j..];
    assert s[..j][i] == s[i] && s[j..][0] == s[j];
    assert s[i] in multiset(s[..j]) && s[i] in multiset(s[j..]);
  }

  lemma {:induction false} NoRepeats(s: seq<Candidate>, c: Candidate)
    requires DistinctIds(s)
    ensures multiset(s)[c] <= 1
  {
    if s != [] {
      NoRepeats(s[1..], c);
      assert s == [s[0]] + s[1..];
      assert c == s[0] ==> c !in s[1..];
    }
  }

  /** The cycle's list holds the id of every ready task, of no other, and none twice. */
  lemma ReadySetIsExact(policy: Policy, cursor: Id, ts: seq<Task>, now: int, ordered: seq<Candidate>)
    requires Distinct(ts) && Ordering(policy, cursor, Candidates(ts, now), ordered)
    ensures DistinctIds(ordered)
    ensures forall id :: id in Ids(ordered) <==>
              exists i :: 0 <= i < |ts| && ts[i].taskId == id && Ready(ts[i], now)
  {
    var cs := Candidates(ts, now);
    CandidatesDistinct(ts, now);
    PermutationKeepsDistinct(cs, ordered);
    forall id: Id
      ensures id in Ids(ordered) <==> exists i :: 0 <= i < |ts| && ts[i].taskId == id && Ready(ts[i], now)
    {
      if id in Ids(ordered) {
        var k :| 0 <= k < |ordered| && ordered[k].id == id;
        PermutationKeepsMembers(cs, ordered, ordered[k]);
        CandidateIsReadyTask(ts, now, ordered[k]);
      }
      forall i | 0 <= i < |ts| && ts[i].taskId == id && Ready(ts[i], now)
        ensures id in Ids(ordered)
      {
        var c := ToCandidate(ts[i]);
        CandidateIsReadyTask(ts, now, c);
        PermutationKeepsMembers(cs, ordered, c);
        var k :| 0 <= k < |ordered| && ordered[k] == c;
        assert Ids(ordered)[k] == id;
      }
    }
  }

  // ------------------------------------------------------------------ once per pick

  /** The two selectors that start their search at the largest value cannot see a task whose
      key equals it. */
  predicate Visible(policy: Policy, c: Candidate) {
    policy == PriorityBased || policy == RoundRobin || Key(policy, c) < REP_MAX
  }

  ghost predicate Eligible(policy: Policy, t: Task, now: int) {
    Ready(t, now) && Visible(policy, ToCandidate(t))
  }

  /** The first task of the traversal whose key is least among the eligible ones, or 0. */
  ghost predicate Picked(policy: Policy, ts: seq<Task>, now: int, id: Id) {
    if exists i :: 0 <= i < |ts| && Eligible(policy, ts[i], now)
    then exists i :: 0 <= i < |ts| && FirstLeast(policy, ts, now, i) && id == ts[i].taskId
    else id == 0
  }

  ghost predicate FirstLeast(policy: Policy, ts: seq<Task>, now: int, i: nat)
    requires i < |ts|
  {
    && Eligible(policy, ts[i], now)
    && forall j :: 0 <= j < |ts| && Eligible(policy, ts[j], now) ==>
         var mine, other := Key(policy, ToCandidate(ts[i])), Key(policy, ToCandidate(ts[j]));
         if j < i then mine < other else mine <= other
  }

  method SchedulePriorityBased(ts: seq<Task>, now: int) returns (id: Id)
    ensures Picked(PriorityBased, ts, now, id)
  {
    id := 0;
    var highest, found := Idle, false;
    ghost var best := 0;
    var i := 0;
    while i < |ts|
      invariant 0 <= i <= |ts|
      invariant found <==> exists j :: 0 <= j < i && Eligible(PriorityBased, ts[j], now)
      invariant !found ==> id == 0
      invariant found ==> 0 <= best < i && id == ts[best].taskId && highest == ts[best].constraints.priority
      invariant found ==> FirstLeast(PriorityBased, ts[..i], now, best)
    {
      assert ts[..i + 1] == ts[..i] + [ts[i]];
      if Ready(ts[i], now) {
        assert Eligible(PriorityBased, ts[i], now);
        if !found || Raw(ts[i].constraints.priority) < Raw(highest) {
          highest, id, found, best := ts[i].constraints.priority, ts[i].taskId, true, i;
        }
      }
      i := i + 1;
    }
    assert ts[..i] == ts;
  }

  method ScheduleEarliestDeadlineFirst(ts: seq<Task>, now: int) returns (id: Id)
    ensures Picked(EarliestDeadlineFirst, ts, now, id)
  {
    id := 0;
    var earliest := REP_MAX;
    ghost var best, found := 0, false;
    var i := 0;
    while i < |ts|
      invariant 0 <= i <= |ts|
      invariant found <==> exists j :: 0 <= j < i && Eligible(EarliestDeadlineFirst, ts[j], now)
      invariant !found ==> id == 0 && earliest == REP_MAX
      invariant found ==> 0 <= best < i && id == ts[best].taskId && earliest == ToCandidate(ts[best]).deadline
      invariant found ==> FirstLeast(EarliestDeadlineFirst, ts[..i], now, best)
    {
      assert ts[..i + 1] == ts[..i] + [ts[i]];
      if Ready(ts[i], now) {
        var deadline := ts[i].nextExecution + Nanos(ts[i].constraints.deadline);
        if deadline < earliest {
          assert Eligible(EarliestDeadlineFirst, ts[i], now);
          earliest, id, best, found := deadline, ts[i].taskId, i, true;
        }
      }
      i := i + 1;
    }
    assert ts[..i] == ts;
  }

  method ScheduleRateMonotonic(ts: seq<Task>, now: int) returns (id: Id)
    ensures Picked(RateMonotonic, ts, now, id)
  {
    id := 0;
    var shortest := REP_MAX;
    ghost var best, found := 0, false;
    var i := 0;
    while i < |ts|
      invariant 0 <= i <= |ts|
      invariant found <==> exists j :: 0 <= j < i && Eligible(RateMonotonic, ts[j], now)
      invariant !found ==> id == 0 && shortest == REP_MAX
      invariant found ==> 0 <= best < i && id == ts[best].taskId && shortest == ts[best].constraints.period
      invariant found ==> FirstLeast(RateMonotonic, ts[..i], now, best)
    {
      assert ts[..i + 1] == ts[..i] + [ts[i]];
      if Ready(ts[i], now) {
        if ts[i].constraints.period < shortest {
          assert Eligible(RateMonotonic, ts[i], now);
          shortest, id, best, found := ts[i].constraints.period, ts[i].taskId, i, true;
        }
      }
      i := i + 1;
    }
    assert ts[..i] == ts;
  }

  /** The cycle's first task and the selector's pick have the same key - unless the least key
      is the largest representable value, when the selector finds nothing at all. */
  lemma HeadMatchesPick(policy: Policy, cursor: Id, ts: seq<Task>, now: int, ordered: seq<Candidate>, id: Id)
    requires policy != RoundRobin
    requires Ordering(policy, cursor, Candidates(ts, now), ordered) && Picked(policy, ts, now, id)
    requires forall i :: 0 <= i < |ts| ==> Key(policy, ToCandidate(ts[i])) <= REP_MAX
    ensures ordered == [] ==> id == 0
    ensures ordered != [] ==>
              ((exists i :: 0 <= i < |ts| && Ready(ts[i], now) && ts[i].taskId == id
                            && Key(policy, ToCandidate(ts[i])) == Key(policy, ordered[0])
                            && FirstLeast(policy, ts, now, i))
               <==> Visible(policy, ordered[0]))
    ensures ordered != [] && !Visible(policy, ordered[0]) ==> id == 0
  {
    if ordered != [] {
      var k := LeastReady(policy, cursor, ts, now, ordered);
      if Visible(policy, ordered[0]) {
        assert Eligible(policy, ts[k], now);
        var i :| 0 <= i < |ts| && FirstLeast(policy, ts, now, i) && id == ts[i].taskId;
        assert Eligible(policy, ts[i], now);
      }
    } else {
      NothingReady(ts, now, ordered);
    }
  }

  /** The cycle's first task is a ready one, and none has a smaller key. */
  lemma LeastReady(policy: Policy, cursor: Id, ts: seq<Task>, now: int, ordered: seq<Candidate>) returns (k: nat)
    requires policy != RoundRobin && ordered != [] && Ordering(policy, cursor, Candidates(ts, now), ordered)
    ensures k < |ts| && Ready(ts[k], now) && ToCandidate(ts[k]) == ordered[0]
    ensures forall i :: 0 <= i < |ts| && Ready(ts[i], now) ==> Key(policy, ordered[0]) <= Key(policy, ToCandidate(ts[i]))
  {
    var cs := Candidates(ts, now);
    forall i | 0 <= i < |ts| && Ready(ts[i], now) ensures Key(policy, ordered[0]) <= Key(policy, ToCandidate(ts[i])) {
      CandidateIsReadyTask(ts, now, ToCandidate(ts[i]));
      PermutationKeepsMembers(cs, ordered, ToCandidate(ts[i]));
    }
    PermutationKeepsMembers(cs, ordered, ordered[0]);
    CandidateIsReadyTask(ts, now, ordered[0]);
    k :| 0 <= k < |ts| && Ready(ts[k], now) && ToCandidate(ts[k]) == ordered[0];
  }

  lemma NothingReady(ts: seq<Task>, now: int, ordered: seq<Candidate>)
    requires ordered == [] && multiset(ordered) == multiset(Candidates(ts, now))
    ensures forall i :: 0 <= i < |ts| ==> !Ready(ts[i], now)
  {
    forall i | 0 <= i < |ts| ensures !Ready(ts[i], now) {
      CandidateIsReadyTask(ts, now, ToCandidate(ts[i]));
      PermutationKeepsMembers(Candidates(ts, now), ordered, ToCandidate(ts[i]));
    }
  }

  // ------------------------------------------------- which way priorities count

  /** Task i is ready, and no ready task has a higher priority. */
  ghost predicate MostImportant(ts: seq<Task>, now: int, i: nat)
    requires i < |ts|
  {
    Ready(ts[i], now) && forall j :: 0 <= j < |ts| && Ready(ts[j], now) ==>
      Raw(ts[j].constraints.priority) <= Raw(ts[i].constraints.priority)
  }

  ghost predicate OnePriority(ts: seq<Task>, now: int) {
    forall i, j :: 0 <= i < |ts| && 0 <= j < |ts| && Ready(ts[i], now) && Ready(ts[j], now) ==>
      ts[i].constraints.priority == ts[j].constraints.priority
  }

  lemma RawIsInjective(p: Priority, q: Priority)
    ensures Raw(p) == Raw(q) <==> p == q
  {
  }

  /** The selector prefers lower raw values, and those are the lower priorities: its pick is a
      most important ready task if and only if all ready tasks have one priority. */
  lemma PickIsMostImportantIffOnePriority(ts: seq<Task>, now: int, id: Id)
    requires Distinct(ts) && Picked(PriorityBased, ts, now, id)
    requires exists i :: 0 <= i < |ts| && Ready(ts[i], now)
    ensures (exists i :: 0 <= i < |ts| && ts[i].taskId == id && MostImportant(ts, now, i)) <==> OnePriority(ts, now)
  {
    var r :| 0 <= r < |ts| && Ready(ts[r], now);
    assert Eligible(PriorityBased, ts[r], now);
    var best :| 0 <= best < |ts| && FirstLeast(PriorityBased, ts, now, best) && id == ts[best].taskId;
    forall j | 0 <= j < |ts| && Ready(ts[j], now)
      ensures Raw(ts[best].constraints.priority) <= Raw(ts[j].constraints.priority)
      ensures Raw(ts[j].constraints.priority) == Raw(ts[best].constraints.priority)
              <==> ts[j].constraints.priority == ts[best].constraints.priority
    {
      assert Eligible(PriorityBased, ts[j], now);
      RawIsInjective(ts[j].constraints.priority, ts[best].constraints.priority);
    }
    if OnePriority(ts, now) {
      assert MostImportant(ts, now, best);
    }
  }

  /** So does the cycle: it starts with a most important task under the same condition, and
      otherwise leaves the most important ones to its end. */
  lemma CycleStartsWithMostImportantIffOnePriority(ts: seq<Task>, now: int, cursor: Id, ordered: seq<Candidate>)
    requires Ordering(PriorityBased, cursor, Candidates(ts, now), ordered) && ordered != []
    ensures (forall c :: c in ordered ==> Raw(c.priority) <= Raw(ordered[0].priority)) <==> OnePriority(ts, now)
    ensures forall c :: c in ordered ==> Raw(c.priority) <= Raw(ordered[|ordered| - 1].priority)
  {
    var cs := Candidates(ts, now);
    forall c ensures c in ordered <==> exists i :: 0 <= i < |ts| && Ready(ts[i], now) && ToCandidate(ts[i]) == c {
      PermutationKeepsMembers(cs, ordered, c);
      CandidateIsReadyTask(ts, now, c);
    }
    forall c | c in ordered
      ensures Key(PriorityBased, ordered[0]) <= Key(PriorityBased, c) <= Key(PriorityBased, ordered[|ordered| - 1])
    {
    }
    forall i | 0 <= i < |ts| && Ready(ts[i], now)
      ensures ToCandidate(ts[i]) in ordered
      ensures Raw(ts[i].constraints.priority) == Raw(ordered[0].priority)
              <==> ts[i].constraints.priority == ordered[0].priority
    {
      RawIsInjective(ts[i].constraints.priority, ordered[0].priority);
    }
    assert ordered[0] in ordered;
  }

  function ReadyTask(id: Id, priority: Priority): Task {
    Task(id, id, Constraints(1000, 1000, priority), 0, 0, true, false, false, 0, 0)
  }

  lemma BothAreCandidates(a: Task, b: Task, now: int)
    requires Ready(a, now) && Ready(b, now)
    ensures Candidates([a, b], now) == [ToCandidate(a), ToCandidate(b)]
  {
    CandidatesAppend([a], [b], now);
    assert [a] + [b] == [a, b];
    assert Candidates([a], now) == [ToCandidate(a)] && Candidates([b], now) == [ToCandidate(b)];
  }

  /** The pair in sorted order. */
  lemma SortedPair(key: Candidate -> int, pair: seq<Candidate>, ordered: seq<Candidate>, first: Candidate, second: Candidate)
    requires pair == [first, second] || pair == [second, first]
    requires multiset(ordered) == multiset(pair) && SortedBy(key, ordered) && key(first) < key(second)
    ensures ordered == [first, second]
  {
    assert |ordered| == |multiset(ordered)| == |multiset(pair)| == 2;
    PermutationKeepsMembers(pair, ordered, first);
    PermutationKeepsMembers(pair, ordered, second);
  }

  lemma IdlePicked(a: Task, b: Task, id: Id)
    requires (a == ReadyTask(1, Critical) && b == ReadyTask(2, Idle)) || (a == ReadyTask(2, Idle) && b == ReadyTask(1, Critical))
    requires Picked(PriorityBased, [a, b], 0, id)
    ensures id == 2
  {
    var ts := [a, b];
    assert Eligible(PriorityBased, ts[0], 0) && Eligible(PriorityBased, ts[1], 0);
    var i :| 0 <= i < |ts| && FirstLeast(PriorityBased, ts, 0, i) && id == ts[i].taskId;
  }

  lemma IdleSorted(pair: seq<Candidate>, idle: Candidate, critical: Candidate, cursor: Id, ordered: seq<Candidate>)
    requires idle == ToCandidate(ReadyTask(2, Idle)) && critical == ToCandidate(ReadyTask(1, Critical))
    requires pair == [idle, critical] || pair == [critical, idle]
    requires Ordering(PriorityBased, cursor, pair, ordered)
    ensures ordered == [idle, critical]
  {
    SortedPair(KeyOf(PriorityBased), pair, ordered, idle, critical);
  }

  lemma IdleOrdered(a: Task, b: Task, cursor: Id, ordered: seq<Candidate>)
    requires (a == ReadyTask(1, Critical) && b == ReadyTask(2, Idle)) || (a == ReadyTask(2, Idle) && b == ReadyTask(1, Critical))
    requires Ordering(PriorityBased, cursor, Candidates([a, b], 0), ordered)
    ensures ordered == [ToCandidate(ReadyTask(2, Idle)), ToCandidate(ReadyTask(1, Critical))]
  {
    BothAreCandidates(a, b, 0);
    IdleSorted(Candidates([a, b], 0), ToCandidate(ReadyTask(2, Idle)), ToCandidate(ReadyTask(1, Critical)), cursor, ordered);
  }

  /** A ready task of the highest priority loses to a ready one of the lowest, in either order
      of the traversal, both in the selector and in the cycle. */
  lemma IdleGoesBeforeCritical(a: Task, b: Task, id: Id, cursor: Id, ordered: seq<Candidate>)
    requires (a == ReadyTask(1, Critical) && b == ReadyTask(2, Idle)) || (a == ReadyTask(2, Idle) && b == ReadyTask(1, Critical))
    requires Picked(PriorityBased, [a, b], 0, id)
    requires Ordering(PriorityBased, cursor, Candidates([a, b], 0), ordered)
    ensures id == 2 && Ids(ordered) == [2, 1]
  {
    IdlePicked(a, b, id);
    IdleOrdered(a, b, cursor, ordered);
  }

  // -------------------------------------------------------------------- round robin

  /** The first ready task at or after position `from`, or the length. */
  function FirstReady(ts: seq<Task>, now: int, from: nat): (i: nat)
    requires from <= |ts|
    ensures from <= i <= |ts| && (i < |ts| ==> Ready(ts[i], now))
    ensures forall j :: from <= j < i ==> !Ready(ts[j], now)
    decreases |ts| - from
  {
    if from == |ts| || Ready(ts[from], now) then from else FirstReady(ts, now, from + 1)
  }

  function Position(ts: seq<Task>, id: Id): (p: nat)
    ensures p <= |ts| && (p < |ts| ==> ts[p].taskId == id)
    ensures forall j :: 0 <= j < p ==> ts[j].taskId != id
  {
    if ts == [] || ts[0].taskId == id then 0 else 1 + Position(ts[1..], id)
  }

  /** Where the per-pick search ends: after the cursor, then from the beginning. */
  function RoundRobinPick(ts: seq<Task>, now: int, cursor: Id): (i: nat)
    ensures i <= |ts|
  {
    var p := Position(ts, cursor);
    if p < |ts| && FirstReady(ts, now, p + 1) < |ts| then FirstReady(ts, now, p + 1) else FirstReady(ts, now, 0)
  }

  method ScheduleRoundRobin(ts: seq<Task>, now: int, cursor: Id) returns (id: Id, cursor': Id)
    ensures var i := RoundRobinPick(ts, now, cursor);
            if i < |ts| then id == cursor' == ts[i].taskId else id == 0 && cursor' == cursor
  {
    var n, p := |ts|, Position(ts, cursor);
    var start := if p < n then p + 1 else 0;
    var it, i := start, 0;
    while i < n
      invariant 0 <= i <= n && 0 <= it <= n
      invariant it == if start + i <= n then start + i else start + i - n
      invariant forall j :: start <= j < n && j < start + i ==> !Ready(ts[j], now)
      invariant forall j :: 0 <= j < start + i - n ==> !Ready(ts[j], now)
    {
      if it == n {
        it := 0;
      }
      if Ready(ts[it], now) {
        assert it == RoundRobinPick(ts, now, cursor);
        return ts[it].taskId, ts[it].taskId;
      }
      it := it + 1;
      i := i + 1;
    }
    id, cursor' := 0, cursor;
  }

  lemma {:induction false} FirstCandidate(ts: seq<Task>, now: int, from: nat)
    requires from <= |ts|
    ensures var cs := Candidates(ts[from..], now);
            var i := FirstReady(ts, now, from);
            if i < |ts| then cs != [] && cs[0] == ToCandidate(ts[i]) else cs == []
    decreases |ts| - from
  {
    if from < |ts| && !Ready(ts[from], now) {
      assert ts[from..][1..] == ts[from + 1..];
      FirstCandidate(ts, now, from + 1);
    }
  }

  lemma {:induction false} NotCandidate(ts: seq<Task>, now: int, id: Id)
    requires forall i :: 0 <= i < |ts| ==> Ready(ts[i], now) ==> ts[i].taskId != id
    ensures IndexOf(Candidates(ts, now), id) == |Candidates(ts, now)|
  {
    var cs := Candidates(ts, now);
    var k := IndexOf(cs, id);
    if k < |cs| {
      assert cs[k] in cs;
      CandidateIsReadyTask(ts, now, cs[k]);
    }
  }

  /** A ready cursor task splits the candidates at its own entry. */
  lemma SplitAtCursor(ts: seq<Task>, now: int, p: nat)
    requires Distinct(ts) && p < |ts| && Ready(ts[p], now)
    ensures RotatedPast(Candidates(ts, now), ts[p].taskId)
         == Candidates(ts[p + 1..], now) + (Candidates(ts[..p], now) + [ToCandidate(ts[p])])
  {
    var before, after, cursor := Candidates(ts[..p], now), Candidates(ts[p + 1..], now), ToCandidate(ts[p]);
    var cs := Candidates(ts, now);
    assert ts == ts[..p] + ts[p..] && ts[p..][1..] == ts[p + 1..];
    CandidatesAppend(ts[..p], ts[p..], now);
    assert cs == before + ([cursor] + after);
    CandidatesDistinct(ts, now);
    assert cs[|before|] == cursor;
    var i := IndexOf(cs, cursor.id);
    assert i == |before|;
    assert cs[i + 1..] == after && cs[..i + 1] == before + [cursor];
  }

  /** The cursor's task is registered but not ready, with ready tasks on both sides of it. */
  predicate CursorLostItsTurn(ts: seq<Task>, now: int, cursor: Id) {
    var p := Position(ts, cursor);
    && p < |ts| && !Ready(ts[p], now)
    && FirstReady(ts, now, 0) < p && FirstReady(ts, now, p + 1) < |ts|
  }

  /** The cycle starts with the very task the per-pick search would choose, exactly unless the
      cursor's task is registered, not ready, and has ready tasks before and after it: the
      cycle then starts from the beginning, the search after the cursor. */
  lemma RoundRobinHeadMatchesPick(ts: seq<Task>, now: int, cursor: Id, ordered: seq<Candidate>)
    requires Distinct(ts) && Ordering(RoundRobin, cursor, Candidates(ts, now), ordered)
    ensures ordered == [] <==> RoundRobinPick(ts, now, cursor) == |ts|
    ensures ordered != [] ==>
              (ordered[0].id == ts[RoundRobinPick(ts, now, cursor)].taskId
               <==> !CursorLostItsTurn(ts, now, cursor))
  {
    var h := CycleHead(ts, now, cursor, ordered);
    SameTaskSameIndex(ts, h, RoundRobinPick(ts, now, cursor));
  }

  /** A task that becomes ready at the given time. */
  function WaitingTask(id: Id, next: int): Task {
    ReadyTask(id, Normal).(nextExecution := next)
  }

  /** A concrete case: the cursor stands on task 2, which is not ready yet, between the ready
      tasks 1 and 3. The search goes on to task 3, the cycle starts over with task 1. */
  lemma CursorTaskNotReady(ordered: seq<Candidate>)
    requires Ordering(RoundRobin, 2, Candidates([WaitingTask(1, 0), WaitingTask(2, 5), WaitingTask(3, 0)], 0), ordered)
    ensures var ts := [WaitingTask(1, 0), WaitingTask(2, 5), WaitingTask(3, 0)];
            ts[RoundRobinPick(ts, 0, 2)].taskId == 3 && Ids(ordered) == [1, 3]
  {
    var ts := [WaitingTask(1, 0), WaitingTask(2, 5), WaitingTask(3, 0)];
    assert ts[1..] == [WaitingTask(2, 5), WaitingTask(3, 0)];
    assert ts[1..][1..] == [WaitingTask(3, 0)];
    assert Candidates(ts[1..][1..], 0) == [ToCandidate(ts[2])];
    assert Candidates(ts, 0) == [ToCandidate(ts[0]), ToCandidate(ts[2])];
    assert Position(ts, 2) == 1 && FirstReady(ts, 0, 2) == 2;
    NotCandidate(ts, 0, 2);
  }

  lemma SameTaskSameIndex(ts: seq<Task>, i: nat, j: nat)
    requires Distinct(ts) && i <= |ts| && j <= |ts|
    ensures i < |ts| && j < |ts| ==> (ts[i].taskId == ts[j].taskId <==> i == j)
  {
  }

  /** Where the cycle's first task stands in the traversal. */
  lemma CycleHead(ts: seq<Task>, now: int, cursor: Id, ordered: seq<Candidate>) returns (h: nat)
    requires Distinct(ts) && Ordering(RoundRobin, cursor, Candidates(ts, now), ordered)
    ensures h <= |ts| && (ordered == [] <==> h == |ts|)
    ensures ordered != [] ==> ordered[0].id == ts[h].taskId
    ensures var p := Position(ts, cursor);
            h == if p < |ts| && Ready(ts[p], now) then RoundRobinPick(ts, now, cursor) else FirstReady(ts, now, 0)
  {
    var p := Position(ts, cursor);
    h := FirstReady(ts, now, 0);
    if p < |ts| && Ready(ts[p], now) {
      h := ReadyCursorHead(ts, now, p);
    } else {
      CandidatesFromStart(ts, now);
      NotCandidate(ts, now, cursor);
      assert ordered == Candidates(ts, now);
    }
  }

  lemma CandidatesFromStart(ts: seq<Task>, now: int)
    ensures var cs, i := Candidates(ts, now), FirstReady(ts, now, 0);
            if i < |ts| then cs != [] && cs[0] == ToCandidate(ts[i]) else cs == []
  {
    assert ts[0..] == ts;
    FirstCandidate(ts, now, 0);
  }

  lemma FirstReadyOfPrefix(ts: seq<Task>, now: int, p: nat)
    requires p < |ts| && Ready(ts[p], now)
    ensures FirstReady(ts[..p], now, 0) == FirstReady(ts, now, 0)
  {
  }

  lemma ReadyCursorHead(ts: seq<Task>, now: int, p: nat) returns (h: nat)
    requires Distinct(ts) && p < |ts| && Ready(ts[p], now)
    ensures h == if FirstReady(ts, now, p + 1) < |ts| then FirstReady(ts, now, p + 1) else FirstReady(ts, now, 0)
    ensures h < |ts|
    ensures var r := RotatedPast(Candidates(ts, now), ts[p].taskId); r != [] && r[0] == ToCandidate(ts[h])
  {
    SplitAtCursor(ts, now, p);
    FirstCandidate(ts, now, p + 1);
    var i := FirstReady(ts, now, p + 1);
    var before, after := Candidates(ts[..p], now), Candidates(ts[p + 1..], now);
    h := if i < |ts| then i else FirstReady(ts, now, 0);
    if i == |ts| {
      FirstReadyOfPrefix(ts, now, p);
      CandidatesFromStart(ts[..p], now);
    }
    HeadOfConcat(after, before, ToCandidate(ts[p]));
  }

  lemma HeadOfConcat(after: seq<Candidate>, before: seq<Candidate>, c: Candidate)
    ensures (after + (before + [c]))[0] == if after != [] then after[0] else if before != [] then before[0] else c
  {
  }
}
