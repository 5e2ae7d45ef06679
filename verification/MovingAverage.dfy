/** The moving-average unit: an exact running sum over a ring of the last samples, over the reals. */
module MovingAverage {
  import opened SlidingWindow

  function Sum(xs: seq<real>): real {
    if xs == [] then 0.0 else Sum(xs[..|xs| - 1]) + xs[|xs| - 1]
  }

  lemma SumSnoc(xs: seq<real>, x: real)
    ensures Sum(xs + [x]) == Sum(xs) + x
  {
    assert (xs + [x])[..|xs|] == xs;
  }

  lemma {:induction false} SumWithoutFirst(xs: seq<real>)
    requires xs != []
    ensures Sum(xs[1..]) == Sum(xs) - xs[0]
  {
    var n := |xs| - 1;
    if n == 0 {
      assert xs[..0] == [] && xs[1..] == [];
    } else {
      SumWithoutFirst(xs[..n]);
      assert xs[..n][1..] == xs[1..][..n - 1];
    }
  }

  /** The mean of the last `window` inputs of a history; an empty window has none. */
  function WindowMean(history: seq<real>, window: nat): real {
    var w := LastN(history, window);
    if w == [] then 0.0 else Sum(w) / |w| as real
  }

  /** The ring holds the window of the history, and the running sum is its sum. */
  ghost predicate IsRunning(slots: seq<real>, head: nat, filled: nat, sum: real, history: seq<real>) {
    |slots| > 0 ==>
      && IsWindow(slots, head, filled, |slots|, history)
      && (filled < |slots| ==> head == filled)
      && sum == Sum(LastN(history, |slots|))
  }

  function Following(head: nat, size: nat): nat {
    if head + 1 == size then 0 else head + 1
  }

  lemma {:induction false} FillStep(slots: seq<real>, head: nat, filled: nat, sum: real, history: seq<real>, x: real)
    requires |slots| > 0 && IsRunning(slots, head, filled, sum, history) && filled < |slots|
    ensures IsRunning(slots[head := x], Following(head, |slots|), filled + 1, sum + x, history + [x])
  {
    WindowMoves(history, x, |slots|);
    FillKeepsWindow(slots, head, Following(head, |slots|), filled, |slots|, history, x);
    SumSnoc(LastN(history, |slots|), x);
  }

  lemma {:induction false} OverwriteStep(slots: seq<real>, head: nat, filled: nat, sum: real, history: seq<real>, x: real)
    requires |slots| > 0 && IsRunning(slots, head, filled, sum, history) && filled == |slots|
    ensures IsRunning(slots[head := x], Following(head, |slots|), filled, sum + (x - slots[head]), history + [x])
  {
    WindowMoves(history, x, |slots|);
    NextHead(head, |slots|);
    OverwriteKeepsWindow(slots, head, |slots|, history, x);
    SumWithoutFirst(LastN(history, |slots|));
    SumSnoc(LastN(history, |slots|)[1..], x);
  }

  /** What one tick makes of the ring. */
  lemma {:induction false} Ticked(slots: seq<real>, head: nat, filled: nat, sum: real, history: seq<real>, x: real)
    requires |slots| > 0 && IsRunning(slots, head, filled, sum, history)
    ensures head < |slots| && filled <= |slots|
    ensures IsRunning(slots[head := x], Following(head, |slots|), if filled < |slots| then filled + 1 else filled,
                      if filled < |slots| then sum + x else sum + (x - slots[head]), history + [x])
  {
    if filled < |slots| {
      FillStep(slots, head, filled, sum, history, x);
    } else {
      OverwriteStep(slots, head, filled, sum, history, x);
    }
  }

  /** The running sum over the number of samples is the mean. */
  lemma {:induction false} RunningMean(slots: seq<real>, head: nat, filled: nat, sum: real, history: seq<real>)
    requires |slots| > 0 && IsRunning(slots, head, filled, sum, history) && filled > 0
    ensures sum / filled as real == WindowMean(history, |slots|)
  {
  }

  class Unit {
    const samples: array<real>
    var head: nat
    var filled: nat
    var runningSum: real
    ghost var history: seq<real>      // the inputs since the last reset

    ghost predicate Valid()
      reads this, samples
    {
      IsRunning(samples[..], head, filled, runningSum, history)
    }

    constructor (window: nat)
      ensures Valid() && fresh(samples) && samples.Length == window && history == []
    {
      samples := new real[window](_ => 0.0);
      head, filled, runningSum, history := 0, 0, 0.0, [];
    }

    /** Forgets the inputs so far; initialize and reset both do this. */
    method Reset()
      modifies this, samples
      ensures Valid() && history == []
    {
      forall i | 0 <= i < samples.Length {
        samples[i] := 0.0;
      }
      head, filled, runningSum, history := 0, 0, 0.0, [];
    }

    /** One tick. The output is the exact mean of the last inputs, as many as came and fit the
        window; an empty window always gives 0. */
    method ProcessSync(value: real) returns (out: real)
      requires Valid()
      modifies this, samples
      ensures Valid() && history == old(history) + [value]
      ensures out == WindowMean(history, samples.Length)
    {
      if samples.Length == 0 {
        history := history + [value];
        return 0.0;
      }
      TakeIn(value);
      out := Output();
    }

    /** Puts one input into the ring and into the running sum. */
    method TakeIn(value: real)
      requires Valid() && samples.Length > 0
      modifies this, samples
      ensures Valid() && filled > 0 && history == old(history) + [value]
    {
      ghost var slots := samples[..];
      Ticked(slots, head, filled, runningSum, history, value);
      var next := NextPlace(head, samples.Length);
      var sum, count := runningSum + value, filled + 1;
      if filled == samples.Length {
        sum, count := runningSum + (value - samples[head]), filled;
      }
      Put(value);
      head, filled, runningSum, history := next, count, sum, history + [value];
    }

    method Put(value: real)
      requires head < samples.Length
      modifies samples
      ensures samples[..] == old(samples[..])[head := value]
    {
      samples[head] := value;
    }

    /** The running sum over the number of samples. */
    method Output() returns (out: real)
      requires Valid() && samples.Length > 0 && filled > 0
      ensures out == WindowMean(history, samples.Length)
    {
      RunningMean(samples[..], head, filled, runningSum, history);
      out := runningSum / filled as real;
    }
  }

  method NextPlace(head: nat, size: nat) returns (next: nat)
    requires head < size
    ensures next == Following(head, size)
  {
    next := (head + 1) % size;
    NextHead(head, size);
  }
}
