/** The scheduler's execution statistics: counters, extremes, and a running average that is
rounded at every step and divides by all executions, failed ones included. */
module SchedulerStatistics {
  import opened Arithmetic

  /** Durations are whole microseconds. */
  datatype Execution = Execution(success: bool, duration: nat)

  const NO_MINIMUM: nat := 0x7FFF_FFFF_FFFF_FFFF

  datatype Stats = Stats(
    total: nat, successes: nat, failures: nat, time: nat, average: nat, min: nat, max: nat)

  function Empty(): Stats {
    Stats(0, 0, 0, 0, 0, NO_MINIMUM, 0)
  }

  /** The statistics after one more execution. */
  function Counted(s: Stats, e: Execution): Stats {
    var total := s.total + 1;
    if !e.success then s.(total := total, failures := s.failures + 1, time := s.time + e.duration)
    else Stats(total, s.successes + 1, s.failures, s.time + e.duration,
               (s.average * s.total + e.duration) / total,
               if total == 1 || e.duration < s.min then e.duration else s.min,
               if total == 1 || e.duration > s.max then e.duration else s.max)
  }

  function After(history: seq<Execution>): Stats {
    if history == [] then Empty() else Counted(After(history[..|history| - 1]), history[|history| - 1])
  }

  lemma FirstAverage(average: nat, duration: nat)
    ensures (average * 0 + duration) / 1 == duration
  {
  }

  class Statistics {
    var totalExecutions: nat
    var successfulExecutions: nat
    var failedExecutions: nat
    var totalExecutionTime: nat
    var averageExecutionTime: nat
    var minExecutionTime: nat
    var maxExecutionTime: nat

    ghost function Contents(): Stats
      reads this
    {
      Stats(totalExecutions, successfulExecutions, failedExecutions, totalExecutionTime,
            averageExecutionTime, minExecutionTime, maxExecutionTime)
    }

    constructor ()
      ensures Contents() == Empty()
    {
      totalExecutions, successfulExecutions, failedExecutions := 0, 0, 0;
      totalExecutionTime, averageExecutionTime := 0, 0;
      minExecutionTime, maxExecutionTime := NO_MINIMUM, 0;
    }

    method UpdateGlobalStatistics(success: bool, duration: nat)
      modifies this
      ensures Contents() == Counted(old(Contents()), Execution(success, duration))
    {
      var before := totalExecutions;
      var total := before + 1;
      totalExecutions := total;
      totalExecutionTime := totalExecutionTime + duration;
      if success {
        successfulExecutions := successfulExecutions + 1;
        if total == 1 {
          averageExecutionTime := duration;
          minExecutionTime := duration;
          maxExecutionTime := duration;
          FirstAverage(old(averageExecutionTime), duration);
        } else {
          averageExecutionTime := (averageExecutionTime * before + duration) / total;
          if duration < minExecutionTime {
            minExecutionTime := duration;
          }
          if duration > maxExecutionTime {
            maxExecutionTime := duration;
          }
        }
      } else {
        failedExecutions := failedExecutions + 1;
      }
    }
  }

  // ---------------------------------------------------------------------- drift

  /** The time of the successes, with each failed execution counted at the average then standing. */
  function Imputed(history: seq<Execution>): nat {
    if history == [] then 0
    else
      var before, last := history[..|history| - 1], history[|history| - 1];
      Imputed(before) + if last.success then last.duration else After(before).average
  }

  function Halves(n: nat): nat {
    n * (n - 1) / 2
  }

  lemma HalvesStep(n: nat)
    ensures Halves(n + 1) == Halves(n) + n
  {
    assert (n + 1) * n == n * (n - 1) + 2 * n;
  }

  /** One rounding more. */
  lemma DriftStep(imputed: nat, n: nat, a: nat, x: nat, drift: nat)
    requires 0 <= imputed - n * a <= drift
    ensures 0 <= imputed + x - (n + 1) * ((a * n + x) / (n + 1)) <= drift + n
  {
    DivisionBounds(a * n + x, n + 1);
  }

  /** Rounding loses at most 0 + 1 + ... + (n - 1) in all: the average of n executions lies
      between the exact one, failures imputed, and (n - 1) / 2 below it. */
  lemma {:induction false} AverageDrift(history: seq<Execution>)
    ensures After(history).total == |history|
    ensures 0 <= Imputed(history) - |history| * After(history).average <= Halves(|history|)
  {
    if history != [] {
      var n := |history| - 1;
      var before, last := history[..n], history[n];
      AverageDrift(before);
      HalvesStep(n);
      var a := After(before).average;
      if last.success {
        DriftStep(Imputed(before), n, a, last.duration, Halves(n));
      } else {
        OneMoreOf(n, a);
      }
    }
  }

  predicate AllSucceed(history: seq<Execution>) {
    forall i :: 0 <= i < |history| ==> history[i].success
  }

  /** Over n successful executions with total time S: S/n - (n - 1)/2 <= average <= S/n. */
  lemma {:induction false} SuccessfulAverageDrift(history: seq<Execution>)
    requires AllSucceed(history)
    ensures var n, s := |history|, After(history);
            n * s.average <= s.time <= n * s.average + Halves(n)
  {
    ImputedIsTime(history);
    AverageDrift(history);
  }

  lemma {:induction false} ImputedIsTime(history: seq<Execution>)
    requires AllSucceed(history)
    ensures Imputed(history) == After(history).time
  {
    if history != [] {
      ImputedIsTime(history[..|history| - 1]);
    }
  }

  // -------------------------------------------------------------------- extremes

  predicate InRange(s: Stats) {
    s.min <= s.average <= s.max
  }

  /** Every prefix with a success in it has its average between the extremes. */
  ghost predicate AlwaysInRange(history: seq<Execution>) {
    forall k :: 0 <= k <= |history| && After(history[..k]).successes > 0 ==> InRange(After(history[..k]))
  }

  /** The index of the first success, or the length. */
  function FirstSuccess(history: seq<Execution>): (i: nat)
    ensures i <= |history| && (i < |history| ==> history[i].success)
    ensures forall j :: 0 <= j < i ==> !history[j].success
  {
    if history == [] || history[0].success then 0 else 1 + FirstSuccess(history[1..])
  }

  /** After failures only, nothing has been averaged. */
  lemma {:induction false} OnlyFailures(history: seq<Execution>)
    requires forall i :: 0 <= i < |history| ==> !history[i].success
    ensures var s := After(history);
            s.total == |history| && s.successes == 0 && s.average == 0 && s.min == NO_MINIMUM && s.max == 0
  {
    if history != [] {
      OnlyFailures(history[..|history| - 1]);
    }
  }

  /** The rounded mean of a value in range and a new one lies between the new extremes. */
  lemma MeanInRange(average: nat, n: nat, x: nat, lo: nat, hi: nat)
    requires lo <= average <= hi && lo <= x <= hi
    ensures lo <= (average * n + x) / (n + 1) <= hi
  {
    ProductOrder(lo, average, n);
    ProductOrder(average, hi, n);
    OneMoreOf(n, lo);
    OneMoreOf(n, hi);
    QuotientBounds(average * n + x, n + 1, lo, hi);
  }

  lemma StaysInRange(s: Stats, e: Execution)
    requires s.total > 0 && InRange(s)
    ensures InRange(Counted(s, e))
  {
    if e.success {
      var c := Counted(s, e);
      MeanInRange(s.average, s.total, e.duration, c.min, c.max);
    }
  }

  /** The statistics right after the first success, which follows k failures. */
  lemma FirstSuccessCounted(s: Stats, e: Execution)
    requires s.successes == 0 && s.average == 0 && s.min == NO_MINIMUM && s.max == 0 && e.success
    requires e.duration < NO_MINIMUM
    ensures InRange(Counted(s, e)) <==> s.total == 0 || e.duration == 0
  {
    var c := Counted(s, e);
    DivisionBounds(e.duration, s.total + 1);
    assert c.min == c.max == e.duration && c.average == e.duration / (s.total + 1);
    if s.total > 0 {
      ProductOrder(2, s.total + 1, c.average);
    }
  }

  lemma {:induction false} InRangeFromFirst(history: seq<Execution>, i: nat, k: nat)
    requires i < k <= |history| && InRange(After(history[..i + 1]))
    ensures InRange(After(history[..k])) && After(history[..k]).total == k
    decreases k
  {
    AverageDrift(history[..k]);
    if k > i + 1 {
      InRangeFromFirst(history, i, k - 1);
      assert history[..k][..k - 1] == history[..k - 1];
      StaysInRange(After(history[..k - 1]), history[k - 1]);
    }
  }

  lemma {:induction false} SuccessesCount(history: seq<Execution>, k: nat)
    requires k <= |history|
    ensures After(history[..k]).successes > 0 <==> k > FirstSuccess(history)
  {
    if k > 0 {
      SuccessesCount(history, k - 1);
      assert history[..k][..k - 1] == history[..k - 1];
    }
  }

  /** At every moment from the first success on the average lies between the reported minimum and
      maximum, exactly if the very first execution succeeded or the first success took less than
      a microsecond: a failure before it drags the average below the minimum. */
  lemma AverageBetweenExtremes(history: seq<Execution>)
    requires forall i :: 0 <= i < |history| ==> history[i].duration < NO_MINIMUM
    ensures AlwaysInRange(history) <==>
              var i := FirstSuccess(history);
              i == |history| || i == 0 || history[i].duration == 0
  {
    var i := FirstSuccess(history);
    if i < |history| {
      OnlyFailures(history[..i]);
      assert history[..i + 1][..i] == history[..i];
      FirstSuccessCounted(After(history[..i]), history[i]);
      SuccessesCount(history, i + 1);
    }
    forall k | 0 <= k <= |history| && After(history[..k]).successes > 0
                && InRange(After(history[..i + (if i < |history| then 1 else 0)]))
      ensures InRange(After(history[..k]))
    {
      SuccessesCount(history, k);
      InRangeFromFirst(history, i, k);
    }
    if i == |history| {
      forall k | 0 <= k <= |history| ensures After(history[..k]).successes == 0 {
        SuccessesCount(history, k);
      }
    }
  }

  /** The shortest such history: one failure, then a success of one microsecond. */
  lemma FailureDragsAverageDown()
    ensures var s := After([Execution(false, 5), Execution(true, 1)]);
            s.average == 0 && s.min == 1 && s.max == 1
  {
    var h := [Execution(false, 5), Execution(true, 1)];
    assert h[..1] == [Execution(false, 5)];
    assert After(h[..1]) == Stats(1, 0, 1, 5, 0, NO_MINIMUM, 0);
  }
}
