/** The connectivity state machine of one cluster (internal/cluster/manager.go). */
module Connectivity {
  import opened Durations

  type Time = int

  datatype State = Unknown | Reachable | Degraded | Unreachable

  datatype Probe = Probe(failed: bool, now: Time)

  /** The number of failed probes at the end of the history. */
  ghost function Streak(h: seq<Probe>): nat {
    if h == [] || !h[|h| - 1].failed then 0 else 1 + Streak(h[..|h| - 1])
  }

  /** When the current run of equal results began. */
  ghost function Since(h: seq<Probe>): Time {
    if h == [] then 0
    else if |h| >= 2 && h[|h| - 2].failed == h[|h| - 1].failed then Since(h[..|h| - 1])
    else h[|h| - 1].now
  }

  ghost function StateAfter(h: seq<Probe>, threshold: int): State {
    if h == [] then Unknown
    else if Streak(h) == 0 then Reachable
    else if Streak(h) >= threshold then Unreachable
    else Degraded
  }

  /** The history ends with k failed probes. */
  ghost predicate EndsFailing(h: seq<Probe>, k: nat) {
    k <= |h| && forall i :: |h| - k <= i < |h| ==> h[i].failed
  }

  lemma {:induction false} StreakReaches(h: seq<Probe>, k: nat)
    requires k >= 1
    ensures Streak(h) >= k <==> EndsFailing(h, k)
  {
    if h != [] && h[|h| - 1].failed && k > 1 {
      var front := h[..|h| - 1];
      StreakReaches(front, k - 1);
      assert EndsFailing(h, k) <==> EndsFailing(front, k - 1);
    }
  }

  /** Unknown before the first probe; reachable exactly after a probe that worked; unreachable exactly after threshold
      failed probes in a row, and at least one. */
  lemma {:induction false} StateMeans(h: seq<Probe>, threshold: int)
    ensures StateAfter(h, threshold).Unknown? <==> h == []
    ensures StateAfter(h, threshold).Reachable? <==> h != [] && !h[|h| - 1].failed
    ensures StateAfter(h, threshold).Unreachable? <==> EndsFailing(h, if threshold < 1 then 1 else threshold)
  {
    StreakReaches(h, if threshold < 1 then 1 else threshold);
  }

  /** The reported time is that of the first probe of the current run of equal results. */
  lemma {:induction false} SinceIsTheFirstOfItsRun(h: seq<Probe>) returns (i: nat)
    requires h != []
    ensures i < |h| && Since(h) == h[i].now && forall j :: i <= j < |h| ==> h[j].failed == h[|h| - 1].failed
    ensures i == 0 || h[i - 1].failed != h[i].failed
  {
    var n := |h| - 1;
    if n > 0 && h[n - 1].failed == h[n].failed {
      i := SinceIsTheFirstOfItsRun(h[..n]);
    } else {
      i := n;
    }
  }

  /** The delay after n failures in a row: the first waits base, uncapped; each next one doubles the last in 64
      bits and is cut off at max. */
  function RetryDelay(base: int, max: int, n: nat): int
    decreases n
  {
    if n == 0 then 0 else if n == 1 then base else Min(Wrap(2 * RetryDelay(base, max, n - 1)), max)
  }

  /** What the delay is meant to be. */
  ghost function IdealDelay(base: int, max: int, n: nat): int
    requires n >= 1
  {
    Min(Doubled(base, n - 1), max)
  }

  lemma {:induction false} DelayBelowCeiling(base: int, max: int, n: nat)
    requires 0 < base <= max < TWO_62 && n >= 1
    ensures RetryDelay(base, max, n) == IdealDelay(base, max, n)
    ensures 0 < RetryDelay(base, max, n) <= max
    decreases n
  {
    DoubledGrows(base, n - 1);
    if n > 1 {
      DelayBelowCeiling(base, max, n - 1);
      DoubledLast(base, n - 2);
    }
  }

  /** With max at 2^62 or more the cap itself is doubled, or a doubling wraps before it. */
  lemma {:induction false} DelayAboveCeiling(base: int, max: int, n: nat) returns (m: nat)
    requires 0 < base <= max < TWO_63 && TWO_62 <= max && n >= 1
    requires RetryDelay(base, max, n) == IdealDelay(base, max, n)
    ensures m >= 1 && RetryDelay(base, max, m) != IdealDelay(base, max, m)
    decreases TWO_63 - RetryDelay(base, max, n)
  {
    var d := RetryDelay(base, max, n);
    DoubledGrows(base, n - 1);
    DoubledGrows(base, n);
    DoubledLast(base, n - 1);
    if d >= TWO_62 {
      m := n + 1;
    } else {
      m := DelayAboveCeiling(base, max, n + 1);
    }
  }

  /** The n-th delay is base·2^(n-1) capped at max, for every n, exactly when base is at most max and max is below
      2^62. */
  lemma {:induction false} RetryDelayIsCappedDoublingIff(base: int, max: int)
    requires 0 < base < TWO_63 && 0 < max < TWO_63
    ensures (forall n: nat :: n >= 1 ==> RetryDelay(base, max, n) == IdealDelay(base, max, n)) <==> base <= max < TWO_62
  {
    if base > max {
      assert RetryDelay(base, max, 1) != IdealDelay(base, max, 1);
    } else if max < TWO_62 {
      forall n: nat | n >= 1 ensures RetryDelay(base, max, n) == IdealDelay(base, max, n) {
        DelayBelowCeiling(base, max, n);
      }
    } else {
      var m := DelayAboveCeiling(base, max, 1);
    }
  }

  /** Above max the first delay overshoots the cap. */
  lemma {:induction false} FirstDelayIsUncapped(base: int, max: int)
    requires 0 < max < base
    ensures RetryDelay(base, max, 1) > max
  {}

  /** With a cap of 2^62 the second delay is already negative. */
  lemma {:induction false} HugeCapOverflows()
    ensures RetryDelay(TWO_62, TWO_62, 2) < 0
  {
    assert RetryDelay(TWO_62, TWO_62, 1) == TWO_62;
  }

  class Tracker {
    const base: int
    const max: int
    const healthyInterval: int
    const threshold: int
    var failures: nat
    var delay: int
    var state: State
    var since: Time
    ghost var history: seq<Probe>

    /** Every field is a function of the trailing streak and its first timestamp. */
    ghost predicate Valid()
      reads this
    {
      && failures == Streak(history)
      && delay == RetryDelay(base, max, failures)
      && state == StateAfter(history, threshold)
      && since == Since(history)
    }

    constructor (base: int, max: int, healthyInterval: int, threshold: int)
      ensures Valid() && history == []
      ensures this.base == base && this.max == max
      ensures this.healthyInterval == healthyInterval && this.threshold == threshold
    {
      this.base, this.max, this.healthyInterval, this.threshold := base, max, healthyInterval, threshold;
      failures, delay, state, since, history := 0, 0, Unknown, 0, [];
    }

    method Observe(failed: bool, now: Time) returns (s: State, next: int)
      requires Valid()
      modifies this
      ensures Valid() && history == old(history) + [Probe(failed, now)]
      ensures s == StateAfter(history, threshold)
      ensures next == if failed then RetryDelay(base, max, Streak(history)) else healthyInterval
      ensures failed && 0 < base <= max < TWO_62 ==> next == IdealDelay(base, max, Streak(history))
    {
      history := history + [Probe(failed, now)];
      assert history[..|history| - 1] == old(history);
      if !failed {
        if state != Reachable {
          since := now;
        }
        state := Reachable;
        failures := 0;
        delay := 0;
        return state, healthyInterval;
      }
      failures := failures + 1;
      if failures == 1 {
        since := now;
        delay := base;
      } else {
        delay := Wrap(2 * delay);
        if delay > max {
          delay := max;
        }
      }
      if failures >= threshold {
        state := Unreachable;
      } else {
        state := Degraded;
      }
      if 0 < base <= max < TWO_62 {
        DelayBelowCeiling(base, max, failures);
      }
      return state, delay;
    }
  }
}
