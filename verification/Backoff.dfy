/** Retry delays of the engine, one streak per (replication, cluster) pair
    (internal/engine/backoff.go). */
module Backoff {
  import opened Durations

  datatype Pair = Pair(replication: string, cluster: string)

  datatype Event = Failed(pair: Pair) | Succeeded(pair: Pair) | Forgotten(replication: string)

  /** Failures of the pair since its last success or since its replication was forgotten. */
  ghost function Streak(history: seq<Event>, p: Pair): nat {
    if history == [] then 0
    else
      var before := Streak(history[..|history| - 1], p);
      match history[|history| - 1]
      case Failed(q) => if q == p then before + 1 else before
      case Succeeded(q) => if q == p then 0 else before
      case Forgotten(r) => if r == p.replication then 0 else before
  }

  /** The event ends the pair's streak. */
  predicate Resets(e: Event, p: Pair) { e == Succeeded(p) || e == Forgotten(p.replication) }

  /** The failures of the pair after index g. */
  ghost function FailuresAfter(history: seq<Event>, p: Pair, g: int): set<int> {
    set x | 0 <= x < |history| && g < x && history[x] == Failed(p)
  }

  /** The streak is the number of failures of this very pair since its last success and since its replication was last
      forgotten. */
  lemma {:induction false} StreakCounts(history: seq<Event>, p: Pair, g: int)
    requires -1 <= g < |history| && (g >= 0 ==> Resets(history[g], p))
    requires forall x :: g < x < |history| ==> !Resets(history[x], p)
    ensures Streak(history, p) == |FailuresAfter(history, p, g)|
  {
    var n := |history| - 1;
    if g == n {
      assert FailuresAfter(history, p, g) == {};
    } else {
      var front := history[..n];
      StreakCounts(front, p, g);
      if history[n] == Failed(p) {
        assert FailuresAfter(history, p, g) == FailuresAfter(front, p, g) + {n};
      } else {
        assert FailuresAfter(history, p, g) == FailuresAfter(front, p, g);
      }
    }
  }

  /** The doubling loop with k rounds left, on int64 values. */
  ghost function Rounds(d: int, max: int, k: nat): int
    decreases k
  {
    if k == 0 then (if d > max then max else d)
    else
      var d' := Wrap(2 * d);
      if d' >= max then max else Rounds(d', max, k - 1)
  }

  /** Base doubled n-1 times, capped. */
  ghost function Ideal(base: int, max: int, n: nat): int
    requires n >= 1
  {
    Min(Doubled(base, n - 1), max)
  }

  /** The first doubling of d that cannot be doubled again. */
  ghost function Ceiling(d: int): (c: int)
    requires 0 < d < TWO_63
    ensures TWO_62 <= c < TWO_63 && d <= c
    ensures d >= TWO_62 ==> c == d
    decreases TWO_63 - d
  {
    if d >= TWO_62 then d else Ceiling(2 * d)
  }

  /** The cap is reached before a doubling overflows. */
  ghost predicate Safe(base: int, max: int)
    requires 0 < base < TWO_63
  {
    base < TWO_62 && max <= Ceiling(base)
  }

  lemma {:induction false} SafeRounds(d: int, max: int, k: nat)
    requires 0 < d < TWO_63 && 0 < max && Safe(d, max)
    ensures Rounds(d, max, k) == Min(Doubled(d, k), max)
    decreases k
  {
    if k > 0 {
      if 2 * d >= max {
        DoubledGrows(2 * d, k - 1);
      } else {
        assert Ceiling(d) == Ceiling(2 * d);
        SafeRounds(2 * d, max, k - 1);
      }
    }
  }

  lemma {:induction false} UnsafeRounds(d: int, max: int) returns (k: nat)
    requires 0 < d < TWO_63 && 0 < max && !Safe(d, max)
    ensures Rounds(d, max, k) != Min(Doubled(d, k), max)
    decreases TWO_63 - d
  {
    if d >= TWO_62 {
      k := 1;
      assert Wrap(2 * d) == 2 * d - TWO_64 < 0;
      assert Rounds(Wrap(2 * d), max, 0) < 0;
      assert Doubled(d, 1) == Doubled(2 * d, 0) == 2 * d;
    } else {
      var m := UnsafeRounds(2 * d, max);
      k := m + 1;
      assert 2 * d <= Ceiling(2 * d) < max;
    }
  }

  /** The delay is base·2^(n-1) capped at max for every n, exactly when base is below 2^62 and max does not
      exceed the first doubling of base that reaches 2^62; in particular for every max up to 2^62. */
  lemma {:induction false} DelayIsCappedDoublingIff(base: int, max: int)
    requires 0 < base < TWO_63 && 0 < max < TWO_63
    ensures (forall n: nat :: n >= 1 ==> Rounds(base, max, n - 1) == Ideal(base, max, n)) <==> Safe(base, max)
    ensures base < TWO_62 && max <= TWO_62 ==> Safe(base, max)
  {
    if Safe(base, max) {
      forall n: nat | n >= 1 ensures Rounds(base, max, n - 1) == Ideal(base, max, n) {
        SafeRounds(base, max, n - 1);
      }
    } else {
      var k := UnsafeRounds(base, max);
      assert Rounds(base, max, (k + 1) - 1) != Ideal(base, max, k + 1);
    }
  }

  /** With a base of 2^62 the second failure already yields a negative delay. */
  lemma {:induction false} HugeBaseOverflows()
    ensures Rounds(TWO_62, TWO_62, 1) < 0
  {
    assert Wrap(2 * TWO_62) == -TWO_63;
    assert Rounds(-TWO_63, TWO_62, 0) == -TWO_63;
  }

  class BackoffTracker {
    const base: int
    const max: int
    var failures: map<Pair, nat>
    ghost var history: seq<Event>

    /** The counters are the streaks of the history. */
    ghost predicate Valid()
      reads this
    {
      && 0 < base < TWO_63 && 0 < max < TWO_63
      && (forall p :: p in failures ==> failures[p] == Streak(history, p))
      && (forall p :: p !in failures ==> Streak(history, p) == 0)
    }

    constructor (base: int, max: int)
      requires 0 < base < TWO_63 && 0 < max < TWO_63
      ensures Valid() && history == [] && this.base == base && this.max == max
    {
      this.base, this.max := base, max;
      failures, history := map[], [];
    }

    method Failure(replication: string, cluster: string) returns (delay: int)
      requires Valid()
      modifies this
      ensures Valid() && history == old(history) + [Failed(Pair(replication, cluster))]
      ensures var n := Streak(history, Pair(replication, cluster));
              && n >= 1 && delay == Rounds(base, max, n - 1)
              && (Safe(base, max) ==> delay == Ideal(base, max, n))
    {
      var k := Pair(replication, cluster);
      var n := if k in failures then failures[k] + 1 else 1;
      failures := failures[k := n];
      history := history + [Failed(k)];
      assert history[..|history| - 1] == old(history);
      delay := DelayLocked(n);
      if Safe(base, max) {
        SafeRounds(base, max, n - 1);
      }
    }

    method Success(replication: string, cluster: string)
      requires Valid()
      modifies this
      ensures Valid() && history == old(history) + [Succeeded(Pair(replication, cluster))]
    {
      failures := failures - {Pair(replication, cluster)};
      history := history + [Succeeded(Pair(replication, cluster))];
      assert history[..|history| - 1] == old(history);
    }

    method Forget(replication: string)
      requires Valid()
      modifies this
      ensures Valid() && history == old(history) + [Forgotten(replication)]
    {
      var todo := failures.Keys;
      while todo != {}
        invariant todo <= old(failures).Keys && todo <= failures.Keys <= old(failures).Keys
        invariant forall p :: p in failures ==> failures[p] == old(failures)[p]
        invariant forall p :: p in old(failures) && p !in todo ==> (p in failures <==> p.replication != replication)
        invariant history == old(history)
      {
        var k :| k in todo;
        if k.replication == replication {
          failures := failures - {k};
        }
        todo := todo - {k};
      }
      history := history + [Forgotten(replication)];
      assert history[..|history| - 1] == old(history);
    }

    method DelayLocked(n: nat) returns (d: int)
      requires n >= 1 && 0 < base < TWO_63
      ensures d == Rounds(base, max, n - 1)
    {
      d := base;
      for i := 1 to n
        invariant Rounds(base, max, n - 1) == Rounds(d, max, n - i)
      {
        d := Wrap(2 * d);
        if d >= max {
          return max;
        }
      }
      if d > max {
        return max;
      }
    }
  }
}
