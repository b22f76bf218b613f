/** What failures mean for the next try (internal/engine/reconciler.go, internal/engine/backoff.go): the streak of a
    cluster counts its failures since its last success, and the Replication is looked at again no later than that
    streak's delay. */
module Failures {
  import opened Policies
  import opened Inventory
  import opened Engine
  import opened Passes
  import opened Backoff
  import opened Retries
  import S = Status

  /** What a pass tried: its slots with the states they ended in, then the entries it collected, over p. */
  datatype Trail = Trail(js: seq<Job>, states: seq<S.TargetState>, p: Progress, es: seq<InventoryEntry>, cx: Context)

  ghost predicate Whole(t: Trail) { |t.js| == |t.states| && forall n :: 0 <= n < |t.js| ==> Named(t, n) }

  ghost predicate Named(t: Trail, n: nat)
    requires |t.js| == |t.states| && n < |t.js|
  {
    t.states[n].cluster == t.js[n].key.cluster
  }

  function Tries(t: Trail): nat { |t.js| + |t.es| }

  /** The slot ends neither ready nor in conflict, or the check or the delete of the entry fails. */
  ghost predicate FailsAt(t: Trail, c: string, x: nat)
    requires Whole(t) && x < Tries(t)
  {
    if x < |t.js| then
      t.js[x].key.cluster == c && t.js[x].ApplyJob? && !t.states[x].ready && t.states[x].reason != S.Conflicting
    else
      var m := x - |t.js|;
      var k, sp := t.es[m].key, CollectEach(t.p, t.es[..m], t.cx).spokes;
      && k.cluster == c && KindOf(k) in t.cx.kinds
      && (|| !t.cx.collectFaults(k).read.ReadOk?
          || (Carries(sp, k, t.cx.src.uid) && t.cx.src.uid != "" && !t.cx.collectFaults(k).del.Lands?))
  }

  /** The slot ends ready, or the entry is found gone or is deleted. */
  ghost predicate WorksAt(t: Trail, c: string, x: nat)
    requires Whole(t) && x < Tries(t)
  {
    if x < |t.js| then t.js[x].key.cluster == c && t.js[x].ApplyJob? && t.states[x].ready
    else
      var m := x - |t.js|;
      var k, sp := t.es[m].key, CollectEach(t.p, t.es[..m], t.cx).spokes;
      && k.cluster == c && KindOf(k) in t.cx.kinds && t.cx.collectFaults(k).read.ReadOk?
      && (|| k !in sp.objects
          || (Carries(sp, k, t.cx.src.uid) && t.cx.src.uid != "" && t.cx.collectFaults(k).del.Lands?))
  }

  // ---- The events, one try after another -----------------------------------------------------------

  function EventsUpTo(rep: string, t: Trail, n: nat): seq<Event>
    requires |t.js| == |t.states| && n <= Tries(t)
  {
    if n <= |t.js| then ApplyEvents(rep, t.js[..n], t.states[..n])
    else ApplyEvents(rep, t.js, t.states) + CollectEvents(rep, t.p, t.es[..n - |t.js|], t.cx)
  }

  /** What one try adds. */
  function EventsOf(rep: string, t: Trail, x: nat): seq<Event>
    requires |t.js| == |t.states| && x < Tries(t)
  {
    if x < |t.js| then (if t.js[x].DenyJob? then [] else SlotEvents(rep, t.states[x]))
    else
      var m := x - |t.js|;
      EntryEvents(rep, CollectEach(t.p, t.es[..m], t.cx).spokes, t.es[m].key, t.cx)
  }

  lemma {:induction false} OneMoreTry(rep: string, t: Trail, n: nat)
    requires |t.js| == |t.states| && n < Tries(t)
    ensures EventsUpTo(rep, t, n + 1) == EventsUpTo(rep, t, n) + EventsOf(rep, t, n)
  {
    if n < |t.js| {
      assert t.js[..n + 1][..n] == t.js[..n] && t.states[..n + 1][..n] == t.states[..n];
    } else {
      var m := n - |t.js|;
      assert t.es[..m + 1][..m] == t.es[..m];
      assert t.js[..|t.js|] == t.js && t.states[..|t.js|] == t.states;
      assert t.es[..0] == [];
      Associative(ApplyEvents(rep, t.js, t.states), CollectEvents(rep, t.p, t.es[..m], t.cx), EventsOf(rep, t, n));
    }
  }

  /** A try says one thing about its own cluster, or nothing, and that is what became of it. */
  lemma {:induction false} TrySays(rep: string, t: Trail, c: string, x: nat)
    requires Whole(t) && x < Tries(t)
    ensures FailsAt(t, c, x) ==> EventsOf(rep, t, x) == [Failed(Pair(rep, c))]
    ensures WorksAt(t, c, x) ==> EventsOf(rep, t, x) == [Succeeded(Pair(rep, c))]
    ensures !FailsAt(t, c, x) && !WorksAt(t, c, x) ==> !Concerns(EventsOf(rep, t, x), Pair(rep, c))
    ensures !(FailsAt(t, c, x) && WorksAt(t, c, x))
  {
    if x < |t.js| { assert Named(t, x); }
  }

  lemma {:induction false} OneMoreEvent(history: seq<Event>, e: Event, p: Pair)
    ensures Streak(history + [e], p)
            == match e
               case Failed(q) => if q == p then Streak(history, p) + 1 else Streak(history, p)
               case Succeeded(q) => if q == p then 0 else Streak(history, p)
               case Forgotten(r) => if r == p.replication then 0 else Streak(history, p)
  {
    assert (history + [e])[..|history|] == history;
  }

  /** How a try changes the streak of a cluster. */
  lemma {:induction false} TryCounts(rep: string, t: Trail, c: string, history: seq<Event>, x: nat)
    requires Whole(t) && x < Tries(t)
    ensures var before, after := history + EventsUpTo(rep, t, x), history + EventsUpTo(rep, t, x + 1);
            Streak(after, Pair(rep, c))
            == if FailsAt(t, c, x) then Streak(before, Pair(rep, c)) + 1
               else if WorksAt(t, c, x) then 0 else Streak(before, Pair(rep, c))
  {
    var p, es := Pair(rep, c), EventsUpTo(rep, t, x);
    OneMoreTry(rep, t, x);
    TrySays(rep, t, c, x);
    Associative(history, es, EventsOf(rep, t, x));
    if FailsAt(t, c, x) {
      OneMoreEvent(history + es, Failed(p), p);
    } else if WorksAt(t, c, x) {
      OneMoreEvent(history + es, Succeeded(p), p);
    } else {
      StreakIgnoresOthers(history + es, EventsOf(rep, t, x), p);
    }
  }

  // ---- The streak counts failures --------------------------------------------------------------------

  /** The tries after g and before n that failed on the cluster. */
  ghost function Failing(t: Trail, c: string, g: int, n: nat): set<nat>
    requires Whole(t) && -1 <= g && n <= Tries(t)
  {
    set x: nat | g < x < n && FailsAt(t, c, x)
  }

  /** The try g worked, or is before the first, and none since then did. */
  ghost predicate LastSuccess(t: Trail, c: string, g: int, n: nat)
    requires Whole(t) && n <= Tries(t)
  {
    && -1 <= g < n && (g >= 0 ==> WorksAt(t, c, g))
    && forall x :: g < x < n ==> !WorksAt(t, c, x)
  }

  lemma {:induction false} FailingOneMore(t: Trail, c: string, g: int, n: nat)
    requires Whole(t) && -1 <= g < n < Tries(t)
    ensures Failing(t, c, g, n + 1) == Failing(t, c, g, n) + (if FailsAt(t, c, n) then {n} else {})
    ensures |Failing(t, c, g, n + 1)| == |Failing(t, c, g, n)| + (if FailsAt(t, c, n) then 1 else 0)
  {
    assert Failing(t, c, g, n + 1) == Failing(t, c, g, n) + (if FailsAt(t, c, n) then {n} else {});
  }

  ghost function StreakAt(rep: string, t: Trail, c: string, history: seq<Event>, n: nat): nat
    requires |t.js| == |t.states| && n <= Tries(t)
  {
    Streak(history + EventsUpTo(rep, t, n), Pair(rep, c))
  }

  lemma {:induction false} NoneFailing(t: Trail, c: string, n: nat)
    requires Whole(t) && n <= Tries(t)
    ensures Failing(t, c, n - 1, n) == {}
  {}

  lemma {:induction false} StreakAfterSuccess(rep: string, t: Trail, c: string, history: seq<Event>, n: nat)
    requires Whole(t) && n < Tries(t) && WorksAt(t, c, n)
    ensures StreakAt(rep, t, c, history, n + 1) == 0
  {
    TryCounts(rep, t, c, history, n);
    TrySays(rep, t, c, n);
  }

  lemma {:induction false} StreakAfterOther(rep: string, t: Trail, c: string, history: seq<Event>, g: int, n: nat)
    requires Whole(t) && -1 <= g < n < Tries(t) && !WorksAt(t, c, n)
    ensures StreakAt(rep, t, c, history, n + 1) - |Failing(t, c, g, n + 1)|
            == StreakAt(rep, t, c, history, n) - |Failing(t, c, g, n)|
  {
    TryCounts(rep, t, c, history, n);
    FailingOneMore(t, c, g, n);
  }

  lemma {:induction false} StillLastSuccess(t: Trail, c: string, g: int, n: nat)
    requires Whole(t) && n < Tries(t) && g < n && LastSuccess(t, c, g, n + 1)
    ensures LastSuccess(t, c, g, n) && !WorksAt(t, c, n)
  {}

  lemma {:induction false} StreakAfterLast(rep: string, t: Trail, c: string, history: seq<Event>, n: nat)
    requires Whole(t) && n <= Tries(t) && LastSuccess(t, c, n - 1, n)
    ensures StreakAt(rep, t, c, history, n) == if n > 0 then 0 else Streak(history, Pair(rep, c))
    ensures |Failing(t, c, n - 1, n)| == 0
  {
    NoneFailing(t, c, n);
    if n == 0 { NoTryYet(rep, t, history); } else { StreakAfterSuccess(rep, t, c, history, n - 1); }
  }

  lemma {:induction false} StreakAfter(rep: string, t: Trail, c: string, history: seq<Event>, g: int, n: nat)
    requires Whole(t) && n <= Tries(t) && LastSuccess(t, c, g, n)
    ensures StreakAt(rep, t, c, history, n)
            == (if g >= 0 then 0 else Streak(history, Pair(rep, c))) + |Failing(t, c, g, n)|
  {
    if g == n - 1 {
      StreakAfterLast(rep, t, c, history, n);
    } else {
      StillLastSuccess(t, c, g, n - 1);
      StreakAfter(rep, t, c, history, g, n - 1);
      StreakAfterOther(rep, t, c, history, g, n - 1);
    }
  }

  lemma {:induction false} NoTryYet(rep: string, t: Trail, history: seq<Event>)
    requires |t.js| == |t.states|
    ensures history + EventsUpTo(rep, t, 0) == history
  {
    assert t.js[..0] == [] && t.states[..0] == [];
  }

  // ---- The delay ----------------------------------------------------------------------------------------

  lemma {:induction false} LastFailure(t: Trail, c: string, n: nat, y: nat) returns (x: nat)
    requires Whole(t) && y < n <= Tries(t) && FailsAt(t, c, y)
    ensures y <= x < n && FailsAt(t, c, x) && forall z :: x < z < n ==> !FailsAt(t, c, z)
  {
    if FailsAt(t, c, n - 1) {
      x := n - 1;
    } else {
      x := LastFailure(t, c, n - 1, y);
    }
  }

  lemma {:induction false} QuietKeepsStreak(rep: string, t: Trail, c: string, history: seq<Event>, a: nat, b: nat)
    requires Whole(t) && a <= b <= Tries(t)
    requires forall z :: a <= z < b ==> !FailsAt(t, c, z) && !WorksAt(t, c, z)
    ensures Streak(history + EventsUpTo(rep, t, b), Pair(rep, c))
            == Streak(history + EventsUpTo(rep, t, a), Pair(rep, c))
  {
    if a < b {
      QuietKeepsStreak(rep, t, c, history, a, b - 1);
      TryCounts(rep, t, c, history, b - 1);
    }
  }

  lemma {:induction false} EventsPrefix(rep: string, t: Trail, a: nat, b: nat) returns (rest: seq<Event>)
    requires |t.js| == |t.states| && a <= b <= Tries(t)
    ensures EventsUpTo(rep, t, b) == EventsUpTo(rep, t, a) + rest
  {
    if a == b {
      rest := [];
    } else {
      var r := EventsPrefix(rep, t, a, b - 1);
      OneMoreTry(rep, t, b - 1);
      rest := r + EventsOf(rep, t, b - 1);
      Associative(EventsUpTo(rep, t, a), r, EventsOf(rep, t, b - 1));
    }
  }

  lemma {:induction false} LastDelay(history: seq<Event>, es: seq<Event>, p: Pair, base: int, max: int)
    requires Rounds(base, max, Streak(history + es, p)) > 0
    ensures Rounds(base, max, Streak(history + es, p)) in DelaysOf(base, max, history, es + [Failed(p)])
  {
    var all := es + [Failed(p)];
    Associative(history, es, [Failed(p)]);
    OneMoreEvent(history + es, Failed(p), p);
    assert all[..|all| - 1] == es && (history + all)[|history + all| - 1] == Failed(p);
    DelaysLast(base, max, history, all);
  }

  /** The delay of a failing try is among the delays collected. */
  lemma {:induction false} FailureDelays(
    rep: string, t: Trail, c: string, history: seq<Event>, x: nat, base: int, max: int)
    requires Whole(t) && x < Tries(t) && FailsAt(t, c, x)
    requires Rounds(base, max, StreakAt(rep, t, c, history, x)) > 0
    ensures Rounds(base, max, StreakAt(rep, t, c, history, x))
            in DelaysOf(base, max, history, EventsUpTo(rep, t, Tries(t)))
  {
    TrySays(rep, t, c, x);
    OneMoreTry(rep, t, x);
    LastDelay(history, EventsUpTo(rep, t, x), Pair(rep, c), base, max);
    var rest := EventsPrefix(rep, t, x + 1, Tries(t));
    DelaysSplit(base, max, history, EventsUpTo(rep, t, x + 1), rest);
  }

  /** A try on the cluster failed and none after it worked. */
  ghost predicate FailsForGood(t: Trail, c: string, y: nat)
    requires Whole(t)
  {
    y < Tries(t) && FailsAt(t, c, y) && forall z :: y < z < Tries(t) ==> !WorksAt(t, c, z)
  }

  lemma {:induction false} LastFailureCounts(rep: string, t: Trail, c: string, history: seq<Event>, y: nat)
    returns (x: nat)
    requires Whole(t) && FailsForGood(t, c, y)
    ensures x < Tries(t) && FailsAt(t, c, x)
    ensures StreakAt(rep, t, c, history, Tries(t)) == StreakAt(rep, t, c, history, x) + 1
  {
    x := LastFailure(t, c, Tries(t), y);
    TryCounts(rep, t, c, history, x);
    QuietKeepsStreak(rep, t, c, history, x + 1, Tries(t));
  }

  /** Where a try on the cluster failed and none since then worked, the next look is no later than the delay of the
      streak the pass ends with. */
  lemma {:induction false} TrailIsDue(
    rep: string, t: Trail, c: string, history: seq<Event>, y: nat, base: int, max: int, default: int, requeue: int)
    requires Whole(t) && FailsForGood(t, c, y)
    requires Due(base, max, history, EventsUpTo(rep, t, Tries(t)), default, requeue)
    ensures var n := StreakAt(rep, t, c, history, Tries(t));
            n >= 1 && (Rounds(base, max, n - 1) > 0 ==> 0 < requeue <= Rounds(base, max, n - 1))
  {
    var x := LastFailureCounts(rep, t, c, history, y);
    if Rounds(base, max, StreakAt(rep, t, c, history, x)) > 0 {
      FailureDelays(rep, t, c, history, x, base, max);
    }
  }

  lemma {:induction false} QuietTrail(rep: string, t: Trail, n: nat)
    requires Whole(t) && n <= Tries(t) && forall c, x :: 0 <= x < n ==> !FailsAt(t, c, x)
    ensures NoneFail(EventsUpTo(rep, t, n))
  {
    if n > 0 {
      QuietTrail(rep, t, n - 1);
      OneMoreTry(rep, t, n - 1);
      var c := if n - 1 < |t.js| then t.js[n - 1].key.cluster else t.es[n - 1 - |t.js|].key.cluster;
      TrySays(rep, t, c, n - 1);
      QuietTry(rep, t, c, n - 1);
    } else {
      assert t.js[..0] == [] && t.states[..0] == [];
    }
  }

  lemma {:induction false} QuietTry(rep: string, t: Trail, c: string, x: nat)
    requires Whole(t) && x < Tries(t) && !FailsAt(t, c, x)
    requires c == if x < |t.js| then t.js[x].key.cluster else t.es[x - |t.js|].key.cluster
    ensures NoneFail(EventsOf(rep, t, x))
  {
    if x < |t.js| { assert Named(t, x); }
  }

  // ---- Passes --------------------------------------------------------------------------------------------

  lemma {:induction false} JobsAreNamed(p: Progress, js: seq<Job>, cx: Context)
    requires p.states == []
    ensures |DoJobs(p, js, cx).states| == |js|
    ensures forall n :: 0 <= n < |js| ==> DoJobs(p, js, cx).states[n].cluster == js[n].key.cluster
  {
    OneStatePerJob(p, js, cx);
    forall n | 0 <= n < |js| ensures DoJobs(p, js, cx).states[n].cluster == js[n].key.cluster {
      StateNamesSlot(p, js, cx, n);
    }
  }

  /** What a whole pass tries. */
  ghost function PassTrail(sp: Spokes, prev: seq<Decision>, i: Input): (t: Trail)
    ensures Whole(t)
  {
    var start, js := Progress(sp, PassPlan(i), [], 0), PassJobs(prev, i);
    var q := DoJobs(start, js, i.cx);
    JobsAreNamed(start, js, i.cx);
    Trail(js, q.states, q.(inv := Released(q.inv, Uncovered(q.inv, PassKeep(prev, i), i.cx.discovered, false))),
          Uncovered(q.inv, PassKeep(prev, i), i.cx.discovered, true), i.cx)
  }

  lemma {:induction false} PassTrailEvents(rep: string, sp: Spokes, prev: seq<Decision>, i: Input)
    ensures EventsUpTo(rep, PassTrail(sp, prev, i), Tries(PassTrail(sp, prev, i))) == PassEvents(rep, sp, prev, i)
  {
    TrailEnds(rep, PassTrail(sp, prev, i));
  }

  lemma {:induction false} TrailEnds(rep: string, t: Trail)
    requires |t.js| == |t.states|
    ensures EventsUpTo(rep, t, Tries(t)) == ApplyEvents(rep, t.js, t.states) + CollectEvents(rep, t.p, t.es, t.cx)
  {
    assert t.js[..|t.js|] == t.js && t.states[..|t.js|] == t.states && t.es[..|t.es|] == t.es;
    if t.es == [] { assert ApplyEvents(rep, t.js, t.states) + [] == ApplyEvents(rep, t.js, t.states); }
  }

  /** After a pass, the streak of a cluster is the number of its failed tries since its last success in the pass, and
      without one that number more than before. A conflict alone changes nothing. */
  lemma {:induction false} StreakCountsFailures(
    rep: string, sp: Spokes, prev: seq<Decision>, i: Input, c: string, history: seq<Event>, g: int)
    requires LastSuccess(PassTrail(sp, prev, i), c, g, Tries(PassTrail(sp, prev, i)))
    ensures var t := PassTrail(sp, prev, i);
            Streak(history + PassEvents(rep, sp, prev, i), Pair(rep, c))
            == (if g >= 0 then 0 else Streak(history, Pair(rep, c))) + |Failing(t, c, g, Tries(t))|
  {
    var t := PassTrail(sp, prev, i);
    PassTrailEvents(rep, sp, prev, i);
    StreakAfter(rep, t, c, history, g, Tries(t));
  }

  lemma {:induction false} DueAfter(
    rep: string, t: Trail, es: seq<Event>, c: string, history: seq<Event>, y: nat, base: int, max: int, default: int,
    requeue: int)
    requires Whole(t) && FailsForGood(t, c, y) && es == EventsUpTo(rep, t, Tries(t))
    requires Due(base, max, history, es, default, requeue)
    ensures var n := Streak(history + es, Pair(rep, c));
            n >= 1 && (Rounds(base, max, n - 1) > 0 ==> 0 < requeue <= Rounds(base, max, n - 1))
  {
    TrailIsDue(rep, t, c, history, y, base, max, default, requeue);
  }

  /** Where a try of the pass failed on a cluster and none after it worked there, the cluster's streak is positive and
      the Replication is looked at again no later than after that streak's delay. */
  lemma {:induction false} FailedTryIsRetried(
    rep: string, sp: Spokes, prev: seq<Decision>, i: Input, c: string, history: seq<Event>, y: nat, base: int, max: int,
    default: int, requeue: int)
    requires FailsForGood(PassTrail(sp, prev, i), c, y)
    requires Due(base, max, history, PassEvents(rep, sp, prev, i), default, requeue)
    ensures var n := Streak(history + PassEvents(rep, sp, prev, i), Pair(rep, c));
            n >= 1 && (Rounds(base, max, n - 1) > 0 ==> 0 < requeue <= Rounds(base, max, n - 1))
  {
    PassTrailEvents(rep, sp, prev, i);
    DueAfter(rep, PassTrail(sp, prev, i), PassEvents(rep, sp, prev, i), c, history, y, base, max, default, requeue);
  }

  /** A pass in which nothing fails, whatever it finds in conflict, waits for the default. */
  lemma {:induction false} QuietPassWaits(
    rep: string, sp: Spokes, prev: seq<Decision>, i: Input, history: seq<Event>, base: int, max: int, default: int,
    requeue: int)
    requires var t := PassTrail(sp, prev, i); forall c, x :: 0 <= x < Tries(t) ==> !FailsAt(t, c, x)
    requires Due(base, max, history, PassEvents(rep, sp, prev, i), default, requeue)
    ensures requeue == default
  {
    PassTrailEvents(rep, sp, prev, i);
    QuietTrail(rep, PassTrail(sp, prev, i), Tries(PassTrail(sp, prev, i)));
    NoFailureNoDelay(base, max, history, PassEvents(rep, sp, prev, i));
  }

  /** A cluster on which the pass neither fails nor works, as where all its slots are in conflict or denied, keeps its
      streak. */
  lemma {:induction false} ConflictKeepsStreak(
    rep: string, sp: Spokes, prev: seq<Decision>, i: Input, c: string, history: seq<Event>)
    requires var t := PassTrail(sp, prev, i);
             forall x :: 0 <= x < Tries(t) ==> !FailsAt(t, c, x) && !WorksAt(t, c, x)
    ensures Streak(history + PassEvents(rep, sp, prev, i), Pair(rep, c)) == Streak(history, Pair(rep, c))
  {
    PassTrailEvents(rep, sp, prev, i);
    QuietKeepsStreak(rep, PassTrail(sp, prev, i), c, history, 0, Tries(PassTrail(sp, prev, i)));
    NoTryYet(rep, PassTrail(sp, prev, i), history);
  }

  // ---- Deletion ------------------------------------------------------------------------------------------

  /** What a deletion pass over p tries: the entries of every discovered cluster. */
  ghost function DrainTrail(p: Progress, cx: Context): (t: Trail)
    ensures Whole(t)
  {
    Trail([], [], p.(inv := Released(p.inv, Uncovered(p.inv, {}, cx.discovered, false))),
          Uncovered(p.inv, {}, cx.discovered, true), cx)
  }

  lemma {:induction false} DrainTrailEvents(rep: string, p: Progress, cx: Context)
    ensures EventsUpTo(rep, DrainTrail(p, cx), Tries(DrainTrail(p, cx))) == CollectedEvents(rep, p, {}, cx)
  {
    TrailEnds(rep, DrainTrail(p, cx));
    assert [] + CollectedEvents(rep, p, {}, cx) == CollectedEvents(rep, p, {}, cx);
  }

  /** Where cleaning up a cluster fails in the end, the Replication is looked at again no later than after the delay
      of the cluster's streak. */
  lemma {:induction false} FailedCleanupIsRetried(
    rep: string, p: Progress, cx: Context, c: string, history: seq<Event>, y: nat, base: int, max: int, default: int,
    requeue: int)
    requires FailsForGood(DrainTrail(p, cx), c, y)
    requires Due(base, max, history, CollectedEvents(rep, p, {}, cx), default, requeue)
    ensures var n := Streak(history + CollectedEvents(rep, p, {}, cx), Pair(rep, c));
            n >= 1 && (Rounds(base, max, n - 1) > 0 ==> 0 < requeue <= Rounds(base, max, n - 1))
  {
    DrainTrailEvents(rep, p, cx);
    DueAfter(rep, DrainTrail(p, cx), CollectedEvents(rep, p, {}, cx), c, history, y, base, max, default, requeue);
  }
}
