/** When a Replication is looked at again (internal/engine/reconciler.go, internal/engine/backoff.go): what a pass tells
    the backoff tracker about each cluster, and the requeue delay that follows. */
module Retries {
  import opened Policies
  import opened Options
  import opened Inventory
  import opened Conflict
  import opened Engine
  import opened Passes
  import opened Backoff
  import C = Convergence
  import S = Status

  // ---- What a pass reports to the tracker ---------------------------------------------------------

  /** A ready slot ends the streak of its cluster; a conflict is not retried; anything else prolongs the streak. */
  function SlotEvents(rep: string, s: S.TargetState): seq<Event> {
    if s.ready then [Succeeded(Pair(rep, s.cluster))]
    else if s.reason == S.Conflicting then []
    else [Failed(Pair(rep, s.cluster))]
  }

  /** One slot after another; denied slots are not attempted. */
  function ApplyEvents(rep: string, js: seq<Job>, states: seq<S.TargetState>): seq<Event>
    requires |js| == |states|
  {
    if js == [] then []
    else
      var n := |js| - 1;
      ApplyEvents(rep, js[..n], states[..n]) + if js[n].DenyJob? then [] else SlotEvents(rep, states[n])
  }

  /** An entry that is stale or was deleted ends the streak; one that is foreign, or of no allowed kind, says
      nothing. */
  function EntryEvents(rep: string, sp: Spokes, k: SlotKey, cx: Context): seq<Event> {
    var f, pair := cx.collectFaults(k), Pair(rep, k.cluster);
    if KindOf(k) !in cx.kinds then []
    else if !f.read.ReadOk? then [Failed(pair)]
    else if k !in sp.objects then [Succeeded(pair)]
    else if Classify(sp.objects[k], cx.src.uid) == Foreign then []
    else if f.del.Lands? then [Succeeded(pair)]
    else [Failed(pair)]
  }

  function CollectEvents(rep: string, p: Progress, es: seq<InventoryEntry>, cx: Context): seq<Event> {
    if es == [] then []
    else
      var n := |es| - 1;
      CollectEvents(rep, p, es[..n], cx) + EntryEvents(rep, CollectEach(p, es[..n], cx).spokes, es[n].key, cx)
  }

  function CollectedEvents(rep: string, p: Progress, keep: set<SlotKey>, cx: Context): seq<Event> {
    CollectEvents(rep, p.(inv := Released(p.inv, Uncovered(p.inv, keep, cx.discovered, false))),
                  Uncovered(p.inv, keep, cx.discovered, true), cx)
  }

  lemma {:induction false} OneStatePerJob(p: Progress, js: seq<Job>, cx: Context)
    ensures |DoJobs(p, js, cx).states| == |p.states| + |js| && p.states <= DoJobs(p, js, cx).states
  {
    if js != [] { OneStatePerJob(p, js[..|js| - 1], cx); }
  }

  /** Everything a pass reports, in order. */
  function PassEvents(rep: string, sp: Spokes, prev: seq<Decision>, i: Input): seq<Event> {
    var start, js := Progress(sp, PassPlan(i), [], 0), PassJobs(prev, i);
    var q := DoJobs(start, js, i.cx);
    OneStatePerJob(start, js, i.cx);
    ApplyEvents(rep, js, q.states) + CollectedEvents(rep, q, PassKeep(prev, i), i.cx)
  }

  // ---- The delays that follow ----------------------------------------------------------------------

  /** The delay after the last event: positive only after a failure. */
  ghost function DelayAfter(base: int, max: int, history: seq<Event>): seq<int>
    requires history != []
  {
    match history[|history| - 1]
    case Failed(p) =>
      var n := Streak(history, p);
      if n >= 1 && Rounds(base, max, n - 1) > 0 then [Rounds(base, max, n - 1)] else []
    case _ => []
  }

  /** The positive delays of the events, when they follow the history. */
  ghost function DelaysOf(base: int, max: int, history: seq<Event>, es: seq<Event>): seq<int> {
    if es == [] then []
    else DelaysOf(base, max, history, es[..|es| - 1]) + DelayAfter(base, max, history + es)
  }

  lemma {:induction false} DelaysSplit(base: int, max: int, history: seq<Event>, a: seq<Event>, b: seq<Event>)
    ensures DelaysOf(base, max, history, a + b)
            == DelaysOf(base, max, history, a) + DelaysOf(base, max, history + a, b)
  {
    if b == [] {
      assert a + b == a;
    } else {
      var front := b[..|b| - 1];
      DelaysSplit(base, max, history, a, front);
      Associative(history, a, b);
      DelaysLast(base, max, history, a + b);
      assert (a + b)[..|a + b| - 1] == a + front;
      Associative(DelaysOf(base, max, history, a), DelaysOf(base, max, history + a, front),
                  DelayAfter(base, max, history + a + b));
    }
  }

  lemma {:induction false} Associative<T>(a: seq<T>, b: seq<T>, c: seq<T>)
    ensures a + (b + c) == a + b + c
  {}

  lemma {:induction false} DelaysLast(base: int, max: int, history: seq<Event>, es: seq<Event>)
    requires es != []
    ensures DelaysOf(base, max, history, es)
            == DelaysOf(base, max, history, es[..|es| - 1]) + DelayAfter(base, max, history + es)
  {}

  /** The least positive delay, or the default without one. */
  ghost predicate Soonest(delays: seq<int>, default: int, requeue: int) {
    if forall d :: d in delays ==> d <= 0 then requeue == default
    else requeue in delays && requeue > 0 && forall d :: d in delays && d > 0 ==> requeue <= d
  }

  /** The requeue delay after these events: the soonest retry, or the default. */
  ghost predicate Due(base: int, max: int, history: seq<Event>, es: seq<Event>, default: int, requeue: int) {
    Soonest(DelaysOf(base, max, history, es), default, requeue)
  }

  /** The least positive delay; 0 when there is none. */
  method MinDelay(delays: seq<int>) returns (m: int)
    ensures m >= 0 && (m == 0 ==> forall d :: d in delays ==> d <= 0)
    ensures m > 0 ==> m in delays && forall d :: d in delays && d > 0 ==> m <= d
  {
    m := 0;
    for n := 0 to |delays|
      invariant m >= 0 && (m == 0 ==> forall d :: d in delays[..n] ==> d <= 0)
      invariant m > 0 ==> m in delays[..n] && forall d :: d in delays[..n] && d > 0 ==> m <= d
    {
      assert delays[..n + 1] == delays[..n] + [delays[n]];
      if delays[n] > 0 && (m == 0 || delays[n] < m) {
        m := delays[n];
      }
    }
    assert delays[..|delays|] == delays;
  }

  // ---- What that means --------------------------------------------------------------------------------

  /** The events say something about this pair. */
  ghost predicate Concerns(es: seq<Event>, p: Pair) {
    exists e :: e in es && (e == Failed(p) || e == Succeeded(p) || e == Forgotten(p.replication))
  }

  /** What happens elsewhere does not touch the streak of a pair. */
  lemma {:induction false} StreakIgnoresOthers(history: seq<Event>, es: seq<Event>, p: Pair)
    requires !Concerns(es, p)
    ensures Streak(history + es, p) == Streak(history, p)
  {
    if es == [] {
      assert history + es == history;
    } else {
      var front, e := es[..|es| - 1], es[|es| - 1];
      assert e in es && (history + es)[..|history + es| - 1] == history + front;
      assert !Concerns(front, p) by { assert forall x :: x in front ==> x in es; }
      StreakIgnoresOthers(history, front, p);
    }
  }

  /** All events are about this Replication on clusters of the given set. */
  ghost predicate Within(es: seq<Event>, rep: string, clusters: set<string>) {
    forall e :: e in es ==>
      (e.Failed? || e.Succeeded?) && e.pair.replication == rep && e.pair.cluster in clusters
  }

  lemma {:induction false} WithinConcerns(es: seq<Event>, rep: string, clusters: set<string>, p: Pair)
    requires Within(es, rep, clusters) && (p.replication != rep || p.cluster !in clusters)
    ensures !Concerns(es, p)
  {}

  function JobClusters(js: seq<Job>): set<string> { set j | j in js :: j.key.cluster }

  function EntryClusters(es: seq<InventoryEntry>): set<string> { set e | e in es :: e.key.cluster }

  lemma {:induction false} ConvergeNamesSlot(
    sp: Spokes, inv: seq<InventoryEntry>, k: SlotKey, eff: EffectiveOptions, cx: Context)
    ensures Converge(sp, inv, k, cx.src, eff, cx.slotFaults(k), cx.hash).state.cluster == k.cluster
  {
    var r := Converge(sp, inv, k, cx.src, eff, cx.slotFaults(k), cx.hash);
    assert r.state == StateAt(k, true, r.state.reason);
  }

  lemma {:induction false} ApplyNamesSlot(
    sp: Spokes, inv: seq<InventoryEntry>, k: SlotKey, eff: EffectiveOptions, cx: Context)
    ensures ApplyTarget(sp, inv, k, cx.src, eff, cx.slotFaults(k), cx.hash).state.cluster == k.cluster
  {
    ConvergeNamesSlot(sp, inv, k, eff, cx);
    ConvergeNamesSlot(sp.(namespaces := sp.namespaces + {NsOf(k)}), inv, k, eff, cx);
  }

  lemma {:induction false} ResultNamesSlot(p: Progress, j: Job, cx: Context)
    ensures var states := DoJob(p, j, cx).states;
            && |states| == |p.states| + 1 && states[..|p.states|] == p.states
            && states[|p.states|].cluster == j.key.cluster
  {
    if j.ApplyJob? { ApplyNamesSlot(p.spokes, p.inv, j.key, j.options, cx); }
  }

  /** The state of a slot names its cluster. */
  lemma {:induction false} StateNamesSlot(p: Progress, js: seq<Job>, cx: Context, n: nat)
    requires n < |js|
    ensures |DoJobs(p, js, cx).states| == |p.states| + |js|
    ensures DoJobs(p, js, cx).states[|p.states| + n].cluster == js[n].key.cluster
  {
    var q := DoJobs(p, js[..|js| - 1], cx);
    OneStatePerJob(p, js[..|js| - 1], cx);
    ResultNamesSlot(q, js[|js| - 1], cx);
    if n < |js| - 1 {
      StateNamesSlot(p, js[..|js| - 1], cx, n);
    }
  }

  lemma {:induction false} ApplyEventsWithin(
    rep: string, js: seq<Job>, states: seq<S.TargetState>, clusters: set<string>)
    requires |js| == |states|
    requires forall n :: 0 <= n < |js| ==> states[n].cluster == js[n].key.cluster && js[n].key.cluster in clusters
    ensures Within(ApplyEvents(rep, js, states), rep, clusters)
  {
    if js != [] { ApplyEventsWithin(rep, js[..|js| - 1], states[..|js| - 1], clusters); }
  }

  lemma {:induction false} CollectEventsWithin(
    rep: string, p: Progress, es: seq<InventoryEntry>, cx: Context, clusters: set<string>)
    requires forall e :: e in es ==> e.key.cluster in clusters
    ensures Within(CollectEvents(rep, p, es, cx), rep, clusters)
  {
    if es != [] {
      assert es[|es| - 1] in es && forall e :: e in es[..|es| - 1] ==> e in es;
      CollectEventsWithin(rep, p, es[..|es| - 1], cx, clusters);
    }
  }

  /** The clusters a pass deals with: those of its slots and of the entries it is about to clean up. */
  function Involved(sp: Spokes, prev: seq<Decision>, i: Input): set<string> {
    var q := DoJobs(Progress(sp, PassPlan(i), [], 0), PassJobs(prev, i), i.cx);
    JobClusters(PassJobs(prev, i)) + EntryClusters(Uncovered(q.inv, PassKeep(prev, i), i.cx.discovered, true))
  }

  lemma {:induction false} JobEventsWithin(rep: string, p: Progress, js: seq<Job>, cx: Context, clusters: set<string>)
    requires p.states == [] && JobClusters(js) <= clusters
    ensures |DoJobs(p, js, cx).states| == |js|
    ensures Within(ApplyEvents(rep, js, DoJobs(p, js, cx).states), rep, clusters)
  {
    var q := DoJobs(p, js, cx);
    OneStatePerJob(p, js, cx);
    forall n | 0 <= n < |js| ensures q.states[n].cluster == js[n].key.cluster && js[n].key.cluster in clusters {
      StateNamesSlot(p, js, cx, n);
      assert js[n] in js;
    }
    ApplyEventsWithin(rep, js, q.states, clusters);
  }

  lemma {:induction false} PassEventsWithin(rep: string, sp: Spokes, prev: seq<Decision>, i: Input)
    ensures Within(PassEvents(rep, sp, prev, i), rep, Involved(sp, prev, i))
  {
    var start, js, all := Progress(sp, PassPlan(i), [], 0), PassJobs(prev, i), Involved(sp, prev, i);
    var q := DoJobs(start, js, i.cx);
    JobEventsWithin(rep, start, js, i.cx, all);
    CollectEventsWithin(rep, q.(inv := Released(q.inv, Uncovered(q.inv, PassKeep(prev, i), i.cx.discovered, false))),
                        Uncovered(q.inv, PassKeep(prev, i), i.cx.discovered, true), i.cx, all);
  }

  /** A pass of one Replication leaves the streak of every other Replication, and of every cluster it does not deal
      with, as it was: clusters back off on their own. */
  lemma {:induction false} ClustersBackOffAlone(
    rep: string, sp: Spokes, prev: seq<Decision>, i: Input, history: seq<Event>, p: Pair)
    requires p.replication != rep || p.cluster !in Involved(sp, prev, i)
    ensures Streak(history + PassEvents(rep, sp, prev, i), p) == Streak(history, p)
  {
    PassEventsWithin(rep, sp, prev, i);
    WithinConcerns(PassEvents(rep, sp, prev, i), rep, Involved(sp, prev, i), p);
    StreakIgnoresOthers(history, PassEvents(rep, sp, prev, i), p);
  }

  // ---- A converging pass ------------------------------------------------------------------------------

  ghost predicate NoneFail(es: seq<Event>) { forall e :: e in es ==> !e.Failed? }

  lemma {:induction false} NoFailureNoDelay(base: int, max: int, history: seq<Event>, es: seq<Event>)
    requires NoneFail(es)
    ensures DelaysOf(base, max, history, es) == []
  {
    if es != [] {
      assert es[|es| - 1] in es && forall e :: e in es[..|es| - 1] ==> e in es;
      NoFailureNoDelay(base, max, history, es[..|es| - 1]);
      assert (history + es)[|history + es| - 1] == es[|es| - 1];
    }
  }

  /** Once a pair has succeeded, and without a failure, its streak is over. */
  lemma {:induction false} SuccessEndsStreak(history: seq<Event>, es: seq<Event>, p: Pair)
    requires NoneFail(es) && Succeeded(p) in es
    ensures Streak(history + es, p) == 0
  {
    var front, e := es[..|es| - 1], es[|es| - 1];
    assert es == front + [e] && (history + es)[..|history + es| - 1] == history + front;
    assert (history + es)[|history + es| - 1] == e && e in es;
    if e != Succeeded(p) {
      assert forall x :: x in front ==> x in es;
      SuccessEndsStreak(history, front, p);
    }
  }

  lemma {:induction false} ReadyEvents(rep: string, js: seq<Job>)
    requires forall j :: j in js ==> j.ApplyJob?
    ensures NoneFail(ApplyEvents(rep, js, C.ReadyStates(js)))
    ensures forall c :: c in JobClusters(js) ==> Succeeded(Pair(rep, c)) in ApplyEvents(rep, js, C.ReadyStates(js))
  {
    if js != [] {
      var front, j := js[..|js| - 1], js[|js| - 1];
      assert js == front + [j] && j in js;
      assert C.ReadyStates(js)[..|js| - 1] == C.ReadyStates(front);
      ReadyEvents(rep, front);
    }
  }

  lemma {:induction false} CollectableEvents(rep: string, p: Progress, es: seq<InventoryEntry>, cx: Context)
    requires forall e :: e in es ==> Collectable(e.key, cx)
    ensures NoneFail(CollectEvents(rep, p, es, cx))
  {
    if es != [] {
      assert es[|es| - 1] in es && forall e :: e in es[..|es| - 1] ==> e in es;
      CollectableEvents(rep, p, es[..|es| - 1], cx);
    }
  }

  /** A converging pass leaves no streak on any cluster of its slots and sets no delay, so the Replication is next
      looked at after the resync period. */
  lemma {:induction false} ConvergingPassSetsNoDelay(
    rep: string, sp: Spokes, prev: seq<Decision>, i: Input, history: seq<Event>, base: int, max: int)
    requires C.Reachable(sp, i)
    ensures DelaysOf(base, max, history, PassEvents(rep, sp, prev, i)) == []
    ensures forall k :: k in SlotKeys(i) ==> Streak(history + PassEvents(rep, sp, prev, i), Pair(rep, k.cluster)) == 0
  {
    var js, es := C.Jobs(i), PassEvents(rep, sp, prev, i);
    C.JobsWhenAllowed(prev, i);
    C.ApplyPhase(sp, prev, i);
    assert [] + C.ReadyStates(js) == C.ReadyStates(js);
    ReadyEvents(rep, js);
    var q := C.Applied(sp, i);
    CollectableEvents(rep, q.(inv := Released(q.inv, Uncovered(q.inv, C.SlotSet(i), i.cx.discovered, false))),
                      Uncovered(q.inv, C.SlotSet(i), i.cx.discovered, true), i.cx);
    NoFailureNoDelay(base, max, history, es);
    forall k | k in SlotKeys(i) ensures Streak(history + es, Pair(rep, k.cluster)) == 0 {
      var n :| 0 <= n < |SlotKeys(i)| && SlotKeys(i)[n] == k;
      assert js[n] in js && js[n].key.cluster in JobClusters(js);
      SuccessEndsStreak(history, es, Pair(rep, k.cluster));
    }
  }
}
