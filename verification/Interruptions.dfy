/** Passes that are cut short (internal/engine/reconciler.go): what a pass has not changed when it ends, it has not
    changed on the way either. */
module Interruptions {
  import opened Policies
  import opened Options
  import opened Inventory
  import opened Engine
  import opened Passes
  import opened Retention
  import C = Convergence

  lemma {:induction false} JobsSplit(p: Progress, a: seq<Job>, b: seq<Job>, cx: Context)
    ensures DoJobs(p, a + b, cx) == DoJobs(DoJobs(p, a, cx), b, cx)
  {
    if b == [] {
      assert a + b == a;
    } else {
      assert (a + b)[..|a + b| - 1] == a + b[..|b| - 1];
      JobsSplit(p, a, b[..|b| - 1], cx);
    }
  }

  lemma {:induction false} CollectionSplit(p: Progress, a: seq<InventoryEntry>, b: seq<InventoryEntry>, cx: Context)
    ensures CollectEach(p, a + b, cx) == CollectEach(CollectEach(p, a, cx), b, cx)
  {
    if b == [] {
      assert a + b == a;
    } else {
      assert (a + b)[..|a + b| - 1] == a + b[..|b| - 1];
      CollectionSplit(p, a, b[..|b| - 1], cx);
    }
  }

  /** Namespaces are only ever added. */
  lemma {:induction false} JobsAddNamespaces(p: Progress, js: seq<Job>, cx: Context)
    requires cx.src.uid != "" && Housed(p.spokes)
    ensures p.spokes.namespaces <= DoJobs(p, js, cx).spokes.namespaces && Housed(DoJobs(p, js, cx).spokes)
  {
    if js != [] {
      JobsAddNamespaces(p, js[..|js| - 1], cx);
      var q, j := DoJobs(p, js[..|js| - 1], cx), js[|js| - 1];
      if j.ApplyJob? {
        ApplyTargetIsSafe(q.spokes, q.inv, j.key, cx.src, j.options, cx.slotFaults(j.key), cx.hash);
      }
    }
  }

  lemma {:induction false} OneJobPerTarget(prev: seq<Decision>, i: Input)
    requires DistinctTargets(Decisions(i))
    ensures C.OneJobPerSlot(PassJobs(prev, i))
  {
    var js := PassJobs(prev, i);
    forall m, n | 0 <= m < n < |js| ensures js[m].key != js[n].key {
      SlotTarget(i, m);
      SlotTarget(i, n);
    }
  }

  /** The slot is applied by one of these jobs. */
  ghost predicate AppliedBy(js: seq<Job>, k: SlotKey) { exists j :: j in js && j.ApplyJob? && j.key == k }

  lemma {:induction false} AppliedOnce(js: seq<Job>, m: nat, k: SlotKey)
    requires C.OneJobPerSlot(js) && m <= |js| && AppliedBy(js[..m], k)
    ensures Spared(js[m..], k)
  {
    var j :| j in js[..m] && j.ApplyJob? && j.key == k;
    var a :| 0 <= a < m && js[..m][a] == j;
    forall x | x in js[m..] && x.ApplyJob? ensures x.key != k {
      var b :| 0 <= b < |js[m..]| && js[m..][b] == x;
      assert js[a].key != js[m + b].key;
    }
  }

  /** The slots a pass applies are kept by its collection. */
  lemma {:induction false} AppliedIsKept(prev: seq<Decision>, i: Input, k: SlotKey)
    requires AppliedBy(PassJobs(prev, i), k)
    ensures k in PassKeep(prev, i)
  {
    var js := PassJobs(prev, i);
    var j :| j in js && j.ApplyJob? && j.key == k;
    var n :| 0 <= n < |js| && js[n] == j;
    assert Decisions(i)[n].allowed && SlotKeys(i)[n] == k;
  }

  function AfterJobs(sp: Spokes, prev: seq<Decision>, i: Input, m: nat): Progress
    requires m <= |PassJobs(prev, i)|
  {
    DoJobs(Progress(sp, PassPlan(i), [], 0), PassJobs(prev, i)[..m], i.cx)
  }

  lemma {:induction false} AllJobs(sp: Spokes, prev: seq<Decision>, i: Input, m: nat)
    requires m <= |PassJobs(prev, i)|
    ensures AfterJobs(sp, prev, i, |PassJobs(prev, i)|)
            == DoJobs(AfterJobs(sp, prev, i, m), PassJobs(prev, i)[m..], i.cx)
    ensures PassWork(sp, prev, i) == Collected(AfterJobs(sp, prev, i, |PassJobs(prev, i)|), PassKeep(prev, i), i.cx)
  {
    JobsFrom(Progress(sp, PassPlan(i), [], 0), PassJobs(prev, i), m, i.cx);
  }

  lemma {:induction false} JobsFrom(p: Progress, js: seq<Job>, m: nat, cx: Context)
    requires m <= |js|
    ensures js[..|js|] == js && DoJobs(p, js, cx) == DoJobs(DoJobs(p, js[..m], cx), js[m..], cx)
  {
    JobsSplit(p, js[..m], js[m..], cx);
    assert js[..m] + js[m..] == js;
  }

  lemma {:induction false} JobOf(prev: seq<Decision>, i: Input, n: nat)
    requires n < |SlotKeys(i)| && Decisions(i)[n].allowed
    ensures PassJobs(prev, i)[n] == ApplyJob(SlotKeys(i)[n], C.OptionsAt(i, n)) && SlotKeys(i)[n] in PassKeep(prev, i)
  {}

  lemma {:induction false} NextJobIs(p: Progress, js: seq<Job>, n: nat, cx: Context)
    requires n < |js|
    ensures DoJobs(p, js[..n + 1], cx) == DoJob(DoJobs(p, js[..n], cx), js[n], cx)
  {
    assert js[..n + 1][..n] == js[..n];
  }

  lemma {:induction false} JobsKeepSound(sp: Spokes, prev: seq<Decision>, i: Input, m: nat)
    requires Sound(sp, prev, i) && m <= |PassJobs(prev, i)|
    ensures var q := AfterJobs(sp, prev, i, m);
            Housed(q.spokes) && DistinctKeys(q.inv) && sp.namespaces <= q.spokes.namespaces
  {
    PlanningAdds(i.status.inventory, SlotKeys(i), Decisions(i));
    var p := Progress(sp, PassPlan(i), [], 0);
    JobsAddNamespaces(p, PassJobs(prev, i)[..m], i.cx);
    JobsKeepDistinct(p, PassJobs(prev, i)[..m], i.cx);
  }

  /** Once applied, a slot is as the pass leaves it. */
  lemma {:induction false} AppliedSlotIsFinal(sp: Spokes, prev: seq<Decision>, i: Input, m: nat, k: SlotKey)
    requires Sound(sp, prev, i) && m <= |PassJobs(prev, i)| && AppliedBy(PassJobs(prev, i)[..m], k)
    ensures SameAt(AfterJobs(sp, prev, i, m).spokes, PassWork(sp, prev, i).spokes, k)
  {
    var js := PassJobs(prev, i);
    OneJobPerTarget(prev, i);
    AppliedOnce(js, m, k);
    assert AppliedBy(js, k) by { assert forall j :: j in js[..m] ==> j in js; }
    AppliedIsKept(prev, i, k);
    AllJobs(sp, prev, i, m);
    JobsKeepSound(sp, prev, i, m);
    JobsKeepSound(sp, prev, i, |js|);
    JobsSpare(AfterJobs(sp, prev, i, m), js[m..], i.cx, k);
    CollectionAccounts(AfterJobs(sp, prev, i, |js|), PassKeep(prev, i), i.cx);
  }

  /** Before it is applied, a slot is as the pass found it. */
  lemma {:induction false} UnappliedSlotIsInitial(sp: Spokes, prev: seq<Decision>, i: Input, m: nat, k: SlotKey)
    requires Sound(sp, prev, i) && m <= |PassJobs(prev, i)| && !AppliedBy(PassJobs(prev, i)[..m], k)
    ensures SameAt(sp, AfterJobs(sp, prev, i, m).spokes, k)
  {
    PlanningAdds(i.status.inventory, SlotKeys(i), Decisions(i));
    JobsSpare(Progress(sp, PassPlan(i), [], 0), PassJobs(prev, i)[..m], i.cx, k);
  }

  lemma {:induction false} SpokesEqual(a: Spokes, b: Spokes)
    requires a.namespaces == b.namespaces && forall k :: SameAt(a, b, k)
    ensures a == b
  {
    assert a.objects.Keys == b.objects.Keys by {
      forall k ensures k in a.objects <==> k in b.objects { assert SameAt(a, b, k); }
    }
    forall k | k in a.objects ensures a.objects[k] == b.objects[k] { assert SameAt(a, b, k); }
    assert a.objects == b.objects;
  }

  lemma {:induction false} NamespacesBetween(sp: Spokes, prev: seq<Decision>, i: Input, m: nat)
    requires Sound(sp, prev, i) && m <= |PassJobs(prev, i)|
    ensures AfterJobs(sp, prev, i, m).spokes.namespaces <= PassWork(sp, prev, i).spokes.namespaces
  {
    var js := PassJobs(prev, i);
    AllJobs(sp, prev, i, m);
    JobsKeepSound(sp, prev, i, m);
    JobsKeepSound(sp, prev, i, |js|);
    JobsAddNamespaces(AfterJobs(sp, prev, i, m), js[m..], i.cx);
    CollectionAccounts(AfterJobs(sp, prev, i, |js|), PassKeep(prev, i), i.cx);
  }

  /** A pass that leaves the spokes as they were has left them so after every slot. */
  lemma {:induction false} StillAfterJobs(sp: Spokes, prev: seq<Decision>, i: Input, m: nat)
    requires Sound(sp, prev, i) && m <= |PassJobs(prev, i)| && PassWork(sp, prev, i).spokes == sp
    ensures AfterJobs(sp, prev, i, m).spokes == sp
  {
    var q := AfterJobs(sp, prev, i, m);
    forall k ensures SameAt(sp, q.spokes, k) {
      if AppliedBy(PassJobs(prev, i)[..m], k) {
        AppliedSlotIsFinal(sp, prev, i, m, k);
      } else {
        UnappliedSlotIsInitial(sp, prev, i, m, k);
      }
    }
    JobsKeepSound(sp, prev, i, m);
    NamespacesBetween(sp, prev, i, m);
    SpokesEqual(sp, q.spokes);
  }

  /** The first holds nothing that the second does not. */
  ghost predicate Within(a: Spokes, b: Spokes) {
    && a.namespaces == b.namespaces
    && forall k :: k in a.objects ==> k in b.objects && a.objects[k] == b.objects[k]
  }

  lemma {:induction false} BothWithin(a: Spokes, b: Spokes)
    requires Within(a, b) && Within(b, a)
    ensures a == b
  {
    assert a.objects.Keys == b.objects.Keys;
    assert a.objects == b.objects;
  }

  lemma {:induction false} CollectionShrinks(p: Progress, es: seq<InventoryEntry>, cx: Context)
    requires cx.src.uid != "" && Housed(p.spokes) && DistinctKeys(es)
    ensures Within(CollectEach(p, es, cx).spokes, p.spokes) && Housed(CollectEach(p, es, cx).spokes)
  {
    CollectEachWorks(p, es, cx);
  }

  lemma {:induction false} PartsDistinct(es: seq<InventoryEntry>, n: nat)
    requires DistinctKeys(es) && n <= |es|
    ensures DistinctKeys(es[..n]) && DistinctKeys(es[n..]) && es[..n] + es[n..] == es
  {}

  /** A collection that removes nothing has removed nothing on the way. */
  lemma {:induction false} StillWhileCollecting(p: Progress, es: seq<InventoryEntry>, n: nat, cx: Context)
    requires cx.src.uid != "" && Housed(p.spokes) && DistinctKeys(es) && n <= |es|
    requires CollectEach(p, es, cx).spokes == p.spokes
    ensures CollectEach(p, es[..n], cx).spokes == p.spokes
  {
    PartsDistinct(es, n);
    CollectionSplit(p, es[..n], es[n..], cx);
    CollectionShrinks(p, es[..n], cx);
    CollectionShrinks(CollectEach(p, es[..n], cx), es[n..], cx);
    BothWithin(CollectEach(p, es[..n], cx).spokes, p.spokes);
  }

  function CollectedPart(q: Progress, keep: set<SlotKey>, cx: Context, n: nat): Progress {
    var del := Uncovered(q.inv, keep, cx.discovered, true);
    CollectEach(q.(inv := Released(q.inv, Uncovered(q.inv, keep, cx.discovered, false))),
                if n < |del| then del[..n] else del, cx)
  }

  lemma {:induction false} StillCollection(q: Progress, keep: set<SlotKey>, cx: Context, n: nat)
    requires cx.src.uid != "" && Housed(q.spokes) && DistinctKeys(q.inv) && Collected(q, keep, cx).spokes == q.spokes
    ensures CollectedPart(q, keep, cx, n).spokes == q.spokes
  {
    var del := Uncovered(q.inv, keep, cx.discovered, true);
    UncoveredDistinct(q.inv, keep, cx.discovered, true);
    if n < |del| {
      StillWhileCollecting(q.(inv := Released(q.inv, Uncovered(q.inv, keep, cx.discovered, false))), del, n, cx);
    }
  }

  lemma {:induction false} PartIs(sp: Spokes, prev: seq<Decision>, i: Input, m: nat, n: nat)
    ensures PassPart(sp, prev, i, m, n)
            == if m < |PassJobs(prev, i)| then AfterJobs(sp, prev, i, m)
               else CollectedPart(AfterJobs(sp, prev, i, |PassJobs(prev, i)|), PassKeep(prev, i), i.cx, n)
  {
    assert PassJobs(prev, i)[..|PassJobs(prev, i)|] == PassJobs(prev, i);
  }

  /** Wherever it is cut short, a pass that would leave the spokes as they were has left them so. */
  lemma {:induction false} StillThroughout(sp: Spokes, prev: seq<Decision>, i: Input, m: nat, n: nat)
    requires Sound(sp, prev, i) && PassWork(sp, prev, i).spokes == sp
    ensures PassPart(sp, prev, i, m, n).spokes == sp
  {
    var all := |PassJobs(prev, i)|;
    PartIs(sp, prev, i, m, n);
    if m < all {
      StillAfterJobs(sp, prev, i, m);
    } else {
      StillAfterJobs(sp, prev, i, all);
      JobsKeepSound(sp, prev, i, all);
      AllJobs(sp, prev, i, all);
      StillCollection(AfterJobs(sp, prev, i, all), PassKeep(prev, i), i.cx, n);
    }
  }

  // ---- What stays well formed --------------------------------------------------------------------------

  lemma {:induction false} JobsStayHoused(sp: Spokes, prev: seq<Decision>, i: Input, m: nat)
    requires i.cx.src.uid != "" && Housed(sp) && DistinctKeys(i.status.inventory) && m <= |PassJobs(prev, i)|
    ensures Housed(AfterJobs(sp, prev, i, m).spokes) && DistinctKeys(AfterJobs(sp, prev, i, m).inv)
  {
    PlanningAdds(i.status.inventory, SlotKeys(i), Decisions(i));
    JobsAddNamespaces(Progress(sp, PassPlan(i), [], 0), PassJobs(prev, i)[..m], i.cx);
    JobsKeepDistinct(Progress(sp, PassPlan(i), [], 0), PassJobs(prev, i)[..m], i.cx);
  }

  lemma {:induction false} PassStaysHoused(sp: Spokes, prev: seq<Decision>, i: Input, m: nat, n: nat)
    requires i.cx.src.uid != "" && Housed(sp) && DistinctKeys(i.status.inventory)
    ensures Housed(PassWork(sp, prev, i).spokes) && Housed(PassPart(sp, prev, i, m, n).spokes)
  {
    var all := |PassJobs(prev, i)|;
    PartIs(sp, prev, i, m, n);
    AllJobs(sp, prev, i, all);
    JobsStayHoused(sp, prev, i, all);
    CollectionAccounts(AfterJobs(sp, prev, i, all), PassKeep(prev, i), i.cx);
    if m < all {
      JobsStayHoused(sp, prev, i, m);
    } else {
      CollectionStaysHoused(AfterJobs(sp, prev, i, all), PassKeep(prev, i), i.cx, n);
    }
  }

  lemma {:induction false} CollectionStaysHoused(q: Progress, keep: set<SlotKey>, cx: Context, n: nat)
    requires cx.src.uid != "" && Housed(q.spokes) && DistinctKeys(q.inv)
    ensures Housed(CollectedPart(q, keep, cx, n).spokes)
  {
    var del := Uncovered(q.inv, keep, cx.discovered, true);
    UncoveredDistinct(q.inv, keep, cx.discovered, true);
    CollectionShrinks(q.(inv := Released(q.inv, Uncovered(q.inv, keep, cx.discovered, false))),
                        if n < |del| then del[..n] else del, cx);
  }
}
