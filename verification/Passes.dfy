/** A whole reconcile pass, and a deletion pass, as the engine runs them
    (internal/engine/reconciler.go: Reconcile, collectGarbage, reconcileDeletion). */
module Passes {
  import opened Policies
  import opened Options
  import opened Inventory
  import opened Engine
  import R = Render
  import S = Status
  import T = Targets
  import V = Revocations

  /** What stays fixed while a pass runs: the source, the allowlist, discovery, and the transport's outcomes. */
  datatype Context = Context(
    src: SourceView, hash: R.Hash, kinds: set<GroupKind>, discovered: set<string>,
    slotFaults: SlotKey -> SlotFaults, collectFaults: SlotKey -> CollectFaults)

  /** What a pass has done so far. */
  datatype Progress = Progress(spokes: Spokes, inv: seq<InventoryEntry>, states: seq<S.TargetState>, writes: nat)

  // ---- The apply loop --------------------------------------------------------------------

  datatype Job =
    | ApplyJob(key: SlotKey, options: EffectiveOptions)
    | DenyJob(key: SlotKey, retained: bool, revoked: bool)

  function DenialReason(j: Job, inv: seq<InventoryEntry>): S.Reason
    requires j.DenyJob?
  {
    if j.retained || (j.revoked && HasEntry(inv, j.key)) then S.PolicyRevoked else S.PolicyDenied
  }

  function DoJob(p: Progress, j: Job, cx: Context): Progress {
    match j
    case DenyJob(k, _, _) => p.(states := p.states + [StateAt(k, true, DenialReason(j, p.inv))])
    case ApplyJob(k, eff) =>
      var r := ApplyTarget(p.spokes, p.inv, k, cx.src, eff, cx.slotFaults(k), cx.hash);
      Progress(r.spokes, r.inv, p.states + [r.state], p.writes + r.writes)
  }

  function DoJobs(p: Progress, js: seq<Job>, cx: Context): Progress {
    if js == [] then p else DoJob(DoJobs(p, js[..|js| - 1], cx), js[|js| - 1], cx)
  }

  // ---- Garbage collection ------------------------------------------------------------------

  function Released(inv: seq<InventoryEntry>, es: seq<InventoryEntry>): (r: seq<InventoryEntry>)
    ensures forall e :: e in r <==> e in inv && e.key !in Keys(es)
  {
    if es == [] then inv
    else
      var e := es[|es| - 1];
      assert es == es[..|es| - 1] + [e];
      KeysAppend(es[..|es| - 1], [e]);
      KeysOne(e);
      Remove(Released(inv, es[..|es| - 1]), e.key)
  }

  function CollectOne(p: Progress, k: SlotKey, cx: Context): Progress {
    var r := CollectEntry(p.spokes, p.inv, k, cx.src.uid, cx.kinds, cx.collectFaults(k));
    Progress(r.spokes, r.inv, if r.state.Some? then p.states + [r.state.value] else p.states, p.writes + r.writes)
  }

  function CollectEach(p: Progress, es: seq<InventoryEntry>, cx: Context): Progress {
    if es == [] then p else CollectOne(CollectEach(p, es[..|es| - 1], cx), es[|es| - 1].key, cx)
  }

  /** Releases the entries of vanished clusters, then deletes every other entry that is not kept. */
  function Collected(p: Progress, keep: set<SlotKey>, cx: Context): Progress {
    CollectEach(p.(inv := Released(p.inv, Uncovered(p.inv, keep, cx.discovered, false))),
                Uncovered(p.inv, keep, cx.discovered, true), cx)
  }

  predicate StuckIn(sp: Spokes, k: SlotKey, cx: Context) {
    Stuck(sp, k, cx.src.uid, cx.kinds, cx.collectFaults(k))
  }

  /** What collecting a list of entries has done to the inventory. */
  ghost predicate EntriesCollected(p: Progress, es: seq<InventoryEntry>, q: Progress, cx: Context) {
    forall e :: e in q.inv <==> e in p.inv && (e.key in Keys(es) ==> StuckIn(p.spokes, e.key, cx))
  }

  /** What it has done to the spokes. */
  ghost predicate ObjectsCollected(p: Progress, es: seq<InventoryEntry>, q: Progress, cx: Context) {
    && (forall k :: k !in Keys(es) ==> (k in q.spokes.objects <==> k in p.spokes.objects))
    && (forall k :: k in q.spokes.objects ==> k in p.spokes.objects && q.spokes.objects[k] == p.spokes.objects[k])
    && (forall k :: k in Keys(es) && !StuckIn(p.spokes, k, cx) ==> !Carries(q.spokes, k, cx.src.uid))
    && (forall k :: k in p.spokes.objects && p.spokes.objects[k].sourceUid != cx.src.uid ==> k in q.spokes.objects)
    && q.spokes.namespaces == p.spokes.namespaces && Housed(q.spokes)
  }

  lemma {:induction false} CollectOneMore(
    p: Progress, es: seq<InventoryEntry>, q: Progress, e: InventoryEntry, cx: Context)
    requires cx.src.uid != "" && e.key !in Keys(es)
    requires EntriesCollected(p, es, q, cx) && ObjectsCollected(p, es, q, cx)
    ensures EntriesCollected(p, es + [e], CollectOne(q, e.key, cx), cx)
    ensures ObjectsCollected(p, es + [e], CollectOne(q, e.key, cx), cx)
  {
    var k, f := e.key, cx.collectFaults(e.key);
    KeysAppend(es, [e]);
    KeysOne(e);
    assert Stuck(q.spokes, k, cx.src.uid, cx.kinds, f) == StuckIn(p.spokes, k, cx);
    CollectEntryIsSafe(q.spokes, q.inv, k, cx.src.uid, cx.kinds, f);
    assert EntriesCollected(p, es + [e], CollectOne(q, k, cx), cx);
  }

  lemma {:induction false} CollectEachWorks(p: Progress, es: seq<InventoryEntry>, cx: Context)
    requires cx.src.uid != "" && Housed(p.spokes) && DistinctKeys(es)
    ensures EntriesCollected(p, es, CollectEach(p, es, cx), cx)
    ensures ObjectsCollected(p, es, CollectEach(p, es, cx), cx)
  {
    if es != [] {
      var front, e := es[..|es| - 1], es[|es| - 1];
      CollectEachWorks(p, front, cx);
      assert e.key !in Keys(front);
      CollectOneMore(p, front, CollectEach(p, front, cx), e, cx);
      assert es == front + [e];
    }
  }

  /** Garbage collection accounts for every entry: what remains is exactly the kept entries and the stuck ones;
      what was removed is on a vanished cluster or leaves nothing of this source behind; kept slots and foreign
      objects are untouched. */
  lemma {:induction false} CollectionAccounts(p: Progress, keep: set<SlotKey>, cx: Context)
    requires cx.src.uid != "" && Housed(p.spokes) && DistinctKeys(p.inv)
    ensures var q := Collected(p, keep, cx);
            && (forall e :: e in q.inv <==>
                  e in p.inv && (e.key in keep || (e.key.cluster in cx.discovered && StuckIn(p.spokes, e.key, cx))))
            && (forall e :: e in p.inv && e !in q.inv ==>
                  e.key.cluster !in cx.discovered || !Carries(q.spokes, e.key, cx.src.uid))
            && (forall k :: k in keep || Foreignly(p.spokes, k, cx.src.uid) ==> SameAt(p.spokes, q.spokes, k))
            && Housed(q.spokes) && q.spokes.namespaces == p.spokes.namespaces
  {
    var rel := Uncovered(p.inv, keep, cx.discovered, false);
    var del := Uncovered(p.inv, keep, cx.discovered, true);
    UncoveredDistinct(p.inv, keep, cx.discovered, true);
    var p' := p.(inv := Released(p.inv, rel));
    CollectEachWorks(p', del, cx);
    var q := Collected(p, keep, cx);
    forall e | e in p.inv
      ensures e.key in Keys(rel) <==> e.key !in keep && e.key.cluster !in cx.discovered
      ensures e.key in Keys(del) <==> e.key !in keep && e.key.cluster in cx.discovered
    {
    }
  }

  predicate Foreignly(sp: Spokes, k: SlotKey, uid: string) {
    k in sp.objects && sp.objects[k].sourceUid != uid
  }

  predicate SameAt(sp: Spokes, sp': Spokes, k: SlotKey) {
    (k in sp.objects <==> k in sp'.objects) && (k in sp.objects ==> sp'.objects[k] == sp.objects[k])
  }

  lemma {:induction false} ReleasedDistinct(inv: seq<InventoryEntry>, es: seq<InventoryEntry>)
    requires DistinctKeys(inv)
    ensures DistinctKeys(Released(inv, es))
  {
    if es != [] {
      ReleasedDistinct(inv, es[..|es| - 1]);
      RemoveKeepsDistinct(Released(inv, es[..|es| - 1]), es[|es| - 1].key);
    }
  }

  lemma {:induction false} CollectEachDistinct(p: Progress, es: seq<InventoryEntry>, cx: Context)
    requires DistinctKeys(p.inv)
    ensures DistinctKeys(CollectEach(p, es, cx).inv)
  {
    if es != [] {
      CollectEachDistinct(p, es[..|es| - 1], cx);
      RemoveKeepsDistinct(CollectEach(p, es[..|es| - 1], cx).inv, es[|es| - 1].key);
    }
  }

  lemma {:induction false} CollectedDistinct(p: Progress, keep: set<SlotKey>, cx: Context)
    requires DistinctKeys(p.inv)
    ensures DistinctKeys(Collected(p, keep, cx).inv)
  {
    var rel := Uncovered(p.inv, keep, cx.discovered, false);
    ReleasedDistinct(p.inv, rel);
    CollectEachDistinct(p.(inv := Released(p.inv, rel)), Uncovered(p.inv, keep, cx.discovered, true), cx);
  }

  // ---- Deletion --------------------------------------------------------------------------------

  /** A deletion pass keeps nothing; the finalizer goes when the inventory is empty. */
  function Drained(p: Progress, cx: Context): Progress { Collected(p, {}, cx) }

  /** The check and the delete of an entry both work. */
  predicate Collectable(k: SlotKey, cx: Context) {
    KindOf(k) in cx.kinds && cx.collectFaults(k) == CollectFaults(ReadOk, Lands)
  }

  lemma {:induction false} CollectEachEmpties(p: Progress, es: seq<InventoryEntry>, cx: Context)
    requires forall e :: e in es ==> Collectable(e.key, cx)
    ensures forall e :: e in CollectEach(p, es, cx).inv <==> e in p.inv && e.key !in Keys(es)
    ensures CollectEach(p, es, cx).states == p.states
  {
    if es != [] {
      var front, e := es[..|es| - 1], es[|es| - 1];
      assert es == front + [e];
      CollectEachEmpties(p, front, cx);
      KeysAppend(front, [e]);
      KeysOne(e);
    }
  }

  /** When every inventoried cluster is reachable or gone from discovery and every kind is on the allowlist,
      one deletion pass empties any inventory. */
  lemma {:induction false} DeletionDrains(p: Progress, cx: Context)
    requires forall e :: e in p.inv && e.key.cluster in cx.discovered ==> Collectable(e.key, cx)
    ensures Drained(p, cx).inv == []
  {
    var rel := Uncovered(p.inv, {}, cx.discovered, false);
    var del := Uncovered(p.inv, {}, cx.discovered, true);
    CollectEachEmpties(p.(inv := Released(p.inv, rel)), del, cx);
    var q := Drained(p, cx);
    forall e | e in p.inv
      ensures e.key in Keys(rel) || e.key in Keys(del)
    {
      assert e in rel || e in del;
    }
    NoEntries(q.inv);
  }

  /** An empty inventory after a deletion pass means every replica is accounted for: each recorded slot is on a
      vanished cluster or holds nothing of this source, and conversely a stuck entry keeps the finalizer. */
  lemma {:induction false} FinalizerGoesOnlyWhenDrained(p: Progress, cx: Context)
    requires cx.src.uid != "" && Housed(p.spokes) && DistinctKeys(p.inv)
    ensures Drained(p, cx).inv == [] <==>
            forall e :: e in p.inv && e.key.cluster in cx.discovered ==> !StuckIn(p.spokes, e.key, cx)
    ensures Drained(p, cx).inv == [] ==>
            forall e :: e in p.inv ==>
              e.key.cluster !in cx.discovered || !Carries(Drained(p, cx).spokes, e.key, cx.src.uid)
  {
    CollectionAccounts(p, {}, cx);
    var q := Drained(p, cx);
    if q.inv != [] {
      assert q.inv[0] in q.inv;
    }
  }

  // ---- A whole pass -----------------------------------------------------------------------------

  /** The Replication as read, and everything read beside it. */
  datatype Input = Input(
    targets: seq<T.ResolvedTarget>, status: S.Status, generation: int,
    sourceName: string, kind: GroupKind, meta: Source,
    policies: seq<ReplicationPolicy>, clusters: seq<T.ClusterRecord>, cx: Context, now: S.Time)

  function KeyOfSlot(s: T.Slot, gk: GroupKind): SlotKey {
    SlotKey(s.cluster, s.namespace, s.name, gk.group, gk.kind)
  }

  function SlotKeys(i: Input): (ks: seq<SlotKey>)
    ensures |ks| == |Decisions(i)|
  {
    T.SlotsFollowPairs(i.targets, i.sourceName);
    var slots := T.SlotsOf(i.targets, i.sourceName);
    seq(|slots|, j requires 0 <= j < |slots| => KeyOfSlot(slots[j], i.kind))
  }

  function Decisions(i: Input): (ds: seq<Decision>)
    ensures |ds| == |T.Pairs(i.targets)|
  {
    Evaluated(i.meta, T.EngineTargets(T.Pairs(i.targets), i.clusters), i.policies)
  }

  /** Placeholders for the allowed slots that have no entry yet. */
  function Planned(inv: seq<InventoryEntry>, ks: seq<SlotKey>, ds: seq<Decision>): (r: seq<InventoryEntry>)
    requires |ks| == |ds|
  {
    if ks == [] then inv
    else
      var n := |ks| - 1;
      var rest := Planned(inv, ks[..n], ds[..n]);
      if ds[n].allowed && !HasEntry(rest, ks[n]) then rest + [InventoryEntry(ks[n], "")] else rest
  }

  function AllowedKeys(ks: seq<SlotKey>, ds: seq<Decision>): set<SlotKey>
    requires |ks| == |ds|
  {
    set j | 0 <= j < |ks| && ds[j].allowed :: ks[j]
  }

  /** Planning adds an entry for exactly the allowed slots that lack one, and loses none. */
  lemma {:induction false} PlanningAdds(inv: seq<InventoryEntry>, ks: seq<SlotKey>, ds: seq<Decision>)
    requires |ks| == |ds|
    ensures DistinctKeys(inv) ==> DistinctKeys(Planned(inv, ks, ds))
    ensures Keys(Planned(inv, ks, ds)) == Keys(inv) + AllowedKeys(ks, ds)
    ensures AllowedKeys(ks, ds) <= Keys(inv) ==> Planned(inv, ks, ds) == inv
    ensures forall e :: e in inv ==> e in Planned(inv, ks, ds)
  {
    if ks != [] {
      var n := |ks| - 1;
      PlanningAdds(inv, ks[..n], ds[..n]);
      var rest, e := Planned(inv, ks[..n], ds[..n]), InventoryEntry(ks[n], "");
      AllowedStep(ks, ds);
      KeysAppend(rest, [e]);
      KeysOne(e);
      if DistinctKeys(rest) && ks[n] !in Keys(rest) {
        AppendDistinct(rest, e);
      }
    }
  }

  lemma {:induction false} AllowedStep(ks: seq<SlotKey>, ds: seq<Decision>)
    requires |ks| == |ds| > 0
    ensures var n := |ks| - 1;
            AllowedKeys(ks, ds) == AllowedKeys(ks[..n], ds[..n]) + (if ds[n].allowed then {ks[n]} else {})
  {
    var n := |ks| - 1;
    forall k | k in AllowedKeys(ks, ds)
      ensures k in AllowedKeys(ks[..n], ds[..n]) || (ds[n].allowed && k == ks[n])
    {
      var j :| 0 <= j < |ks| && ds[j].allowed && ks[j] == k;
      if j < n { assert ds[..n][j].allowed && ks[..n][j] == k; }
    }
    forall k | k in AllowedKeys(ks[..n], ds[..n]) ensures k in AllowedKeys(ks, ds) {
      var j :| 0 <= j < n && ds[..n][j].allowed && ks[..n][j] == k;
      assert ds[j].allowed && ks[j] == k;
    }
  }

  function JobFor(
    k: SlotKey, d: Decision, ps: seq<ReplicationPolicy>, retained: set<SlotKey>, deleted: set<NsKey>): Job
  {
    if d.allowed then ApplyJob(k, Resolved(ByName(ps, d.matched)))
    else DenyJob(k, k in retained, NsOf(k) in deleted)
  }

  function JobsFor(
    ks: seq<SlotKey>, ds: seq<Decision>, ps: seq<ReplicationPolicy>, retained: set<SlotKey>,
    deleted: set<NsKey>): (js: seq<Job>)
    requires |ks| == |ds|
    ensures |js| == |ks|
  {
    seq(|ks|, j requires 0 <= j < |ks| => JobFor(ks[j], ds[j], ps, retained, deleted))
  }

  function PassRevocations(prev: seq<Decision>, i: Input): seq<Revocation> {
    V.Effective(prev, Decisions(i), i.status.inventory)
  }

  function PassRetained(prev: seq<Decision>, i: Input): set<SlotKey> {
    V.RetainedKeys(PassRevocations(prev, i), i.policies, i.meta, i.status.inventory)
  }

  function PassJobs(prev: seq<Decision>, i: Input): seq<Job> {
    JobsFor(SlotKeys(i), Decisions(i), i.policies, PassRetained(prev, i),
            V.DeletedNamespaces(PassRevocations(prev, i), i.policies, i.meta, i.status.inventory))
  }

  function PassKeep(prev: seq<Decision>, i: Input): set<SlotKey> {
    PassRetained(prev, i) + AllowedKeys(SlotKeys(i), Decisions(i))
  }

  function PassPlan(i: Input): seq<InventoryEntry> {
    Planned(i.status.inventory, SlotKeys(i), Decisions(i))
  }

  /** The spokes, inventory and states at the end of a pass over sp. */
  function PassWork(sp: Spokes, prev: seq<Decision>, i: Input): Progress {
    Collected(DoJobs(Progress(sp, PassPlan(i), [], 0), PassJobs(prev, i), i.cx), PassKeep(prev, i), i.cx)
  }

  /** How far a pass has come that is cut short after m slots, or after all slots and n collected entries. */
  function PassPart(sp: Spokes, prev: seq<Decision>, i: Input, m: nat, n: nat): Progress {
    var start, js := Progress(sp, PassPlan(i), [], 0), PassJobs(prev, i);
    if m < |js| then DoJobs(start, js[..m], i.cx)
    else
      var q := DoJobs(start, js, i.cx);
      var del := Uncovered(q.inv, PassKeep(prev, i), i.cx.discovered, true);
      CollectEach(q.(inv := Released(q.inv, Uncovered(q.inv, PassKeep(prev, i), i.cx.discovered, false))),
                  if n < |del| then del[..n] else del, i.cx)
  }

  function PassOutcome(sp: Spokes, prev: seq<Decision>, i: Input): S.Outcome {
    var w := PassWork(sp, prev, i);
    S.Outcome(i.cx.hash(i.cx.src.payload), w.states, w.inv,
              V.AnyRetained(PassRevocations(prev, i), i.policies, i.meta, i.status.inventory), i.generation, false)
  }

  function PassStatus(sp: Spokes, prev: seq<Decision>, i: Input): S.Status {
    S.Built(i.status, PassOutcome(sp, prev, i), i.now)
  }
}
