/** Convergence of the engine: one pass over reachable clusters leaves every slot with the source's content and
    marks and the inventory equal to the slots; the next pass is silent (internal/engine/reconciler.go). */
module Convergence {
  import opened Policies
  import opened Options
  import opened Inventory
  import opened Engine
  import opened Passes
  import R = Render
  import Ret = Retention
  import S = Status
  import V = Revocations

  predicate ReadsWork(f: SlotFaults) { f.namespaceRead.ReadOk? && f.read.ReadOk? }

  /** Writing the slot works; a write rejected for an immutable field is recovered by recreating. */
  predicate WritesWork(f: SlotFaults, present: bool) {
    f.write.Lands? || (present && f.write.Invalid? && f.del.Lands? && f.rewrite.Lands?)
  }

  /** Nothing is left to do: both marks, annotation and content at the source's hash, in an existing namespace. */
  predicate AtRest(sp: Spokes, k: SlotKey, cx: Context) { InSync(sp, k, cx.src, cx.hash) && NsOf(k) in sp.namespaces }

  /** The slot can be read; it is at rest already, or it is empty or ours, however its marks and content were edited,
      can be written, and its namespace exists or may be and is created. */
  predicate Eligible(sp: Spokes, k: SlotKey, eff: EffectiveOptions, cx: Context) {
    var f := cx.slotFaults(k);
    && ReadsWork(f)
    && (k in sp.objects ==> sp.objects[k].sourceUid == cx.src.uid)
    && (|| AtRest(sp, k, cx)
        || (&& WritesWork(f, k in sp.objects)
            && (NsOf(k) in sp.namespaces || (eff.allowNamespaceCreation && f.namespaceWrite.Lands?))))
  }

  function HashOf(cx: Context): string { cx.hash(cx.src.payload) }

  /** What converging an eligible slot leaves there. */
  function Restored(sp: Spokes, k: SlotKey, cx: Context): R.Replica {
    if InSync(sp, k, cx.src, cx.hash) then sp.objects[k] else Desired(cx.src, cx.hash)
  }

  /** The replica was edited into another payload with the same hash, its marks and hash annotation intact. */
  predicate Masked(sp: Spokes, k: SlotKey, cx: Context) {
    InSync(sp, k, cx.src, cx.hash) && sp.objects[k].payload != cx.src.payload
  }

  /** The slot holds exactly what the source renders to. */
  predicate Exact(sp: Spokes, k: SlotKey, cx: Context) {
    k in sp.objects && sp.objects[k] == Desired(cx.src, cx.hash)
  }

  // ---- One slot ---------------------------------------------------------------------------

  lemma {:induction false} SlotConverges(p: Progress, k: SlotKey, eff: EffectiveOptions, cx: Context)
    requires cx.src.uid != "" && Housed(p.spokes) && Eligible(p.spokes, k, eff, cx)
    ensures var q := DoJob(p, ApplyJob(k, eff), cx);
            && q.spokes.objects == p.spokes.objects[k := Restored(p.spokes, k, cx)]
            && q.spokes.namespaces == p.spokes.namespaces + {NsOf(k)}
            && q.inv == Upsert(p.inv, InventoryEntry(k, HashOf(cx)))
            && q.states == p.states + [StateAt(k, true, S.Unset)]
  {
    var sp' := p.spokes.(namespaces := p.spokes.namespaces + {NsOf(k)});
    if NsOf(k) in p.spokes.namespaces { assert sp' == p.spokes; }
    ConvergeWorks(sp', p.inv, k, eff, cx);
  }

  lemma {:induction false} ConvergeWorks(
    sp: Spokes, inv: seq<InventoryEntry>, k: SlotKey, eff: EffectiveOptions, cx: Context)
    requires cx.src.uid != "" && Eligible(sp, k, eff, cx)
    ensures var r := Converge(sp, inv, k, cx.src, eff, cx.slotFaults(k), cx.hash);
            && r.spokes.objects == sp.objects[k := Restored(sp, k, cx)]
            && r.spokes.namespaces == sp.namespaces
            && r.inv == Upsert(inv, InventoryEntry(k, HashOf(cx)))
            && r.state == StateAt(k, true, S.Unset)
  {
    var f, desired := cx.slotFaults(k), Desired(cx.src, cx.hash);
    if InSync(sp, k, cx.src, cx.hash) {
      assert sp.objects == sp.objects[k := sp.objects[k]];
    } else if k in sp.objects {
      assert ApplyWithRecreate(sp, k, desired, f).spokes.objects == sp.objects[k := desired];
    }
  }

  /** Whatever the hash function is: the slot ends with the source's own content, exactly unless it was masked. */
  lemma {:induction false} SlotIsExactIff(p: Progress, k: SlotKey, eff: EffectiveOptions, cx: Context)
    requires cx.src.uid != "" && Housed(p.spokes) && Eligible(p.spokes, k, eff, cx)
    ensures Exact(DoJob(p, ApplyJob(k, eff), cx).spokes, k, cx) <==> !Masked(p.spokes, k, cx)
  {
    SlotConverges(p, k, eff, cx);
  }

  lemma {:induction false} SlotRests(p: Progress, k: SlotKey, eff: EffectiveOptions, cx: Context)
    requires cx.src.uid != "" && ReadsWork(cx.slotFaults(k)) && AtRest(p.spokes, k, cx)
    ensures DoJob(p, ApplyJob(k, eff), cx)
            == Progress(p.spokes, Upsert(p.inv, InventoryEntry(k, HashOf(cx))),
                        p.states + [StateAt(k, true, S.Unset)], p.writes)
  {}

  // ---- The inventory of a converging pass -------------------------------------------------------

  /** The entries of these keys brought to one hash. */
  function Refreshed(inv: seq<InventoryEntry>, ks: set<SlotKey>, h: string): (r: seq<InventoryEntry>)
    ensures |r| == |inv|
    ensures forall n :: 0 <= n < |inv| ==> r[n] == if inv[n].key in ks then InventoryEntry(inv[n].key, h) else inv[n]
  {
    seq(|inv|, n requires 0 <= n < |inv| => if inv[n].key in ks then InventoryEntry(inv[n].key, h) else inv[n])
  }

  lemma {:induction false} RefreshedKeys(inv: seq<InventoryEntry>, ks: set<SlotKey>, h: string)
    ensures Keys(Refreshed(inv, ks, h)) == Keys(inv)
    ensures DistinctKeys(inv) ==> DistinctKeys(Refreshed(inv, ks, h))
  {
    var r := Refreshed(inv, ks, h);
    forall k | k in Keys(inv) ensures k in Keys(r) {
      var n :| 0 <= n < |inv| && inv[n].key == k;
      assert r[n] in r;
    }
    forall k | k in Keys(r) ensures k in Keys(inv) {
      var n :| 0 <= n < |r| && r[n].key == k;
      assert inv[n] in inv;
    }
  }

  lemma {:induction false} RefreshOneMore(inv: seq<InventoryEntry>, ks: set<SlotKey>, k: SlotKey, h: string)
    requires DistinctKeys(inv) && k in Keys(inv)
    ensures Upsert(Refreshed(inv, ks, h), InventoryEntry(k, h)) == Refreshed(inv, ks + {k}, h)
  {
    var r, goal, e := Refreshed(inv, ks, h), Refreshed(inv, ks + {k}, h), InventoryEntry(k, h);
    var n :| 0 <= n < |inv| && inv[n].key == k;
    UpsertAt(r, n, e);
    forall m | 0 <= m < |inv| ensures r[n := e][m] == goal[m] {
      assert m != n ==> inv[m].key != k;
    }
  }

  // ---- The apply loop ---------------------------------------------------------------------------

  function JobKeys(js: seq<Job>): set<SlotKey> { set j | j in js :: j.key }

  lemma {:induction false} JobKeysAppend(js: seq<Job>, j: Job)
    ensures JobKeys(js + [j]) == JobKeys(js) + {j.key}
  {
    assert forall x :: x in js + [j] <==> x in js || x == j;
  }

  ghost predicate OneJobPerSlot(js: seq<Job>) {
    forall m, n :: 0 <= m < n < |js| ==> js[m].key != js[n].key
  }

  function ReadyStates(js: seq<Job>): seq<S.TargetState> {
    seq(|js|, n requires 0 <= n < |js| => StateAt(js[n].key, true, S.Unset))
  }

  /** What the first jobs of a converging pass have achieved. */
  ghost predicate Settled(p: Progress, js: seq<Job>, q: Progress, cx: Context) {
    && (forall k :: k in JobKeys(js) ==>
          AtRest(q.spokes, k, cx) && q.spokes.objects[k] == Restored(p.spokes, k, cx))
    && (forall k :: k !in JobKeys(js) ==> SameAt(p.spokes, q.spokes, k))
    && p.spokes.namespaces <= q.spokes.namespaces && Housed(q.spokes)
    && q.inv == Refreshed(p.inv, JobKeys(js), HashOf(cx))
    && q.states == p.states + ReadyStates(js)
  }

  lemma {:induction false} SettleOneMore(p: Progress, js: seq<Job>, q: Progress, j: Job, cx: Context)
    requires cx.src.uid != "" && DistinctKeys(p.inv)
    requires j.ApplyJob? && j.key in Keys(p.inv) && j.key !in JobKeys(js) && Eligible(p.spokes, j.key, j.options, cx)
    requires Settled(p, js, q, cx)
    ensures Settled(p, js + [j], DoJob(q, j, cx), cx)
  {
    assert SameAt(p.spokes, q.spokes, j.key);
    SlotConverges(q, j.key, j.options, cx);
    RefreshOneMore(p.inv, JobKeys(js), j.key, HashOf(cx));
    JobKeysAppend(js, j);
    assert ReadyStates(js + [j]) == ReadyStates(js) + [StateAt(j.key, true, S.Unset)];
  }

  lemma {:induction false} JobsSettle(p: Progress, js: seq<Job>, cx: Context)
    requires cx.src.uid != "" && DistinctKeys(p.inv) && Housed(p.spokes)
    requires OneJobPerSlot(js) && JobKeys(js) <= Keys(p.inv)
    requires forall j :: j in js ==> j.ApplyJob? && Eligible(p.spokes, j.key, j.options, cx)
    ensures Settled(p, js, DoJobs(p, js, cx), cx)
  {
    if js != [] {
      var front, j := js[..|js| - 1], js[|js| - 1];
      assert js == front + [j];
      JobKeysAppend(front, j);
      assert j in js && forall x :: x in front ==> x in js;
      JobsSettle(p, front, cx);
      SettleOneMore(p, front, DoJobs(p, front, cx), j, cx);
    } else {
      assert p.inv == Refreshed(p.inv, {}, HashOf(cx));
    }
  }

  function Rested(p: Progress, js: seq<Job>, cx: Context): Progress {
    Progress(p.spokes, Refreshed(p.inv, JobKeys(js), HashOf(cx)), p.states + ReadyStates(js), p.writes)
  }

  lemma {:induction false} RestOneMore(p: Progress, js: seq<Job>, j: Job, cx: Context)
    requires cx.src.uid != "" && DistinctKeys(p.inv)
    requires j.ApplyJob? && j.key in Keys(p.inv) && ReadsWork(cx.slotFaults(j.key)) && AtRest(p.spokes, j.key, cx)
    ensures DoJob(Rested(p, js, cx), j, cx) == Rested(p, js + [j], cx)
  {
    SlotRests(Rested(p, js, cx), j.key, j.options, cx);
    RefreshOneMore(p.inv, JobKeys(js), j.key, HashOf(cx));
    JobKeysAppend(js, j);
    assert ReadyStates(js + [j]) == ReadyStates(js) + [StateAt(j.key, true, S.Unset)];
  }

  ghost predicate Resting(sp: Spokes, js: seq<Job>, cx: Context) {
    forall j :: j in js ==> j.ApplyJob? && ReadsWork(cx.slotFaults(j.key)) && AtRest(sp, j.key, cx)
  }

  /** Slots at rest cost nothing, whatever the outcome of writes would be. */
  lemma {:induction false} JobsRest(p: Progress, js: seq<Job>, cx: Context)
    requires cx.src.uid != "" && DistinctKeys(p.inv) && JobKeys(js) <= Keys(p.inv) && Resting(p.spokes, js, cx)
    ensures DoJobs(p, js, cx) == Rested(p, js, cx)
  {
    if js != [] {
      var front, j := js[..|js| - 1], js[|js| - 1];
      assert js == front + [j];
      JobKeysAppend(front, j);
      assert j in js && forall x :: x in front ==> x in js;
      JobsRest(p, front, cx);
      RestOneMore(p, front, j, cx);
    } else {
      assert p.inv == Refreshed(p.inv, {}, HashOf(cx));
      assert p.states == p.states + ReadyStates([]);
    }
  }

  // ---- Nothing is revoked while everything is allowed --------------------------------------------------

  lemma {:induction false} NothingWithdrawn(prev: seq<Decision>, ds: seq<Decision>)
    requires forall d :: d in ds ==> d.allowed
    ensures forall r :: r in Withdrawn(prev, ds) ==> r.current.None?
  {
    if prev != [] {
      NothingWithdrawn(prev[..|prev| - 1], ds);
      LatestAbsent(ds, TargetKey(prev[|prev| - 1].target));
    }
  }

  lemma {:induction false} NothingAdded(revs: seq<Revocation>, ds: seq<Decision>, inv: seq<InventoryEntry>)
    requires forall d :: d in ds ==> d.allowed
    ensures V.Augmented(revs, ds, inv) == revs
  {
    if ds != [] {
      assert ds[|ds| - 1] in ds;
      NothingAdded(revs, ds[..|ds| - 1], inv);
    }
  }

  ghost predicate AllAllowed(i: Input) { forall d :: d in Decisions(i) ==> d.allowed }

  lemma {:induction false} NothingRetained(prev: seq<Decision>, i: Input)
    requires AllAllowed(i)
    ensures PassRetained(prev, i) == {}
    ensures !V.AnyRetained(PassRevocations(prev, i), i.policies, i.meta, i.status.inventory)
  {
    NothingWithdrawn(prev, Decisions(i));
    NothingAdded(Withdrawn(prev, Decisions(i)), Decisions(i), i.status.inventory);
  }

  // ---- The pass ---------------------------------------------------------------------------------------

  ghost predicate DistinctSlots(ks: seq<SlotKey>) {
    forall m, n :: 0 <= m < n < |ks| ==> ks[m] != ks[n]
  }

  function SlotSet(i: Input): set<SlotKey> { set k | k in SlotKeys(i) }

  function OptionsAt(i: Input, n: nat): EffectiveOptions
    requires n < |Decisions(i)|
  {
    Resolved(ByName(i.policies, Decisions(i)[n].matched))
  }

  /** Entries to delete can be deleted. */
  ghost predicate LeftoversCollectable(inv: seq<InventoryEntry>, keep: set<SlotKey>, cx: Context) {
    forall e :: e in inv && e.key !in keep && e.key.cluster in cx.discovered ==> Collectable(e.key, cx)
  }

  /** Every slot is allowed and eligible, and every entry that is no longer desired can be cleaned up or is on a
      vanished cluster. */
  ghost predicate Reachable(sp: Spokes, i: Input) {
    && i.cx.src.uid != "" && Housed(sp)
    && DistinctKeys(i.status.inventory) && DistinctSlots(SlotKeys(i)) && AllAllowed(i)
    && (forall n :: 0 <= n < |SlotKeys(i)| ==> Eligible(sp, SlotKeys(i)[n], OptionsAt(i, n), i.cx))
    && LeftoversCollectable(i.status.inventory, SlotSet(i), i.cx)
  }

  /** The fan-out is complete: content and marks at every slot, and an inventory of exactly the slots. */
  ghost predicate Converged(w: Progress, i: Input) {
    && (forall k :: k in SlotSet(i) ==> AtRest(w.spokes, k, i.cx))
    && Keys(w.inv) == SlotSet(i) && DistinctKeys(w.inv)
    && (forall e :: e in w.inv ==> e.hash == HashOf(i.cx))
    && w.states == ReadyStates(Jobs(i))
  }

  function Jobs(i: Input): (js: seq<Job>)
    ensures |js| == |SlotKeys(i)|
  {
    seq(|SlotKeys(i)|, n requires 0 <= n < |SlotKeys(i)| => ApplyJob(SlotKeys(i)[n], OptionsAt(i, n)))
  }

  lemma {:induction false} JobsWhenAllowed(prev: seq<Decision>, i: Input)
    requires AllAllowed(i)
    ensures PassJobs(prev, i) == Jobs(i)
    ensures PassKeep(prev, i) == AllowedKeys(SlotKeys(i), Decisions(i)) == SlotSet(i) == JobKeys(Jobs(i))
    ensures DistinctSlots(SlotKeys(i)) ==> OneJobPerSlot(Jobs(i))
  {
    var ks, ds, js := SlotKeys(i), Decisions(i), Jobs(i);
    assert forall n :: 0 <= n < |ds| ==> ds[n] in ds;
    NothingRetained(prev, i);
    forall k | k in SlotSet(i) ensures k in AllowedKeys(ks, ds) && k in JobKeys(js) {
      var n :| 0 <= n < |ks| && ks[n] == k;
      assert ds[n].allowed && js[n] in js;
    }
  }

  /** Collecting entries that can all be collected leaves the kept ones, in order and with nothing to report. */
  lemma {:induction false} CollectionSettles(p: Progress, keep: set<SlotKey>, cx: Context)
    requires cx.src.uid != "" && Housed(p.spokes) && DistinctKeys(p.inv)
    requires LeftoversCollectable(p.inv, keep, cx)
    ensures var q := Collected(p, keep, cx);
            && DistinctKeys(q.inv) && q.states == p.states
            && (forall e :: e in q.inv <==> e in p.inv && e.key in keep)
            && (forall k :: k in keep ==> SameAt(p.spokes, q.spokes, k))
            && q.spokes.namespaces == p.spokes.namespaces
  {
    var rel, del := Uncovered(p.inv, keep, cx.discovered, false), Uncovered(p.inv, keep, cx.discovered, true);
    CollectionAccounts(p, keep, cx);
    CollectEachEmpties(p.(inv := Released(p.inv, rel)), del, cx);
    CollectedDistinct(p, keep, cx);
  }

  /** The entries of a refreshed, collected inventory: exactly the slots, all at the current hash. */
  lemma {:induction false} FinalInventory(
    plan: seq<InventoryEntry>, ks: set<SlotKey>, h: string, out: seq<InventoryEntry>)
    requires ks <= Keys(plan)
    requires forall e :: e in out <==> e in Refreshed(plan, ks, h) && e.key in ks
    ensures Keys(out) == ks && forall e :: e in out ==> e.hash == h
  {
    var r := Refreshed(plan, ks, h);
    RefreshedKeys(plan, ks, h);
    forall e | e in out ensures e.hash == h {
      var n :| 0 <= n < |r| && r[n] == e;
    }
    forall k | k in ks ensures k in Keys(out) {
      var e :| e in r && e.key == k;
      assert e in out;
    }
  }

  lemma {:induction false} LeftoversAfterPlan(
    inv: seq<InventoryEntry>, plan: seq<InventoryEntry>, keep: set<SlotKey>, h: string, cx: Context)
    requires Keys(plan) == Keys(inv) + keep && LeftoversCollectable(inv, keep, cx)
    ensures LeftoversCollectable(Refreshed(plan, keep, h), keep, cx)
  {
    RefreshedKeys(plan, keep, h);
    var r := Refreshed(plan, keep, h);
    forall e | e in r && e.key !in keep && e.key.cluster in cx.discovered ensures Collectable(e.key, cx) {
      assert e.key in Keys(r);
      var e' :| e' in inv && e'.key == e.key;
    }
  }

  /** Where a converging pass stands before it collects garbage. */
  function Applied(sp: Spokes, i: Input): Progress { DoJobs(Progress(sp, PassPlan(i), [], 0), Jobs(i), i.cx) }

  lemma {:induction false} ApplyPhase(sp: Spokes, prev: seq<Decision>, i: Input)
    requires Reachable(sp, i)
    ensures PassWork(sp, prev, i) == Collected(Applied(sp, i), SlotSet(i), i.cx)
    ensures Settled(Progress(sp, PassPlan(i), [], 0), Jobs(i), Applied(sp, i), i.cx) && JobKeys(Jobs(i)) == SlotSet(i)
    ensures Keys(Applied(sp, i).inv) == Keys(PassPlan(i)) == Keys(i.status.inventory) + SlotSet(i)
    ensures DistinctKeys(Applied(sp, i).inv) && LeftoversCollectable(Applied(sp, i).inv, SlotSet(i), i.cx)
  {
    var plan, js := PassPlan(i), Jobs(i);
    JobsWhenAllowed(prev, i);
    PlanningAdds(i.status.inventory, SlotKeys(i), Decisions(i));
    forall j | j in js ensures j.ApplyJob? && Eligible(sp, j.key, j.options, i.cx) {
      var n :| 0 <= n < |js| && js[n] == j;
    }
    JobsSettle(Progress(sp, plan, [], 0), js, i.cx);
    RefreshedKeys(plan, SlotSet(i), HashOf(i.cx));
    LeftoversAfterPlan(i.status.inventory, plan, SlotSet(i), HashOf(i.cx), i.cx);
  }

  /** One pass converges, whatever the hash function is: every slot ends with both marks, and annotation and content
      at the source's hash, whatever it held of ours before, and the inventory is exactly the slots at that hash. */
  lemma {:induction false} OnePassConverges(sp: Spokes, prev: seq<Decision>, i: Input)
    requires Reachable(sp, i)
    ensures Converged(PassWork(sp, prev, i), i)
  {
    ApplyPhase(sp, prev, i);
    CollectionSettles(Applied(sp, i), SlotSet(i), i.cx);
    FinalInventory(PassPlan(i), SlotSet(i), HashOf(i.cx), PassWork(sp, prev, i).inv);
    assert [] + ReadyStates(Jobs(i)) == ReadyStates(Jobs(i));
  }

  /** And it ends with the source's own content, exactly unless it held another payload of the same hash under intact
      marks and annotation. */
  lemma {:induction false} FanOutIsExactIff(sp: Spokes, prev: seq<Decision>, i: Input, k: SlotKey)
    requires Reachable(sp, i) && k in SlotSet(i)
    ensures Exact(PassWork(sp, prev, i).spokes, k, i.cx) <==> !Masked(sp, k, i.cx)
  {
    ApplyPhase(sp, prev, i);
    CollectionSettles(Applied(sp, i), SlotSet(i), i.cx);
    assert SameAt(Applied(sp, i).spokes, PassWork(sp, prev, i).spokes, k);
  }

  /** Replicas of ours that are neither allowed nor retained are gone from every discovered cluster where cleaning up
      works, and forgotten only with it; what becomes of the slots does not matter. */
  lemma {:induction false} UndesiredReplicasGo(sp: Spokes, prev: seq<Decision>, i: Input, e: InventoryEntry)
    requires i.cx.src.uid != "" && Housed(sp) && DistinctKeys(i.status.inventory)
    requires e in i.status.inventory && e.key !in PassKeep(prev, i) && e.key.cluster in i.cx.discovered
    requires Collectable(e.key, i.cx)
    ensures !Carries(PassWork(sp, prev, i).spokes, e.key, i.cx.src.uid) && e !in PassWork(sp, prev, i).inv
  {
    Ret.UpToCollection(sp, prev, i, e.key);
    CollectionAccounts(DoJobs(Progress(sp, PassPlan(i), [], 0), PassJobs(prev, i), i.cx), PassKeep(prev, i), i.cx);
  }

  // ---- The next pass -------------------------------------------------------------------------------------

  lemma {:induction false} RefreshedAtHash(inv: seq<InventoryEntry>, ks: set<SlotKey>, h: string)
    requires forall e :: e in inv ==> e.hash == h
    ensures Refreshed(inv, ks, h) == inv
  {
    assert forall n :: 0 <= n < |inv| ==> inv[n] in inv;
  }

  lemma {:induction false} WorkOverConverged(sp: Spokes, inv: seq<InventoryEntry>, js: seq<Job>, cx: Context)
    requires cx.src.uid != "" && DistinctKeys(inv) && Keys(inv) == JobKeys(js) && Resting(sp, js, cx)
    requires forall e :: e in inv ==> e.hash == HashOf(cx)
    ensures Collected(DoJobs(Progress(sp, inv, [], 0), js, cx), JobKeys(js), cx)
            == Progress(sp, inv, ReadyStates(js), 0)
  {
    JobsRest(Progress(sp, inv, [], 0), js, cx);
    RefreshedAtHash(inv, JobKeys(js), HashOf(cx));
    assert [] + ReadyStates(js) == ReadyStates(js);
    NothingUncovered(inv, JobKeys(js), cx.discovered, false);
    NothingUncovered(inv, JobKeys(js), cx.discovered, true);
  }

  lemma {:induction false} JobsAreResting(sp: Spokes, js: seq<Job>, cx: Context)
    requires forall j :: j in js ==> j.ApplyJob?
    requires forall k :: k in JobKeys(js) ==> ReadsWork(cx.slotFaults(k)) && AtRest(sp, k, cx)
    ensures Resting(sp, js, cx)
  {
    forall j | j in js ensures ReadsWork(cx.slotFaults(j.key)) && AtRest(sp, j.key, cx) {
      assert j.key in JobKeys(js);
    }
  }

  /** Over a converged fan-out a pass reads and writes nothing, even where writes would fail. */
  lemma {:induction false} PassOverConverged(w: Progress, prev: seq<Decision>, i: Input)
    requires i.cx.src.uid != "" && AllAllowed(i) && Converged(w, i) && i.status.inventory == w.inv
    requires forall k :: k in SlotSet(i) ==> ReadsWork(i.cx.slotFaults(k))
    ensures PassPlan(i) == w.inv
    ensures PassWork(w.spokes, prev, i) == Progress(w.spokes, w.inv, w.states, 0)
  {
    var js := Jobs(i);
    JobsWhenAllowed(prev, i);
    PlanningAdds(w.inv, SlotKeys(i), Decisions(i));
    JobsAreResting(w.spokes, js, i.cx);
    WorkOverConverged(w.spokes, w.inv, js, i.cx);
  }

  lemma {:induction false} NothingUncovered(
    inv: seq<InventoryEntry>, keep: set<SlotKey>, discovered: set<string>, present: bool)
    requires Keys(inv) <= keep
    ensures Uncovered(inv, keep, discovered, present) == []
  {
    NoEntries(Uncovered(inv, keep, discovered, present));
    assert forall e :: e in inv ==> e.key in Keys(inv);
  }

  /** The same request seen again: the stored status, a later clock, whatever the transport would now answer to
      writes, and the same source. */
  ghost predicate SeenAgain(i: Input, i': Input) {
    && i' == i.(status := i'.status, now := i'.now, cx := i'.cx)
    && i'.cx.src == i.cx.src && i'.cx.hash == i.cx.hash
    && (forall k :: k in SlotSet(i) ==> ReadsWork(i'.cx.slotFaults(k)))
  }

  lemma {:induction false} AllReadyFixpoint(prev: S.Status, o: S.Outcome, now: S.Time, later: S.Time)
    requires forall s :: s in o.states ==> s.ready
    ensures S.Built(S.Built(prev, o, now), o, later) == S.Built(prev, o, now)
  {
    S.NoneFailed(o.states);
    S.StatusFixpointIff(prev, o, now);
  }

  lemma {:induction false} SameRequest(i: Input, i': Input)
    requires SeenAgain(i, i')
    ensures Decisions(i') == Decisions(i) && SlotKeys(i') == SlotKeys(i) && SlotSet(i') == SlotSet(i)
    ensures Jobs(i') == Jobs(i)
  {}

  lemma {:induction false} ConvergedAgain(w: Progress, i: Input, i': Input)
    requires Converged(w, i) && SeenAgain(i, i')
    ensures Converged(w, i')
  {
    SameRequest(i, i');
  }

  lemma {:induction false} WorksAgain(w: Progress, i: Input, prev': seq<Decision>, i': Input)
    requires i.cx.src.uid != "" && AllAllowed(i) && Converged(w, i) && SeenAgain(i, i') && i'.status.inventory == w.inv
    ensures PassPlan(i') == w.inv && PassWork(w.spokes, prev', i') == Progress(w.spokes, w.inv, w.states, 0)
    ensures !V.AnyRetained(PassRevocations(prev', i'), i'.policies, i'.meta, i'.status.inventory)
  {
    SameRequest(i, i');
    ConvergedAgain(w, i, i');
    PassOverConverged(w, prev', i');
    NothingRetained(prev', i');
  }

  /** The outcome of a pass that retains nothing. */
  function PlainOutcome(i: Input, states: seq<S.TargetState>, inv: seq<InventoryEntry>): S.Outcome {
    S.Outcome(HashOf(i.cx), states, inv, false, i.generation, false)
  }

  lemma {:induction false} StatusIs(
    sp: Spokes, prev: seq<Decision>, i: Input, states: seq<S.TargetState>, inv: seq<InventoryEntry>)
    requires PassWork(sp, prev, i).states == states && PassWork(sp, prev, i).inv == inv
    requires !V.AnyRetained(PassRevocations(prev, i), i.policies, i.meta, i.status.inventory)
    ensures PassStatus(sp, prev, i) == S.Built(i.status, PlainOutcome(i, states, inv), i.now)
  {}

  lemma {:induction false} SamePlainOutcome(i: Input, i': Input, states: seq<S.TargetState>, inv: seq<InventoryEntry>)
    requires SeenAgain(i, i')
    ensures PlainOutcome(i', states, inv) == PlainOutcome(i, states, inv)
  {}

  lemma {:induction false} ReadyStatesAreReady(js: seq<Job>)
    ensures forall s :: s in ReadyStates(js) ==> s.ready
  {}

  /** Once converged, and stored as such, a pass changes and stores nothing. */
  lemma {:induction false} SilentOnceConverged(w: Progress, i: Input, prev': seq<Decision>, i': Input)
    requires i.cx.src.uid != "" && AllAllowed(i) && Converged(w, i) && SeenAgain(i, i')
    requires i'.status == S.Built(i.status, PlainOutcome(i, w.states, w.inv), i.now)
    ensures PassWork(w.spokes, prev', i') == Progress(w.spokes, w.inv, w.states, 0)
    ensures PassPlan(i') == i'.status.inventory && PassStatus(w.spokes, prev', i') == i'.status
  {
    WorksAgain(w, i, prev', i');
    StatusIs(w.spokes, prev', i', w.states, w.inv);
    SamePlainOutcome(i, i', w.states, w.inv);
    ReadyStatesAreReady(Jobs(i));
    AllReadyFixpoint(i.status, PlainOutcome(i, w.states, w.inv), i.now, i'.now);
  }

  /** After a converging pass the next one makes no transport write, plans nothing and stores no status,
      whether or not the operator restarted in between. */
  lemma {:induction false} SecondPassIsSilent(
    sp: Spokes, prev: seq<Decision>, i: Input, prev': seq<Decision>, i': Input)
    requires Reachable(sp, i) && SeenAgain(i, i') && i'.status == PassStatus(sp, prev, i)
    ensures var w, w' := PassWork(sp, prev, i), PassWork(PassWork(sp, prev, i).spokes, prev', i');
            && w'.writes == 0 && w'.spokes == w.spokes
            && PassPlan(i') == i'.status.inventory
            && PassStatus(w.spokes, prev', i') == i'.status
  {
    var w := PassWork(sp, prev, i);
    OnePassConverges(sp, prev, i);
    NothingRetained(prev, i);
    StatusIs(sp, prev, i, w.states, w.inv);
    SilentOnceConverged(w, i, prev', i');
  }
}
