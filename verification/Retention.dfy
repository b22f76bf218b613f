/** Retain over runs and restarts (internal/engine/reconciler.go): replicas whose permission was withdrawn under a
    Retain policy are neither written, deleted nor forgotten while their target stays in the request. */
module Retention {
  import opened Basics
  import opened Policies
  import opened Options
  import opened Inventory
  import opened Conflict
  import opened Engine
  import opened Passes
  import R = Render
  import T = Targets
  import V = Revocations

  // ---- What the apply loop leaves alone ------------------------------------------------------

  /** Entries of other keys stay as they are. */
  ghost predicate EntriesKept(inv: seq<InventoryEntry>, inv': seq<InventoryEntry>, k: SlotKey) {
    forall e: InventoryEntry :: e.key != k ==> (e in inv' <==> e in inv)
  }

  lemma {:induction false} UpsertKeepsOthers(inv: seq<InventoryEntry>, entry: InventoryEntry)
    requires DistinctKeys(inv)
    ensures EntriesKept(inv, Upsert(inv, entry), entry.key) && DistinctKeys(Upsert(inv, entry))
  {
    UpsertKeepsDistinct(inv, entry);
    if entry.key in Keys(inv) {
      var n :| 0 <= n < |inv| && inv[n].key == entry.key;
      UpsertAt(inv, n, entry);
      var r := inv[n := entry];
      forall e | e in inv && e.key != entry.key ensures e in r {
        var m :| 0 <= m < |inv| && inv[m] == e;
        assert r[m] == e;
      }
    } else {
      UpsertMissing(inv, entry);
    }
  }

  lemma {:induction false} ApplyKeepsOthers(p: Progress, k: SlotKey, eff: EffectiveOptions, cx: Context)
    requires cx.src.uid != "" && Housed(p.spokes) && DistinctKeys(p.inv)
    ensures var q := DoJob(p, ApplyJob(k, eff), cx);
            EntriesKept(p.inv, q.inv, k) && DistinctKeys(q.inv) && OnlyAt(p.spokes, q.spokes, k) && Housed(q.spokes)
  {
    var h := cx.hash(cx.src.payload);
    ApplyTargetIsSafe(p.spokes, p.inv, k, cx.src, eff, cx.slotFaults(k), cx.hash);
    ApplyTargetInventory(p.spokes, p.inv, k, cx.src, eff, cx.slotFaults(k), cx.hash);
    UpsertKeepsOthers(p.inv, InventoryEntry(k, h));
    RemoveKeepsDistinct(p.inv, k);
  }

  /** The inventory is left alone, loses the slot's entry, or gets it refreshed. */
  ghost predicate OneEntryChanged(inv: seq<InventoryEntry>, out: seq<InventoryEntry>, k: SlotKey, h: string) {
    out == inv || out == Remove(inv, k) || out == Upsert(inv, InventoryEntry(k, h))
  }

  lemma {:induction false} FinishInventory(w: Written, inv: seq<InventoryEntry>, k: SlotKey, h: string)
    ensures OneEntryChanged(inv, Finish(w, inv, k, h).inv, k, h)
  {}

  lemma {:induction false} ConvergeInventory(
    sp: Spokes, inv: seq<InventoryEntry>, k: SlotKey, src: SourceView, eff: EffectiveOptions, f: SlotFaults,
    hash: R.Hash)
    ensures OneEntryChanged(inv, Converge(sp, inv, k, src, eff, f, hash).inv, k, hash(src.payload))
  {
    var h, desired := hash(src.payload), Desired(src, hash);
    if f.read.ReadOk? {
      if k !in sp.objects {
        FinishInventory(Apply(sp, k, desired, f.write), inv, k, h);
      } else {
        var existing := sp.objects[k];
        FinishInventory(ApplyWithRecreate(sp, k, desired, f), inv, k, h);
        if Classify(existing, src.uid) != Stripped {
          match DecideConflict(existing, src.uid, src.requested, h, eff.conflictPolicies, hash)
          case AdoptExisting =>
            FinishInventory(Apply(sp, k, desired.(payload := existing.payload), f.write), inv, k, h);
          case ApplyOwn => FinishInventory(Written(sp, None, 0), inv, k, h);
          case _ =>
        }
      }
    }
  }

  lemma {:induction false} ApplyTargetInventory(
    sp: Spokes, inv: seq<InventoryEntry>, k: SlotKey, src: SourceView, eff: EffectiveOptions, f: SlotFaults,
    hash: R.Hash)
    ensures OneEntryChanged(inv, ApplyTarget(sp, inv, k, src, eff, f, hash).inv, k, hash(src.payload))
  {
    ConvergeInventory(sp, inv, k, src, eff, f, hash);
    ConvergeInventory(sp.(namespaces := sp.namespaces + {NsOf(k)}), inv, k, src, eff, f, hash);
  }

  /** No job applies to the slot. */
  ghost predicate Spared(js: seq<Job>, k: SlotKey) {
    forall j :: j in js && j.ApplyJob? ==> j.key != k
  }

  /** Applying jobs leaves a spared slot and its entries as they were. */
  lemma {:induction false} JobsSpare(p: Progress, js: seq<Job>, cx: Context, k: SlotKey)
    requires cx.src.uid != "" && Housed(p.spokes) && DistinctKeys(p.inv) && Spared(js, k)
    ensures var q := DoJobs(p, js, cx);
            && SameAt(p.spokes, q.spokes, k) && Housed(q.spokes) && DistinctKeys(q.inv)
            && (forall e: InventoryEntry :: e.key == k ==> (e in q.inv <==> e in p.inv))
  {
    if js != [] {
      var front, j := js[..|js| - 1], js[|js| - 1];
      assert j in js && forall x :: x in front ==> x in js;
      JobsSpare(p, front, cx, k);
      if j.ApplyJob? {
        ApplyKeepsOthers(DoJobs(p, front, cx), j.key, j.options, cx);
      }
    }
  }

  lemma {:induction false} JobsKeepDistinct(p: Progress, js: seq<Job>, cx: Context)
    requires DistinctKeys(p.inv)
    ensures DistinctKeys(DoJobs(p, js, cx).inv)
  {
    if js != [] {
      JobsKeepDistinct(p, js[..|js| - 1], cx);
      var q, j := DoJobs(p, js[..|js| - 1], cx), js[|js| - 1];
      if j.ApplyJob? {
        ApplyTargetInventory(q.spokes, q.inv, j.key, cx.src, j.options, cx.slotFaults(j.key), cx.hash);
        UpsertKeepsDistinct(q.inv, InventoryEntry(j.key, cx.hash(cx.src.payload)));
        RemoveKeepsDistinct(q.inv, j.key);
      }
    }
  }

  /** A pass never records one slot twice. */
  lemma {:induction false} PassKeepsDistinct(sp: Spokes, prev: seq<Decision>, i: Input)
    requires DistinctKeys(i.status.inventory)
    ensures DistinctKeys(PassPlan(i)) && DistinctKeys(PassWork(sp, prev, i).inv)
  {
    PlanningAdds(i.status.inventory, SlotKeys(i), Decisions(i));
    var p := Progress(sp, PassPlan(i), [], 0);
    JobsKeepDistinct(p, PassJobs(prev, i), i.cx);
    CollectedDistinct(DoJobs(p, PassJobs(prev, i), i.cx), PassKeep(prev, i), i.cx);
  }

  // ---- Which passes retain ----------------------------------------------------------------------

  /** The pass evaluates this target and denies it. */
  ghost predicate DeniedIn(i: Input, t: NsKey) {
    exists d :: d in Decisions(i) && TargetKey(d.target) == t && !d.allowed
  }

  /** The names of the policies by which the previous evaluation granted the target; none when it did not, or
      when it was lost in a restart. */
  function PriorGrant(prev: seq<Decision>, t: NsKey): seq<string> {
    match Latest(prev, t)
    case Some(d) => if d.allowed then d.matched else []
    case None => []
  }

  /** Of the policies that granted the permission, one that still exists says Retain; or none still exists and
      an installed policy matching the source says so. */
  ghost predicate RetainGoverns(prev: seq<Decision>, i: Input, t: NsKey) {
    if exists p :: p in i.policies && p.name in PriorGrant(prev, t)
    then exists p :: p in i.policies && p.name in PriorGrant(prev, t) && p.options.revocation.Retain?
    else exists p :: p in i.policies && MatchesSource(p, i.meta) && p.options.revocation.Retain?
  }

  lemma {:induction false} WithdrawnWasGranted(prev: seq<Decision>, ds: seq<Decision>)
    requires DistinctTargets(prev)
    ensures forall r :: r in Withdrawn(prev, ds) ==>
              Latest(prev, TargetKey(r.target)) == Some(r.previous) && r.previous.allowed
  {
    WithdrawnExactly(prev, ds);
    forall r | r in Withdrawn(prev, ds) ensures Latest(prev, TargetKey(r.target)) == Some(r.previous) {
      var n :| 0 <= n < |prev| && prev[n] == r.previous;
      LatestIsUnique(prev, n);
    }
  }

  lemma {:induction false} SameTargetSame(revs: seq<Revocation>, r: Revocation, r': Revocation)
    requires V.OnePerTarget(revs) && r in revs && r' in revs && TargetKey(r.target) == TargetKey(r'.target)
    ensures r == r'
  {
    var a :| 0 <= a < |revs| && revs[a] == r;
    var b :| 0 <= b < |revs| && revs[b] == r';
  }

  lemma {:induction false} FreshWithdrawal(prev: seq<Decision>, ds: seq<Decision>, d: Decision, now: Decision)
    requires DistinctTargets(prev) && DistinctTargets(ds)
    requires d in prev && d.allowed && now in ds && !now.allowed && TargetKey(now.target) == TargetKey(d.target)
    ensures Revocation(d.target, d, Some(now)) in Withdrawn(prev, ds)
  {
    WithdrawnExactly(prev, ds);
    var n :| 0 <= n < |ds| && ds[n] == now;
    LatestIsUnique(ds, n);
  }

  /** A policy revocation remembers exactly the policies of the prior grant. */
  lemma {:induction false} Provenance(prev: seq<Decision>, ds: seq<Decision>, inv: seq<InventoryEntry>, r: Revocation)
    requires DistinctTargets(prev) && DistinctTargets(ds)
    requires r in V.Effective(prev, ds, inv) && r.current.Some?
    ensures r.previous.matched == PriorGrant(prev, TargetKey(r.target))
  {
    var revs, t := Withdrawn(prev, ds), TargetKey(r.target);
    WithdrawnExactly(prev, ds);
    V.AugmentedShape(revs, ds, inv);
    V.DeniedTargetsRevokedOnce(prev, ds, inv);
    LatestAbsent(prev, t);
    WithdrawnWasGranted(prev, ds);
    if Latest(prev, t).Some? && Latest(prev, t).value.allowed {
      var d := Latest(prev, t).value;
      FreshWithdrawal(prev, ds, d, r.current.value);
      SameTargetSame(V.Effective(prev, ds, inv), r, Revocation(d.target, d, Some(r.current.value)));
    }
  }

  /** The revocation a denied target with recorded replicas gets, and what it decides. */
  lemma {:induction false} RevocationOf(prev: seq<Decision>, i: Input, e: InventoryEntry) returns (r: Revocation)
    requires DistinctTargets(prev) && DistinctTargets(Decisions(i))
    requires e in i.status.inventory && DeniedIn(i, NsOf(e.key))
    ensures V.OnePerTarget(PassRevocations(prev, i)) && r in PassRevocations(prev, i)
    ensures TargetKey(r.target) == NsOf(e.key)
    ensures r.current.Some? && r.previous.matched == PriorGrant(prev, NsOf(e.key))
  {
    V.DeniedTargetsRevokedOnce(prev, Decisions(i), i.status.inventory);
    var d :| d in Decisions(i) && TargetKey(d.target) == NsOf(e.key) && !d.allowed;
    assert e in EntriesIn(i.status.inventory, TargetKey(d.target));
    var all := V.Effective(prev, Decisions(i), i.status.inventory);
    r :| r in all && TargetKey(r.target) == TargetKey(d.target) && r.current == Some(d);
    Provenance(prev, Decisions(i), i.status.inventory, r);
  }

  lemma {:induction false} RetainedIsDenied(prev: seq<Decision>, i: Input, k: SlotKey)
    requires DistinctTargets(prev) && DistinctTargets(Decisions(i)) && k in PassRetained(prev, i)
    ensures DeniedIn(i, NsOf(k))
  {
    V.DeniedTargetsRevokedOnce(prev, Decisions(i), i.status.inventory);
    var all := V.Effective(prev, Decisions(i), i.status.inventory);
    var r, e :| r in all && V.Retains(r, i.policies, i.meta)
      && e in EntriesIn(i.status.inventory, TargetKey(r.target)) && e.key == k;
    assert r.current.value in Decisions(i);
  }

  lemma {:induction false} GoverningIs(prev: seq<Decision>, i: Input, r: Revocation)
    requires r.current.Some? && r.previous.matched == PriorGrant(prev, TargetKey(r.target))
    ensures V.Retains(r, i.policies, i.meta) <==> RetainGoverns(prev, i, TargetKey(r.target))
  {
    V.RetainIff(i.policies, r, i.meta);
  }

  /** A recorded replica is retained exactly when its target is still evaluated, is denied, and Retain governs;
      in particular never once its target has left the request. */
  lemma {:induction false} RetainedIff(prev: seq<Decision>, i: Input, e: InventoryEntry)
    requires DistinctTargets(prev) && DistinctTargets(Decisions(i)) && e in i.status.inventory
    ensures e.key in PassRetained(prev, i) <==> DeniedIn(i, NsOf(e.key)) && RetainGoverns(prev, i, NsOf(e.key))
  {
    if DeniedIn(i, NsOf(e.key)) {
      var r := RevocationOf(prev, i, e);
      GoverningIs(prev, i, r);
      OnlyRevocation(prev, i, e, r);
    } else if e.key in PassRetained(prev, i) {
      RetainedIsDenied(prev, i, e.key);
    }
  }

  lemma {:induction false} OnlyRevocation(prev: seq<Decision>, i: Input, e: InventoryEntry, r: Revocation)
    requires V.OnePerTarget(PassRevocations(prev, i)) && r in PassRevocations(prev, i)
    requires TargetKey(r.target) == NsOf(e.key)
    requires e in i.status.inventory
    ensures e.key in PassRetained(prev, i) <==> V.Retains(r, i.policies, i.meta)
  {
    var all := PassRevocations(prev, i);
    assert e in EntriesIn(i.status.inventory, TargetKey(r.target));
    if e.key in PassRetained(prev, i) {
      var r', e' :| r' in all && V.Retains(r', i.policies, i.meta)
        && e' in EntriesIn(i.status.inventory, TargetKey(r'.target)) && e'.key == e.key;
      var a :| 0 <= a < |all| && all[a] == r;
      var b :| 0 <= b < |all| && all[b] == r';
    }
  }

  // ---- One pass -----------------------------------------------------------------------------------

  lemma {:induction false} SlotTarget(i: Input, n: nat)
    requires n < |SlotKeys(i)|
    ensures NsOf(SlotKeys(i)[n]) == TargetKey(Decisions(i)[n].target)
  {
    T.SlotsFollowPairs(i.targets, i.sourceName);
  }

  /** No slot of a denied target is applied. */
  lemma {:induction false} DeniedIsNotAllowed(i: Input, k: SlotKey)
    requires DistinctTargets(Decisions(i)) && DeniedIn(i, NsOf(k))
    ensures k !in AllowedKeys(SlotKeys(i), Decisions(i))
  {
    var ks, ds := SlotKeys(i), Decisions(i);
    var d :| d in ds && TargetKey(d.target) == NsOf(k) && !d.allowed;
    var m :| 0 <= m < |ds| && ds[m] == d;
    forall n | 0 <= n < |ks| && ds[n].allowed ensures ks[n] != k {
      SlotTarget(i, n);
    }
  }

  lemma {:induction false} NotAllowedIsSpared(
    ks: seq<SlotKey>, ds: seq<Decision>, ps: seq<ReplicationPolicy>, retained: set<SlotKey>, deleted: set<NsKey>,
    k: SlotKey)
    requires |ks| == |ds| && k !in AllowedKeys(ks, ds)
    ensures Spared(JobsFor(ks, ds, ps, retained, deleted), k)
  {
    var js := JobsFor(ks, ds, ps, retained, deleted);
    forall j | j in js && j.ApplyJob? ensures j.key != k {
      var n :| 0 <= n < |js| && js[n] == j;
      assert ds[n].allowed;
    }
  }

  /** The state a pass works on is well formed. */
  ghost predicate Sturdy(sp: Spokes, i: Input) {
    i.cx.src.uid != "" && Housed(sp) && DistinctKeys(i.status.inventory) && DistinctTargets(Decisions(i))
  }

  /** And so is its memory. */
  ghost predicate Sound(sp: Spokes, prev: seq<Decision>, i: Input) { Sturdy(sp, i) && DistinctTargets(prev) }

  lemma {:induction false} UpToCollection(sp: Spokes, prev: seq<Decision>, i: Input, k: SlotKey)
    requires i.cx.src.uid != "" && Housed(sp) && DistinctKeys(i.status.inventory)
    requires k !in AllowedKeys(SlotKeys(i), Decisions(i))
    ensures var q := DoJobs(Progress(sp, PassPlan(i), [], 0), PassJobs(prev, i), i.cx);
            && SameAt(sp, q.spokes, k) && Housed(q.spokes) && DistinctKeys(q.inv)
            && (forall e: InventoryEntry :: e.key == k && e in i.status.inventory ==> e in q.inv)
  {
    PlanningAdds(i.status.inventory, SlotKeys(i), Decisions(i));
    NotAllowedIsSpared(SlotKeys(i), Decisions(i), i.policies, PassRetained(prev, i),
                       V.DeletedNamespaces(PassRevocations(prev, i), i.policies, i.meta, i.status.inventory), k);
    JobsSpare(Progress(sp, PassPlan(i), [], 0), PassJobs(prev, i), i.cx, k);
  }

  /** A pass under which Retain governs leaves the entry in the inventory and the object as it was. */
  lemma {:induction false} PassRetains(sp: Spokes, prev: seq<Decision>, i: Input, e: InventoryEntry)
    requires Sound(sp, prev, i) && e in i.status.inventory
    requires DeniedIn(i, NsOf(e.key)) && RetainGoverns(prev, i, NsOf(e.key))
    ensures e in PassPlan(i) && e in PassWork(sp, prev, i).inv && SameAt(sp, PassWork(sp, prev, i).spokes, e.key)
  {
    var q := DoJobs(Progress(sp, PassPlan(i), [], 0), PassJobs(prev, i), i.cx);
    RetainedIff(prev, i, e);
    DeniedIsNotAllowed(i, e.key);
    UpToCollection(sp, prev, i, e.key);
    CollectionAccounts(q, PassKeep(prev, i), i.cx);
    PlanningAdds(i.status.inventory, SlotKeys(i), Decisions(i));
    assert SameAt(q.spokes, PassWork(sp, prev, i).spokes, e.key);
  }

  /** A pass for which the slot is neither allowed nor retained removes the replica where the cluster answers, and
      forgets the entry only then or when the cluster is gone. */
  lemma {:induction false} PassRevokes(sp: Spokes, prev: seq<Decision>, i: Input, e: InventoryEntry)
    requires Sound(sp, prev, i) && e in i.status.inventory
    requires e.key !in AllowedKeys(SlotKeys(i), Decisions(i))
    requires !(DeniedIn(i, NsOf(e.key)) && RetainGoverns(prev, i, NsOf(e.key)))
    ensures var w := PassWork(sp, prev, i);
            && (e in w.inv <==> e.key.cluster in i.cx.discovered && StuckIn(sp, e.key, i.cx))
            && (e !in w.inv ==> e.key.cluster !in i.cx.discovered || !Carries(w.spokes, e.key, i.cx.src.uid))
  {
    var q := DoJobs(Progress(sp, PassPlan(i), [], 0), PassJobs(prev, i), i.cx);
    RetainedIff(prev, i, e);
    UpToCollection(sp, prev, i, e.key);
    CollectionAccounts(q, PassKeep(prev, i), i.cx);
    assert StuckIn(q.spokes, e.key, i.cx) == StuckIn(sp, e.key, i.cx);
  }

  // ---- Passes cut short ------------------------------------------------------------------------------

  lemma {:induction false} PrefixSpared(js: seq<Job>, m: nat, k: SlotKey)
    requires Spared(js, k) && m <= |js|
    ensures Spared(js[..m], k)
  {
    assert forall j :: j in js[..m] ==> j in js;
  }

  lemma {:induction false} CollectionSpares(p: Progress, es: seq<InventoryEntry>, n: nat, cx: Context, k: SlotKey)
    requires cx.src.uid != "" && Housed(p.spokes) && DistinctKeys(es) && n <= |es| && k !in Keys(es)
    ensures SameAt(p.spokes, CollectEach(p, es[..n], cx).spokes, k)
  {
    CollectEachWorks(p, es[..n], cx);
    assert forall e :: e in es[..n] ==> e in es;
  }

  lemma {:induction false} UncoveredSparesKept(
    inv: seq<InventoryEntry>, keep: set<SlotKey>, discovered: set<string>, k: SlotKey)
    requires k in keep
    ensures k !in Keys(Uncovered(inv, keep, discovered, true))
  {}

  /** Wherever a pass under which Retain governs is cut short, the object is as it was. */
  lemma {:induction false} PartRetains(sp: Spokes, prev: seq<Decision>, i: Input, e: InventoryEntry, m: nat, n: nat)
    requires Sound(sp, prev, i) && e in i.status.inventory
    requires DeniedIn(i, NsOf(e.key)) && RetainGoverns(prev, i, NsOf(e.key))
    ensures SameAt(sp, PassPart(sp, prev, i, m, n).spokes, e.key)
  {
    var js, start := PassJobs(prev, i), Progress(sp, PassPlan(i), [], 0);
    DeniedIsNotAllowed(i, e.key);
    PlanningAdds(i.status.inventory, SlotKeys(i), Decisions(i));
    NotAllowedIsSpared(SlotKeys(i), Decisions(i), i.policies, PassRetained(prev, i),
                       V.DeletedNamespaces(PassRevocations(prev, i), i.policies, i.meta, i.status.inventory), e.key);
    if m < |js| {
      PrefixSpared(js, m, e.key);
      JobsSpare(start, js[..m], i.cx, e.key);
    } else {
      RetainedIff(prev, i, e);
      UpToCollection(sp, prev, i, e.key);
      PartCollectionRetains(DoJobs(start, js, i.cx), PassKeep(prev, i), i.cx, n, e.key);
    }
  }

  lemma {:induction false} PartCollectionRetains(q: Progress, keep: set<SlotKey>, cx: Context, n: nat, k: SlotKey)
    requires cx.src.uid != "" && Housed(q.spokes) && DistinctKeys(q.inv) && k in keep
    ensures var del := Uncovered(q.inv, keep, cx.discovered, true);
            SameAt(q.spokes,
                   CollectEach(q.(inv := Released(q.inv, Uncovered(q.inv, keep, cx.discovered, false))),
                               if n < |del| then del[..n] else del, cx).spokes, k)
  {
    var del := Uncovered(q.inv, keep, cx.discovered, true);
    var n' := if n < |del| then n else |del|;
    UncoveredDistinct(q.inv, keep, cx.discovered, true);
    UncoveredSparesKept(q.inv, keep, cx.discovered, k);
    CollectionSpares(q.(inv := Released(q.inv, Uncovered(q.inv, keep, cx.discovered, false))), del, n', cx, k);
    assert n >= |del| ==> del[..n'] == del;
  }

  // ---- Runs ---------------------------------------------------------------------------------------

  /** How a pass ended: before its plan was stored; after that, cut short or with its final write lost; or with
      its result stored. */
  datatype Ending = BeforePlan | CutShort(jobs: nat, entries: nat) | Completed

  /** Spokes may be edited by anyone between passes, so every pass starts from spokes of its own. */
  datatype Event = Reconciled(sp: Spokes, i: Input, ending: Ending) | Restarted

  /** The stored inventory and the in-memory evaluation. */
  datatype Memory = Memory(inv: seq<InventoryEntry>, last: seq<Decision>)

  function After(m: Memory, ev: Event): Memory {
    match ev
    case Restarted => m.(last := [])
    case Reconciled(sp, i, ending) =>
      Memory(match ending
             case BeforePlan => m.inv
             case CutShort(_, _) => PassPlan(i)
             case Completed => PassWork(sp, m.last, i).inv,
             Decisions(i))
  }

  function AfterAll(m: Memory, evs: seq<Event>): Memory
    decreases |evs|
  {
    if evs == [] then m else AfterAll(After(m, evs[0]), evs[1..])
  }

  /** Every pass reads the stored inventory. */
  ghost predicate IsRun(m: Memory, evs: seq<Event>)
    decreases |evs|
  {
    evs == [] ||
    (&& (evs[0].Reconciled? ==> evs[0].i.status.inventory == m.inv)
     && IsRun(After(m, evs[0]), evs[1..]))
  }

  /** Some installed policy that matches the source says Retain. */
  ghost predicate SourceRetains(i: Input) {
    exists p :: p in i.policies && MatchesSource(p, i.meta) && p.options.revocation.Retain?
  }

  /** What a pass finds: the target is still requested and denied, and some installed policy that matches the source
      says Retain. (Spoke objects live in namespaces, the source has a UID, and the request names each target once.) */
  ghost predicate FindsRetain(ev: Event, t: NsKey) {
    ev.Reconciled? ==>
      && ev.i.cx.src.uid != "" && Housed(ev.sp) && DistinctTargets(Decisions(ev.i))
      && DeniedIn(ev.i, t) && SourceRetains(ev.i)
  }

  /** If any of the policies that granted the target still exists, one of them says Retain. */
  ghost predicate GrantersRetain(names: seq<string>, i: Input) {
    (exists p :: p in i.policies && p.name in names) ==>
      exists p :: p in i.policies && p.name in names && p.options.revocation.Retain?
  }

  ghost predicate FirstFindsGranters(m: Memory, evs: seq<Event>, t: NsKey) {
    evs != [] && evs[0].Reconciled? ==> GrantersRetain(PriorGrant(m.last, t), evs[0].i)
  }

  /** The event leaves the object at the slot as it was, however far it came. */
  ghost predicate Spares(m: Memory, ev: Event, k: SlotKey) {
    match ev
    case Restarted => true
    case Reconciled(sp, i, BeforePlan) => true
    case Reconciled(sp, i, CutShort(jobs, entries)) => SameAt(sp, PassPart(sp, m.last, i, jobs, entries).spokes, k)
    case Reconciled(sp, i, Completed) => SameAt(sp, PassWork(sp, m.last, i).spokes, k)
  }

  ghost predicate Untouched(m: Memory, evs: seq<Event>, k: SlotKey)
    decreases |evs|
  {
    evs == [] || (Spares(m, evs[0], k) && Untouched(After(m, evs[0]), evs[1..], k))
  }

  lemma {:induction false} MemoryStaysSound(m: Memory, ev: Event)
    requires DistinctKeys(m.inv) && DistinctTargets(m.last)
    requires ev.Reconciled? ==> ev.i.status.inventory == m.inv && DistinctTargets(Decisions(ev.i))
    ensures DistinctKeys(After(m, ev).inv) && DistinctTargets(After(m, ev).last)
  {
    if ev.Reconciled? {
      PassKeepsDistinct(ev.sp, m.last, ev.i);
    }
  }

  /** After a pass that denies the target, or a restart, no grant is remembered. */
  lemma {:induction false} GrantIsForgotten(m: Memory, ev: Event, t: NsKey)
    requires FindsRetain(ev, t)
    ensures PriorGrant(After(m, ev).last, t) == []
  {
    if ev.Reconciled? {
      var ds := Decisions(ev.i);
      var d :| d in ds && TargetKey(d.target) == t && !d.allowed;
      var n :| 0 <= n < |ds| && ds[n] == d;
      LatestIsUnique(ds, n);
    }
  }

  lemma {:induction false} EnvironmentGoverns(prev: seq<Decision>, i: Input, t: NsKey)
    requires SourceRetains(i) && GrantersRetain(PriorGrant(prev, t), i)
    ensures RetainGoverns(prev, i, t)
  {}

  lemma {:induction false} EventRetains(m: Memory, ev: Event, e: InventoryEntry)
    requires DistinctKeys(m.inv) && DistinctTargets(m.last) && e in m.inv && ev.Reconciled?
    requires ev.i.status.inventory == m.inv && FindsRetain(ev, NsOf(e.key))
    requires GrantersRetain(PriorGrant(m.last, NsOf(e.key)), ev.i)
    ensures e in After(m, ev).inv && Spares(m, ev, e.key)
  {
    EnvironmentGoverns(m.last, ev.i, NsOf(e.key));
    PassRetains(ev.sp, m.last, ev.i, e);
    if ev.ending.CutShort? {
      PartRetains(ev.sp, m.last, ev.i, e, ev.ending.jobs, ev.ending.entries);
    }
  }

  /** No run of passes, complete or cut short anywhere, and restarts writes, deletes or forgets a recorded replica of
      a target that stays requested and denied, while some installed source-matching policy says Retain; only the
      first pass also looks at the policies that had granted the target. */
  lemma {:induction false} RetainedThroughout(m: Memory, evs: seq<Event>, e: InventoryEntry)
    requires DistinctKeys(m.inv) && DistinctTargets(m.last) && e in m.inv && IsRun(m, evs)
    requires forall ev :: ev in evs ==> FindsRetain(ev, NsOf(e.key))
    requires FirstFindsGranters(m, evs, NsOf(e.key))
    ensures e in AfterAll(m, evs).inv && Untouched(m, evs, e.key)
    decreases |evs|
  {
    if evs != [] {
      var t, m' := NsOf(e.key), After(m, evs[0]);
      assert FindsRetain(evs[0], t) && forall ev :: ev in evs[1..] ==> ev in evs;
      if evs[0].Reconciled? {
        EventRetains(m, evs[0], e);
      }
      MemoryStaysSound(m, evs[0]);
      GrantIsForgotten(m, evs[0], t);
      RetainedThroughout(m', evs[1..], e);
    }
  }

  /** Every entry a pass collects over has exactly one fate: desired, retained, deleted or released. */
  lemma {:induction false} EveryEntryHasOneFate(
    prev: seq<Decision>, i: Input, inv: seq<InventoryEntry>, e: InventoryEntry)
    requires DistinctTargets(prev) && DistinctTargets(Decisions(i)) && e in inv
    ensures var desired := e.key in AllowedKeys(SlotKeys(i), Decisions(i));
            var retained := e.key in PassRetained(prev, i);
            var deleted := e in Uncovered(inv, PassKeep(prev, i), i.cx.discovered, true);
            var released := e in Uncovered(inv, PassKeep(prev, i), i.cx.discovered, false);
            && (desired || retained || deleted || released)
            && !(desired && retained) && !(deleted && released) && !((desired || retained) && (deleted || released))
  {
    if e.key in PassRetained(prev, i) {
      RetainedIsDenied(prev, i, e.key);
      DeniedIsNotAllowed(i, e.key);
    }
  }
}
