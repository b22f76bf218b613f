/** Takeover safety over every interleaving: objects of others are touched only with both keys turned
    (internal/engine/conflict.go, internal/engine/drift.go, internal/engine/reconciler.go). */
module Takeover {
  import opened Basics
  import opened Policies
  import opened Options
  import opened Inventory
  import opened Engine
  import opened Passes
  import opened Protocol
  import opened ProtocolInvariant
  import Retention
  import R = Render

  /** A policy that permits the target grants the conflict policy. */
  ghost predicate Grants(ps: seq<ReplicationPolicy>, src: Source, tgt: Target, c: ConflictPolicy) {
    exists p :: p in ps && Permits(p, src, tgt) && c in p.options.conflictPolicies
  }

  /** The source's annotation and a policy matching this very target both say Overwrite. */
  ghost predicate MayOverwrite(i: Input, tgt: Target) {
    i.cx.src.requested.Overwrite? && Grants(i.policies, i.meta, tgt, Overwrite)
  }

  /** Both say at least Adopt. */
  ghost predicate MayAdopt(i: Input, tgt: Target) {
    && (i.cx.src.requested.Overwrite? || i.cx.src.requested.Adopt?)
    && (Grants(i.policies, i.meta, tgt, Overwrite) || Grants(i.policies, i.meta, tgt, Adopt))
  }

  /** Both keys have turned for replacing one object by another (or for removing it): it is unmanaged, and it is
      overwritten, or adopted with content that hashes equal and stays as it is. */
  ghost predicate BothKeys(i: Input, tgt: Target, before: R.Replica, after: Option<R.Replica>) {
    && before.managedBy != R.MANAGED_BY
    && (|| MayOverwrite(i, tgt)
        || (&& MayAdopt(i, tgt) && after.Some? && after.value.payload == before.payload
            && i.cx.hash(before.payload) == i.cx.hash(i.cx.src.payload)))
  }

  function ObjectAt(sp: Spokes, k: SlotKey): Option<R.Replica> {
    if k in sp.objects then Some(sp.objects[k]) else None
  }

  /** Every object that does not carry this UID is left as it is. */
  ghost predicate ForeignUntouched(sp: Spokes, sp': Spokes, uid: string) {
    forall k :: k in sp.objects && sp.objects[k].sourceUid != uid ==> ObjectAt(sp', k) == ObjectAt(sp, k)
  }

  /** Every such object is left as it is, except at the slot where both keys turned. */
  ghost predicate ForeignUntouchedBut(sp: Spokes, sp': Spokes, uid: string, at: SlotKey, i: Input, tgt: Target) {
    forall k :: k in sp.objects && sp.objects[k].sourceUid != uid && ObjectAt(sp', k) != ObjectAt(sp, k) ==>
      k == at && BothKeys(i, tgt, sp.objects[k], ObjectAt(sp', k))
  }

  lemma {:induction false} OptionsComeFromPermitting(i: Input, n: nat, c: ConflictPolicy)
    requires n < |Decisions(i)| && DistinctNames(i.policies) && c != Fail
    ensures c in Resolved(ByName(i.policies, Decisions(i)[n].matched)).conflictPolicies
            <==> Grants(i.policies, i.meta, Decisions(i)[n].target, c)
  {
    var d := Decisions(i)[n];
    assert d == Decided(i.meta, d.target, i.policies);
    MatchedLookupIsPermitting(i.meta, d.target, i.policies);
    ResolvedConflictPolicies(ByName(i.policies, d.matched));
  }

  lemma {:induction false} JobIsFair(
    sp: Spokes, inv: seq<InventoryEntry>, states: seq<Passes.S.TargetState>, i: Input, prev: seq<Decision>, n: nat)
    requires i.cx.src.uid != "" && Housed(sp) && DistinctNames(i.policies) && n < |PassJobs(prev, i)|
    ensures var sp' := DoJob(Progress(sp, inv, states, 0), PassJobs(prev, i)[n], i.cx).spokes;
            ForeignUntouchedBut(sp, sp', i.cx.src.uid, PassJobs(prev, i)[n].key, i, Decisions(i)[n].target)
  {
    var j := PassJobs(prev, i)[n];
    if j.ApplyJob? {
      OptionsComeFromPermitting(i, n, Overwrite);
      OptionsComeFromPermitting(i, n, Adopt);
      ApplyTargetIsSafe(sp, inv, j.key, i.cx.src, j.options, i.cx.slotFaults(j.key), i.cx.hash);
    }
  }

  // ---- Steps -------------------------------------------------------------------------------------

  /** The worker is about to apply a slot. */
  predicate AboutToApply(w: World, id: SourceId) {
    && id in w.engines && w.engines[id].Applying?
    && w.engines[id].n < |PassJobs(w.engines[id].prev, w.engines[id].i)|
  }

  lemma {:induction false} DeletionIsFair(w: World, id: SourceId, kinds: set<GroupKind>, f: CollectFaults)
    requires Invariant(w) && id in w.engines
    ensures ForeignUntouched(w.spokes, EngineDeletes(w, id, kinds, f).spokes, w.engines[id].snap.uid)
  {
    var t := w.engines[id];
    if t.Collecting? && t.todo != [] {
      assert EngineOk(w, id, t);
      CollectEntryIsSafe(w.spokes, t.inv, t.todo[0].key, t.snap.uid, kinds, f);
    }
  }

  lemma {:induction false} ApplyIsFair(w: World, id: SourceId)
    requires Invariant(w) && AboutToApply(w, id)
    ensures var t := w.engines[id];
            && ForeignUntouchedBut(w.spokes, EngineApplies(w, id).spokes, t.snap.uid, NextJob(t).key, t.i,
                                   Decisions(t.i)[t.n].target)
            && TargetKey(Decisions(t.i)[t.n].target) == NsOf(NextJob(t).key)
  {
    var t := w.engines[id];
    assert EngineOk(w, id, t);
    JobIsFair(w.spokes, t.inv, t.states, t.i, t.prev, t.n);
    Retention.SlotTarget(t.i, t.n);
  }

  // ---- Where a worker's inputs come from ---------------------------------------------------------------

  /** The worker planned just now, from this hub. */
  ghost predicate PlannedNow(w: World, s: Step, id: SourceId, t: EngineTask)
    requires t.Applying?
  {
    && s == EnginePlan(id, t.i, t.prev) && id in w.engines && w.engines[id].Seen?
    && w.engines[id].snap.uid == t.snap.uid && Fits(w, id, w.engines[id].snap, t.i)
  }

  /** The worker goes on with the inputs it had. */
  ghost predicate GoesOn(w: World, id: SourceId, t: EngineTask)
    requires t.Applying?
  {
    && id in w.engines && w.engines[id].Applying?
    && w.engines[id].i == t.i && w.engines[id].prev == t.prev && w.engines[id].snap.uid == t.snap.uid
  }

  /** The worker begins to collect now, by the clusters this hub has discovered. */
  ghost predicate CollectsNow(w: World, t: EngineTask)
    requires t.Collecting?
  {
    forall k :: k in t.gone ==> k.cluster !in Discovered(w.clusters)
  }

  /** The worker goes on collecting. */
  ghost predicate GoesOnCollecting(w: World, id: SourceId, t: EngineTask)
    requires t.Collecting?
  {
    id in w.engines && w.engines[id].Collecting? && w.engines[id].gone == t.gone
  }

  /** Where the worker that a step leaves behind comes from. */
  ghost predicate ComesFrom(w: World, s: Step, id: SourceId, t: EngineTask) {
    && (t.Applying? ==> PlannedNow(w, s, id, t) || GoesOn(w, id, t))
    && (t.Collecting? ==> CollectsNow(w, t) || GoesOnCollecting(w, id, t))
  }

  ghost predicate AllComeFrom(w: World, s: Step, w': World) {
    forall id :: id in w'.engines ==> ComesFrom(w, s, id, w'.engines[id])
  }

  lemma {:induction false} StartsCome(w: World, s: Step, x: SourceId)
    ensures AllComeFrom(w, s, EngineReads(w, x)) && AllComeFrom(w, s, EngineGuards(w, x))
  {}

  /** Workers of other sources stand where they stood. */
  ghost predicate OthersStay(w: World, w': World, x: SourceId) {
    forall id :: id in w'.engines && id != x ==> id in w.engines && w'.engines[id] == w.engines[id]
  }

  lemma {:induction false} OneMoved(w: World, s: Step, w': World, x: SourceId)
    requires OthersStay(w, w', x) && (x in w'.engines ==> ComesFrom(w, s, x, w'.engines[x]))
    ensures AllComeFrom(w, s, w')
  {}

  lemma {:induction false} EngineAtMoves(w: World, v: World, id: SourceId, t: EngineTask)
    requires v.engines == w.engines
    ensures OthersStay(w, EngineAt(v, id, t), id) && EngineAt(v, id, t).engines[id] == t
    ensures OthersStay(w, EngineOff(v, id), id) && id !in EngineOff(v, id).engines
  {}

  lemma {:induction false} StoredPlanComes(
    w: World, id: SourceId, snap: Replication, plan: seq<InventoryEntry>, i: Input, prev: seq<Decision>)
    ensures var w' := StoresPlan(w, id, snap, plan, i, prev);
            && OthersStay(w, w', id)
            && (id in w'.engines ==>
                  var t := w'.engines[id]; t.Applying? && t.i == i && t.prev == prev && t.snap.uid == snap.uid)
  {
    EngineAtMoves(w, w, id, Applying(snap, i, prev, 0, plan, []));
    var v := StoreRep(w, id, WithInventory(snap, plan));
    EngineAtMoves(w, v, id, Applying(v.reps[id], i, prev, 0, plan, []));
  }

  lemma {:induction false} PlansCome(w: World, x: SourceId, i: Input, prev: seq<Decision>)
    ensures AllComeFrom(w, EnginePlan(x, i, prev), EnginePlans(w, x, i, prev))
  {
    if x in w.engines { StoredPlanComes(w, x, w.engines[x].snap, PassPlan(i), i, prev); }
    OneMoved(w, EnginePlan(x, i, prev), EnginePlans(w, x, i, prev), x);
  }

  lemma {:induction false} AppliesCome(w: World, s: Step, x: SourceId)
    ensures AllComeFrom(w, s, EngineApplies(w, x))
  {}

  lemma {:induction false} GivesUpCome(w: World, s: Step, x: SourceId, reason: Protocol.S.Reason)
    ensures AllComeFrom(w, s, EngineGivesUp(w, x, reason))
  {}

  lemma {:induction false} CollectsCome(w: World, s: Step, x: SourceId)
    ensures AllComeFrom(w, s, EngineCollects(w, x))
  {}

  lemma {:induction false} DrainsCome(w: World, s: Step, x: SourceId)
    ensures AllComeFrom(w, s, EngineDrains(w, x))
  {}

  lemma {:induction false} DeletesCome(w: World, s: Step, x: SourceId, kinds: set<GroupKind>, f: CollectFaults)
    ensures AllComeFrom(w, s, EngineDeletes(w, x, kinds, f))
  {}

  lemma {:induction false} CommitsCome(w: World, s: Step, x: SourceId, now: Protocol.S.Time)
    ensures AllComeFrom(w, s, EngineCommits(w, x, now))
  {
    var w' := EngineCommits(w, x, now);
    if w' != w {
      assert w'.engines == w.engines - {x};
      OneMoved(w, s, w', x);
    }
  }

  lemma {:induction false} DropsCome(w: World, s: Step, x: SourceId)
    ensures AllComeFrom(w, s, EngineDropsFinalizer(w, x)) && AllComeFrom(w, s, EngineOff(w, x))
  {
    OneMoved(w, s, EngineOff(w, x), x);
    var w' := EngineDropsFinalizer(w, x);
    if w' != w {
      assert w'.engines == w.engines - {x};
      OneMoved(w, s, w', x);
    }
  }

  lemma {:induction false} EnginesComeFrom(w: World, s: Step)
    requires ByEngine(s)
    ensures AllComeFrom(w, s, EngineStep(w, s))
  {
    match s
    case EnginePlan(x, i, prev) => PlansCome(w, x, i, prev);
    case EngineApply(x) => AppliesCome(w, s, x);
    case EngineGiveUp(x, reason) => GivesUpCome(w, s, x, reason);
    case EngineCollect(x) => CollectsCome(w, s, x);
    case EngineDrain(x) => DrainsCome(w, s, x);
    case EngineDelete(x, kinds, f) => DeletesCome(w, s, x, kinds, f);
    case EngineCommit(x, now) => CommitsCome(w, s, x, now);
    case EngineDrop(x) => DropsCome(w, s, x);
    case EngineAbort(x) => DropsCome(w, s, x);
    case EngineRead(x) => StartsCome(w, s, x);
    case EngineGuard(x) => StartsCome(w, s, x);
  }

  lemma {:induction false} NobodyMoved(w: World, s: Step, w': World)
    requires w'.engines == w.engines
    ensures AllComeFrom(w, s, w')
  {}

  lemma {:induction false} WorkersComeFrom(w: World, s: Step)
    ensures AllComeFrom(w, s, After(w, s))
  {
    if ByEngine(s) {
      EnginesComeFrom(w, s);
    } else if !s.OperatorCrash? {
      NobodyMoved(w, s, After(w, s));
    }
  }

  /** The source, its kind and namespace with its labels (none when they could not be read), the policies and the
      discovered clusters the worker decides by are those of the hub at the earlier moment j of the run, when it
      planned. */
  ghost predicate DecidedAt(w: World, steps: seq<Step>, j: nat, id: SourceId, t: EngineTask)
    requires j < |steps| && t.Applying?
  {
    var v := Run(w, steps[..j]);
    && id in v.sources && t.i.cx.src == v.sources[id].view && t.i.cx.src.uid == t.snap.uid
    && t.i.kind == id.kind && t.i.meta.kind == id.kind.kind && t.i.meta.namespace == id.namespace
    && (t.i.meta.namespaceLabels == LabelsIn(v, id.namespace) || t.i.meta.namespaceLabels == map[])
    && t.i.policies == v.policies && t.i.clusters == v.clusters
  }

  lemma {:induction false} WorkersDecideByTheHub(w: World, steps: seq<Step>, id: SourceId) returns (j: nat)
    requires Init(w) && id in Run(w, steps).engines && Run(w, steps).engines[id].Applying?
    ensures j < |steps| && DecidedAt(w, steps, j, id, Run(w, steps).engines[id])
  {
    var n := |steps| - 1;
    var front := steps[..n];
    WorkersComeFrom(Run(w, front), steps[n]);
    assert ComesFrom(Run(w, front), steps[n], id, Run(w, steps).engines[id]);
    if PlannedNow(Run(w, front), steps[n], id, Run(w, steps).engines[id]) {
      j := n;
    } else {
      j := WorkersDecideByTheHub(w, front, id);
      assert front[..j] == steps[..j];
    }
  }

  /** In every run of any number of Replications: garbage collection never touches an object without its source's
      UID; the apply loop never touches one unless both keys turned for that very target, the annotation and the
      policies being those of the hub when the worker planned; no other step of a controller touches any object. */
  lemma {:induction false} TakeoverNeedsBothKeys(w: World, steps: seq<Step>, s: Step)
    requires Init(w) && (ByEngine(s) || ByRequest(s) || s.OperatorCrash?)
    ensures var v, v' := Run(w, steps), After(Run(w, steps), s);
            if s.EngineDelete? && s.id in v.engines then
              ForeignUntouched(v.spokes, v'.spokes, v.engines[s.id].snap.uid)
            else if s.EngineApply? && AboutToApply(v, s.id) then
              var t := v.engines[s.id];
              && ForeignUntouchedBut(v.spokes, v'.spokes, t.snap.uid, NextJob(t).key, t.i, Decisions(t.i)[t.n].target)
              && TargetKey(Decisions(t.i)[t.n].target) == NsOf(NextJob(t).key)
              && exists j :: 0 <= j < |steps| && DecidedAt(w, steps, j, s.id, t)
            else v'.spokes == v.spokes
  {
    var v := Run(w, steps);
    RunKeeps(w, steps);
    if s.EngineDelete? {
      if s.id in v.engines { DeletionIsFair(v, s.id, s.kinds, s.f); }
    } else if s.EngineApply? && AboutToApply(v, s.id) {
      ApplyIsFair(v, s.id);
      var j := WorkersDecideByTheHub(w, steps, s.id);
    } else {
      assert After(v, s).spokes == v.spokes;
    }
  }

  /** A fully marked replica of one source survives every step of another source's engine. */
  lemma {:induction false} MarkedReplicasAreSafe(w: World, steps: seq<Step>, s: Step, k: SlotKey)
    requires Init(w) && ByEngine(s) && s.id in Run(w, steps).engines
    requires k in Run(w, steps).spokes.objects
    requires Run(w, steps).spokes.objects[k].managedBy == R.MANAGED_BY
    requires Run(w, steps).spokes.objects[k].sourceUid != Run(w, steps).engines[s.id].snap.uid
    ensures ObjectAt(After(Run(w, steps), s).spokes, k) == ObjectAt(Run(w, steps).spokes, k)
  {
    TakeoverNeedsBothKeys(w, steps, s);
  }
}
