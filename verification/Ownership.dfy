/** What owning a slot means in the protocol: the bookkeeping that the chain invariant speaks about starts with
    every replica the engine leaves at a slot and ends only when the replica is gone, no longer carries the
    source's UID, or is released because its cluster left discovery. */
module Ownership {
  import opened Inventory
  import opened Engine
  import opened Passes
  import opened Protocol
  import opened ProtocolInvariant
  import opened Takeover
  import S = Status

  // ---- UIDs tell sources apart ----------------------------------------------------------------

  ghost predicate UidsUnique(w: World) {
    forall a, b :: a in w.sources && b in w.sources && w.sources[a].view.uid == w.sources[b].view.uid ==> a == b
  }

  /** No source appears or changes its UID. */
  ghost predicate NoNewSource(w: World, w': World) {
    forall x :: x in w'.sources ==> x in w.sources && w'.sources[x].view.uid == w.sources[x].view.uid
  }

  lemma {:induction false} UniqueStays(w: World, w': World)
    requires UidsUnique(w) && NoNewSource(w, w')
    ensures UidsUnique(w')
  {}

  lemma {:induction false} StoreAddsNoSource(w: World, id: SourceId, src: SourceObject)
    requires id in w.sources && src.view.uid == w.sources[id].view.uid
    ensures NoNewSource(w, StoreSource(w, id, src))
  {}

  lemma {:induction false} GuardsAddNoSource(w: World, id: SourceId)
    requires RequestsSound(w)
    ensures NoNewSource(w, RequestGuards(w, id)) && NoNewSource(w, RequestUnguards(w, id))
  {
    if id in w.requests { assert RequestOk(w, id, w.requests[id]); }
  }

  lemma {:induction false} EditsAddNoSource(w: World, s: Step)
    requires s.EditDiscovery? || s.EditPolicies? || s.EditNamespace? || s.EditSource? || s.DeleteSource?
             || s.DeleteReplication?
    ensures NoNewSource(w, EditHub(w, s))
  {
    if s.EditSource? {
      if s.id in w.sources && s.s.view.uid == w.sources[s.id].view.uid { StoreAddsNoSource(w, s.id, s.s); }
    } else if s.DeleteSource? {
      if s.id in w.sources { StoreAddsNoSource(w, s.id, w.sources[s.id].(deleting := true)); }
    } else {
      assert EditHub(w, s).sources == w.sources;
    }
  }

  lemma {:induction false} CreationIsFresh(w: World, s: Step)
    requires SourcesSound(w) && UidsUnique(w) && s.CreateSource?
    ensures UidsUnique(EditHub(w, s))
  {}

  lemma {:induction false} RequestsAddNoSource(w: World, s: Step)
    requires RequestsSound(w) && ByRequest(s)
    ensures NoNewSource(w, RequestStep(w, s))
  {
    GuardsAddNoSource(w, s.id);
  }

  lemma {:induction false} UidsStayUnique(w: World, s: Step)
    requires SourcesSound(w) && RequestsSound(w) && UidsUnique(w)
    ensures UidsUnique(After(w, s))
  {
    var w' := After(w, s);
    if s.CreateSource? {
      CreationIsFresh(w, s);
    } else {
      assert NoNewSource(w, w') by {
        if ByRequest(s) {
          RequestsAddNoSource(w, s);
        } else if !ByEngine(s) && !s.OperatorCrash? && !OnSpokes(s) {
          EditsAddNoSource(w, s);
        }
      }
      UniqueStays(w, w');
    }
  }

  // ---- How ownership ends --------------------------------------------------------------------------

  /** The step stores a result in which the owner's worker released the slot with its cluster. */
  predicate Releases(w: World, s: Step, k: SlotKey) {
    && (s.EngineCommit? || s.EngineDrop?) && s.id in w.engines && w.engines[s.id].Collecting?
    && k in w.owner && w.owner[k] == s.id && k in w.engines[s.id].gone
  }

  ghost predicate StaysOwned(w: World, w': World, k: SlotKey)
    requires k in w.owner
  {
    k in w'.owner && w'.owner[k] == w.owner[k]
  }

  /** The slot stays with its owner as long as the replica carries the owner's UID. */
  ghost predicate OwnedWhileCarried(w: World, w': World, k: SlotKey)
    requires k in w.owner && w.owner[k] in w.reps
  {
    Carries(w'.spokes, k, w.reps[w.owner[k]].uid) ==> StaysOwned(w, w', k)
  }

  lemma {:induction false} SpokesEndOwnership(w: World, sp: Spokes, k: SlotKey)
    requires k in w.owner && w.owner[k] in w.reps
    ensures OwnedWhileCarried(w, SpokesAt(w, sp), k)
  {}

  lemma {:induction false} EditsEndOwnership(w: World, s: Step, k: SlotKey)
    requires OnSpokes(s) && k in w.owner && w.owner[k] in w.reps
    ensures OwnedWhileCarried(w, EditSpokes(w, s), k)
  {}

  /** Another source can only claim a slot whose object carries its own UID. */
  lemma {:induction false} ClaimEndsOwnership(w: World, id: SourceId, j: Job, sp: Spokes, k: SlotKey)
    requires Chained(w) && UidsUnique(w) && k in w.owner && w.owner[k] in w.reps && id in w.reps
    ensures OwnedWhileCarried(w, Claimed(w, id, j, sp, w.reps[id].uid), k)
  {
    SpokesEndOwnership(w, sp, k);
  }

  lemma {:induction false} ApplyEndsOwnership(w: World, id: SourceId, k: SlotKey)
    requires Invariant(w) && UidsUnique(w) && k in w.owner
    ensures w.owner[k] in w.reps && OwnedWhileCarried(w, EngineApplies(w, id), k)
  {
    if AboutToApply(w, id) {
      var t := w.engines[id];
      assert EngineOk(w, id, t);
      ClaimEndsOwnership(w, id, NextJob(t), AfterJob(w, t).spokes, k);
    }
  }

  lemma {:induction false} StoringEndsOwnership(w: World, s: Step, k: SlotKey)
    requires (s.EngineCommit? || s.EngineDrop?) && k in w.owner
    ensures StaysOwned(w, EngineStep(w, s), k) || Releases(w, s, k)
  {}

  lemma {:induction false} DeleteEndsOwnership(
    w: World, id: SourceId, kinds: set<GroupKind>, f: CollectFaults, k: SlotKey)
    requires k in w.owner && w.owner[k] in w.reps
    ensures OwnedWhileCarried(w, EngineDeletes(w, id, kinds, f), k)
  {}

  lemma {:induction false} OtherEngineStepsEndOwnership(w: World, s: Step, k: SlotKey)
    requires ByEngine(s) && !s.EngineApply? && k in w.owner && w.owner[k] in w.reps
    ensures OwnedWhileCarried(w, EngineStep(w, s), k) || Releases(w, s, k)
  {
    if s.EngineCommit? || s.EngineDrop? {
      StoringEndsOwnership(w, s, k);
    } else if s.EngineDelete? {
      DeleteEndsOwnership(w, s.id, s.kinds, s.f, k);
    }
  }

  lemma {:induction false} OtherStepsEndOwnership(w: World, s: Step, k: SlotKey)
    requires !s.EngineApply? && k in w.owner && w.owner[k] in w.reps
    ensures OwnedWhileCarried(w, After(w, s), k) || Releases(w, s, k)
  {
    if ByEngine(s) {
      OtherEngineStepsEndOwnership(w, s, k);
    } else if ByRequest(s) {
      assert HubOnly(w, RequestStep(w, s));
    } else if OnSpokes(s) {
      EditsEndOwnership(w, s, k);
    } else if !s.OperatorCrash? {
      assert HubOnly(w, EditHub(w, s));
    }
  }

  lemma {:induction false} OwnershipEnds(w: World, s: Step, k: SlotKey)
    requires Invariant(w) && UidsUnique(w) && k in w.owner
    ensures w.owner[k] in w.reps && (OwnedWhileCarried(w, After(w, s), k) || Releases(w, s, k))
  {
    if s.EngineApply? {
      ApplyEndsOwnership(w, s.id, k);
    } else {
      OtherStepsEndOwnership(w, s, k);
    }
  }

  // ---- How it begins -------------------------------------------------------------------------------

  /** Whatever an apply step leaves at its slot with the source's UID is owned by that source, whether the write
      was reported as a success or not. */
  lemma {:induction false} AppliedSlotsAreOwned(w: World, id: SourceId)
    requires AboutToApply(w, id) && NextJob(w.engines[id]).ApplyJob?
    requires Carries(EngineApplies(w, id).spokes, NextJob(w.engines[id]).key, w.engines[id].snap.uid)
    ensures NextJob(w.engines[id]).key in EngineApplies(w, id).owner
    ensures EngineApplies(w, id).owner[NextJob(w.engines[id]).key] == id
  {}

  /** A worker that begins to collect releases exactly the entries that are not kept and whose cluster is not
      discovered. */
  lemma {:induction false} ReleasedExactly(
    w: World, snap: Replication, inv: seq<InventoryEntry>, keep: set<SlotKey>, states: seq<S.TargetState>,
    hash: string, retained: bool)
    ensures forall k :: k in StartCollecting(w, snap, inv, keep, states, hash, retained).gone
                        <==> k in Keys(inv) && k !in keep && k.cluster !in Discovered(w.clusters)
  {
    var rel := Uncovered(inv, keep, Discovered(w.clusters), false);
    forall k | k in Keys(inv) && k !in keep && k.cluster !in Discovered(w.clusters) ensures k in Keys(rel) {
      var e :| e in inv && e.key == k;
      assert e in rel;
    }
  }

  // ---- Over every run --------------------------------------------------------------------------------

  /** The cluster was not discovered at the moment j of the run. */
  ghost predicate VanishedAt(w: World, steps: seq<Step>, j: nat, cluster: string)
    requires j < |steps|
  {
    cluster !in Discovered(Run(w, steps[..j]).clusters)
  }

  /** In every run, whatever a worker has released is on a cluster that was not discovered at one earlier moment of
      the run. */
  lemma {:induction false} ReleaseNeedsVanishedCluster(w: World, steps: seq<Step>, id: SourceId, k: SlotKey)
    returns (j: nat)
    requires Init(w) && id in Run(w, steps).engines && Run(w, steps).engines[id].Collecting?
    requires k in Run(w, steps).engines[id].gone
    ensures j < |steps| && VanishedAt(w, steps, j, k.cluster)
  {
    var n := |steps| - 1;
    var front := steps[..n];
    WorkersComeFrom(Run(w, front), steps[n]);
    assert ComesFrom(Run(w, front), steps[n], id, Run(w, steps).engines[id]);
    if CollectsNow(Run(w, front), Run(w, steps).engines[id]) {
      j := n;
    } else {
      j := ReleaseNeedsVanishedCluster(w, front, id, k);
      assert front[..j] == steps[..j];
    }
  }

  lemma {:induction false} RunUnique(w: World, steps: seq<Step>)
    requires Init(w)
    ensures Invariant(Run(w, steps)) && UidsUnique(Run(w, steps))
  {
    RunKeeps(w, steps);
    if steps != [] {
      RunUnique(w, steps[..|steps| - 1]);
      UidsStayUnique(Run(w, steps[..|steps| - 1]), steps[|steps| - 1]);
    }
  }

  /** In every run, a step after which an owned replica still carries its owner's UID leaves it owned, unless that
      step stores its release with a cluster that was not discovered at an earlier moment. With NoReplicaIsLost: a
      created replica leaves the stored inventory in no other way. */
  lemma {:induction false} OwnershipIsHonest(w: World, steps: seq<Step>, s: Step, k: SlotKey)
    requires Init(w) && k in Run(w, steps).owner
    ensures var v, v' := Run(w, steps), After(Run(w, steps), s);
            && v.owner[k] in v.reps
            && (|| !Carries(v'.spokes, k, v.reps[v.owner[k]].uid)
                || (k in v'.owner && v'.owner[k] == v.owner[k])
                || (Releases(v, s, k) && exists j :: 0 <= j < |steps| && VanishedAt(w, steps, j, k.cluster)))
  {
    RunUnique(w, steps);
    OwnershipEnds(Run(w, steps), s, k);
    if Releases(Run(w, steps), s, k) {
      var j := ReleaseNeedsVanishedCluster(w, steps, s.id, k);
    }
  }
}
