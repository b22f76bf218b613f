/** The chain invariant of every run: source, Replication, inventory and replica never lose each other. */
module ProtocolInvariant {
  import opened Labels
  import opened Policies
  import opened Inventory
  import opened Engine
  import opened Passes
  import opened Protocol
  import A = Arbitration
  import C = Convergence
  import S = Status
  import T = Targets
  import V = Revocations

  // ---- The invariant --------------------------------------------------------------------------

  /** A Replication's source exists, is the same incarnation, and is held by the request controller's finalizer. */
  ghost predicate Chained(w: World) {
    forall id :: id in w.reps ==>
      id in w.sources && w.sources[id].view.uid == w.reps[id].uid && w.sources[id].finalizer
  }

  /** A Replication with recorded replicas is held by the engine's finalizer. */
  ghost predicate RepsSound(w: World) {
    forall id :: id in w.reps ==>
      && (w.reps[id].status.inventory != [] ==> w.reps[id].finalizer)
      && w.reps[id].version < w.version && T.DistinctPairs(w.reps[id].targets)
  }

  /** Every owned slot holds its owner's replica and is in the stored inventory. */
  ghost predicate Tracked(w: World) {
    forall k :: k in w.owner ==>
      && w.owner[k] in w.reps && Carries(w.spokes, k, w.reps[w.owner[k]].uid)
      && k in Keys(w.reps[w.owner[k]].status.inventory)
  }

  ghost predicate SourcesSound(w: World) {
    forall id :: id in w.sources ==>
      && w.sources[id].view.uid != "" && w.sources[id].view.uid in w.uids
      && w.sources[id].version < w.version && ParsedWell(w.sources[id])
  }

  ghost predicate EnvironmentSound(w: World) {
    Housed(w.spokes) && T.OneRecordPerName(w.clusters) && DistinctNames(w.policies)
  }

  /** A snapshot is what is stored as long as the versions agree. */
  ghost predicate Snapshot(w: World, id: SourceId, snap: Replication) {
    snap.version < w.version && (Current(w, id, snap) ==> w.reps[id] == snap)
  }

  ghost predicate SourceSnapshot(w: World, id: SourceId, src: SourceObject) {
    src.version < w.version && (CurrentSource(w, id, src) ==> w.sources[id] == src)
  }

  /** While a worker holds a guarded snapshot, nobody else takes the Replication away or rewrites its inventory. */
  ghost predicate Guarded(w: World, id: SourceId, snap: Replication) {
    && id in w.reps && w.reps[id].finalizer && w.reps[id].uid == snap.uid
    && w.reps[id].status.inventory == snap.status.inventory && (snap.deleting ==> w.reps[id].deleting)
  }

  /** The source's owned slots are all among these keys. */
  ghost predicate Covered(owner: map<SlotKey, SourceId>, id: SourceId, ks: set<SlotKey>) {
    forall k :: k in owner && owner[k] == id ==> k in ks
  }

  /** The slots still to be applied are recorded, in memory and in the stored inventory. */
  ghost predicate Pending(t: EngineTask)
    requires t.Applying?
  {
    var js := PassJobs(t.prev, t.i);
    forall m :: t.n <= m < |js| && js[m].ApplyJob? ==>
      js[m].key in Keys(t.inv) && js[m].key in Keys(t.snap.status.inventory)
  }

  ghost predicate EngineOk(w: World, id: SourceId, t: EngineTask) {
    && Snapshot(w, id, t.snap) && T.DistinctPairs(t.snap.targets)
    && (t.snap.finalizer ==> Guarded(w, id, t.snap))
    && (t.Applying? ==>
          && t.snap.finalizer && t.i.cx.src.uid == t.snap.uid && DistinctNames(t.i.policies)
          && C.DistinctSlots(SlotKeys(t.i)) && Pending(t) && Covered(w.owner, id, Keys(t.inv)))
    && (t.Collecting? ==> t.snap.finalizer && Covered(w.owner, id, Keys(t.inv) + t.gone))
  }

  /** The source a request worker acts for is still there and held. */
  ghost predicate Held(w: World, id: SourceId, uid: string) {
    id in w.sources && w.sources[id].view.uid == uid && w.sources[id].finalizer
  }

  ghost predicate RequestOk(w: World, id: SourceId, t: RequestTask) {
    match t
    case Looking(src) => SourceSnapshot(w, id, src) && ParsedWell(src) && (src.finalizer ==> Held(w, id, src.view.uid))
    case Materializing(uid, targets, _) => Held(w, id, uid) && T.DistinctPairs(targets)
    case Updating(uid, targets, _, snap) => Held(w, id, uid) && T.DistinctPairs(targets) && Snapshot(w, id, snap)
    case Materialized(_, _) => true
    case Reporting(snap, _, _) => Snapshot(w, id, snap)
    case Vacant(src) => SourceSnapshot(w, id, src) && id !in w.reps
  }

  ghost predicate EnginesSound(w: World) { forall id :: id in w.engines ==> EngineOk(w, id, w.engines[id]) }

  ghost predicate RequestsSound(w: World) { forall id :: id in w.requests ==> RequestOk(w, id, w.requests[id]) }

  ghost predicate HubSound(w: World) {
    Chained(w) && RepsSound(w) && Tracked(w) && SourcesSound(w) && EnvironmentSound(w)
  }

  ghost predicate WorkersSound(w: World) { EnginesSound(w) && RequestsSound(w) }

  ghost predicate Invariant(w: World) { HubSound(w) && WorkersSound(w) }

  // ---- What may happen around a worker ------------------------------------------------------------

  /** A write by somebody else: anything but the identity, the finalizer and the inventory may change. */
  ghost predicate Harmless(before: Replication, r: Replication) {
    && r.uid == before.uid && r.finalizer == before.finalizer && r.status.inventory == before.status.inventory
    && (before.deleting ==> r.deleting)
  }

  /** Objects change only with a new version; what a worker has guarded stays, and it gains no slots. */
  ghost predicate RepsAround(w: World, w': World) {
    && w.version <= w'.version
    && (forall x :: x in w'.reps ==> (x in w.reps && w'.reps[x] == w.reps[x]) || w.version <= w'.reps[x].version)
    && (forall x :: x in w.engines && x in w.reps && w.reps[x].finalizer ==> StaysGuarded(w, w', x))
    && (forall k :: k in w'.owner && w'.owner[k] in w.engines ==> k in w.owner && w.owner[k] == w'.owner[k])
  }

  ghost predicate StaysGuarded(w: World, w': World, x: SourceId)
    requires x in w.reps
  {
    x in w'.reps && Harmless(w.reps[x], w'.reps[x])
  }

  ghost predicate SourcesAround(w: World, w': World) {
    && (forall x :: x in w'.sources ==>
          (x in w.sources && w'.sources[x] == w.sources[x]) || w.version <= w'.sources[x].version)
    && (forall x :: x in w.requests && x in w.sources && w.sources[x].finalizer ==> Held(w', x, w.sources[x].view.uid))
    && (forall x :: x in w.requests && w.requests[x].Vacant? && x in w'.reps ==> x in w.reps)
  }

  lemma {:induction false} EngineSurvives(w: World, w': World, x: SourceId, t: EngineTask)
    requires EngineOk(w, x, t) && x in w.engines && RepsAround(w, w')
    ensures EngineOk(w', x, t)
  {}

  lemma {:induction false} RequestSurvives(w: World, w': World, x: SourceId)
    requires x in w.requests && RequestOk(w, x, w.requests[x]) && RepsAround(w, w') && SourcesAround(w, w')
    ensures RequestOk(w', x, w.requests[x])
  {}

  lemma {:induction false} WorkersSurvive(w: World, w': World)
    requires WorkersSound(w) && RepsAround(w, w') && SourcesAround(w, w')
    requires w'.engines == w.engines && w'.requests == w.requests
    ensures WorkersSound(w')
  {
    forall x | x in w'.engines ensures EngineOk(w', x, w'.engines[x]) { EngineSurvives(w, w', x, w.engines[x]); }
    forall x | x in w'.requests ensures RequestOk(w', x, w'.requests[x]) { RequestSurvives(w, w', x); }
  }

  lemma {:induction false} NothingAround(w: World, w': World)
    requires w' == w.(engines := w'.engines, requests := w'.requests)
    ensures RepsAround(w, w') && SourcesAround(w, w')
    ensures HubSound(w) ==> HubSound(w')
  {}

  // ---- Moves that several steps share -----------------------------------------------------------

  lemma {:induction false} EngineTaskKeeps(w: World, id: SourceId, t: EngineTask)
    requires Invariant(w) && EngineOk(w, id, t)
    ensures Invariant(EngineAt(w, id, t))
  {
    var w' := EngineAt(w, id, t);
    NothingAround(w, w');
    forall x | x in w'.engines ensures EngineOk(w', x, w'.engines[x]) {
      if x != id { EngineSurvives(w, w', x, w'.engines[x]); }
    }
    forall x | x in w'.requests ensures RequestOk(w', x, w'.requests[x]) { RequestSurvives(w, w', x); }
  }

  lemma {:induction false} RequestTaskKeeps(w: World, id: SourceId, t: RequestTask)
    requires Invariant(w) && RequestOk(w, id, t)
    ensures Invariant(RequestAt(w, id, t))
  {
    var w' := RequestAt(w, id, t);
    NothingAround(w, w');
    forall x | x in w'.engines ensures EngineOk(w', x, w'.engines[x]) { EngineSurvives(w, w', x, w.engines[x]); }
    forall x | x in w'.requests ensures RequestOk(w', x, w'.requests[x]) {
      if x != id { RequestSurvives(w, w', x); }
    }
  }

  lemma {:induction false} WorkersMayStop(
    w: World, engines: map<SourceId, EngineTask>, requests: map<SourceId, RequestTask>)
    requires Invariant(w)
    requires forall id :: id in engines ==> id in w.engines && engines[id] == w.engines[id]
    requires forall id :: id in requests ==> id in w.requests && requests[id] == w.requests[id]
    ensures Invariant(w.(engines := engines, requests := requests))
  {
    var w' := w.(engines := engines, requests := requests);
    NothingAround(w, w');
    forall x | x in w'.engines ensures EngineOk(w', x, w'.engines[x]) { EngineSurvives(w, w', x, w.engines[x]); }
    forall x | x in w'.requests ensures RequestOk(w', x, w'.requests[x]) { RequestSurvives(w, w', x); }
  }

  lemma {:induction false} SpokesHub(w: World, sp: Spokes)
    requires HubSound(w) && Housed(sp)
    ensures HubSound(SpokesAt(w, sp)) && RepsAround(w, SpokesAt(w, sp)) && SourcesAround(w, SpokesAt(w, sp))
  {}

  /** Spokes may be changed in any way; what is no longer carried is no longer owned. */
  lemma {:induction false} SpokesKeep(w: World, sp: Spokes)
    requires Invariant(w) && Housed(sp)
    ensures Invariant(SpokesAt(w, sp))
  {
    SpokesHub(w, sp);
    WorkersSurvive(w, SpokesAt(w, sp));
  }

  /** What a Replication may be stored as: for a held source, guarded if it records replicas, covering what the
      source owns. */
  ghost predicate Storable(w: World, id: SourceId, r: Replication) {
    && Held(w, id, r.uid) && (id in w.reps ==> w.reps[id].uid == r.uid) && T.DistinctPairs(r.targets)
    && (r.status.inventory != [] ==> r.finalizer) && Covered(w.owner, id, Keys(r.status.inventory))
  }

  lemma {:induction false} StoreTracks(w: World, id: SourceId, r: Replication)
    requires Tracked(w) && (id in w.reps ==> w.reps[id].uid == r.uid) && Covered(w.owner, id, Keys(r.status.inventory))
    ensures Tracked(StoreRep(w, id, r))
  {}

  lemma {:induction false} StoreHub(w: World, id: SourceId, r: Replication)
    requires HubSound(w) && Storable(w, id, r)
    ensures HubSound(StoreRep(w, id, r))
  {
    StoreTracks(w, id, r);
  }

  lemma {:induction false} StoreAround(w: World, id: SourceId, r: Replication)
    requires id in w.engines && id in w.reps && w.reps[id].finalizer ==> Harmless(w.reps[id], r)
    requires id in w.requests && w.requests[id].Vacant? ==> id in w.reps
    ensures RepsAround(w, StoreRep(w, id, r)) && SourcesAround(w, StoreRep(w, id, r))
  {}

  lemma {:induction false} HarmlessIsStorable(w: World, id: SourceId, r: Replication)
    requires HubSound(w) && id in w.reps && Harmless(w.reps[id], r) && T.DistinctPairs(r.targets)
    ensures Storable(w, id, r)
  {
    assert Covered(w.owner, id, Keys(w.reps[id].status.inventory));
  }

  lemma {:induction false} HarmlessWriteKeeps(w: World, id: SourceId, r: Replication)
    requires Invariant(w) && id in w.reps && Harmless(w.reps[id], r) && T.DistinctPairs(r.targets)
    ensures Invariant(StoreRep(w, id, r))
  {
    HarmlessIsStorable(w, id, r);
    StoreHub(w, id, r);
    StoreAround(w, id, r);
    WorkersSurvive(w, StoreRep(w, id, r));
  }

  /** A Replication whose source owns nothing may go. */
  lemma {:induction false} RepMayGoHub(w: World, id: SourceId)
    requires HubSound(w) && Covered(w.owner, id, {})
    ensures HubSound(w.(reps := w.reps - {id}))
  {}

  lemma {:induction false} RepMayGoAround(w: World, id: SourceId)
    requires id in w.engines && id in w.reps ==> !w.reps[id].finalizer
    ensures RepsAround(w, w.(reps := w.reps - {id})) && SourcesAround(w, w.(reps := w.reps - {id}))
  {}

  lemma {:induction false} UnguardedMayGo(w: World, id: SourceId)
    requires Invariant(w) && id in w.reps && !w.reps[id].finalizer
    ensures Invariant(w.(reps := w.reps - {id}))
  {
    UnguardedOwnsNothing(w, id);
    RepMayGoHub(w, id);
    RepMayGoAround(w, id);
    WorkersSurvive(w, w.(reps := w.reps - {id}));
  }

  lemma {:induction false} UnguardedOwnsNothing(w: World, id: SourceId)
    requires Tracked(w) && RepsSound(w) && id in w.reps && !w.reps[id].finalizer
    ensures Covered(w.owner, id, {})
  {
    forall k | k in w.owner ensures w.owner[k] != id { assert k in Keys(w.reps[w.owner[k]].status.inventory); }
  }

  lemma {:induction false} DeletionKeeps(w: World, id: SourceId)
    requires Invariant(w)
    ensures Invariant(Deleted(w, id))
  {
    if id in w.reps {
      if w.reps[id].finalizer {
        HarmlessWriteKeeps(w, id, w.reps[id].(deleting := true));
      } else {
        UnguardedMayGo(w, id);
      }
    }
  }

  lemma {:induction false} SourceWriteHub(w: World, id: SourceId, src: SourceObject)
    requires HubSound(w) && id in w.sources && src.view.uid == w.sources[id].view.uid && ParsedWell(src)
    requires w.sources[id].finalizer && !src.finalizer ==> id !in w.reps
    ensures HubSound(StoreSource(w, id, src))
  {}

  lemma {:induction false} SourceWriteAround(w: World, id: SourceId, src: SourceObject)
    requires id in w.sources && src.view.uid == w.sources[id].view.uid
    requires w.sources[id].finalizer && !src.finalizer ==> id !in w.requests
    ensures RepsAround(w, StoreSource(w, id, src)) && SourcesAround(w, StoreSource(w, id, src))
  {}

  /** A source object may be rewritten, keeping its UID, and its finalizer while it is needed. */
  lemma {:induction false} SourceWriteKeeps(w: World, id: SourceId, src: SourceObject)
    requires Invariant(w) && id in w.sources && src.view.uid == w.sources[id].view.uid && ParsedWell(src)
    requires w.sources[id].finalizer && !src.finalizer ==> id !in w.reps && id !in w.requests
    ensures Invariant(StoreSource(w, id, src))
  {
    SourceWriteHub(w, id, src);
    SourceWriteAround(w, id, src);
    WorkersSurvive(w, StoreSource(w, id, src));
  }

  lemma {:induction false} SourceMayGoHub(w: World, id: SourceId)
    requires HubSound(w) && id in w.sources && (w.sources[id].finalizer ==> id !in w.reps && id !in w.requests)
    ensures var w' := w.(sources := w.sources - {id});
            HubSound(w') && RepsAround(w, w') && SourcesAround(w, w')
  {}

  lemma {:induction false} SourceMayGo(w: World, id: SourceId)
    requires Invariant(w) && id in w.sources && (w.sources[id].finalizer ==> id !in w.reps && id !in w.requests)
    ensures Invariant(w.(sources := w.sources - {id}))
  {
    SourceMayGoHub(w, id);
    WorkersSurvive(w, w.(sources := w.sources - {id}));
  }

  // ---- Environment steps ---------------------------------------------------------------------------

  lemma {:induction false} SpokeEditsKeep(w: World, s: Step)
    requires Invariant(w) && OnSpokes(s)
    ensures Invariant(EditSpokes(w, s))
  {
    match s
    case PutObject(k, r) =>
      if NsOf(k) in w.spokes.namespaces { SpokesKeep(w, w.spokes.(objects := w.spokes.objects[k := r])); }
    case RemoveObject(k) => SpokesKeep(w, w.spokes.(objects := w.spokes.objects - {k}));
    case CreateNamespace(ns) => SpokesKeep(w, w.spokes.(namespaces := w.spokes.namespaces + {ns}));
    case DeleteNamespace(ns) =>
      SpokesKeep(w, Spokes(map k | k in w.spokes.objects && NsOf(k) != ns :: w.spokes.objects[k],
                           w.spokes.namespaces - {ns}));
  }

  lemma {:induction false} EnvironmentKeepsHub(
    w: World, clusters: seq<T.ClusterRecord>, policies: seq<ReplicationPolicy>, labels: map<string, LabelSet>)
    requires HubSound(w) && T.OneRecordPerName(clusters) && DistinctNames(policies)
    ensures var w' := w.(clusters := clusters, policies := policies, labels := labels);
            HubSound(w') && RepsAround(w, w') && SourcesAround(w, w')
  {}

  lemma {:induction false} EnvironmentKeeps(
    w: World, clusters: seq<T.ClusterRecord>, policies: seq<ReplicationPolicy>, labels: map<string, LabelSet>)
    requires Invariant(w) && T.OneRecordPerName(clusters) && DistinctNames(policies)
    ensures Invariant(w.(clusters := clusters, policies := policies, labels := labels))
  {
    EnvironmentKeepsHub(w, clusters, policies, labels);
    WorkersSurvive(w, w.(clusters := clusters, policies := policies, labels := labels));
  }

  lemma {:induction false} SourceMayAppearHub(w: World, id: SourceId, src: SourceObject)
    requires HubSound(w) && id !in w.sources && src.view.uid != "" && ParsedWell(src)
    ensures HubSound(StoreSource(w, id, src).(uids := w.uids + {src.view.uid}))
  {}

  lemma {:induction false} SourceMayAppearAround(w: World, id: SourceId, src: SourceObject)
    requires id !in w.sources
    ensures var w' := StoreSource(w, id, src).(uids := w.uids + {src.view.uid});
            RepsAround(w, w') && SourcesAround(w, w')
  {}

  lemma {:induction false} SourceMayAppear(w: World, id: SourceId, src: SourceObject)
    requires Invariant(w) && id !in w.sources && src.view.uid != "" && ParsedWell(src)
    ensures Invariant(StoreSource(w, id, src).(uids := w.uids + {src.view.uid}))
  {
    SourceMayAppearHub(w, id, src);
    SourceMayAppearAround(w, id, src);
    WorkersSurvive(w, StoreSource(w, id, src).(uids := w.uids + {src.view.uid}));
  }

  lemma {:induction false} HubEditsKeep(w: World, s: Step)
    requires Invariant(w)
    requires s.EditDiscovery? || s.EditPolicies? || s.EditNamespace? || s.CreateSource? || s.EditSource?
             || s.DeleteSource? || s.DeleteReplication?
    ensures Invariant(EditHub(w, s))
  {
    match s
    case EditDiscovery(clusters) =>
      if T.OneRecordPerName(clusters) { EnvironmentKeeps(w, clusters, w.policies, w.labels); }
    case EditPolicies(policies) =>
      if DistinctNames(policies) { EnvironmentKeeps(w, w.clusters, policies, w.labels); }
    case EditNamespace(name, labels) => EnvironmentKeeps(w, w.clusters, w.policies, w.labels[name := labels]);
    case CreateSource(id, src) =>
      if id !in w.sources && src.view.uid != "" && src.view.uid !in w.uids && ParsedWell(src) {
        SourceMayAppear(w, id, src);
      }
    case EditSource(id, src) =>
      if && id in w.sources && ParsedWell(src) && src.view.uid == w.sources[id].view.uid
         && src.finalizer == w.sources[id].finalizer { SourceWriteKeeps(w, id, src); }
    case DeleteSource(id) =>
      if id in w.sources {
        if w.sources[id].finalizer {
          SourceWriteKeeps(w, id, w.sources[id].(deleting := true));
        } else {
          SourceMayGo(w, id);
        }
      }
    case DeleteReplication(id) => DeletionKeeps(w, id);
  }

  // ---- Request-controller steps --------------------------------------------------------------------

  lemma {:induction false} RequestOffKeeps(w: World, id: SourceId)
    requires Invariant(w)
    ensures Invariant(RequestOff(w, id))
  {
    WorkersMayStop(w, w.engines, w.requests - {id});
  }

  lemma {:induction false} RequestGuardsKeeps(w: World, id: SourceId)
    requires Invariant(w)
    ensures Invariant(RequestGuards(w, id))
  {
    RequestOffKeeps(w, id);
    if id in w.requests && w.requests[id].Looking? && Wanted(w.requests[id].src) && !w.requests[id].src.finalizer {
      var src := w.requests[id].src;
      assert RequestOk(w, id, w.requests[id]);
      if CurrentSource(w, id, src) {
        SourceWriteKeeps(w, id, src.(finalizer := true));
        var w' := StoreSource(w, id, src.(finalizer := true));
        RequestTaskKeeps(w', id, Looking(w'.sources[id]));
      }
    }
  }

  lemma {:induction false} RequestResolvesKeeps(w: World, id: SourceId, readable: bool)
    requires Invariant(w)
    ensures Invariant(RequestResolves(w, id, readable))
  {
    if id in w.requests && w.requests[id].Looking? && Wanted(w.requests[id].src) && w.requests[id].src.finalizer {
      var src := w.requests[id].src;
      assert RequestOk(w, id, w.requests[id]);
      T.ResolutionIsDistinct(w.clusters, src.request.value, MetaOf(w, id, readable), w.policies);
      RequestTaskKeeps(w, id, RequestResolves(w, id, readable).requests[id]);
    }
  }

  lemma {:induction false} CreationKeeps(w: World, id: SourceId, r: Replication)
    requires Invariant(w) && id !in w.reps && Held(w, id, r.uid) && T.DistinctPairs(r.targets)
    requires r.status.inventory == [] && (id in w.requests ==> !w.requests[id].Vacant?)
    ensures Invariant(StoreRep(w, id, r))
  {
    assert Covered(w.owner, id, {});
    StoreHub(w, id, r);
    StoreAround(w, id, r);
    WorkersSurvive(w, StoreRep(w, id, r));
  }

  lemma {:induction false} RequestMaterializesKeeps(w: World, id: SourceId)
    requires Invariant(w)
    ensures Invariant(RequestMaterializes(w, id))
  {
    if id in w.requests && w.requests[id].Materializing? {
      var t := w.requests[id];
      assert RequestOk(w, id, t);
      if id in w.reps {
        RequestTaskKeeps(w, id, Updating(t.uid, t.targets, t.denied, w.reps[id]));
      } else {
        var r := Replication(t.uid, t.targets, 1, false, false, EMPTY_STATUS, 0);
        CreationKeeps(w, id, r);
        RequestTaskKeeps(StoreRep(w, id, r), id, Materialized(|t.targets|, t.denied));
      }
    }
  }

  /** The update rewrites the source reference, but only ever with the UID it already has. */
  lemma {:induction false} UpdateIsHarmless(w: World, id: SourceId, snap: Replication, uid: string)
    requires Chained(w) && Held(w, id, uid) && Snapshot(w, id, snap) && Current(w, id, snap)
    ensures w.reps[id] == snap && snap.uid == uid
  {}

  lemma {:induction false} RequestUpdatesKeeps(w: World, id: SourceId)
    requires Invariant(w)
    ensures Invariant(RequestUpdates(w, id))
  {
    if id in w.requests && w.requests[id].Updating? {
      var t := w.requests[id];
      assert RequestOk(w, id, t);
      if SpecEqual(t.snap, t.uid, t.targets) {
        RequestTaskKeeps(w, id, Materialized(|t.targets|, t.denied));
      } else if Current(w, id, t.snap) {
        UpdateKeeps(w, id, t.snap, t.uid, t.targets, t.denied);
      } else {
        RequestOffKeeps(w, id);
      }
    }
  }

  lemma {:induction false} UpdateKeeps(
    w: World, id: SourceId, snap: Replication, uid: string, targets: seq<T.ResolvedTarget>, denied: nat)
    requires Invariant(w) && Held(w, id, uid) && Snapshot(w, id, snap) && Current(w, id, snap)
    requires T.DistinctPairs(targets)
    ensures Invariant(RequestAt(StoreRep(w, id, WithSpec(snap, uid, targets)), id, Materialized(|targets|, denied)))
  {
    var r := WithSpec(snap, uid, targets);
    UpdateIsHarmless(w, id, snap, uid);
    HarmlessWriteKeeps(w, id, r);
    RequestTaskKeeps(StoreRep(w, id, r), id, Materialized(|targets|, denied));
  }

  lemma {:induction false} RequestReportsKeeps(w: World, id: SourceId, now: S.Time)
    requires Invariant(w)
    ensures Invariant(RequestReports(w, id, now))
  {
    RequestOffKeeps(w, id);
    if id in w.requests && w.requests[id].Reporting? {
      var snap := w.requests[id].snap;
      var c := ResolutionCondition(w.requests[id].clusters, w.requests[id].denied, snap.generation);
      assert RequestOk(w, id, w.requests[id]);
      if Current(w, id, snap) {
        var r := snap.(status := A.RequestNext(snap.status, c, now));
        HarmlessWriteKeeps(w, id, r);
        RequestOffKeeps(StoreRep(w, id, r), id);
      }
    }
  }

  lemma {:induction false} RequestReleasesKeeps(w: World, id: SourceId)
    requires Invariant(w)
    ensures Invariant(RequestReleases(w, id))
  {
    RequestOffKeeps(w, id);
    DeletionKeeps(w, id);
    RequestOffKeeps(Deleted(w, id), id);
    if id in w.requests && w.requests[id].Looking? && id !in w.reps {
      assert RequestOk(w, id, w.requests[id]);
      RequestTaskKeeps(w, id, Vacant(w.requests[id].src));
    }
  }

  lemma {:induction false} RequestUnguardsKeeps(w: World, id: SourceId)
    requires Invariant(w)
    ensures Invariant(RequestUnguards(w, id))
  {
    RequestOffKeeps(w, id);
    if id in w.requests && w.requests[id].Vacant? && CurrentSource(w, id, w.requests[id].src) {
      assert RequestOk(w, id, w.requests[id]);
      var w1 := RequestOff(w, id);
      SourceMayGo(w1, id);
      SourceWriteKeeps(w1, id, w1.sources[id].(finalizer := false));
      assert RequestUnguards(w, id) == w1.(sources := w1.sources - {id})
        || RequestUnguards(w, id) == StoreSource(w1, id, w1.sources[id].(finalizer := false));
    }
  }

  lemma {:induction false} RequestRereadsKeeps(w: World, id: SourceId)
    requires Invariant(w)
    ensures Invariant(RequestRereads(w, id))
  {
    RequestOffKeeps(w, id);
    if id in w.reps && id in w.requests && w.requests[id].Materialized? {
      RequestTaskKeeps(w, id, Reporting(w.reps[id], w.requests[id].clusters, w.requests[id].denied));
    }
  }

  lemma {:induction false} RequestReadsKeeps(w: World, id: SourceId)
    requires Invariant(w)
    ensures Invariant(RequestReads(w, id))
  {
    if id in w.sources { RequestTaskKeeps(w, id, Looking(w.sources[id])); }
  }

  // ---- Engine steps ----------------------------------------------------------------------------------

  lemma {:induction false} EngineOffKeeps(w: World, id: SourceId)
    requires Invariant(w)
    ensures Invariant(EngineOff(w, id))
  {
    WorkersMayStop(w, w.engines - {id}, w.requests);
  }

  /** What a guarded snapshot records covers what the source owns. */
  lemma {:induction false} SnapshotCovers(w: World, id: SourceId, snap: Replication)
    requires Tracked(w) && Guarded(w, id, snap)
    ensures Covered(w.owner, id, Keys(snap.status.inventory))
  {}

  lemma {:induction false} EngineReadsKeeps(w: World, id: SourceId)
    requires Invariant(w)
    ensures Invariant(EngineReads(w, id))
  {
    if id in w.reps { EngineTaskKeeps(w, id, Seen(w.reps[id])); }
  }

  /** Rewriting a Replication no engine worker holds. */
  lemma {:induction false} StoreKeeps(w: World, id: SourceId, r: Replication)
    requires Invariant(w) && id !in w.engines && id in w.reps && Storable(w, id, r)
    ensures Invariant(StoreRep(w, id, r))
  {
    StoreHub(w, id, r);
    StoreAround(w, id, r);
    WorkersSurvive(w, StoreRep(w, id, r));
  }

  lemma {:induction false} SameWrite(w: World, id: SourceId, r: Replication, t: EngineTask)
    ensures EngineAt(StoreRep(EngineOff(w, id), id, r), id, t) == EngineAt(StoreRep(w, id, r), id, t)
    ensures Storable(w, id, r) ==> Storable(EngineOff(w, id), id, r)
  {
    assert (w.engines - {id})[id := t] == w.engines[id := t];
  }

  /** The holder itself rewrites its Replication and moves on. */
  lemma {:induction false} OwnWriteKeeps(w: World, id: SourceId, r: Replication, t: EngineTask)
    requires Invariant(w) && id in w.reps && Storable(w, id, r) && EngineOk(StoreRep(EngineOff(w, id), id, r), id, t)
    ensures Invariant(EngineAt(StoreRep(w, id, r), id, t))
  {
    SameWrite(w, id, r, t);
    EngineOffKeeps(w, id);
    StoreThenTask(EngineOff(w, id), id, r, t);
  }

  lemma {:induction false} StoreThenTask(w: World, id: SourceId, r: Replication, t: EngineTask)
    requires Invariant(w) && id !in w.engines && id in w.reps && Storable(w, id, r)
    requires EngineOk(StoreRep(w, id, r), id, t)
    ensures Invariant(EngineAt(StoreRep(w, id, r), id, t))
  {
    StoreKeeps(w, id, r);
    EngineTaskKeeps(StoreRep(w, id, r), id, t);
  }

  lemma {:induction false} EngineGuardsKeeps(w: World, id: SourceId)
    requires Invariant(w)
    ensures Invariant(EngineGuards(w, id))
  {
    if id in w.engines && w.engines[id].Seen? && !w.engines[id].snap.deleting && !w.engines[id].snap.finalizer {
      var snap := w.engines[id].snap;
      assert EngineOk(w, id, w.engines[id]);
      if Current(w, id, snap) {
        var r := snap.(finalizer := true);
        assert Covered(w.owner, id, Keys(snap.status.inventory));
        var w' := StoreRep(EngineOff(w, id), id, r);
        OwnWriteKeeps(w, id, r, Seen(w'.reps[id]));
      } else {
        EngineOffKeeps(w, id);
      }
    }
  }

  lemma {:induction false} EngineGivesUpKeeps(w: World, id: SourceId, reason: S.Reason)
    requires Invariant(w)
    ensures Invariant(EngineGivesUp(w, id, reason))
  {
    if id in w.engines && w.engines[id].Seen? && !w.engines[id].snap.deleting && w.engines[id].snap.finalizer {
      var snap := w.engines[id].snap;
      assert EngineOk(w, id, w.engines[id]);
      SnapshotCovers(w, id, snap);
      EngineTaskKeeps(w, id, Collecting(snap, [], {}, snap.status.inventory,
        [S.TargetState("", "", "", false, false, reason, "")], snap.status.sourceHash, false));
    }
  }

  // -- planning

  lemma {:induction false} SlotsDistinct(i: Input)
    requires T.DistinctPairs(i.targets)
    ensures C.DistinctSlots(SlotKeys(i))
  {
    T.SlotsFollowPairs(i.targets, i.sourceName);
    var ks := SlotKeys(i);
    forall m, n | 0 <= m < n < |ks| ensures ks[m] != ks[n] {
      assert T.Pairs(i.targets)[m] != T.Pairs(i.targets)[n];
    }
  }

  /** Right after planning, every slot to apply is recorded. */
  lemma {:induction false} PlannedIsPending(snap: Replication, i: Input, prev: seq<Decision>)
    requires snap.status.inventory == PassPlan(i)
    ensures Pending(Applying(snap, i, prev, 0, PassPlan(i), []))
  {
    PlanningAdds(i.status.inventory, SlotKeys(i), Decisions(i));
    var js := PassJobs(prev, i);
    forall m | 0 <= m < |js| && js[m].ApplyJob? ensures js[m].key in Keys(PassPlan(i)) {
      assert Decisions(i)[m].allowed;
      assert js[m].key in AllowedKeys(SlotKeys(i), Decisions(i));
    }
  }

  lemma {:induction false} PlanCovers(w: World, id: SourceId, snap: Replication, i: Input)
    requires Tracked(w) && Guarded(w, id, snap) && i.status.inventory == snap.status.inventory
    ensures Covered(w.owner, id, Keys(PassPlan(i)))
  {
    SnapshotCovers(w, id, snap);
    PlanningAdds(i.status.inventory, SlotKeys(i), Decisions(i));
  }

  lemma {:induction false} ApplyingOk(w: World, id: SourceId, snap: Replication, i: Input, prev: seq<Decision>)
    requires Snapshot(w, id, snap) && snap.finalizer && Guarded(w, id, snap) && i.cx.src.uid == snap.uid
    requires T.DistinctPairs(snap.targets) && DistinctNames(i.policies) && C.DistinctSlots(SlotKeys(i))
    requires snap.status.inventory == PassPlan(i) && Covered(w.owner, id, Keys(PassPlan(i)))
    ensures EngineOk(w, id, Applying(snap, i, prev, 0, PassPlan(i), []))
  {
    PlannedIsPending(snap, i, prev);
  }

  lemma {:induction false} PlanStored(w: World, id: SourceId, snap: Replication, i: Input, prev: seq<Decision>)
    requires Invariant(w) && id in w.engines && EngineOk(w, id, w.engines[id]) && w.engines[id].snap == snap
    requires snap.finalizer && Current(w, id, snap) && Fits(w, id, snap, i)
    ensures var w' := StoreRep(w, id, WithInventory(snap, PassPlan(i)));
            Invariant(EngineAt(w', id, Applying(w'.reps[id], i, prev, 0, PassPlan(i), [])))
  {
    var r := WithInventory(snap, PassPlan(i));
    PlanCovers(w, id, snap, i);
    SlotsDistinct(i);
    var w' := StoreRep(EngineOff(w, id), id, r);
    ApplyingOk(w', id, w'.reps[id], i, prev);
    OwnWriteKeeps(w, id, r, Applying(w'.reps[id], i, prev, 0, PassPlan(i), []));
  }

  lemma {:induction false} EnginePlansKeeps(w: World, id: SourceId, i: Input, prev: seq<Decision>)
    requires Invariant(w)
    ensures Invariant(EnginePlans(w, id, i, prev))
  {
    if && id in w.engines && w.engines[id].Seen? && !w.engines[id].snap.deleting && w.engines[id].snap.finalizer
       && Fits(w, id, w.engines[id].snap, i) {
      var snap := w.engines[id].snap;
      assert EngineOk(w, id, w.engines[id]);
      if PassPlan(i) == snap.status.inventory {
        PlanCovers(w, id, snap, i);
        SlotsDistinct(i);
        ApplyingOk(w, id, snap, i, prev);
        EngineTaskKeeps(w, id, Applying(snap, i, prev, 0, PassPlan(i), []));
      } else if Current(w, id, snap) {
        PlanStored(w, id, snap, i, prev);
      } else {
        EngineOffKeeps(w, id);
      }
    }
  }

  // -- applying a slot

  /** What a job does for the worker's inventory. */
  ghost predicate JobEffect(inv: seq<InventoryEntry>, q: Progress, j: Job, uid: string) {
    && Housed(q.spokes) && Keys(inv) - {j.key} <= Keys(q.inv)
    && (j.key in Keys(inv) && (j.DenyJob? || Carries(q.spokes, j.key, uid)) ==> j.key in Keys(q.inv))
  }

  lemma {:induction false} JobHasEffect(p: Progress, j: Job, cx: Context)
    requires cx.src.uid != "" && Housed(p.spokes)
    ensures JobEffect(p.inv, DoJob(p, j, cx), j, cx.src.uid)
  {
    if j.ApplyJob? {
      ApplyTargetIsSafe(p.spokes, p.inv, j.key, cx.src, j.options, cx.slotFaults(j.key), cx.hash);
    }
  }

  lemma {:induction false} ClaimHub(w: World, id: SourceId, k: SlotKey)
    requires HubSound(w) && id in w.reps && Carries(w.spokes, k, w.reps[id].uid)
    requires k in Keys(w.reps[id].status.inventory)
    requires id !in w.engines
    ensures var w' := w.(owner := w.owner[k := id]);
            HubSound(w') && RepsAround(w, w') && SourcesAround(w, w')
  {}

  lemma {:induction false} ClaimKeeps(w: World, id: SourceId, j: Job, sp: Spokes, uid: string)
    requires Invariant(w) && Housed(sp) && id !in w.engines && id in w.reps && w.reps[id].uid == uid
    requires j.ApplyJob? ==> j.key in Keys(w.reps[id].status.inventory)
    ensures Invariant(Claimed(w, id, j, sp, uid))
  {
    SpokesKeep(w, sp);
    var w' := SpokesAt(w, sp);
    if j.ApplyJob? && Carries(sp, j.key, uid) {
      ClaimHub(w', id, j.key);
      WorkersSurvive(w', w'.(owner := w'.owner[j.key := id]));
    }
  }

  lemma {:induction false} ClaimCovers(
    w: World, id: SourceId, j: Job, q: Progress, uid: string, inv: seq<InventoryEntry>)
    requires Covered(w.owner, id, Keys(inv)) && JobEffect(inv, q, j, uid) && (id in w.reps ==> w.reps[id].uid == uid)
    requires j.ApplyJob? ==> j.key in Keys(inv)
    ensures Covered(Claimed(w, id, j, q.spokes, uid).owner, id, Keys(q.inv))
  {
    var owner := Claimed(w, id, j, q.spokes, uid).owner;
    forall k | k in owner && owner[k] == id ensures k in Keys(q.inv) {
      if k != j.key {
        assert k in w.owner && w.owner[k] == id;
      } else {
        assert !j.ApplyJob? ==> k in w.owner && w.owner[k] == id;
      }
    }
  }

  lemma {:induction false} StillPending(t: EngineTask, q: Progress)
    requires t.Applying? && Pending(t) && C.DistinctSlots(SlotKeys(t.i)) && t.n < |PassJobs(t.prev, t.i)|
    requires Keys(t.inv) - {NextJob(t).key} <= Keys(q.inv)
    ensures Pending(Advanced(t, q))
  {
    var js := PassJobs(t.prev, t.i);
    forall m | t.n + 1 <= m < |js| && js[m].ApplyJob?
      ensures js[m].key in Keys(q.inv) && js[m].key in Keys(t.snap.status.inventory)
    {
      assert js[m].key == SlotKeys(t.i)[m] && js[t.n].key == SlotKeys(t.i)[t.n];
    }
  }

  lemma {:induction false} SameClaim(w: World, id: SourceId, j: Job, sp: Spokes, uid: string, t: EngineTask)
    ensures EngineAt(Claimed(EngineOff(w, id), id, j, sp, uid), id, t) == EngineAt(Claimed(w, id, j, sp, uid), id, t)
  {
    assert (w.engines - {id})[id := t] == w.engines[id := t];
    assert StillOwned(EngineOff(w, id), sp) == StillOwned(w, sp);
  }

  lemma {:induction false} AdvancedOk(w: World, id: SourceId, t: EngineTask)
    requires t.Applying? && EngineOk(w, id, t) && t.n < |PassJobs(t.prev, t.i)|
    requires JobEffect(t.inv, AfterJob(w, t), NextJob(t), t.snap.uid)
    ensures EngineOk(Claimed(EngineOff(w, id), id, NextJob(t), AfterJob(w, t).spokes, t.snap.uid), id,
                     Advanced(t, AfterJob(w, t)))
  {
    var q, w' := AfterJob(w, t), Claimed(EngineOff(w, id), id, NextJob(t), AfterJob(w, t).spokes, t.snap.uid);
    StillPending(t, q);
    ClaimCovers(EngineOff(w, id), id, NextJob(t), q, t.snap.uid, t.inv);
    TaskTransfers(w, w', id, t, Advanced(t, q));
  }

  /** Everything about a task but its inventory carries over. */
  lemma {:induction false} TaskTransfers(w: World, w': World, id: SourceId, t: EngineTask, t': EngineTask)
    requires t.Applying? && t'.Applying? && EngineOk(w, id, t) && w'.reps == w.reps && w'.version == w.version
    requires t'.snap == t.snap && t'.i == t.i && t'.prev == t.prev
    requires Pending(t') && Covered(w'.owner, id, Keys(t'.inv))
    ensures EngineOk(w', id, t')
  {}

  lemma {:induction false} EngineAppliesKeeps(w: World, id: SourceId)
    requires Invariant(w)
    ensures Invariant(EngineApplies(w, id))
  {
    if && id in w.engines && w.engines[id].Applying?
       && w.engines[id].n < |PassJobs(w.engines[id].prev, w.engines[id].i)| {
      var t := w.engines[id];
      assert EngineOk(w, id, t);
      JobHasEffect(Progress(w.spokes, t.inv, t.states, 0), NextJob(t), t.i.cx);
      AdvancedOk(w, id, t);
      ApplyStepKeeps(w, id, t);
    }
  }

  lemma {:induction false} ApplyStepKeeps(w: World, id: SourceId, t: EngineTask)
    requires Invariant(w) && t.Applying? && t.n < |PassJobs(t.prev, t.i)| && Guarded(w, id, t.snap) && Pending(t)
    requires Housed(AfterJob(w, t).spokes)
    requires EngineOk(Claimed(EngineOff(w, id), id, NextJob(t), AfterJob(w, t).spokes, t.snap.uid), id,
                      Advanced(t, AfterJob(w, t)))
    ensures Invariant(EngineAt(Claimed(w, id, NextJob(t), AfterJob(w, t).spokes, t.snap.uid), id,
                               Advanced(t, AfterJob(w, t))))
  {
    var q, w0 := AfterJob(w, t), EngineOff(w, id);
    EngineOffKeeps(w, id);
    ClaimKeeps(w0, id, NextJob(t), q.spokes, t.snap.uid);
    EngineTaskKeeps(Claimed(w0, id, NextJob(t), q.spokes, t.snap.uid), id, Advanced(t, q));
    SameClaim(w, id, NextJob(t), q.spokes, t.snap.uid, Advanced(t, q));
  }

  // -- collecting garbage

  lemma {:induction false} StartKeeps(
    w: World, id: SourceId, snap: Replication, inv: seq<InventoryEntry>, keep: set<SlotKey>, states: seq<S.TargetState>,
    hash: string, retained: bool)
    requires Invariant(w) && Snapshot(w, id, snap) && T.DistinctPairs(snap.targets) && snap.finalizer
    requires Guarded(w, id, snap)
    requires Covered(w.owner, id, Keys(inv))
    ensures Invariant(EngineAt(w, id, StartCollecting(w, snap, inv, keep, states, hash, retained)))
  {
    var t := StartCollecting(w, snap, inv, keep, states, hash, retained);
    assert Keys(inv) <= Keys(t.inv) + t.gone;
    EngineTaskKeeps(w, id, t);
  }

  lemma {:induction false} EngineCollectsKeeps(w: World, id: SourceId)
    requires Invariant(w)
    ensures Invariant(EngineCollects(w, id))
  {
    if && id in w.engines && w.engines[id].Applying?
       && w.engines[id].n == |PassJobs(w.engines[id].prev, w.engines[id].i)| {
      var t := w.engines[id];
      assert EngineOk(w, id, t);
      StartKeeps(w, id, t.snap, t.inv, PassKeep(t.prev, t.i), t.states, t.i.cx.hash(t.i.cx.src.payload),
                 V.AnyRetained(PassRevocations(t.prev, t.i), t.i.policies, t.i.meta, t.i.status.inventory));
    }
  }

  lemma {:induction false} EngineDrainsKeeps(w: World, id: SourceId)
    requires Invariant(w)
    ensures Invariant(EngineDrains(w, id))
  {
    if id in w.engines && w.engines[id].Seen? && w.engines[id].snap.deleting && w.engines[id].snap.finalizer {
      var snap := w.engines[id].snap;
      assert EngineOk(w, id, w.engines[id]);
      SnapshotCovers(w, id, snap);
      StartKeeps(w, id, snap, snap.status.inventory, {}, [], snap.status.sourceHash, false);
    }
  }

  lemma {:induction false} DisposalCovers(
    w: World, id: SourceId, inv: seq<InventoryEntry>, gone: set<SlotKey>, r: CollectResult, k: SlotKey, uid: string)
    requires Covered(w.owner, id, Keys(inv) + gone) && (id in w.reps ==> w.reps[id].uid == uid)
    requires Keys(r.inv) == Keys(inv) || (Keys(r.inv) == Keys(inv) - {k} && !Carries(r.spokes, k, uid))
    ensures Covered(StillOwned(w, r.spokes), id, Keys(r.inv) + gone)
  {}

  lemma {:induction false} EngineDeletesKeeps(w: World, id: SourceId, kinds: set<GroupKind>, f: CollectFaults)
    requires Invariant(w)
    ensures Invariant(EngineDeletes(w, id, kinds, f))
  {
    if id in w.engines && w.engines[id].Collecting? && w.engines[id].todo != [] {
      var t := w.engines[id];
      assert EngineOk(w, id, t);
      CollectEntryIsSafe(w.spokes, t.inv, t.todo[0].key, t.snap.uid, kinds, f);
      var r := CollectEntry(w.spokes, t.inv, t.todo[0].key, t.snap.uid, kinds, f);
      DisposalCovers(w, id, t.inv, t.gone, r, t.todo[0].key, t.snap.uid);
      SpokesKeep(w, r.spokes);
      EngineTaskKeeps(SpokesAt(w, r.spokes), id, Disposed(t, r));
    }
  }

  // -- storing the result

  lemma {:induction false} ForgetHub(w: World, id: SourceId, gone: set<SlotKey>)
    requires HubSound(w)
    ensures var w' := w.(owner := Forget(w.owner, id, gone));
            HubSound(w') && RepsAround(w, w') && SourcesAround(w, w')
  {}

  lemma {:induction false} ForgetKeeps(w: World, id: SourceId, gone: set<SlotKey>)
    requires Invariant(w)
    ensures Invariant(w.(owner := Forget(w.owner, id, gone)))
  {
    ForgetHub(w, id, gone);
    WorkersSurvive(w, w.(owner := Forget(w.owner, id, gone)));
  }

  lemma {:induction false} CommitKeeps(w: World, id: SourceId, snap: Replication, gone: set<SlotKey>, status: S.Status)
    requires Invariant(w) && id !in w.engines && Current(w, id, snap) && w.reps[id] == snap && snap.finalizer
    requires Covered(w.owner, id, Keys(status.inventory) + gone)
    ensures Invariant(StoreRep(w.(owner := Forget(w.owner, id, gone - Keys(status.inventory))), id,
                               WithStatus(snap, status)))
  {
    var w' := w.(owner := Forget(w.owner, id, gone - Keys(status.inventory)));
    ForgetKeeps(w, id, gone - Keys(status.inventory));
    assert Covered(w'.owner, id, Keys(status.inventory));
    StoreKeeps(w', id, WithStatus(snap, status));
  }

  lemma {:induction false} EngineCommitsKeeps(w: World, id: SourceId, now: S.Time)
    requires Invariant(w)
    ensures Invariant(EngineCommits(w, id, now))
  {
    EngineOffKeeps(w, id);
    if && id in w.engines && w.engines[id].Collecting? && w.engines[id].todo == []
       && !(w.engines[id].snap.deleting && w.engines[id].inv == []) {
      var t := w.engines[id];
      assert EngineOk(w, id, t);
      if FinalStatus(t, now) != t.snap.status && Current(w, id, t.snap) {
        CommitKeeps(EngineOff(w, id), id, t.snap, t.gone, FinalStatus(t, now));
      }
    }
  }

  lemma {:induction false} DropKeeps(w: World, id: SourceId, gone: set<SlotKey>)
    requires Invariant(w) && id !in w.engines && Covered(w.owner, id, gone)
    ensures var w' := w.(owner := Forget(w.owner, id, gone));
            Invariant(w'.(reps := w'.reps - {id}))
  {
    var w' := w.(owner := Forget(w.owner, id, gone));
    ForgetKeeps(w, id, gone);
    RepMayGoHub(w', id);
    RepMayGoAround(w', id);
    WorkersSurvive(w', w'.(reps := w'.reps - {id}));
  }

  lemma {:induction false} EngineDropsFinalizerKeeps(w: World, id: SourceId)
    requires Invariant(w)
    ensures Invariant(EngineDropsFinalizer(w, id))
  {
    EngineOffKeeps(w, id);
    if && id in w.engines && w.engines[id].Collecting? && w.engines[id].todo == []
       && w.engines[id].snap.deleting && w.engines[id].inv == [] {
      var t := w.engines[id];
      assert EngineOk(w, id, t);
      assert Keys(t.inv) + t.gone == t.gone;
      DropKeeps(EngineOff(w, id), id, t.gone);
    }
  }

  // ---- Every run --------------------------------------------------------------------------------------

  lemma {:induction false} EngineStepKeeps(w: World, s: Step)
    requires Invariant(w) && ByEngine(s)
    ensures Invariant(EngineStep(w, s))
  {
    match s
    case EngineRead(id) => EngineReadsKeeps(w, id);
    case EngineGuard(id) => EngineGuardsKeeps(w, id);
    case EngineGiveUp(id, reason) => EngineGivesUpKeeps(w, id, reason);
    case EnginePlan(id, i, prev) => EnginePlansKeeps(w, id, i, prev);
    case EngineApply(id) => EngineAppliesKeeps(w, id);
    case EngineCollect(id) => EngineCollectsKeeps(w, id);
    case EngineDrain(id) => EngineDrainsKeeps(w, id);
    case EngineDelete(id, kinds, f) => EngineDeletesKeeps(w, id, kinds, f);
    case EngineCommit(id, now) => EngineCommitsKeeps(w, id, now);
    case EngineDrop(id) => EngineDropsFinalizerKeeps(w, id);
    case EngineAbort(id) => EngineOffKeeps(w, id);
  }

  lemma {:induction false} RequestStepKeeps(w: World, s: Step)
    requires Invariant(w) && ByRequest(s)
    ensures Invariant(RequestStep(w, s))
  {
    match s {
      case RequestRead(id) => RequestReadsKeeps(w, id);
      case RequestGuard(id) => RequestGuardsKeeps(w, id);
      case RequestResolve(id, readable) => RequestResolvesKeeps(w, id, readable);
      case RequestMaterialize(id) => RequestMaterializesKeeps(w, id);
      case RequestUpdate(id) => RequestUpdatesKeeps(w, id);
      case RequestReread(id) => RequestRereadsKeeps(w, id);
      case RequestReport(id, now) => RequestReportsKeeps(w, id, now);
      case RequestRelease(id) => RequestReleasesKeeps(w, id);
      case RequestUnguard(id) => RequestUnguardsKeeps(w, id);
      case RequestAbort(id) => RequestOffKeeps(w, id);
    }
  }

  /** Every step of either controller, of a crash and of the environment keeps the invariant. */
  lemma {:induction false} StepKeeps(w: World, s: Step)
    requires Invariant(w)
    ensures Invariant(After(w, s))
  {
    if ByEngine(s) {
      EngineStepKeeps(w, s);
    } else if ByRequest(s) {
      RequestStepKeeps(w, s);
    } else if s.OperatorCrash? {
      WorkersMayStop(w, map[], map[]);
    } else if OnSpokes(s) {
      SpokeEditsKeep(w, s);
    } else {
      HubEditsKeep(w, s);
    }
  }

  lemma {:induction false} RunKeeps(w: World, steps: seq<Step>)
    requires Init(w)
    ensures Invariant(Run(w, steps))
  {
    if steps != [] {
      RunKeeps(w, steps[..|steps| - 1]);
      StepKeeps(Run(w, steps[..|steps| - 1]), steps[|steps| - 1]);
    }
  }

  /** No run loses track of a created replica: every owned slot still holds a replica carrying its source's UID, is
      in the stored inventory of that source's Replication, which the engine's finalizer holds; and the source
      itself exists, is the same incarnation and is held by the request controller's finalizer. */
  lemma {:induction false} NoReplicaIsLost(w: World, steps: seq<Step>)
    requires Init(w)
    ensures var w' := Run(w, steps);
            && (forall k :: k in w'.owner ==>
                  && w'.owner[k] in w'.reps && w'.reps[w'.owner[k]].finalizer
                  && Carries(w'.spokes, k, w'.reps[w'.owner[k]].uid)
                  && k in Keys(w'.reps[w'.owner[k]].status.inventory))
            && (forall id :: id in w'.reps ==>
                  && (w'.reps[id].status.inventory != [] ==> w'.reps[id].finalizer)
                  && id in w'.sources && w'.sources[id].view.uid == w'.reps[id].uid && w'.sources[id].finalizer)
  {
    RunKeeps(w, steps);
    var w' := Run(w, steps);
    forall k | k in w'.owner ensures w'.owner[k] in w'.reps && w'.reps[w'.owner[k]].finalizer {
      assert k in Keys(w'.reps[w'.owner[k]].status.inventory);
    }
  }
}
