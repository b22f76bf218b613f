/** The replication protocol as a step machine: the request controller and the engine share one Replication per
    source on the hub, the engine writes to the spokes, and everything may crash or be edited between any two
    steps (internal/controller/request/controller.go, internal/engine/reconciler.go).

    Hub writes of an object that was read earlier land only on the version that was read. One worker per
    controller handles a source at a time. A step of the engine on a slot reads and writes it without a foreign
    step in between. */
module Protocol {
  import opened Basics
  import opened Labels
  import opened Policies
  import opened Options
  import opened Inventory
  import opened Engine
  import opened Passes
  import A = Arbitration
  import S = Status
  import T = Targets
  import V = Revocations

  // ---- The hub ----------------------------------------------------------------------------

  datatype SourceId = SourceId(kind: GroupKind, namespace: string, name: string)

  /** request is None when the annotations do not parse. */
  datatype SourceObject = SourceObject(
    view: SourceView, replicates: bool, request: Option<T.Request>, deleting: bool, finalizer: bool, version: nat)

  /** An operator-owned Replication; uid is that of its source reference. */
  datatype Replication = Replication(
    uid: string, targets: seq<T.ResolvedTarget>, generation: int, deleting: bool, finalizer: bool,
    status: S.Status, version: nat)

  const EMPTY_STATUS: S.Status := S.Status(S.Summary(0, 0, 0), "", [], [], 0, [])

  // ---- Workers ------------------------------------------------------------------------------

  /** Where an engine worker stands. snap is the Replication as the worker last read or wrote it. In Applying,
      jobs of the pass before index n are done. In Collecting, the entries of todo are still to be deleted, and
      those of gone were released because their cluster had left discovery. */
  datatype EngineTask =
    | Seen(snap: Replication)
    | Applying(snap: Replication, i: Input, prev: seq<Decision>, n: nat, inv: seq<InventoryEntry>,
               states: seq<S.TargetState>)
    | Collecting(snap: Replication, todo: seq<InventoryEntry>, gone: set<SlotKey>, inv: seq<InventoryEntry>,
                 states: seq<S.TargetState>, hash: string, retained: bool)

  /** Where a request worker stands. denied counts the candidate targets that policy denied, clusters the clusters
      that were resolved. */
  datatype RequestTask =
    | Looking(src: SourceObject)
    | Materializing(uid: string, targets: seq<T.ResolvedTarget>, denied: nat)
    | Updating(uid: string, targets: seq<T.ResolvedTarget>, denied: nat, snap: Replication)
    | Materialized(clusters: nat, denied: nat)
    | Reporting(snap: Replication, clusters: nat, denied: nat)
    | Vacant(src: SourceObject)

  /** owner is bookkeeping of the model, not of the program: the engine of source owner[k] has applied slot k, and
      the object there has carried that source's UID ever since, unless its entry was released with its cluster. */
  datatype World = World(
    sources: map<SourceId, SourceObject>, reps: map<SourceId, Replication>,
    clusters: seq<T.ClusterRecord>, policies: seq<ReplicationPolicy>, labels: map<string, LabelSet>, spokes: Spokes,
    version: nat, uids: set<string>,
    engines: map<SourceId, EngineTask>, requests: map<SourceId, RequestTask>,
    owner: map<SlotKey, SourceId>)

  /** The labels of a hub namespace. */
  function LabelsIn(w: World, namespace: string): LabelSet {
    if namespace in w.labels then w.labels[namespace] else map[]
  }

  predicate Current(w: World, id: SourceId, snap: Replication) { id in w.reps && w.reps[id].version == snap.version }

  predicate CurrentSource(w: World, id: SourceId, src: SourceObject) {
    id in w.sources && w.sources[id].version == src.version
  }

  function StoreRep(w: World, id: SourceId, r: Replication): World {
    w.(reps := w.reps[id := r.(version := w.version)], version := w.version + 1)
  }

  function StoreSource(w: World, id: SourceId, s: SourceObject): World {
    w.(sources := w.sources[id := s.(version := w.version)], version := w.version + 1)
  }

  function EngineAt(w: World, id: SourceId, t: EngineTask): World { w.(engines := w.engines[id := t]) }

  function EngineOff(w: World, id: SourceId): World { w.(engines := w.engines - {id}) }

  function RequestAt(w: World, id: SourceId, t: RequestTask): World { w.(requests := w.requests[id := t]) }

  function RequestOff(w: World, id: SourceId): World { w.(requests := w.requests - {id}) }

  // ---- The spokes -----------------------------------------------------------------------------

  /** Who still owns its slot once the spokes look like sp. */
  function StillOwned(w: World, sp: Spokes): map<SlotKey, SourceId> {
    map k | k in w.owner && w.owner[k] in w.reps && Carries(sp, k, w.reps[w.owner[k]].uid) :: w.owner[k]
  }

  function SpokesAt(w: World, sp: Spokes): (w': World)
    ensures w'.sources == w.sources && w'.reps == w.reps && w'.engines == w.engines
  {
    w.(spokes := sp, owner := StillOwned(w, sp))
  }

  function Forget(owner: map<SlotKey, SourceId>, id: SourceId, gone: set<SlotKey>): map<SlotKey, SourceId> {
    map k | k in owner && !(owner[k] == id && k in gone) :: owner[k]
  }

  function Discovered(clusters: seq<T.ClusterRecord>): set<string> { set c | c in clusters :: c.name }

  /** Nothing happened on the spokes. */
  ghost predicate HubOnly(w: World, w': World) { w'.spokes == w.spokes && w'.owner == w.owner }

  // ---- Engine steps ------------------------------------------------------------------------------

  function EngineReads(w: World, id: SourceId): (w': World)
    ensures HubOnly(w, w') && w'.sources == w.sources
  {
    if id in w.reps && id !in w.engines then EngineAt(w, id, Seen(w.reps[id])) else w
  }

  /** The engine finalizer goes on before anything else. */
  function EngineGuards(w: World, id: SourceId): (w': World)
    ensures HubOnly(w, w') && w'.sources == w.sources
  {
    if id in w.engines && w.engines[id].Seen? && !w.engines[id].snap.deleting && !w.engines[id].snap.finalizer then
      var snap := w.engines[id].snap;
      if Current(w, id, snap) then
        var w' := StoreRep(w, id, snap.(finalizer := true));
        EngineAt(w', id, Seen(w'.reps[id]))
      else EngineOff(w, id)
    else w
  }

  /** The source's kind fell off the allowlist, or the source is missing or another incarnation: report and wait. */
  function EngineGivesUp(w: World, id: SourceId, reason: S.Reason): (w': World)
    ensures HubOnly(w, w') && w'.sources == w.sources
  {
    if id in w.engines && w.engines[id].Seen? && !w.engines[id].snap.deleting && w.engines[id].snap.finalizer then
      var snap := w.engines[id].snap;
      EngineAt(w, id, Collecting(snap, [], {}, snap.status.inventory,
                                 [S.TargetState("", "", "", false, false, reason, "")], snap.status.sourceHash, false))
    else w
  }

  /** The pass reads the source, the policies, discovery and the labels of the source's namespace, none when that read
      fails; the transport's outcomes stay free. */
  ghost predicate Fits(w: World, id: SourceId, snap: Replication, i: Input) {
    && id in w.sources && w.sources[id].view.uid == snap.uid && i.cx.src == w.sources[id].view
    && i.targets == snap.targets && i.status == snap.status && i.generation == snap.generation
    && i.sourceName == id.name && i.kind == id.kind && i.meta.kind == id.kind.kind && i.meta.namespace == id.namespace
    && (i.meta.namespaceLabels == LabelsIn(w, id.namespace) || i.meta.namespaceLabels == map[])
    && i.policies == w.policies && i.clusters == w.clusters
  }

  function WithInventory(r: Replication, inv: seq<InventoryEntry>): Replication {
    r.(status := r.status.(inventory := inv))
  }

  /** Stores the plan when it differs. */
  function StoresPlan(
    w: World, id: SourceId, snap: Replication, plan: seq<InventoryEntry>, i: Input, prev: seq<Decision>): (w': World)
    ensures HubOnly(w, w') && w'.sources == w.sources
  {
    if plan == snap.status.inventory then EngineAt(w, id, Applying(snap, i, prev, 0, plan, []))
    else if Current(w, id, snap) then
      var w' := StoreRep(w, id, WithInventory(snap, plan));
      EngineAt(w', id, Applying(w'.reps[id], i, prev, 0, plan, []))
    else EngineOff(w, id)
  }

  /** Planned entries are stored before anything is created. */
  ghost function EnginePlans(w: World, id: SourceId, i: Input, prev: seq<Decision>): (w': World)
    ensures HubOnly(w, w') && w'.sources == w.sources
  {
    if && id in w.engines && w.engines[id].Seen? && !w.engines[id].snap.deleting && w.engines[id].snap.finalizer
       && Fits(w, id, w.engines[id].snap, i) then
      StoresPlan(w, id, w.engines[id].snap, PassPlan(i), i, prev)
    else w
  }

  function NextJob(t: EngineTask): Job
    requires t.Applying? && t.n < |PassJobs(t.prev, t.i)|
  {
    PassJobs(t.prev, t.i)[t.n]
  }

  function AfterJob(w: World, t: EngineTask): Progress
    requires t.Applying? && t.n < |PassJobs(t.prev, t.i)|
  {
    DoJob(Progress(w.spokes, t.inv, t.states, 0), NextJob(t), t.i.cx)
  }

  /** A slot that carries the source's UID after it was applied is owned from then on. */
  function Claimed(w: World, id: SourceId, j: Job, sp: Spokes, uid: string): (w': World)
    ensures w'.sources == w.sources && w'.reps == w.reps && w'.engines == w.engines
  {
    var w' := SpokesAt(w, sp);
    if j.ApplyJob? && Carries(sp, j.key, uid) then w'.(owner := w'.owner[j.key := id]) else w'
  }

  function Advanced(t: EngineTask, q: Progress): EngineTask
    requires t.Applying?
  {
    t.(n := t.n + 1, inv := q.inv, states := q.states)
  }

  /** The next slot of the apply loop, in memory on the worker's inventory and for real on the spokes. */
  function EngineApplies(w: World, id: SourceId): (w': World)
    ensures w'.sources == w.sources && w'.reps == w.reps
  {
    if && id in w.engines && w.engines[id].Applying?
       && w.engines[id].n < |PassJobs(w.engines[id].prev, w.engines[id].i)| then
      var t := w.engines[id];
      var q := AfterJob(w, t);
      EngineAt(Claimed(w, id, NextJob(t), q.spokes, t.snap.uid), id, Advanced(t, q))
    else w
  }

  /** Garbage collection starts: entries of clusters that left discovery are released, the rest is to be deleted. */
  function StartCollecting(
    w: World, snap: Replication, inv: seq<InventoryEntry>, keep: set<SlotKey>, states: seq<S.TargetState>,
    hash: string, retained: bool): EngineTask
  {
    var rel := Uncovered(inv, keep, Discovered(w.clusters), false);
    Collecting(snap, Uncovered(inv, keep, Discovered(w.clusters), true), Keys(rel), Released(inv, rel), states, hash,
               retained)
  }

  function EngineCollects(w: World, id: SourceId): (w': World)
    ensures HubOnly(w, w') && w'.sources == w.sources
  {
    if && id in w.engines && w.engines[id].Applying?
       && w.engines[id].n == |PassJobs(w.engines[id].prev, w.engines[id].i)| then
      var t := w.engines[id];
      EngineAt(w, id, StartCollecting(
        w, t.snap, t.inv, PassKeep(t.prev, t.i), t.states, t.i.cx.hash(t.i.cx.src.payload),
        V.AnyRetained(PassRevocations(t.prev, t.i), t.i.policies, t.i.meta, t.i.status.inventory)))
    else w
  }

  /** The finalizer path keeps nothing. */
  function EngineDrains(w: World, id: SourceId): (w': World)
    ensures HubOnly(w, w') && w'.sources == w.sources
  {
    if id in w.engines && w.engines[id].Seen? && w.engines[id].snap.deleting && w.engines[id].snap.finalizer then
      var snap := w.engines[id].snap;
      EngineAt(w, id, StartCollecting(w, snap, snap.status.inventory, {}, [], snap.status.sourceHash, false))
    else w
  }

  function Disposed(t: EngineTask, r: CollectResult): EngineTask
    requires t.Collecting? && t.todo != []
  {
    t.(todo := t.todo[1..], inv := r.inv, states := if r.state.Some? then t.states + [r.state.value] else t.states)
  }

  function EngineDeletes(w: World, id: SourceId, kinds: set<GroupKind>, f: CollectFaults): (w': World)
    ensures w'.sources == w.sources && w'.reps == w.reps
  {
    if id in w.engines && w.engines[id].Collecting? && w.engines[id].todo != [] then
      var t := w.engines[id];
      var r := CollectEntry(w.spokes, t.inv, t.todo[0].key, t.snap.uid, kinds, f);
      EngineAt(SpokesAt(w, r.spokes), id, Disposed(t, r))
    else w
  }

  function FinalStatus(t: EngineTask, now: S.Time): S.Status
    requires t.Collecting?
  {
    S.Built(t.snap.status, S.Outcome(t.hash, t.states, t.inv, t.retained, t.snap.generation, t.snap.deleting), now)
  }

  function WithStatus(r: Replication, status: S.Status): Replication { r.(status := status) }

  /** The final status, stored when it differs. Entries released with their cluster are forgotten with it. */
  function EngineCommits(w: World, id: SourceId, now: S.Time): (w': World)
    ensures w'.sources == w.sources && w'.spokes == w.spokes
  {
    if && id in w.engines && w.engines[id].Collecting? && w.engines[id].todo == []
       && !(w.engines[id].snap.deleting && w.engines[id].inv == []) then
      var t := w.engines[id];
      if FinalStatus(t, now) != t.snap.status && Current(w, id, t.snap) then
        var w' := EngineOff(w, id).(owner := Forget(w.owner, id, t.gone - Keys(t.inv)));
        StoreRep(w', id, WithStatus(t.snap, FinalStatus(t, now)))
      else EngineOff(w, id)
    else w
  }

  /** Without its last finalizer the Replication is gone. */
  function EngineDropsFinalizer(w: World, id: SourceId): (w': World)
    ensures w'.sources == w.sources && w'.spokes == w.spokes
  {
    if && id in w.engines && w.engines[id].Collecting? && w.engines[id].todo == []
       && w.engines[id].snap.deleting && w.engines[id].inv == [] then
      var t := w.engines[id];
      if Current(w, id, t.snap) then
        var w' := EngineOff(w, id).(owner := Forget(w.owner, id, t.gone));
        w'.(reps := w'.reps - {id})
      else EngineOff(w, id)
    else w
  }

  // ---- Request-controller steps ----------------------------------------------------------------------

  function RequestReads(w: World, id: SourceId): (w': World)
    ensures HubOnly(w, w') && w'.engines == w.engines && w'.sources == w.sources
  {
    if id in w.sources && id !in w.requests then RequestAt(w, id, Looking(w.sources[id])) else w
  }

  predicate Wanted(s: SourceObject) { !s.deleting && s.replicates && s.request.Some? }

  predicate Unwanted(s: SourceObject) { s.deleting || !s.replicates }

  /** The source finalizer goes on before the Replication is created. */
  function RequestGuards(w: World, id: SourceId): (w': World)
    ensures HubOnly(w, w') && w'.engines == w.engines
  {
    if id in w.requests && w.requests[id].Looking? && Wanted(w.requests[id].src) && !w.requests[id].src.finalizer then
      var src := w.requests[id].src;
      if CurrentSource(w, id, src) then
        var w' := StoreSource(w, id, src.(finalizer := true));
        RequestAt(w', id, Looking(w'.sources[id]))
      else RequestOff(w, id)
    else w
  }

  /** The labels of the source's namespace count as none when they cannot be read. */
  function MetaOf(w: World, id: SourceId, readable: bool): Source {
    Source(id.kind.kind, id.namespace, if readable then LabelsIn(w, id.namespace) else map[])
  }

  function RequestResolves(w: World, id: SourceId, readable: bool): (w': World)
    ensures HubOnly(w, w') && w'.engines == w.engines && w'.sources == w.sources
  {
    if id in w.requests && w.requests[id].Looking? && Wanted(w.requests[id].src) && w.requests[id].src.finalizer then
      var src, meta := w.requests[id].src, MetaOf(w, id, readable);
      RequestAt(w, id, Materializing(
        src.view.uid, T.Resolved(w.clusters, src.request.value, meta, w.policies),
        |T.Filter(T.ResolutionDecisions(w.clusters, src.request.value, meta, w.policies), false)|))
    else w
  }

  function RequestMaterializes(w: World, id: SourceId): (w': World)
    ensures HubOnly(w, w') && w'.engines == w.engines && w'.sources == w.sources
  {
    if id in w.requests && w.requests[id].Materializing? then
      var t := w.requests[id];
      if id in w.reps then RequestAt(w, id, Updating(t.uid, t.targets, t.denied, w.reps[id]))
      else RequestAt(StoreRep(w, id, Replication(t.uid, t.targets, 1, false, false, EMPTY_STATUS, 0)), id,
                     Materialized(|t.targets|, t.denied))
    else w
  }

  predicate SpecEqual(r: Replication, uid: string, targets: seq<T.ResolvedTarget>) {
    r.uid == uid && r.targets == targets
  }

  function WithSpec(r: Replication, uid: string, targets: seq<T.ResolvedTarget>): Replication {
    r.(uid := uid, targets := targets, generation := r.generation + 1)
  }

  function RequestUpdates(w: World, id: SourceId): (w': World)
    ensures HubOnly(w, w') && w'.engines == w.engines && w'.sources == w.sources
  {
    if id in w.requests && w.requests[id].Updating? then
      var t := w.requests[id];
      if SpecEqual(t.snap, t.uid, t.targets) then RequestAt(w, id, Materialized(|t.targets|, t.denied))
      else if Current(w, id, t.snap) then
        RequestAt(StoreRep(w, id, WithSpec(t.snap, t.uid, t.targets)), id, Materialized(|t.targets|, t.denied))
      else RequestOff(w, id)
    else w
  }

  function RequestRereads(w: World, id: SourceId): (w': World)
    ensures HubOnly(w, w') && w'.engines == w.engines && w'.sources == w.sources
  {
    if id in w.requests && w.requests[id].Materialized? then
      if id in w.reps then RequestAt(w, id, Reporting(w.reps[id], w.requests[id].clusters, w.requests[id].denied))
      else RequestOff(w, id)
    else w
  }

  /** The request controller's verdict on what the request resolved to. */
  function ResolutionCondition(clusters: nat, denied: nat, generation: int): S.Condition {
    if clusters > 0 then
      S.Condition(S.TargetsResolved, true, S.TargetsFound, S.OnClusters(clusters, denied), generation, S.NEVER)
    else if denied > 0 then
      S.Condition(S.TargetsResolved, false, S.PolicyDenied, S.AllDenied(denied), generation, S.NEVER)
    else S.Condition(S.TargetsResolved, false, S.NoTargets, S.NoneReady, generation, S.NEVER)
  }

  /** Writes the TargetsResolved condition, and with it the whole status as read. */
  function RequestReports(w: World, id: SourceId, now: S.Time): (w': World)
    ensures HubOnly(w, w') && w'.engines == w.engines && w'.sources == w.sources
  {
    if id in w.requests && w.requests[id].Reporting? then
      var snap := w.requests[id].snap;
      var c := ResolutionCondition(w.requests[id].clusters, w.requests[id].denied, snap.generation);
      if !S.Says(snap.status.conditions, c) && Current(w, id, snap) then
        RequestOff(StoreRep(w, id, snap.(status := A.RequestNext(snap.status, c, now))), id)
      else RequestOff(w, id)
    else w
  }

  /** Deleting an object with a finalizer only marks it. */
  function Deleted(w: World, id: SourceId): (w': World)
    ensures HubOnly(w, w') && w'.engines == w.engines && w'.sources == w.sources
  {
    if id !in w.reps || (w.reps[id].finalizer && w.reps[id].deleting) then w
    else if w.reps[id].finalizer then StoreRep(w, id, w.reps[id].(deleting := true))
    else w.(reps := w.reps - {id})
  }

  function RequestReleases(w: World, id: SourceId): (w': World)
    ensures HubOnly(w, w') && w'.engines == w.engines && w'.sources == w.sources
  {
    if id in w.requests && w.requests[id].Looking? && Unwanted(w.requests[id].src) then
      if id in w.reps then RequestOff(Deleted(w, id), id)
      else if w.requests[id].src.finalizer then RequestAt(w, id, Vacant(w.requests[id].src))
      else RequestOff(w, id)
    else w
  }

  /** The source finalizer goes only once no Replication is left. */
  function RequestUnguards(w: World, id: SourceId): (w': World)
    ensures HubOnly(w, w') && w'.engines == w.engines
  {
    if id in w.requests && w.requests[id].Vacant? then
      var src := w.requests[id].src;
      if !CurrentSource(w, id, src) then RequestOff(w, id)
      else if src.deleting then RequestOff(w.(sources := w.sources - {id}), id)
      else RequestOff(StoreSource(w, id, src.(finalizer := false)), id)
    else w
  }

  // ---- Steps ------------------------------------------------------------------------------------------

  datatype Step =
    // the engine; an error return and a crash of one worker are the same step
    | EngineRead(id: SourceId) | EngineGuard(id: SourceId) | EngineGiveUp(id: SourceId, reason: S.Reason)
    | EnginePlan(id: SourceId, i: Input, prev: seq<Decision>) | EngineApply(id: SourceId)
    | EngineCollect(id: SourceId) | EngineDrain(id: SourceId)
    | EngineDelete(id: SourceId, kinds: set<GroupKind>, f: CollectFaults)
    | EngineCommit(id: SourceId, now: S.Time) | EngineDrop(id: SourceId) | EngineAbort(id: SourceId)
    // the request controller
    | RequestRead(id: SourceId) | RequestGuard(id: SourceId) | RequestResolve(id: SourceId, readable: bool)
    | RequestMaterialize(id: SourceId) | RequestUpdate(id: SourceId) | RequestReread(id: SourceId)
    | RequestReport(id: SourceId, now: S.Time) | RequestRelease(id: SourceId)
    | RequestUnguard(id: SourceId) | RequestAbort(id: SourceId)
    // both at once
    | OperatorCrash
    // anybody else
    | PutObject(k: SlotKey, object: Engine.R.Replica) | RemoveObject(k: SlotKey)
    | CreateNamespace(ns: NsKey) | DeleteNamespace(ns: NsKey)
    | EditDiscovery(clusters: seq<T.ClusterRecord>) | EditPolicies(policies: seq<ReplicationPolicy>)
    | EditNamespace(name: string, labels: LabelSet)
    | CreateSource(id: SourceId, s: SourceObject) | EditSource(id: SourceId, s: SourceObject)
    | DeleteSource(id: SourceId) | DeleteReplication(id: SourceId)

  /** Parsing rejects a namespace listed twice. */
  ghost predicate ParsedWell(s: SourceObject) { s.request.Some? ==> NoDuplicates(s.request.value.namespaces) }

  function EditSpokes(w: World, s: Step): (w': World)
    requires OnSpokes(s)
    ensures w'.engines == w.engines
  {
    match s
    case PutObject(k, r) =>
      if NsOf(k) in w.spokes.namespaces then SpokesAt(w, w.spokes.(objects := w.spokes.objects[k := r])) else w
    case RemoveObject(k) => SpokesAt(w, w.spokes.(objects := w.spokes.objects - {k}))
    case CreateNamespace(ns) => SpokesAt(w, w.spokes.(namespaces := w.spokes.namespaces + {ns}))
    case DeleteNamespace(ns) =>
      SpokesAt(w, Spokes(map k | k in w.spokes.objects && NsOf(k) != ns :: w.spokes.objects[k],
                         w.spokes.namespaces - {ns}))
  }

  /** UIDs are non-empty and never reused; edits keep them. */
  ghost function EditHub(w: World, s: Step): (w': World)
    requires s.EditDiscovery? || s.EditPolicies? || s.EditNamespace? || s.CreateSource? || s.EditSource?
             || s.DeleteSource? || s.DeleteReplication?
    ensures HubOnly(w, w') && w'.engines == w.engines
  {
    match s
    case EditDiscovery(clusters) => if T.OneRecordPerName(clusters) then w.(clusters := clusters) else w
    case EditPolicies(policies) => if DistinctNames(policies) then w.(policies := policies) else w
    case EditNamespace(name, labels) => w.(labels := w.labels[name := labels])
    case CreateSource(id, src) =>
      if && id !in w.sources && src.view.uid != "" && src.view.uid !in w.uids
         && !src.deleting && !src.finalizer && ParsedWell(src)
      then StoreSource(w, id, src).(uids := w.uids + {src.view.uid}) else w
    case EditSource(id, src) =>
      if && id in w.sources && ParsedWell(src) && src.view.uid == w.sources[id].view.uid
         && src.deleting == w.sources[id].deleting && src.finalizer == w.sources[id].finalizer
      then StoreSource(w, id, src) else w
    case DeleteSource(id) =>
      if id !in w.sources then w
      else if w.sources[id].finalizer then StoreSource(w, id, w.sources[id].(deleting := true))
      else w.(sources := w.sources - {id})
    case DeleteReplication(id) => Deleted(w, id)
  }

  predicate ByEngine(s: Step) {
    || s.EngineRead? || s.EngineGuard? || s.EngineGiveUp? || s.EnginePlan? || s.EngineApply? || s.EngineCollect?
    || s.EngineDrain? || s.EngineDelete? || s.EngineCommit? || s.EngineDrop? || s.EngineAbort?
  }

  ghost function EngineStep(w: World, s: Step): (w': World)
    requires ByEngine(s)
    ensures w'.sources == w.sources
    ensures !s.EngineApply? && !s.EngineDelete? ==> w'.spokes == w.spokes
    ensures !s.EngineApply? && !s.EngineDelete? && !s.EngineCommit? && !s.EngineDrop? ==> w'.owner == w.owner
  {
    match s
    case EngineRead(id) => EngineReads(w, id)
    case EngineGuard(id) => EngineGuards(w, id)
    case EngineGiveUp(id, reason) => EngineGivesUp(w, id, reason)
    case EnginePlan(id, i, prev) => EnginePlans(w, id, i, prev)
    case EngineApply(id) => EngineApplies(w, id)
    case EngineCollect(id) => EngineCollects(w, id)
    case EngineDrain(id) => EngineDrains(w, id)
    case EngineDelete(id, kinds, f) => EngineDeletes(w, id, kinds, f)
    case EngineCommit(id, now) => EngineCommits(w, id, now)
    case EngineDrop(id) => EngineDropsFinalizer(w, id)
    case EngineAbort(id) => EngineOff(w, id)
  }

  predicate ByRequest(s: Step) {
    || s.RequestRead? || s.RequestGuard? || s.RequestResolve? || s.RequestMaterialize? || s.RequestUpdate?
    || s.RequestReread? || s.RequestReport? || s.RequestRelease? || s.RequestUnguard? || s.RequestAbort?
  }

  function RequestStep(w: World, s: Step): (w': World)
    requires ByRequest(s)
    ensures HubOnly(w, w') && w'.engines == w.engines
    ensures !s.RequestGuard? && !s.RequestUnguard? ==> w'.sources == w.sources
  {
    match s
    case RequestRead(id) => RequestReads(w, id)
    case RequestGuard(id) => RequestGuards(w, id)
    case RequestResolve(id, readable) => RequestResolves(w, id, readable)
    case RequestMaterialize(id) => RequestMaterializes(w, id)
    case RequestUpdate(id) => RequestUpdates(w, id)
    case RequestReread(id) => RequestRereads(w, id)
    case RequestReport(id, now) => RequestReports(w, id, now)
    case RequestRelease(id) => RequestReleases(w, id)
    case RequestUnguard(id) => RequestUnguards(w, id)
    case RequestAbort(id) => RequestOff(w, id)
  }

  predicate OnSpokes(s: Step) { s.PutObject? || s.RemoveObject? || s.CreateNamespace? || s.DeleteNamespace? }

  /** A step that is not possible changes nothing. */
  ghost function After(w: World, s: Step): World {
    if ByEngine(s) then EngineStep(w, s)
    else if ByRequest(s) then RequestStep(w, s)
    else if s.OperatorCrash? then w.(engines := map[], requests := map[])
    else if OnSpokes(s) then EditSpokes(w, s)
    else EditHub(w, s)
  }

  ghost function Run(w: World, steps: seq<Step>): World {
    if steps == [] then w else After(Run(w, steps[..|steps| - 1]), steps[|steps| - 1])
  }

  /** A hub without sources and workers; the spokes may hold anything. */
  ghost predicate Init(w: World) {
    && w.sources == map[] && w.reps == map[] && w.engines == map[] && w.requests == map[] && w.owner == map[]
    && Housed(w.spokes) && T.OneRecordPerName(w.clusters) && DistinctNames(w.policies)
  }
}
