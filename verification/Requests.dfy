/** What the request controller does for one source when nobody is in between
    (internal/controller/request/controller.go): it stores exactly what the request resolves to, says so, and is then
    silent. */
module Requests {
  import opened Labels
  import opened Policies
  import opened Protocol
  import A = Arbitration
  import N = Resolution
  import R = Refinement
  import S = Status
  import T = Targets

  // ---- The run ---------------------------------------------------------------------------------------

  function GuardSteps(id: SourceId): seq<Step> { [RequestRead(id), RequestGuard(id)] }

  function ResolveSteps(id: SourceId, readable: bool): seq<Step> { [RequestResolve(id, readable)] }

  function StoreSteps(id: SourceId): seq<Step> { [RequestMaterialize(id), RequestUpdate(id)] }

  function ReportSteps(id: SourceId, now: S.Time): seq<Step> { [RequestReread(id), RequestReport(id, now)] }

  /** A worker alone, from its read to its report. */
  function RequestSteps(id: SourceId, readable: bool, now: S.Time): seq<Step> {
    GuardSteps(id) + ResolveSteps(id, readable) + StoreSteps(id) + ReportSteps(id, now)
  }

  ghost function Guarded(w: World, id: SourceId): World { RequestGuards(RequestReads(w, id), id) }

  ghost function Stored(w: World, id: SourceId): World { RequestUpdates(RequestMaterializes(w, id), id) }

  ghost function Reported(w: World, id: SourceId, now: S.Time): World { RequestReports(RequestRereads(w, id), id, now) }

  lemma {:induction false} RunTwo(w: World, a: Step, b: Step)
    ensures Run(w, [a, b]) == After(After(w, a), b)
  {
    assert [a, b] == [a] + [b];
    R.RunAppend(w, [a], [b]);
    R.RunOne(w, a);
    R.RunOne(After(w, a), b);
  }

  lemma {:induction false} RunFour(w: World, a: seq<Step>, b: seq<Step>, c: seq<Step>, d: seq<Step>)
    ensures Run(w, a + b + c + d) == Run(Run(Run(Run(w, a), b), c), d)
  {
    R.RunAppend(w, a, b);
    R.RunAppend(w, a + b, c);
    R.RunAppend(w, a + b + c, d);
  }

  lemma {:induction false} RunGuarded(w: World, id: SourceId)
    ensures Run(w, GuardSteps(id)) == Guarded(w, id)
  {
    RunTwo(w, RequestRead(id), RequestGuard(id));
  }

  lemma {:induction false} RunStored(w: World, id: SourceId)
    ensures Run(w, StoreSteps(id)) == Stored(w, id)
  {
    RunTwo(w, RequestMaterialize(id), RequestUpdate(id));
  }

  lemma {:induction false} RunReported(w: World, id: SourceId, now: S.Time)
    ensures Run(w, ReportSteps(id, now)) == Reported(w, id, now)
  {
    RunTwo(w, RequestReread(id), RequestReport(id, now));
  }

  lemma {:induction false} RunResolved(w: World, id: SourceId, readable: bool)
    ensures Run(w, ResolveSteps(id, readable)) == RequestResolves(w, id, readable)
  {
    R.RunOne(w, RequestResolve(id, readable));
  }

  ghost function Served(w: World, id: SourceId, readable: bool, now: S.Time): World {
    Reported(Stored(RequestResolves(Guarded(w, id), id, readable), id), id, now)
  }

  lemma {:induction false} RunSteps(w: World, id: SourceId, readable: bool, now: S.Time)
    ensures Run(w, RequestSteps(id, readable, now)) == Served(w, id, readable, now)
  {
    RunFour(w, GuardSteps(id), ResolveSteps(id, readable), StoreSteps(id), ReportSteps(id, now));
    RunGuarded(w, id);
    RunResolved(Guarded(w, id), id, readable);
    RunStored(RequestResolves(Guarded(w, id), id, readable), id);
    RunReported(Stored(RequestResolves(Guarded(w, id), id, readable), id), id, now);
  }

  /** Only this source, its Replication and its worker have changed. */
  ghost predicate Around(w: World, w': World, id: SourceId) {
    && w'.sources - {id} == w.sources - {id} && w'.reps - {id} == w.reps - {id}
    && w'.requests - {id} == w.requests - {id}
    && w'.clusters == w.clusters && w'.policies == w.policies && w'.labels == w.labels && w'.spokes == w.spokes
    && w'.engines == w.engines && w'.owner == w.owner && w'.uids == w.uids && w.version <= w'.version
  }

  predicate Asks(w: World, id: SourceId) {
    id in w.sources && !w.sources[id].deleting && w.sources[id].replicates && w.sources[id].request.Some?
  }

  // ---- Stage by stage ----------------------------------------------------------------------------------

  /** The source is held by the finalizer. */
  lemma {:induction false} GuardedSource(w: World, id: SourceId)
    requires Asks(w, id) && id !in w.requests
    ensures var v := Guarded(w, id);
            && Around(w, v, id) && v.reps == w.reps && id in v.sources && id in v.requests
            && v.sources[id] == w.sources[id].(finalizer := true, version := v.sources[id].version)
            && v.requests[id] == Looking(v.sources[id])
            && (w.sources[id].finalizer ==> v.sources == w.sources && v.version == w.version)
  {}

  lemma {:induction false} ResolvedTask(w: World, id: SourceId, readable: bool)
    requires Asks(w, id) && id in w.requests && w.requests[id] == Looking(w.sources[id]) && w.sources[id].finalizer
    ensures var v, req, meta := RequestResolves(w, id, readable), w.sources[id].request.value, MetaOf(w, id, readable);
            && v == w.(requests := v.requests) && v.requests - {id} == w.requests - {id} && id in v.requests
            && v.requests[id]
               == Materializing(w.sources[id].view.uid, T.Resolved(w.clusters, req, meta, w.policies),
                                |T.Filter(T.ResolutionDecisions(w.clusters, req, meta, w.policies), false)|)
  {}

  function StatusBefore(w: World, id: SourceId): S.Status {
    if id in w.reps then w.reps[id].status else EMPTY_STATUS
  }

  /** A new Replication starts at generation 1; a changed spec counts one more. */
  function GenerationAfter(w: World, id: SourceId, uid: string, targets: seq<T.ResolvedTarget>): int {
    if id !in w.reps then 1
    else if w.reps[id].uid == uid && w.reps[id].targets == targets then w.reps[id].generation
    else w.reps[id].generation + 1
  }

  /** The Replication says what was resolved, and is otherwise as it was. */
  ghost predicate Specified(w: World, r: Replication, id: SourceId, uid: string, targets: seq<T.ResolvedTarget>) {
    && r.uid == uid && r.targets == targets && r.generation == GenerationAfter(w, id, uid, targets)
    && r.deleting == (id in w.reps && w.reps[id].deleting) && r.finalizer == (id in w.reps && w.reps[id].finalizer)
  }

  lemma {:induction false} StoredSpec(w: World, id: SourceId)
    requires id in w.requests && w.requests[id].Materializing?
    ensures var v, t := Stored(w, id), w.requests[id];
            && Around(w, v, id) && v.sources == w.sources && id in v.reps && id in v.requests
            && Specified(w, v.reps[id], id, t.uid, t.targets) && v.reps[id].status == StatusBefore(w, id)
            && v.requests[id] == Materialized(|t.targets|, t.denied)
            && (id in w.reps && w.reps[id].uid == t.uid && w.reps[id].targets == t.targets ==>
                  v.reps == w.reps && v.version == w.version)
  {
    if id in w.reps {
      StoredUpdate(RequestMaterializes(w, id), id);
    } else {
      StoredCreation(w, id);
    }
  }

  lemma {:induction false} StoredCreation(w: World, id: SourceId)
    requires id in w.requests && w.requests[id].Materializing? && id !in w.reps
    ensures var v, t := Stored(w, id), w.requests[id];
            && Around(w, v, id) && v.sources == w.sources && id in v.reps && id in v.requests
            && Specified(w, v.reps[id], id, t.uid, t.targets) && v.reps[id].status == EMPTY_STATUS
            && v.requests[id] == Materialized(|t.targets|, t.denied)
  {}

  lemma {:induction false} StoredUpdate(w: World, id: SourceId)
    requires id in w.requests && w.requests[id].Updating? && id in w.reps && w.requests[id].snap == w.reps[id]
    ensures var v, t := RequestUpdates(w, id), w.requests[id];
            && Around(w, v, id) && v.sources == w.sources && id in v.reps && id in v.requests
            && Specified(w, v.reps[id], id, t.uid, t.targets) && v.reps[id].status == w.reps[id].status
            && v.requests[id] == Materialized(|t.targets|, t.denied)
            && (w.reps[id].uid == t.uid && w.reps[id].targets == t.targets ==>
                  v.reps == w.reps && v.version == w.version)
  {}

  /** The condition is written, and nothing else of the Replication changes. */
  ghost predicate OnlyReported(r: Replication, r': Replication, c: S.Condition) {
    && r' == r.(status := r'.status, version := r'.version)
    && r'.status == r.status.(conditions := r'.status.conditions) && S.Says(r'.status.conditions, c)
    && forall kind: S.ConditionType :: kind != c.kind ==>
         S.Find(r'.status.conditions, kind) == S.Find(r.status.conditions, kind)
  }

  lemma {:induction false} SetIsReported(r: Replication, c: S.Condition, now: S.Time, version: nat)
    ensures OnlyReported(r, r.(status := A.RequestNext(r.status, c, now), version := version), c)
    ensures S.Says(r.status.conditions, c) ==> OnlyReported(r, r, c)
  {
    S.SetConditionSays(r.status.conditions, c, now);
    forall kind: S.ConditionType | kind != c.kind
      ensures S.Find(S.SetCondition(r.status.conditions, c, now), kind) == S.Find(r.status.conditions, kind)
    {
      S.SetConditionFrames(r.status.conditions, c, now, kind);
    }
  }

  lemma {:induction false} ReportedVerdict(w: World, id: SourceId, now: S.Time)
    requires id in w.requests && w.requests[id].Materialized? && id in w.reps
    ensures var v, t := Reported(w, id, now), w.requests[id];
            var c := ResolutionCondition(t.clusters, t.denied, w.reps[id].generation);
            && Around(w, v, id) && v.sources == w.sources && id in v.reps && id !in v.requests
            && OnlyReported(w.reps[id], v.reps[id], c)
            && (S.Says(w.reps[id].status.conditions, c) ==> v.reps == w.reps && v.version == w.version)
  {
    var r, t := w.reps[id], w.requests[id];
    SetIsReported(r, ResolutionCondition(t.clusters, t.denied, r.generation), now, w.version);
  }

  // ---- The whole run ---------------------------------------------------------------------------------------

  function RequestOf(w: World, id: SourceId): T.Request
    requires Asks(w, id)
  {
    w.sources[id].request.value
  }

  /** What the source's request resolves to under this hub. */
  function ResolvedNow(w: World, id: SourceId, readable: bool): seq<T.ResolvedTarget>
    requires Asks(w, id)
  {
    T.Resolved(w.clusters, RequestOf(w, id), MetaOf(w, id, readable), w.policies)
  }

  function DeniedNow(w: World, id: SourceId, readable: bool): nat
    requires Asks(w, id)
  {
    |T.Filter(T.ResolutionDecisions(w.clusters, RequestOf(w, id), MetaOf(w, id, readable), w.policies), false)|
  }

  lemma {:induction false} AroundTrans(w: World, u: World, v: World, id: SourceId)
    requires Around(w, u, id) && Around(u, v, id)
    ensures Around(w, v, id)
  {}

  /** The world as the worker is about to store. */
  lemma {:induction false} ResolvedWorld(w: World, id: SourceId, readable: bool)
    requires Asks(w, id) && id !in w.requests
    ensures var v := RequestResolves(Guarded(w, id), id, readable);
            && Around(w, v, id) && v.reps == w.reps && id in v.sources && id in v.requests
            && v.sources[id] == w.sources[id].(finalizer := true, version := v.sources[id].version)
            && v.requests[id] == Materializing(w.sources[id].view.uid, ResolvedNow(w, id, readable),
                                               DeniedNow(w, id, readable))
            && (w.sources[id].finalizer ==> v.sources == w.sources && v.version == w.version)
  {
    GuardedSource(w, id);
    ResolvedTask(Guarded(w, id), id, readable);
    AroundTrans(w, Guarded(w, id), RequestResolves(Guarded(w, id), id, readable), id);
  }

  /** The source is held, and the Replication carries the source's UID and exactly the targets the request resolves to
      under the hub's clusters, policies and namespace labels; status and inventory are as they were but for the
      TargetsResolved condition; the generation counts a changed spec; nothing else has changed. */
  ghost predicate Answered(w: World, w': World, id: SourceId, readable: bool)
    requires Asks(w, id)
  {
    var targets := T.Resolved(w.clusters, w.sources[id].request.value, MetaOf(w, id, readable), w.policies);
    && Around(w, w', id) && id !in w'.requests && id in w'.reps && id in w'.sources
    && w'.sources[id] == w.sources[id].(finalizer := true, version := w'.sources[id].version)
    && Specified(w, w'.reps[id], id, w.sources[id].view.uid, targets)
    && w'.reps[id].status == StatusBefore(w, id).(conditions := w'.reps[id].status.conditions)
    && S.Says(w'.reps[id].status.conditions,
              ResolutionCondition(|targets|, DeniedNow(w, id, readable), w'.reps[id].generation))
    && forall kind: S.ConditionType :: !kind.TargetsResolved? ==>
         S.Find(w'.reps[id].status.conditions, kind) == S.Find(StatusBefore(w, id).conditions, kind)
  }

  lemma {:induction false} StoredIsAnswered(w: World, u: World, v: World, w': World, id: SourceId, readable: bool)
    requires Asks(w, id) && Around(w, u, id) && Around(u, v, id) && Around(v, w', id)
    requires u.reps == w.reps && v.sources == u.sources && w'.sources == v.sources && id in u.sources
    requires u.sources[id] == w.sources[id].(finalizer := true, version := u.sources[id].version)
    requires id !in w'.requests && id in v.reps && id in w'.reps
    requires Specified(u, v.reps[id], id, w.sources[id].view.uid, ResolvedNow(w, id, readable))
    requires v.reps[id].status == StatusBefore(u, id)
    requires OnlyReported(v.reps[id], w'.reps[id],
                          ResolutionCondition(|ResolvedNow(w, id, readable)|, DeniedNow(w, id, readable),
                                              v.reps[id].generation))
    ensures Answered(w, w', id, readable)
  {
    AroundTrans(w, u, v, id);
    AroundTrans(w, v, w', id);
  }

  /** What a wanted source's worker does when it runs alone. */
  lemma {:induction false} RequestServes(w: World, id: SourceId, readable: bool, now: S.Time)
    requires Asks(w, id) && id !in w.requests
    ensures Answered(w, Run(w, RequestSteps(id, readable, now)), id, readable)
  {
    var u := RequestResolves(Guarded(w, id), id, readable);
    RunSteps(w, id, readable, now);
    ResolvedWorld(w, id, readable);
    StoredSpec(u, id);
    ReportedVerdict(Stored(u, id), id, now);
    StoredIsAnswered(w, u, Stored(u, id), Served(w, id, readable, now), id, readable);
  }

  /** A second run over unchanged surroundings writes nothing. */
  lemma {:induction false} RequestIsSilentAgain(w: World, id: SourceId, readable: bool, now: S.Time, later: S.Time)
    requires Asks(w, id) && id !in w.requests
    ensures var w' := Run(w, RequestSteps(id, readable, now));
            var w'' := Run(w', RequestSteps(id, readable, later));
            w''.version == w'.version && w''.reps == w'.reps && w''.sources == w'.sources
  {
    var w' := Run(w, RequestSteps(id, readable, now));
    RequestServes(w, id, readable, now);
    SettledIsSilent(w', id, readable, later);
  }

  lemma {:induction false} SettledIsSilent(w: World, id: SourceId, readable: bool, now: S.Time)
    requires Asks(w, id) && id !in w.requests && w.sources[id].finalizer && id in w.reps
    requires w.reps[id].uid == w.sources[id].view.uid && w.reps[id].targets == ResolvedNow(w, id, readable)
    requires S.Says(w.reps[id].status.conditions,
                    ResolutionCondition(|w.reps[id].targets|, DeniedNow(w, id, readable), w.reps[id].generation))
    ensures var w' := Run(w, RequestSteps(id, readable, now));
            w'.version == w.version && w'.reps == w.reps && w'.sources == w.sources
  {
    var u := RequestResolves(Guarded(w, id), id, readable);
    RunSteps(w, id, readable, now);
    ResolvedWorld(w, id, readable);
    StoredSpec(u, id);
    ReportedVerdict(Stored(u, id), id, now);
  }

  // ---- What the verdict means -------------------------------------------------------------------------------

  /** Some ready cluster matches the request. */
  ghost predicate SomeClusterMatches(w: World, req: T.Request) {
    exists c :: c in w.clusters && c.ready && Matches(req.selector, c.labels)
  }

  lemma {:induction false} DecisionsIffMatch(w: World, req: T.Request, meta: Source)
    ensures T.ResolutionDecisions(w.clusters, req, meta, w.policies) != [] <==> SomeClusterMatches(w, req)
  {
    var ds := T.ResolutionDecisions(w.clusters, req, meta, w.policies);
    if ds != [] {
      N.DecidedTargets(w.clusters, req, meta, w.policies, ds[0]);
      assert ds[0] in ds;
    }
    if c :| c in w.clusters && c.ready && Matches(req.selector, c.labels) {
      var ns := if req.namespaces == [] then meta.namespace else req.namespaces[0];
      var d := Decided(meta, Target(c.name, c.labels, ns), w.policies);
      N.DecidedTargets(w.clusters, req, meta, w.policies, d);
      assert d in ds;
    }
  }

  lemma {:induction false} FilterSplits(ds: seq<Decision>)
    ensures |T.Filter(ds, true)| + |T.Filter(ds, false)| == |ds|
  {
    if ds != [] { FilterSplits(ds[..|ds| - 1]); }
  }

  lemma {:induction false} NoTargetsNoPairs(rs: seq<T.ResolvedTarget>)
    requires forall r :: r in rs ==> r.namespaces != []
    ensures T.Pairs(rs) == [] <==> rs == []
  {
    if rs != [] { assert rs[|rs| - 1] in rs; }
  }

  lemma {:induction false} CountsMean(w: World, id: SourceId, readable: bool)
    requires Asks(w, id)
    ensures ResolvedNow(w, id, readable) == [] && DeniedNow(w, id, readable) == 0
            <==> !SomeClusterMatches(w, RequestOf(w, id))
  {
    var req, meta := RequestOf(w, id), MetaOf(w, id, readable);
    var ds := T.ResolutionDecisions(w.clusters, req, meta, w.policies);
    DecisionsIffMatch(w, req, meta);
    FilterSplits(ds);
    T.ResolutionFlattens(w.clusters, req, meta, w.policies);
    NoTargetsNoPairs(ResolvedNow(w, id, readable));
  }

  /** The TargetsResolved condition: true exactly when something was resolved; otherwise the reason is NoTargets
      exactly when no ready cluster matches the selector, and PolicyDenied when policy denied what did. */
  lemma {:induction false} VerdictMeans(w: World, id: SourceId, readable: bool, now: S.Time)
    requires Asks(w, id) && id !in w.requests
    ensures var r := Run(w, RequestSteps(id, readable, now)).reps;
            && id in r && S.Find(r[id].status.conditions, S.TargetsResolved).Some?
            && var c := S.Find(r[id].status.conditions, S.TargetsResolved).value;
               && c.generation == r[id].generation && (c.status <==> r[id].targets != [])
               && (r[id].targets != [] ==> c.reason == S.TargetsFound && c.message.OnClusters?
                                           && c.message.clusters == |r[id].targets|)
               && (r[id].targets == [] ==>
                     c.reason == if SomeClusterMatches(w, RequestOf(w, id)) then S.PolicyDenied else S.NoTargets)
  {
    RequestServes(w, id, readable, now);
    CountsMean(w, id, readable);
  }

  /** And target by target: the Replication lists a pair exactly when its namespace is asked for and some policy permits
      it for this source on a ready cluster of that name whose labels the selector matches. */
  lemma {:induction false} RequestListsIff(w: World, id: SourceId, readable: bool, now: S.Time, k: T.Options.NsKey)
    requires Asks(w, id) && id !in w.requests
    ensures var req, labels := w.sources[id].request.value, if readable then LabelsIn(w, id.namespace) else map[];
            var r := Run(w, RequestSteps(id, readable, now)).reps;
            && id in r
            && (k in T.Pairs(r[id].targets)
                <==> && (if req.namespaces == [] then k.namespace == id.namespace else k.namespace in req.namespaces)
                     && exists c, p :: && c in w.clusters && c.name == k.cluster && c.ready
                                       && Matches(req.selector, c.labels) && p in w.policies
                                       && Permits(p, Source(id.kind.kind, id.namespace, labels),
                                                  Target(c.name, c.labels, k.namespace)))
  {
    RequestServes(w, id, readable, now);
    N.ResolvedIff(w.clusters, RequestOf(w, id), MetaOf(w, id, readable), w.policies, k);
  }
}
