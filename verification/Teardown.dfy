/** How a source is let go when nobody is in between (internal/controller/request/controller.go,
    internal/engine/reconciler.go): the request controller deletes the Replication, the engine cleans up and drops its
    finalizer, and only then the source's own finalizer goes. */
module Teardown {
  import opened Inventory
  import opened Engine
  import opened Passes
  import opened Protocol
  import R = Refinement
  import Q = Requests

  // ---- The request controller ------------------------------------------------------------------------

  function AskSteps(id: SourceId): seq<Step> { [RequestRead(id), RequestRelease(id)] }

  function FreeSteps(id: SourceId): seq<Step> { [RequestUnguard(id)] }

  function ReleaseSteps(id: SourceId): seq<Step> { AskSteps(id) + FreeSteps(id) }

  ghost function Asked(w: World, id: SourceId): World { RequestReleases(RequestReads(w, id), id) }

  ghost function Released(w: World, id: SourceId): World { RequestUnguards(Asked(w, id), id) }

  lemma {:induction false} RunAsked(w: World, id: SourceId)
    ensures Run(w, AskSteps(id)) == Asked(w, id)
  {
    Q.RunTwo(w, RequestRead(id), RequestRelease(id));
  }

  lemma {:induction false} RunFreed(w: World, id: SourceId)
    ensures Run(w, FreeSteps(id)) == RequestUnguards(w, id)
  {
    R.RunOne(w, RequestUnguard(id));
  }

  lemma {:induction false} RunReleased(w: World, id: SourceId)
    ensures Run(w, ReleaseSteps(id)) == Released(w, id)
  {
    R.RunAppend(w, AskSteps(id), FreeSteps(id));
    RunAsked(w, id);
    RunFreed(Asked(w, id), id);
  }

  /** The source is not to be replicated any more. */
  predicate Unasked(w: World, id: SourceId) {
    id in w.sources && (w.sources[id].deleting || !w.sources[id].replicates)
  }

  /** The source is free of the request controller: gone if it was being deleted, and without the finalizer. */
  ghost predicate LetGo(w: World, w': World, id: SourceId)
    requires id in w.sources
  {
    if w.sources[id].deleting && w.sources[id].finalizer then id !in w'.sources
    else id in w'.sources
         && w'.sources[id] == w.sources[id].(finalizer := false, version := w'.sources[id].version)
  }

  ghost function Looked(w: World, id: SourceId): World
    requires id in w.sources
  {
    w.(requests := w.requests[id := Looking(w.sources[id])])
  }

  lemma {:induction false} LookedAround(w: World, id: SourceId)
    requires id in w.sources && id !in w.requests
    ensures RequestReads(w, id) == Looked(w, id) && Looked(w, id).requests - {id} == w.requests
  {
  }

  lemma {:induction false} VacantReleases(w: World, id: SourceId)
    requires Unasked(w, id) && id !in w.requests && id !in w.reps
    ensures var v := RequestReleases(Looked(w, id), id);
            && v == w.(requests := v.requests) && v.requests - {id} == w.requests
            && (if w.sources[id].finalizer then id in v.requests && v.requests[id] == Vacant(w.sources[id])
                else id !in v.requests)
  {
    LookedAround(w, id);
  }

  lemma {:induction false} VacantUnguards(w: World, v: World, id: SourceId)
    requires Unasked(w, id) && v == w.(requests := v.requests) && w.sources[id].finalizer
    requires id in v.requests && v.requests[id] == Vacant(w.sources[id]) && v.requests - {id} == w.requests
    ensures var w' := RequestUnguards(v, id);
            && w'.requests == w.requests && w'.reps == w.reps && LetGo(w, w', id) && Q.Around(w, w', id)
  {
  }

  /** Without a Replication, one release lets the source go. */
  lemma {:induction false} VacantIsLetGo(w: World, id: SourceId)
    requires Unasked(w, id) && id !in w.requests && id !in w.reps
    ensures var w' := Run(w, ReleaseSteps(id));
            Q.Around(w, w', id) && id !in w'.requests && w'.reps == w.reps && LetGo(w, w', id)
  {
    RunReleased(w, id);
    LookedAround(w, id);
    VacantReleases(w, id);
    var v := RequestReleases(Looked(w, id), id);
    if w.sources[id].finalizer {
      VacantUnguards(w, v, id);
    } else {
      assert v == w;
    }
  }

  lemma {:induction false} HeldReleases(w: World, id: SourceId)
    requires Unasked(w, id) && id !in w.requests && id in w.reps
    ensures RequestReleases(Looked(w, id), id) == Deleted(w, id)
  {
    LookedAround(w, id);
    var v := RequestReleases(Looked(w, id), id);
    assert v == RequestOff(Deleted(Looked(w, id), id), id);
    assert Deleted(Looked(w, id), id) == Deleted(w, id).(requests := Looked(w, id).requests);
  }

  /** With one, the release asks for its deletion: an unguarded Replication is gone, a guarded one marked, and the
      source stays held. */
  lemma {:induction false} ReleaseAsksForDeletion(w: World, id: SourceId)
    requires Unasked(w, id) && id !in w.requests && id in w.reps
    ensures var w' := Run(w, ReleaseSteps(id));
            && Q.Around(w, w', id) && id !in w'.requests && w'.sources == w.sources
            && (id in w'.reps <==> w.reps[id].finalizer)
            && (id in w'.reps ==>
                  w'.reps[id] == w.reps[id].(deleting := true, version := w'.reps[id].version))
  {
    RunReleased(w, id);
    LookedAround(w, id);
    HeldReleases(w, id);
    DeletedMarks(w, id);
    assert id !in Deleted(w, id).requests;
  }

  lemma {:induction false} DeletedMarks(w: World, id: SourceId)
    requires id in w.reps
    ensures var w' := Deleted(w, id);
            && Q.Around(w, w', id) && (id in w'.reps <==> w.reps[id].finalizer)
            && (id in w'.reps ==>
                  w'.reps[id] == w.reps[id].(deleting := true, version := w'.reps[id].version))
  {
    if w.reps[id].finalizer {
      if !w.reps[id].deleting {
        assert StoreRep(w, id, w.reps[id].(deleting := true)).reps - {id} == w.reps - {id};
      }
    } else {
      assert (w.reps - {id}) - {id} == w.reps - {id};
    }
  }

  // ---- The engine ------------------------------------------------------------------------------------

  ghost function Draining(w: World, id: SourceId): World { EngineDrains(EngineReads(w, id), id) }

  ghost function TodoOf(w: World, id: SourceId): seq<InventoryEntry> {
    if id in w.engines && w.engines[id].Collecting? then w.engines[id].todo else []
  }

  /** The engine's worker alone: read, collect everything, drop the finalizer. */
  ghost function DrainSteps(w: World, id: SourceId, cx: Context): seq<Step> {
    [EngineRead(id), EngineDrain(id)] + R.DeleteSteps(id, TodoOf(Draining(w, id), id), cx) + [EngineDrop(id)]
  }

  ghost function Dropped(w: World, id: SourceId, cx: Context): World {
    EngineDropsFinalizer(R.Deletes(Draining(w, id), id, TodoOf(Draining(w, id), id), cx), id)
  }

  lemma {:induction false} RunDropped(w: World, id: SourceId, cx: Context)
    ensures Run(w, DrainSteps(w, id, cx)) == Dropped(w, id, cx)
  {
    var todo := TodoOf(Draining(w, id), id);
    var first := [EngineRead(id), EngineDrain(id)];
    Q.RunTwo(w, EngineRead(id), EngineDrain(id));
    R.RunAppend(w, first, R.DeleteSteps(id, todo, cx));
    R.RunDeletes(Draining(w, id), id, todo, cx);
    R.RunThenOne(w, first + R.DeleteSteps(id, todo, cx), EngineDrop(id));
  }

  /** The Replication is being deleted and nobody works on it. */
  ghost predicate Going(w: World, id: SourceId, cx: Context) {
    && id in w.reps && w.reps[id].deleting && w.reps[id].finalizer && id !in w.engines
    && cx.src.uid == w.reps[id].uid && cx.discovered == Discovered(w.clusters)
  }

  ghost function Start(w: World, id: SourceId): Progress
    requires id in w.reps
  {
    Progress(w.spokes, w.reps[id].status.inventory, [], 0)
  }

  lemma {:induction false} DrainSees(w: World, id: SourceId, cx: Context)
    requires Going(w, id, cx)
    ensures var v := EngineReads(w, id);
            && v == w.(engines := v.engines) && v.engines == w.engines[id := Seen(w.reps[id])]
            && v.engines - {id} == w.engines
  {
  }

  lemma {:induction false} DrainBegins(w: World, id: SourceId, cx: Context)
    requires Going(w, id, cx)
    ensures var v, inv := Draining(w, id), w.reps[id].status.inventory;
            && v == w.(engines := v.engines) && id in v.engines && v.engines - {id} == w.engines
            && v.engines[id] == StartCollecting(w, w.reps[id], inv, {}, [], w.reps[id].status.sourceHash, false)
  {
    DrainSees(w, id, cx);
    var v := EngineReads(w, id);
    var t := StartCollecting(w, w.reps[id], w.reps[id].status.inventory, {}, [], w.reps[id].status.sourceHash, false);
    assert Draining(w, id) == EngineAt(v, id, t);
  }

  lemma {:induction false} DrainCollects(w: World, id: SourceId, cx: Context)
    requires Going(w, id, cx)
    ensures var v, q := R.Deletes(Draining(w, id), id, TodoOf(Draining(w, id), id), cx), Drained(Start(w, id), cx);
            && v == w.(engines := v.engines, spokes := q.spokes, owner := v.owner) && v.engines - {id} == w.engines
            && id in v.engines && v.engines[id].Collecting? && v.engines[id].todo == [] && v.engines[id].inv == q.inv
            && v.engines[id].snap == w.reps[id]
  {
    var inv := w.reps[id].status.inventory;
    var p := Start(w, id).(inv := Passes.Released(inv, Uncovered(inv, {}, cx.discovered, false)));
    DrainBegins(w, id, cx);
    var todo := TodoOf(Draining(w, id), id);
    R.SoloDeletes(Draining(w, id), id, p, cx, |todo|);
    assert todo[..|todo|] == todo && todo[|todo|..] == [];
  }

  /** Left alone, the engine's deletion does to the spokes what the drain function says, and the Replication goes
      exactly when nothing of it is left recorded. */
  lemma {:induction false} DrainEnds(w: World, id: SourceId, cx: Context)
    requires Going(w, id, cx)
    ensures var w', q := Run(w, DrainSteps(w, id, cx)), Drained(Start(w, id), cx);
            && w'.spokes == q.spokes && w'.sources == w.sources && w'.requests == w.requests
            && w'.clusters == w.clusters && w'.reps == if q.inv == [] then w.reps - {id} else w.reps
  {
    RunDropped(w, id, cx);
    DrainCollects(w, id, cx);
  }

  // ---- Together ----------------------------------------------------------------------------------------

  /** Every recorded replica is on a vanished cluster or can be cleaned up. */
  ghost predicate CanDrain(p: Progress, cx: Context) {
    forall e :: e in p.inv && e.key.cluster in cx.discovered ==> !StuckIn(p.spokes, e.key, cx)
  }

  /** The drain goes through exactly when nothing is stuck, and then leaves nothing of the source at a recorded slot of
      a discovered cluster. */
  lemma {:induction false} DrainedIff(w: World, id: SourceId, cx: Context)
    requires Going(w, id, cx) && cx.src.uid != "" && Housed(w.spokes) && DistinctKeys(w.reps[id].status.inventory)
    ensures var w', uid := Run(w, DrainSteps(w, id, cx)), w.reps[id].uid;
            && (id !in w'.reps <==> CanDrain(Start(w, id), cx))
            && (id !in w'.reps ==>
                  forall e :: e in w.reps[id].status.inventory ==>
                    e.key.cluster !in Discovered(w.clusters) || !Carries(w'.spokes, e.key, uid))
  {
    DrainEnds(w, id, cx);
    FinalizerGoesOnlyWhenDrained(Start(w, id), cx);
  }

  /** The two controllers alone: the request controller asks for the deletion, the engine drains, the request
      controller lets the source go. */
  ghost function TeardownSteps(w: World, id: SourceId, cx: Context): seq<Step> {
    var w1 := Run(w, ReleaseSteps(id));
    ReleaseSteps(id) + (if id in w1.reps then DrainSteps(w1, id, cx) else []) + ReleaseSteps(id)
  }

  lemma {:induction false} RunTeardown(w: World, id: SourceId, cx: Context)
    ensures var w1 := Run(w, ReleaseSteps(id));
            var w2 := if id in w1.reps then Run(w1, DrainSteps(w1, id, cx)) else w1;
            Run(w, TeardownSteps(w, id, cx)) == Run(w2, ReleaseSteps(id))
  {
    var w1 := Run(w, ReleaseSteps(id));
    var drain := if id in w1.reps then DrainSteps(w1, id, cx) else [];
    R.RunAppend(w, ReleaseSteps(id), drain);
    R.RunAppend(w, ReleaseSteps(id) + drain, ReleaseSteps(id));
  }

  lemma {:induction false} AskedIsGoing(w: World, id: SourceId, cx: Context)
    requires Unasked(w, id) && id !in w.requests && id !in w.engines && id in w.reps && w.reps[id].finalizer
    requires cx.src.uid == w.reps[id].uid && cx.discovered == Discovered(w.clusters)
    ensures var w1 := Run(w, ReleaseSteps(id));
            && Going(w1, id, cx) && w1.sources == w.sources && id !in w1.requests && Start(w1, id) == Start(w, id)
            && w1.reps[id].uid == w.reps[id].uid && w1.reps[id].status == w.reps[id].status && w1.clusters == w.clusters
  {
    ReleaseAsksForDeletion(w, id);
  }

  /** A guarded Replication whose recorded replicas can all be cleaned up: it goes, nothing of the source is left at a
      recorded slot of a discovered cluster, and the source is let go. */
  lemma {:induction false} GuardedTeardown(w: World, id: SourceId, cx: Context)
    requires Unasked(w, id) && id !in w.requests && id !in w.engines && id in w.reps && w.reps[id].finalizer
    requires cx.src.uid == w.reps[id].uid != "" && cx.discovered == Discovered(w.clusters)
    requires Housed(w.spokes) && DistinctKeys(w.reps[id].status.inventory) && CanDrain(Start(w, id), cx)
    ensures var w' := Run(w, TeardownSteps(w, id, cx));
            && id !in w'.reps && LetGo(w, w', id)
            && forall e :: e in w.reps[id].status.inventory ==>
                 e.key.cluster !in Discovered(w.clusters) || !Carries(w'.spokes, e.key, w.reps[id].uid)
  {
    var w1 := Run(w, ReleaseSteps(id));
    var w2 := Run(w1, DrainSteps(w1, id, cx));
    AskedIsGoing(w, id, cx);
    DrainedIff(w1, id, cx);
    DrainEnds(w1, id, cx);
    VacantIsLetGo(w2, id);
    RunTeardown(w, id, cx);
  }

  /** Where something recorded cannot be cleaned up, the Replication and the source's finalizer stay. */
  lemma {:induction false} StuckTeardownHolds(w: World, id: SourceId, cx: Context)
    requires Unasked(w, id) && id !in w.requests && id !in w.engines && id in w.reps && w.reps[id].finalizer
    requires cx.src.uid == w.reps[id].uid != "" && cx.discovered == Discovered(w.clusters)
    requires Housed(w.spokes) && DistinctKeys(w.reps[id].status.inventory) && !CanDrain(Start(w, id), cx)
    ensures var w' := Run(w, TeardownSteps(w, id, cx));
            id in w'.reps && id in w'.sources && w'.sources[id] == w.sources[id]
  {
    var w1 := Run(w, ReleaseSteps(id));
    var w2 := Run(w1, DrainSteps(w1, id, cx));
    AskedIsGoing(w, id, cx);
    DrainedIff(w1, id, cx);
    DrainEnds(w1, id, cx);
    HeldStaysHeld(w2, id);
    RunTeardown(w, id, cx);
  }

  lemma {:induction false} HeldStaysHeld(w: World, id: SourceId)
    requires Unasked(w, id) && id !in w.requests && id in w.reps
    ensures Run(w, ReleaseSteps(id)).sources == w.sources
    ensures w.reps[id].finalizer ==> id in Run(w, ReleaseSteps(id)).reps
  {
    ReleaseAsksForDeletion(w, id);
  }

  /** Without the engine's finalizer, or without a Replication, the request controller alone lets the source go. */
  lemma {:induction false} UnguardedTeardown(w: World, id: SourceId, cx: Context)
    requires Unasked(w, id) && id !in w.requests && (id in w.reps ==> !w.reps[id].finalizer)
    ensures var w' := Run(w, TeardownSteps(w, id, cx)); id !in w'.reps && w'.spokes == w.spokes && LetGo(w, w', id)
  {
    var w1 := Run(w, ReleaseSteps(id));
    RunTeardown(w, id, cx);
    if id in w.reps {
      ReleaseAsksForDeletion(w, id);
      VacantIsLetGo(w1, id);
    } else {
      VacantIsLetGo(w, id);
      FreeStaysFree(w, w1, id);
    }
  }

  lemma {:induction false} FreeStaysFree(w: World, w1: World, id: SourceId)
    requires Unasked(w, id) && LetGo(w, w1, id) && id !in w1.requests && id !in w1.reps
    ensures LetGo(w, Run(w1, ReleaseSteps(id)), id) && Run(w1, ReleaseSteps(id)).reps == w1.reps
    ensures Run(w1, ReleaseSteps(id)).spokes == w1.spokes
  {
    RunReleased(w1, id);
  }
}
