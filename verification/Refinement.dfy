/** The step machine and the pass agree: an engine worker that runs from its read to its commit without anybody in
    between does to the spokes, and stores, exactly what a whole reconcile pass does. */
module Refinement {
  import opened Policies
  import opened Inventory
  import opened Engine
  import opened Passes
  import opened Protocol
  import S = Status
  import V = Revocations

  lemma {:induction false} RunAppend(w: World, a: seq<Step>, b: seq<Step>)
    ensures Run(w, a + b) == Run(Run(w, a), b)
  {
    if b == [] {
      assert a + b == a;
    } else {
      assert (a + b)[..|a + b| - 1] == a + b[..|b| - 1];
      RunAppend(w, a, b[..|b| - 1]);
    }
  }

  lemma {:induction false} RunOne(w: World, s: Step)
    ensures Run(w, [s]) == After(w, s)
  {
    assert [s][..0] == [];
    assert Run(w, []) == w;
  }

  /** Counting writes changes nothing else. */
  ghost predicate SameButWrites(p: Progress, q: Progress) {
    p.spokes == q.spokes && p.inv == q.inv && p.states == q.states
  }

  /** The world with one worker moved on and the spokes changed; who owns what is left open. */
  ghost predicate Stands(w: World, w': World, id: SourceId, t: EngineTask, sp: Spokes) {
    && id in w'.engines && w'.engines[id] == t && w'.engines - {id} == w.engines - {id}
    && w' == w.(engines := w'.engines, spokes := sp, owner := w'.owner)
  }

  // ---- The apply loop ---------------------------------------------------------------------------

  function ApplySteps(id: SourceId, n: nat): seq<Step> { seq(n, _ => EngineApply(id)) }

  function AppliedTask(t: EngineTask, n: nat, q: Progress): EngineTask
    requires t.Applying?
  {
    t.(n := n, inv := q.inv, states := q.states)
  }

  function JobsDone(w: World, t: EngineTask, n: nat): Progress
    requires t.Applying? && n <= |PassJobs(t.prev, t.i)|
  {
    DoJobs(Progress(w.spokes, t.inv, t.states, 0), PassJobs(t.prev, t.i)[..n], t.i.cx)
  }

  function Applies(w: World, id: SourceId, n: nat): World {
    if n == 0 then w else EngineApplies(Applies(w, id, n - 1), id)
  }

  lemma {:induction false} RunApplies(w: World, id: SourceId, n: nat)
    ensures Run(w, ApplySteps(id, n)) == Applies(w, id, n)
  {
    if n > 0 {
      RunApplies(w, id, n - 1);
      assert ApplySteps(id, n)[..n - 1] == ApplySteps(id, n - 1);
    }
  }

  lemma {:induction false} StandsAgain(
    w: World, v: World, w': World, id: SourceId, s: EngineTask, t: EngineTask, mid: Spokes, sp: Spokes)
    requires Stands(w, v, id, s, mid) && Stands(v, w', id, t, sp)
    ensures Stands(w, w', id, t, sp)
  {
  }

  lemma {:induction false} SoloApplies(w: World, id: SourceId, n: nat)
    requires id in w.engines && w.engines[id].Applying? && w.engines[id].n == 0
    requires n <= |PassJobs(w.engines[id].prev, w.engines[id].i)|
    ensures var t := w.engines[id]; var q := JobsDone(w, t, n);
            Stands(w, Applies(w, id, n), id, AppliedTask(t, n, q), q.spokes)
  {
    var t := w.engines[id];
    var js := PassJobs(t.prev, t.i);
    if n > 0 {
      var v, p := Applies(w, id, n - 1), JobsDone(w, t, n - 1);
      SoloApplies(w, id, n - 1);
      assert js[..n][..n - 1] == js[..n - 1] && js[..n][n - 1] == js[n - 1];
      OneApply(v, id, p);
      var q := DoJob(p, js[n - 1], t.i.cx);
      assert JobsDone(w, t, n) == q;
      StandsAgain(w, v, Applies(w, id, n), id, AppliedTask(t, n - 1, p), AppliedTask(t, n, q), p.spokes, q.spokes);
    } else {
      assert js[..0] == [];
    }
  }

  lemma {:induction false} OneApply(w: World, id: SourceId, p: Progress)
    requires id in w.engines && w.engines[id].Applying?
    requires w.engines[id].n < |PassJobs(w.engines[id].prev, w.engines[id].i)|
    requires p.spokes == w.spokes && p.inv == w.engines[id].inv && p.states == w.engines[id].states
    ensures var t := w.engines[id]; var q := DoJob(p, NextJob(t), t.i.cx);
            Stands(w, EngineApplies(w, id), id, AppliedTask(t, t.n + 1, q), q.spokes)
  {
    var t := w.engines[id];
    assert SameButWrites(AfterJob(w, t), DoJob(p, NextJob(t), t.i.cx));
  }

  // ---- The collection loop ------------------------------------------------------------------------

  function DeleteSteps(id: SourceId, es: seq<InventoryEntry>, cx: Context): seq<Step> {
    seq(|es|, m requires 0 <= m < |es| => EngineDelete(id, cx.kinds, cx.collectFaults(es[m].key)))
  }

  function CollectedTask(t: EngineTask, todo: seq<InventoryEntry>, q: Progress): EngineTask
    requires t.Collecting?
  {
    t.(todo := todo, inv := q.inv, states := q.states)
  }

  lemma {:induction false} OneDelete(w: World, id: SourceId, p: Progress, cx: Context)
    requires id in w.engines && w.engines[id].Collecting? && w.engines[id].todo != []
    requires cx.src.uid == w.engines[id].snap.uid
    requires p.spokes == w.spokes && p.inv == w.engines[id].inv && p.states == w.engines[id].states
    ensures var t := w.engines[id]; var q := CollectOne(p, t.todo[0].key, cx);
            Stands(w, EngineDeletes(w, id, cx.kinds, cx.collectFaults(t.todo[0].key)), id,
                   CollectedTask(t, t.todo[1..], q), q.spokes)
  {}

  function Deletes(w: World, id: SourceId, es: seq<InventoryEntry>, cx: Context): World {
    if es == [] then w
    else EngineDeletes(Deletes(w, id, es[..|es| - 1], cx), id, cx.kinds, cx.collectFaults(es[|es| - 1].key))
  }

  lemma {:induction false} RunDeletes(w: World, id: SourceId, es: seq<InventoryEntry>, cx: Context)
    ensures Run(w, DeleteSteps(id, es, cx)) == Deletes(w, id, es, cx)
  {
    if es != [] {
      RunDeletes(w, id, es[..|es| - 1], cx);
      assert DeleteSteps(id, es, cx)[..|es| - 1] == DeleteSteps(id, es[..|es| - 1], cx);
    }
  }

  lemma {:induction false} SoloDeletes(w: World, id: SourceId, p: Progress, cx: Context, m: nat)
    requires id in w.engines && w.engines[id].Collecting? && m <= |w.engines[id].todo|
    requires cx.src.uid == w.engines[id].snap.uid
    requires p.spokes == w.spokes && p.inv == w.engines[id].inv && p.states == w.engines[id].states
    ensures var t := w.engines[id]; var q := CollectEach(p, t.todo[..m], cx);
            Stands(w, Deletes(w, id, t.todo[..m], cx), id, CollectedTask(t, t.todo[m..], q), q.spokes)
  {
    var t := w.engines[id];
    if m > 0 {
      SoloDeletes(w, id, p, cx, m - 1);
      assert t.todo[..m][..m - 1] == t.todo[..m - 1];
      OneDelete(Deletes(w, id, t.todo[..m - 1], cx), id, CollectEach(p, t.todo[..m - 1], cx), cx);
      assert t.todo[m - 1..][0] == t.todo[m - 1] && t.todo[m - 1..][1..] == t.todo[m..];
    } else {
      assert t.todo[..0] == [] && t.todo[0..] == t.todo;
    }
  }

  // ---- The whole pass -----------------------------------------------------------------------------

  /** A worker has read a live, guarded Replication that nobody has written since. */
  ghost predicate AboutToPass(w: World, id: SourceId, i: Input) {
    && id in w.engines && w.engines[id].Seen? && !w.engines[id].snap.deleting && w.engines[id].snap.finalizer
    && id in w.reps && w.reps[id] == w.engines[id].snap && Fits(w, id, w.engines[id].snap, i)
    && i.cx.discovered == Discovered(w.clusters)
  }

  /** The plan is stored, and the apply loop is about to begin with it. */
  ghost predicate HasPlanned(w: World, id: SourceId, i: Input, prev: seq<Decision>, sp: Spokes) {
    && id in w.engines && id in w.reps
    && w.engines[id] == Applying(w.reps[id], i, prev, 0, PassPlan(i), [])
    && w.spokes == sp && i.cx.discovered == Discovered(w.clusters)
    && w.reps[id].status == i.status.(inventory := PassPlan(i)) && w.reps[id].generation == i.generation
    && !w.reps[id].deleting && w.reps[id].uid == i.cx.src.uid
  }

  lemma {:induction false} SoloPlans(w: World, id: SourceId, i: Input, prev: seq<Decision>)
    requires AboutToPass(w, id, i)
    ensures HasPlanned(EnginePlans(w, id, i, prev), id, i, prev, w.spokes)
  {}

  /** The worker of this world and the pass agree on where they stand. */
  ghost predicate Agrees(w: World, id: SourceId, i: Input, q: Progress) {
    && id in w.engines && id in w.reps && w.engines[id].Collecting? && w.engines[id].snap == w.reps[id]
    && w.spokes == q.spokes && w.engines[id].inv == q.inv && w.engines[id].states == q.states
    && w.reps[id].status == i.status.(inventory := PassPlan(i)) && w.reps[id].generation == i.generation
    && !w.reps[id].deleting && w.reps[id].uid == i.cx.src.uid
  }

  predicate Kept(prev: seq<Decision>, i: Input) {
    V.AnyRetained(PassRevocations(prev, i), i.policies, i.meta, i.status.inventory)
  }

  lemma {:induction false} SoloReachesCollection(w: World, id: SourceId, i: Input, prev: seq<Decision>, sp: Spokes)
    requires HasPlanned(w, id, i, prev, sp)
    ensures var q := DoJobs(Progress(sp, PassPlan(i), [], 0), PassJobs(prev, i), i.cx);
            var w' := EngineCollects(Applies(w, id, |PassJobs(prev, i)|), id);
            && Agrees(w', id, i,
                      q.(inv := Released(q.inv, Uncovered(q.inv, PassKeep(prev, i), i.cx.discovered, false))))
            && w'.engines[id].todo == Uncovered(q.inv, PassKeep(prev, i), i.cx.discovered, true)
            && w'.engines[id].hash == i.cx.hash(i.cx.src.payload) && w'.engines[id].retained == Kept(prev, i)
  {
    var js := PassJobs(prev, i);
    SoloApplies(w, id, |js|);
    assert js[..|js|] == js;
  }

  lemma {:induction false} SoloCollects(w: World, id: SourceId, i: Input, p: Progress)
    requires Agrees(w, id, i, p)
    ensures var w' := Deletes(w, id, w.engines[id].todo, i.cx);
            && Agrees(w', id, i, CollectEach(p, w.engines[id].todo, i.cx)) && w'.engines[id].todo == []
            && w'.engines[id].hash == w.engines[id].hash && w'.engines[id].retained == w.engines[id].retained
  {
    var t := w.engines[id];
    SoloDeletes(w, id, p, i.cx, |t.todo|);
    assert t.todo[..|t.todo|] == t.todo && t.todo[|t.todo|..] == [];
  }

  lemma {:induction false} SoloCommits(w: World, id: SourceId, i: Input, q: Progress, retained: bool)
    requires Agrees(w, id, i, q) && w.engines[id].todo == []
    requires w.engines[id].hash == i.cx.hash(i.cx.src.payload) && w.engines[id].retained == retained
    ensures var w' := EngineCommits(w, id, i.now);
            && w'.spokes == q.spokes && id in w'.reps
            && w'.reps[id].status
               == S.Built(i.status,
                          S.Outcome(i.cx.hash(i.cx.src.payload), q.states, q.inv, retained, i.generation, false), i.now)
  {}

  ghost function AtCollection(w: World, id: SourceId, i: Input, prev: seq<Decision>): World {
    EngineCollects(Applies(EnginePlans(w, id, i, prev), id, |PassJobs(prev, i)|), id)
  }

  /** From the read to the commit, alone. */
  ghost function SoloPass(w: World, id: SourceId, i: Input, prev: seq<Decision>): World {
    var collecting := AtCollection(w, id, i, prev);
    var todo := if id in collecting.engines && collecting.engines[id].Collecting?
                then collecting.engines[id].todo else [];
    EngineCommits(Deletes(collecting, id, todo, i.cx), id, i.now)
  }

  /** A worker left alone does to the spokes and stores as status exactly what the pass function says. */
  lemma {:induction false} SoloRunIsPass(w: World, id: SourceId, i: Input, prev: seq<Decision>)
    requires AboutToPass(w, id, i)
    ensures SoloPass(w, id, i, prev).spokes == PassWork(w.spokes, prev, i).spokes
    ensures id in SoloPass(w, id, i, prev).reps
    ensures SoloPass(w, id, i, prev).reps[id].status == PassStatus(w.spokes, prev, i)
  {
    var w1 := EnginePlans(w, id, i, prev);
    SoloPlans(w, id, i, prev);
    SoloReachesCollection(w1, id, i, prev, w.spokes);
    var w2 := EngineCollects(Applies(w1, id, |PassJobs(prev, i)|), id);
    var q := DoJobs(Progress(w.spokes, PassPlan(i), [], 0), PassJobs(prev, i), i.cx);
    var p := q.(inv := Released(q.inv, Uncovered(q.inv, PassKeep(prev, i), i.cx.discovered, false)));
    SoloCollects(w2, id, i, p);
    SoloCommits(Deletes(w2, id, w2.engines[id].todo, i.cx), id, i, PassWork(w.spokes, prev, i), Kept(prev, i));
  }

  lemma {:induction false} RunThenOne(w: World, steps: seq<Step>, s: Step)
    ensures Run(w, steps + [s]) == After(Run(w, steps), s)
  {
    RunAppend(w, steps, [s]);
    RunOne(Run(w, steps), s);
  }

  function StepsToCollection(id: SourceId, i: Input, prev: seq<Decision>): seq<Step> {
    [EnginePlan(id, i, prev)] + ApplySteps(id, |PassJobs(prev, i)|) + [EngineCollect(id)]
  }

  lemma {:induction false} RunToCollection(w: World, id: SourceId, i: Input, prev: seq<Decision>)
    ensures Run(w, StepsToCollection(id, i, prev)) == AtCollection(w, id, i, prev)
  {
    var n := |PassJobs(prev, i)|;
    RunOne(w, EnginePlan(id, i, prev));
    RunAppend(w, [EnginePlan(id, i, prev)], ApplySteps(id, n));
    RunApplies(EnginePlans(w, id, i, prev), id, n);
    RunThenOne(w, [EnginePlan(id, i, prev)] + ApplySteps(id, n), EngineCollect(id));
  }

  lemma {:induction false} RunFromCollection(
    w: World, first: seq<Step>, id: SourceId, todo: seq<InventoryEntry>, cx: Context, now: S.Time)
    ensures Run(w, first + DeleteSteps(id, todo, cx) + [EngineCommit(id, now)])
            == EngineCommits(Deletes(Run(w, first), id, todo, cx), id, now)
  {
    RunAppend(w, first, DeleteSteps(id, todo, cx));
    RunDeletes(Run(w, first), id, todo, cx);
    RunThenOne(w, first + DeleteSteps(id, todo, cx), EngineCommit(id, now));
  }

  /** And what it does is a run of the step machine. */
  lemma {:induction false} SoloPassIsARun(
    w: World, id: SourceId, i: Input, prev: seq<Decision>) returns (steps: seq<Step>)
    ensures Run(w, steps) == SoloPass(w, id, i, prev)
  {
    var w2 := AtCollection(w, id, i, prev);
    var todo := if id in w2.engines && w2.engines[id].Collecting? then w2.engines[id].todo else [];
    RunToCollection(w, id, i, prev);
    RunFromCollection(w, StepsToCollection(id, i, prev), id, todo, i.cx, i.now);
    steps := StepsToCollection(id, i, prev) + DeleteSteps(id, todo, i.cx) + [EngineCommit(id, i.now)];
  }
}
