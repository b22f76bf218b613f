/** Two writers of one status: the request controller owns the TargetsResolved condition, the engine everything
    else. Both read, compute and write whole statuses under compare-and-swap; the engine writes twice, its plan
    before it touches the spokes and its result after (internal/controller/request/controller.go,
    internal/engine/reconciler.go). */
module Arbitration {
  import opened Basics
  import opened Policies
  import opened Inventory
  import opened Engine
  import opened Passes
  import opened Status

  /** The request controller between its read and its write. */
  datatype Task = Idle | Holding(status: Status, version: nat)

  /** The engine between its read and its last write. stored is the status as the worker last read or wrote it. */
  datatype EngineTask =
    | Resting
    | HasRead(stored: Status, version: nat)
    | HasPlanned(stored: Status, version: nat, read: Status, prev: seq<Decision>)
    | HasWorked(stored: Status, version: nat, outcome: Outcome)

  /** last is the remembered evaluation. requestRan and reported are bookkeeping of the model: the request controller
      has completed a pass; the engine has, with this outcome, and stored no plan since. */
  datatype Hub = Hub(
    status: Status, version: nat, spokes: Spokes, last: seq<Decision>,
    request: Task, engine: EngineTask, requestRan: bool, reported: Option<Outcome>)

  datatype Step =
    | RequestReads | RequestWrites(now: Time) | RequestCrashes
    | EngineReads | EnginePlans | EngineWorks | EngineWrites(now: Time)
    | EngineCrashes(jobs: nat, entries: nat) | EngineForgets

  /** The fixed inputs: what the request controller has to say, and everything a pass reads beside the status. */
  datatype Fixed = Fixed(resolved: Condition, i: Input)

  predicate ValidInputs(x: Fixed) { x.resolved.kind.TargetsResolved? }

  function InputAt(x: Fixed, s: Status): Input { x.i.(status := s) }

  function RequestNext(s: Status, c: Condition, now: Time): Status {
    s.(conditions := SetCondition(s.conditions, c, now))
  }

  function WithPlan(s: Status, plan: seq<InventoryEntry>): Status { s.(inventory := plan) }

  // ---- Steps ---------------------------------------------------------------------------------

  predicate ByRequest(step: Step) { step.RequestReads? || step.RequestWrites? || step.RequestCrashes? }

  /** A write lands only on the version it was computed from. */
  function RequestStep(h: Hub, step: Step, x: Fixed): Hub
    requires ByRequest(step)
  {
    match step
    case RequestReads => h.(request := Holding(h.status, h.version))
    case RequestCrashes => h.(request := Idle)
    case RequestWrites(now) =>
      if h.request.Idle? then h
      else if Says(h.request.status.conditions, x.resolved) then h.(request := Idle, requestRan := true)
      else if h.request.version != h.version then h.(request := Idle)
      else h.(request := Idle, requestRan := true, version := h.version + 1,
              status := RequestNext(h.request.status, x.resolved, now))
  }

  /** Remembers the evaluation, and stores the plan when it differs. */
  function StoresPlan(h: Hub, plan: seq<InventoryEntry>, ds: seq<Decision>): Hub
    requires h.engine.HasRead?
  {
    var s, v, h' := h.engine.stored, h.engine.version, h.(last := ds);
    if plan == s.inventory then h'.(engine := HasPlanned(s, v, s, h.last))
    else if v != h.version then h'.(engine := Resting)
    else h'.(engine := HasPlanned(WithPlan(s, plan), v + 1, s, h.last),
             status := WithPlan(s, plan), version := v + 1, reported := None)
  }

  function Plans(h: Hub, x: Fixed): Hub {
    if h.engine.HasRead? then StoresPlan(h, PassPlan(InputAt(x, h.engine.stored)), Decisions(x.i)) else h
  }

  /** Applies and collects, for real on the spokes. */
  function Works(h: Hub, x: Fixed): Hub {
    if !h.engine.HasPlanned? then h
    else
      var t, i := h.engine, InputAt(x, h.engine.read);
      h.(spokes := PassWork(h.spokes, t.prev, i).spokes,
         engine := HasWorked(t.stored, t.version, PassOutcome(h.spokes, t.prev, i)))
  }

  /** Stores the result when it differs. */
  function Writes(h: Hub, now: Time): Hub {
    if !h.engine.HasWorked? then h
    else
      var t := h.engine;
      var next := Built(t.stored, t.outcome, now);
      if next == t.stored then h.(engine := Resting, reported := Some(t.outcome))
      else if t.version != h.version then h.(engine := Resting)
      else h.(engine := Resting, status := next, version := h.version + 1, reported := Some(t.outcome))
  }

  /** A crash on the way through the spokes leaves what was done there. */
  function Crashes(h: Hub, jobs: nat, entries: nat, x: Fixed): Hub {
    h.(engine := Resting,
       spokes := if h.engine.HasPlanned?
                 then PassPart(h.spokes, h.engine.prev, InputAt(x, h.engine.read), jobs, entries).spokes else h.spokes)
  }

  function EngineStep(h: Hub, step: Step, x: Fixed): Hub
    requires !ByRequest(step)
  {
    match step
    case EngineReads => h.(engine := HasRead(h.status, h.version))
    case EnginePlans => Plans(h, x)
    case EngineWorks => Works(h, x)
    case EngineWrites(now) => Writes(h, now)
    case EngineCrashes(jobs, entries) => Crashes(h, jobs, entries, x)
    case EngineForgets => h.(last := [], engine := Resting)
  }

  function After(h: Hub, step: Step, x: Fixed): Hub {
    if ByRequest(step) then RequestStep(h, step, x) else EngineStep(h, step, x)
  }

  function Run(h: Hub, steps: seq<Step>, x: Fixed): Hub {
    if steps == [] then h else After(Run(h, steps[..|steps| - 1], x), steps[|steps| - 1], x)
  }

  // ---- What each writer leaves alone ----------------------------------------------------------

  /** The parts of a status the engine writes. */
  ghost predicate SameForEngine(s: Status, t: Status) {
    && s.summary == t.summary && s.sourceHash == t.sourceHash && s.nonReady == t.nonReady
    && s.overflow == t.overflow && s.inventory == t.inventory
    && (forall kind: ConditionType :: !kind.TargetsResolved? ==> Find(s.conditions, kind) == Find(t.conditions, kind))
  }

  /** The parts the engine must not touch. */
  ghost predicate SameForOthers(s: Status, t: Status) {
    forall kind: ConditionType :: !kind.Ready? && !kind.Revoked? ==>
      Find(s.conditions, kind) == Find(t.conditions, kind)
  }

  lemma {:induction false} RequestLeavesEngineParts(s: Status, c: Condition, now: Time)
    requires c.kind.TargetsResolved?
    ensures SameForEngine(s, RequestNext(s, c, now))
  {
    forall kind: ConditionType | !kind.TargetsResolved?
      ensures Find(s.conditions, kind) == Find(RequestNext(s, c, now).conditions, kind)
    {
      SetConditionFrames(s.conditions, c, now, kind);
    }
  }

  lemma {:induction false} EngineLeavesOtherParts(s: Status, o: Outcome, now: Time)
    ensures SameForOthers(s, Built(s, o, now))
  {
    BuiltSays(s.conditions, ReadyOf(o), o.retained, now);
  }

  lemma {:induction false} ReportTransfers(s: Status, t: Status, o: Outcome)
    requires ReportedAs(s, o) && SameForEngine(s, t)
    ensures ReportedAs(t, o)
  {
    var prev, now :| s.nonReady == Details(Listed(o.states), prev, now);
    assert t.nonReady == Details(Listed(o.states), prev, now);
  }

  // ---- The invariant of every run ---------------------------------------------------------------

  /** A held copy agrees with the stored status in everything its holder alone may write. */
  ghost predicate RequestHolds(h: Hub) {
    h.request.Holding? ==>
      && h.request.version <= h.version && (h.request.version == h.version ==> h.request.status == h.status)
      && Find(h.request.status.conditions, TargetsResolved) == Find(h.status.conditions, TargetsResolved)
  }

  ghost predicate EngineHolds(h: Hub, x: Fixed) {
    && (!h.engine.Resting? ==>
          && h.engine.version <= h.version && (h.engine.version == h.version ==> h.engine.stored == h.status)
          && SameForEngine(h.engine.stored, h.status))
    && (h.engine.HasPlanned? ==> h.engine.stored == WithPlan(h.engine.read, PassPlan(InputAt(x, h.engine.read))))
  }

  ghost predicate Invariant(h: Hub, x: Fixed) {
    && RequestHolds(h) && EngineHolds(h, x)
    && (h.requestRan ==> Says(h.status.conditions, x.resolved))
    && (h.reported.Some? ==> ReportedAs(h.status, h.reported.value))
  }

  lemma {:induction false} RequestStepKeeps(h: Hub, step: Step, x: Fixed)
    requires ValidInputs(x) && Invariant(h, x) && ByRequest(step)
    ensures Invariant(RequestStep(h, step, x), x) && SameForEngine(h.status, RequestStep(h, step, x).status)
  {
    if step.RequestWrites? && h.request.Holding? {
      var next := RequestNext(h.request.status, x.resolved, step.now);
      RequestLeavesEngineParts(h.request.status, x.resolved, step.now);
      SetConditionSays(h.request.status.conditions, x.resolved, step.now);
      if h.reported.Some? && h.request.version == h.version {
        ReportTransfers(h.status, next, h.reported.value);
      }
    }
  }

  lemma {:induction false} PlansKeeps(h: Hub, x: Fixed)
    requires Invariant(h, x)
    ensures Invariant(Plans(h, x), x) && SameForOthers(h.status, Plans(h, x).status)
    ensures Plans(h, x).status == WithPlan(h.status, Plans(h, x).status.inventory)
    ensures Keys(h.status.inventory) <= Keys(Plans(h, x).status.inventory)
  {
    if h.engine.HasRead? {
      var s := h.engine.stored;
      PlanningAdds(s.inventory, SlotKeys(InputAt(x, s)), Decisions(InputAt(x, s)));
      assert WithPlan(s, s.inventory) == s && WithPlan(h.status, h.status.inventory) == h.status;
    } else {
      assert WithPlan(h.status, h.status.inventory) == h.status;
    }
  }

  lemma {:induction false} WritesKeeps(h: Hub, now: Time, x: Fixed)
    requires ValidInputs(x) && Invariant(h, x)
    ensures Invariant(Writes(h, now), x) && SameForOthers(h.status, Writes(h, now).status)
  {
    if h.engine.HasWorked? {
      var t := h.engine;
      var next := Built(t.stored, t.outcome, now);
      EngineLeavesOtherParts(t.stored, t.outcome, now);
      BuiltIsReported(t.stored, t.outcome, now);
      if next == t.stored {
        ReportTransfers(t.stored, h.status, t.outcome);
      }
    }
  }

  lemma {:induction false} EngineStepKeeps(h: Hub, step: Step, x: Fixed)
    requires ValidInputs(x) && Invariant(h, x) && !ByRequest(step)
    ensures Invariant(EngineStep(h, step, x), x) && SameForOthers(h.status, EngineStep(h, step, x).status)
  {
    match step
    case EnginePlans => PlansKeeps(h, x);
    case EngineWrites(now) => WritesKeeps(h, now, x);
    case _ =>
  }

  lemma {:induction false} RunKeeps(h: Hub, steps: seq<Step>, x: Fixed)
    requires ValidInputs(x) && Invariant(h, x)
    ensures Invariant(Run(h, steps, x), x)
  {
    if steps != [] {
      var mid, step := Run(h, steps[..|steps| - 1], x), steps[|steps| - 1];
      RunKeeps(h, steps[..|steps| - 1], x);
      if ByRequest(step) {
        RequestStepKeeps(mid, step, x);
      } else {
        EngineStepKeeps(mid, step, x);
      }
    }
  }

  /** No step of any run loses what belongs to the other writer: request steps keep the inventory and every other
      engine field; engine steps, the plan write among them, keep every condition of others; the plan write changes
      nothing but the inventory and loses no entry of it. */
  lemma {:induction false} NoStepLosesOthersWork(h: Hub, steps: seq<Step>, step: Step, x: Fixed)
    requires ValidInputs(x) && Invariant(h, x)
    ensures var m, m' := Run(h, steps, x), After(Run(h, steps, x), step, x);
            && (ByRequest(step) ==> SameForEngine(m.status, m'.status))
            && (!ByRequest(step) ==> SameForOthers(m.status, m'.status))
            && (step.EnginePlans? ==>
                  && m'.status == WithPlan(m.status, m'.status.inventory)
                  && Keys(m.status.inventory) <= Keys(m'.status.inventory))
  {
    var m := Run(h, steps, x);
    RunKeeps(h, steps, x);
    if ByRequest(step) {
      RequestStepKeeps(m, step, x);
    } else {
      EngineStepKeeps(m, step, x);
      if step.EnginePlans? { PlansKeeps(m, x); }
    }
  }
}
