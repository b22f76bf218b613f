/** When the two status writers fall silent (internal/controller/request/controller.go,
    internal/engine/reconciler.go): the exact condition. */
module Settling {
  import opened Basics
  import opened Policies
  import opened Options
  import opened Inventory
  import opened Engine
  import opened Passes
  import opened Status
  import opened Arbitration
  import C = Convergence
  import I = Interruptions
  import R = Retention

  // ---- The remembered evaluation does not matter any more ------------------------------------------

  lemma {:induction false} StandingGrantsStay(front: seq<Decision>, ds: seq<Decision>)
    requires forall d :: d in front ==> Latest(ds, TargetKey(d.target)) == Some(d)
    ensures Withdrawn(front, ds) == []
  {
    if front != [] {
      assert front[|front| - 1] in front;
      StandingGrantsStay(front[..|front| - 1], ds);
    }
  }

  lemma {:induction false} NothingNewlyWithdrawn(ds: seq<Decision>)
    requires DistinctTargets(ds)
    ensures Withdrawn(ds, ds) == []
  {
    forall d | d in ds ensures Latest(ds, TargetKey(d.target)) == Some(d) {
      var n :| 0 <= n < |ds| && ds[n] == d;
      LatestIsUnique(ds, n);
    }
    StandingGrantsStay(ds, ds);
  }

  /** Under unchanged policies a pass does the same whether it remembers the last evaluation or lost it. */
  lemma {:induction false} MemoryDoesNotMatter(i: Input)
    requires DistinctTargets(Decisions(i))
    ensures PassRevocations(Decisions(i), i) == PassRevocations([], i)
    ensures PassJobs(Decisions(i), i) == PassJobs([], i) && PassKeep(Decisions(i), i) == PassKeep([], i)
  {
    NothingNewlyWithdrawn(Decisions(i));
  }

  predicate Remembers(prev: seq<Decision>, x: Fixed) { prev == [] || prev == Decisions(x.i) }

  /** What the next pass would report, and how it would leave the spokes. */
  function Recomputed(h: Hub, x: Fixed): Outcome { PassOutcome(h.spokes, [], InputAt(x, h.status)) }

  function Reworked(h: Hub, x: Fixed): Spokes { PassWork(h.spokes, [], InputAt(x, h.status)).spokes }

  lemma {:induction false} EitherMemory(sp: Spokes, prev: seq<Decision>, s: Status, x: Fixed)
    requires Remembers(prev, x) && DistinctTargets(Decisions(x.i))
    ensures PassWork(sp, prev, InputAt(x, s)) == PassWork(sp, [], InputAt(x, s))
    ensures PassOutcome(sp, prev, InputAt(x, s)) == PassOutcome(sp, [], InputAt(x, s))
    ensures forall m, n :: PassPart(sp, prev, InputAt(x, s), m, n) == PassPart(sp, [], InputAt(x, s), m, n)
  {
    MemoryDoesNotMatter(InputAt(x, s));
  }

  // ---- The exact condition -----------------------------------------------------------------------

  /** The source has a UID and the request names each target once. */
  ghost predicate SoundInputs(x: Fixed) {
    ValidInputs(x) && x.i.cx.src.uid != "" && DistinctTargets(Decisions(x.i))
  }

  /** Both controllers have completed a pass, and the engine has stored no plan since and is between passes. */
  ghost predicate BetweenPasses(h: Hub, x: Fixed) {
    && Invariant(h, x) && h.engine.Resting? && h.requestRan && h.reported.Some? && Remembers(h.last, x)
    && Housed(h.spokes) && DistinctKeys(h.status.inventory)
  }

  /** Every allowed slot kept its entry, the listed states give one reason per slot name, the next pass would report
      the same, and it would leave the spokes as they are. */
  ghost predicate Settled(h: Hub, o: Outcome, x: Fixed) {
    && AllowedKeys(SlotKeys(x.i), Decisions(x.i)) <= Keys(o.inventory)
    && OneReasonPerSlot(Listed(o.states))
    && SameReport(o, Recomputed(h, x))
    && Reworked(h, x) == h.spokes
  }

  ghost predicate Still(h: Hub, h': Hub) {
    h'.status == h.status && h'.version == h.version && h'.spokes == h.spokes
  }

  /** How far a silent engine may have come; next is what its pass reports. */
  ghost predicate EngineCalm(m: Hub, h: Hub, next: Outcome, x: Fixed) {
    match h.engine
    case Resting => true
    case HasRead(stored, _) => stored == m.status
    case HasPlanned(stored, _, read, prev) => stored == m.status && read == m.status && Remembers(prev, x)
    case HasWorked(stored, _, outcome) => stored == m.status && outcome == next
  }

  ghost predicate Calm(m: Hub, h: Hub, next: Outcome, x: Fixed) {
    && Still(m, h) && Remembers(h.last, x) && h.requestRan && Says(m.status.conditions, x.resolved)
    && (h.request.Holding? ==> Says(h.request.status.conditions, x.resolved))
    && EngineCalm(m, h, next, x)
  }

  lemma {:induction false} NothingToPlan(m: Hub, o: Outcome, x: Fixed)
    requires ReportedAs(m.status, o) && AllowedKeys(SlotKeys(x.i), Decisions(x.i)) <= Keys(o.inventory)
    ensures PassPlan(InputAt(x, m.status)) == m.status.inventory
  {
    PlanningAdds(m.status.inventory, SlotKeys(InputAt(x, m.status)), Decisions(InputAt(x, m.status)));
  }

  lemma {:induction false} CalmPlans(m: Hub, h: Hub, next: Outcome, x: Fixed)
    requires PassPlan(InputAt(x, m.status)) == m.status.inventory && Calm(m, h, next, x)
    ensures Calm(m, Plans(h, x), next, x)
  {}

  lemma {:induction false} CalmWorks(m: Hub, h: Hub, x: Fixed)
    requires SoundInputs(x) && Reworked(m, x) == m.spokes && Calm(m, h, Recomputed(m, x), x)
    ensures Calm(m, Works(h, x), Recomputed(m, x), x)
  {
    if h.engine.HasPlanned? {
      EitherMemory(m.spokes, h.engine.prev, m.status, x);
    }
  }

  lemma {:induction false} CalmWrites(m: Hub, h: Hub, now: Time, next: Outcome, x: Fixed)
    requires Calm(m, h, next, x) && Built(m.status, next, now) == m.status
    ensures Calm(m, Writes(h, now), next, x)
  {}

  lemma {:induction false} CalmCrashes(m: Hub, h: Hub, jobs: nat, entries: nat, next: Outcome, x: Fixed)
    requires SoundInputs(x) && Reworked(m, x) == m.spokes && Calm(m, h, next, x)
    requires Housed(m.spokes) && DistinctKeys(m.status.inventory)
    ensures Calm(m, Crashes(h, jobs, entries, x), next, x)
  {
    if h.engine.HasPlanned? {
      EitherMemory(m.spokes, h.engine.prev, m.status, x);
      I.StillThroughout(m.spokes, [], InputAt(x, m.status), jobs, entries);
    }
  }

  lemma {:induction false} CalmRequest(m: Hub, h: Hub, step: Step, next: Outcome, x: Fixed)
    requires Calm(m, h, next, x) && ByRequest(step)
    ensures Calm(m, RequestStep(h, step, x), next, x)
  {}

  lemma {:induction false} CalmStays(m: Hub, o: Outcome, h: Hub, step: Step, x: Fixed)
    requires SoundInputs(x) && BetweenPasses(m, x) && m.reported == Some(o) && Settled(m, o, x)
    requires Calm(m, h, Recomputed(m, x), x)
    ensures Calm(m, After(h, step, x), Recomputed(m, x), x)
  {
    var next := Recomputed(m, x);
    match step
    case EngineReads =>
    case EnginePlans =>
      NothingToPlan(m, o, x);
      CalmPlans(m, h, next, x);
    case EngineWorks => CalmWorks(m, h, x);
    case EngineWrites(now) =>
      SameReportIsSilent(m.status, o, next, now);
      CalmWrites(m, h, now, next, x);
    case EngineCrashes(jobs, entries) => CalmCrashes(m, h, jobs, entries, next, x);
    case EngineForgets =>
    case _ => CalmRequest(m, h, step, next, x);
  }

  lemma {:induction false} CalmRun(m: Hub, o: Outcome, steps: seq<Step>, x: Fixed)
    requires SoundInputs(x) && BetweenPasses(m, x) && m.reported == Some(o) && Settled(m, o, x)
    ensures Calm(m, Run(m, steps, x), Recomputed(m, x), x)
  {
    if steps != [] {
      CalmRun(m, o, steps[..|steps| - 1], x);
      CalmStays(m, o, Run(m, steps[..|steps| - 1], x), steps[|steps| - 1], x);
    }
  }

  // ---- A whole pass, alone ---------------------------------------------------------------------------

  const TO_PLAN: seq<Step> := [EngineReads, EnginePlans]
  const TO_WORK: seq<Step> := [EngineReads, EnginePlans, EngineWorks]

  function WholePass(now: Time): seq<Step> { [EngineReads, EnginePlans, EngineWorks, EngineWrites(now)] }

  lemma {:induction false} RunPass(h: Hub, now: Time, x: Fixed)
    ensures Run(h, TO_PLAN, x) == Plans(h.(engine := HasRead(h.status, h.version)), x)
    ensures Run(h, TO_WORK, x) == Works(Run(h, TO_PLAN, x), x)
    ensures Run(h, WholePass(now), x) == Writes(Run(h, TO_WORK, x), now)
  {
    RunToPlan(h, x);
    RunToWork(h, x);
    RunToEnd(h, now, x);
  }

  lemma {:induction false} RunToWork(h: Hub, x: Fixed)
    ensures Run(h, TO_WORK, x) == Works(Run(h, TO_PLAN, x), x)
  {
    RunLast(h, TO_PLAN, EngineWorks, x);
    assert TO_PLAN + [EngineWorks] == TO_WORK;
  }

  lemma {:induction false} RunToEnd(h: Hub, now: Time, x: Fixed)
    ensures Run(h, WholePass(now), x) == Writes(Run(h, TO_WORK, x), now)
  {
    RunLast(h, TO_WORK, EngineWrites(now), x);
    assert TO_WORK + [EngineWrites(now)] == WholePass(now);
  }

  lemma {:induction false} RunToPlan(h: Hub, x: Fixed)
    ensures Run(h, TO_PLAN, x) == Plans(h.(engine := HasRead(h.status, h.version)), x)
  {
    RunToRead(h, x);
    RunLast(h, [EngineReads], EnginePlans, x);
    assert [EngineReads] + [EnginePlans] == TO_PLAN;
  }

  lemma {:induction false} RunToRead(h: Hub, x: Fixed)
    ensures Run(h, [EngineReads], x) == h.(engine := HasRead(h.status, h.version))
  {
    assert [EngineReads][..0] == [];
    assert Run(h, [], x) == h;
  }

  lemma {:induction false} RunLast(h: Hub, steps: seq<Step>, step: Step, x: Fixed)
    ensures Run(h, steps + [step], x) == After(Run(h, steps, x), step, x)
  {
    assert (steps + [step])[..|steps|] == steps;
  }

  // ---- Silence is settled --------------------------------------------------------------------------

  ghost predicate SilentForever(h: Hub, x: Fixed) { forall steps :: Still(h, Run(h, steps, x)) }

  lemma {:induction false} SilentPlans(h: Hub, x: Fixed)
    requires SilentForever(h, x)
    ensures PassPlan(InputAt(x, h.status)) == h.status.inventory
    ensures Run(h, TO_PLAN, x)
            == h.(engine := HasPlanned(h.status, h.version, h.status, h.last), last := Decisions(x.i))
  {
    RunPass(h, NEVER, x);
    assert Still(h, Run(h, TO_PLAN, x));
  }

  lemma {:induction false} SilentWorks(h: Hub, x: Fixed)
    requires SilentForever(h, x) && SoundInputs(x) && Remembers(h.last, x)
    ensures Reworked(h, x) == h.spokes
    ensures Run(h, TO_WORK, x) == h.(engine := HasWorked(h.status, h.version, Recomputed(h, x)), last := Decisions(x.i))
  {
    SilentPlans(h, x);
    RunPass(h, NEVER, x);
    EitherMemory(h.spokes, h.last, h.status, x);
    assert Still(h, Run(h, TO_WORK, x));
  }

  lemma {:induction false} SilentWrites(h: Hub, later: Time, x: Fixed)
    requires SilentForever(h, x) && SoundInputs(x) && Remembers(h.last, x)
    ensures Built(h.status, Recomputed(h, x), later) == h.status
  {
    SilentWorks(h, x);
    RunPass(h, later, x);
    assert Still(h, Run(h, WholePass(later), x));
  }

  lemma {:induction false} SilentIsSettled(h: Hub, o: Outcome, x: Fixed)
    requires SilentForever(h, x) && SoundInputs(x) && BetweenPasses(h, x) && h.reported == Some(o)
    ensures Settled(h, o, x)
  {
    SilentPlans(h, x);
    PlanningAdds(h.status.inventory, SlotKeys(InputAt(x, h.status)), Decisions(InputAt(x, h.status)));
    SilentWorks(h, x);
    forall later ensures Built(h.status, Recomputed(h, x), later) == h.status { SilentWrites(h, later, x); }
    SilentIff(h.status, o, Recomputed(h, x));
  }

  /** Once both controllers have completed a pass: over every interleaving of reads, plan and result writes under
      compare-and-swap, and crashes anywhere, nobody ever writes the status or changes the spokes again, exactly when
      every allowed slot kept its entry, listed states give one reason per slot name, and the next pass would report
      the same and leave the spokes as they are. */
  lemma {:induction false} NobodyWritesAgainIff(h: Hub, o: Outcome, x: Fixed)
    requires SoundInputs(x) && BetweenPasses(h, x) && h.reported == Some(o)
    ensures SilentForever(h, x) <==> Settled(h, o, x)
  {
    if Settled(h, o, x) {
      forall steps ensures Still(h, Run(h, steps, x)) { CalmRun(h, o, steps, x); }
    }
    if SilentForever(h, x) {
      SilentIsSettled(h, o, x);
    }
  }

  // ---- Every run gets there in good order ---------------------------------------------------------------

  /** Spoke objects live in namespaces, no slot is recorded twice, and once a pass has evaluated, the memory is that
      evaluation or lost. */
  ghost predicate Orderly(h: Hub, x: Fixed) {
    && Housed(h.spokes) && DistinctKeys(h.status.inventory)
    && (h.engine.HasRead? ==> DistinctKeys(h.engine.stored.inventory))
    && (h.engine.HasPlanned? ==> DistinctKeys(h.engine.stored.inventory) && DistinctKeys(h.engine.read.inventory))
    && (h.engine.HasWorked? ==> DistinctKeys(h.engine.stored.inventory) && DistinctKeys(h.engine.outcome.inventory))
    && (h.engine.HasPlanned? || h.engine.HasWorked? || h.reported.Some? ==> Remembers(h.last, x))
  }

  lemma {:induction false} OrderlyPlans(h: Hub, x: Fixed)
    requires Orderly(h, x)
    ensures Orderly(Plans(h, x), x)
  {
    if h.engine.HasRead? {
      var i := InputAt(x, h.engine.stored);
      PlanningAdds(i.status.inventory, SlotKeys(i), Decisions(i));
    }
  }

  lemma {:induction false} OrderlyWorks(h: Hub, x: Fixed)
    requires Orderly(h, x) && SoundInputs(x)
    ensures Orderly(Works(h, x), x)
  {
    if h.engine.HasPlanned? {
      var i := InputAt(x, h.engine.read);
      I.PassStaysHoused(h.spokes, h.engine.prev, i, 0, 0);
      R.PassKeepsDistinct(h.spokes, h.engine.prev, i);
    }
  }

  lemma {:induction false} OrderlyCrashes(h: Hub, jobs: nat, entries: nat, x: Fixed)
    requires Orderly(h, x) && SoundInputs(x)
    ensures Orderly(Crashes(h, jobs, entries, x), x)
  {
    if h.engine.HasPlanned? {
      I.PassStaysHoused(h.spokes, h.engine.prev, InputAt(x, h.engine.read), jobs, entries);
    }
  }

  lemma {:induction false} OrderlyRequest(h: Hub, step: Step, x: Fixed)
    requires Orderly(h, x) && Invariant(h, x) && SoundInputs(x) && ByRequest(step)
    ensures Orderly(RequestStep(h, step, x), x)
  {
    RequestStepKeeps(h, step, x);
  }

  lemma {:induction false} OrderlyStep(h: Hub, step: Step, x: Fixed)
    requires Orderly(h, x) && Invariant(h, x) && SoundInputs(x)
    ensures Orderly(After(h, step, x), x)
  {
    match step
    case EnginePlans => OrderlyPlans(h, x);
    case EngineWorks => OrderlyWorks(h, x);
    case EngineCrashes(jobs, entries) => OrderlyCrashes(h, jobs, entries, x);
    case _ => if ByRequest(step) { OrderlyRequest(h, step, x); }
  }

  /** Nobody has run yet; the status, the memory and the spokes may hold anything. */
  ghost predicate Unstarted(h: Hub) {
    && h.request.Idle? && h.engine.Resting? && !h.requestRan && h.reported.None?
    && Housed(h.spokes) && DistinctKeys(h.status.inventory)
  }

  lemma {:induction false} OrderlyRun(h: Hub, steps: seq<Step>, x: Fixed)
    requires SoundInputs(x) && Unstarted(h)
    ensures Orderly(Run(h, steps, x), x) && Invariant(Run(h, steps, x), x)
  {
    RunKeeps(h, steps, x);
    if steps != [] {
      OrderlyRun(h, steps[..|steps| - 1], x);
      OrderlyStep(Run(h, steps[..|steps| - 1], x), steps[|steps| - 1], x);
    }
  }

  /** From any status and spokes, over every interleaving of the two controllers with fixed inputs: once each has
      completed a pass, neither ever writes again exactly when the hub is settled. */
  lemma {:induction false} OnceBothRanNobodyWrites(h: Hub, before: seq<Step>, x: Fixed)
    requires SoundInputs(x) && Unstarted(h)
    requires Run(h, before, x).requestRan && Run(h, before, x).reported.Some? && Run(h, before, x).engine.Resting?
    ensures SilentForever(Run(h, before, x), x) <==> Settled(Run(h, before, x), Run(h, before, x).reported.value, x)
  {
    OrderlyRun(h, before, x);
    NobodyWritesAgainIff(Run(h, before, x), Run(h, before, x).reported.value, x);
  }

  // ---- A converged hub is settled ------------------------------------------------------------------------

  lemma {:induction false} AllReadyOneReason(js: seq<Job>)
    ensures OneReasonPerSlot(Listed(C.ReadyStates(js)))
  {
    C.ReadyStatesAreReady(js);
    NoneFailed(C.ReadyStates(js));
  }

  /** A fan-out that has converged, and whose status reports it, is settled. */
  lemma {:induction false} ConvergedIsSettled(h: Hub, o: Outcome, w: Progress, x: Fixed)
    requires SoundInputs(x) && w.spokes == h.spokes && w.inv == h.status.inventory
    requires C.AllAllowed(InputAt(x, h.status)) && C.Converged(w, InputAt(x, h.status))
    requires forall k :: k in C.SlotSet(InputAt(x, h.status)) ==> C.ReadsWork(x.i.cx.slotFaults(k))
    requires o == C.PlainOutcome(InputAt(x, h.status), w.states, w.inv)
    ensures Settled(h, o, x)
  {
    var i := InputAt(x, h.status);
    C.PassOverConverged(w, [], i);
    C.NothingRetained([], i);
    C.JobsWhenAllowed([], i);
    AllReadyOneReason(C.Jobs(i));
    assert Recomputed(h, x) == o;
  }
}
