/** The two kinds of slot that keep the status writers from falling silent (internal/engine/reconciler.go): a slot the
    engine refuses, and a slot it revokes. */
module Refusals {
  import opened Basics
  import opened Policies
  import opened Options
  import opened Inventory
  import opened Conflict
  import opened Engine
  import opened Passes
  import opened Status
  import opened Arbitration
  import opened Settling
  import C = Convergence
  import I = Interruptions
  import R = Retention
  import V = Revocations

  // ---- A refused slot writes forever -------------------------------------------------------------------

  /** Somebody else's object holds the slot, and it may be neither adopted nor taken over. */
  predicate HeldByAnother(sp: Spokes, k: SlotKey, eff: EffectiveOptions, cx: Context) {
    && cx.slotFaults(k).namespaceRead.ReadOk? && cx.slotFaults(k).read.ReadOk?
    && NsOf(k) in sp.namespaces && k in sp.objects && sp.objects[k].sourceUid != cx.src.uid
    && DecideConflict(sp.objects[k], cx.src.uid, cx.src.requested, cx.hash(cx.src.payload), eff.conflictPolicies,
                      cx.hash).Refuse?
  }

  /** Its namespace is missing and may not be created. */
  predicate Unhoused(sp: Spokes, k: SlotKey, eff: EffectiveOptions, cx: Context) {
    cx.slotFaults(k).namespaceRead.ReadOk? && NsOf(k) !in sp.namespaces && !eff.allowNamespaceCreation
  }

  predicate RefusedAt(sp: Spokes, k: SlotKey, eff: EffectiveOptions, cx: Context) {
    HeldByAnother(sp, k, eff, cx) || Unhoused(sp, k, eff, cx)
  }

  lemma {:induction false} RefusalDropsEntry(p: Progress, k: SlotKey, eff: EffectiveOptions, cx: Context)
    requires cx.src.uid != "" && RefusedAt(p.spokes, k, eff, cx)
    ensures DoJob(p, ApplyJob(k, eff), cx).inv == Remove(p.inv, k) && DoJob(p, ApplyJob(k, eff), cx).spokes == p.spokes
  {}

  /** The slot is allowed and the pass will find it refused. */
  ghost predicate Refused(sp: Spokes, i: Input, n: nat)
    requires n < |SlotKeys(i)|
  {
    Decisions(i)[n].allowed && RefusedAt(sp, SlotKeys(i)[n], C.OptionsAt(i, n), i.cx)
  }

  lemma {:induction false} OtherJobs(prev: seq<Decision>, i: Input, n: nat, m: nat)
    requires DistinctTargets(Decisions(i)) && n < |SlotKeys(i)| && m < |SlotKeys(i)| && m != n
    ensures NsOf(PassJobs(prev, i)[m].key) != NsOf(SlotKeys(i)[n])
  {
    R.SlotTarget(i, m);
    R.SlotTarget(i, n);
  }

  lemma {:induction false} OtherJobKeepsRefusal(p: Progress, j: Job, k: SlotKey, eff: EffectiveOptions, cx: Context)
    requires cx.src.uid != "" && Housed(p.spokes) && NsOf(j.key) != NsOf(k) && RefusedAt(p.spokes, k, eff, cx)
    ensures RefusedAt(DoJob(p, j, cx).spokes, k, eff, cx)
  {
    if j.ApplyJob? {
      ApplyTargetIsSafe(p.spokes, p.inv, j.key, cx.src, j.options, cx.slotFaults(j.key), cx.hash);
    }
  }

  /** Its own job leaves a refused slot refused, and so do the others. */
  lemma {:induction false} JobsKeepRefusal(p: Progress, js: seq<Job>, k: SlotKey, eff: EffectiveOptions, cx: Context)
    requires cx.src.uid != "" && Housed(p.spokes) && RefusedAt(p.spokes, k, eff, cx)
    requires forall j :: j in js ==> NsOf(j.key) != NsOf(k) || j == ApplyJob(k, eff)
    ensures RefusedAt(DoJobs(p, js, cx).spokes, k, eff, cx)
  {
    if js != [] {
      var front, j := js[..|js| - 1], js[|js| - 1];
      assert j in js && forall x :: x in front ==> x in js;
      JobsKeepRefusal(p, front, k, eff, cx);
      I.JobsAddNamespaces(p, front, cx);
      if NsOf(j.key) == NsOf(k) {
        RefusalDropsEntry(DoJobs(p, front, cx), k, eff, cx);
      } else {
        OtherJobKeepsRefusal(DoJobs(p, front, cx), j, k, eff, cx);
      }
    }
  }

  lemma {:induction false} RefusedAlongJobs(sp: Spokes, prev: seq<Decision>, i: Input, n: nat, m: nat)
    requires R.Sturdy(sp, i) && n < |SlotKeys(i)| && m <= |PassJobs(prev, i)| && Refused(sp, i, n)
    ensures RefusedAt(I.AfterJobs(sp, prev, i, m).spokes, SlotKeys(i)[n], C.OptionsAt(i, n), i.cx)
  {
    var js, k, eff := PassJobs(prev, i)[..m], SlotKeys(i)[n], C.OptionsAt(i, n);
    forall j | j in js ensures NsOf(j.key) != NsOf(k) || j == ApplyJob(k, eff) {
      var a :| 0 <= a < m && js[a] == j;
      if a == n { I.JobOf(prev, i, n); } else { OtherJobs(prev, i, n, a); }
    }
    JobsKeepRefusal(Progress(sp, PassPlan(i), [], 0), js, k, eff, i.cx);
  }

  lemma {:induction false} CollectionKeepsRefusal(
    q: Progress, keep: set<SlotKey>, cx: Context, entries: nat, k: SlotKey, eff: EffectiveOptions)
    requires cx.src.uid != "" && Housed(q.spokes) && DistinctKeys(q.inv)
    requires RefusedAt(q.spokes, k, eff, cx)
    ensures RefusedAt(I.CollectedPart(q, keep, cx, entries).spokes, k, eff, cx)
  {
    var del := Uncovered(q.inv, keep, cx.discovered, true);
    UncoveredDistinct(q.inv, keep, cx.discovered, true);
    CollectEachWorks(q.(inv := Released(q.inv, Uncovered(q.inv, keep, cx.discovered, false))),
                     if entries < |del| then del[..entries] else del, cx);
  }

  /** Wherever a pass is cut short, the slot is still refused. */
  lemma {:induction false} RefusedThroughout(sp: Spokes, prev: seq<Decision>, i: Input, n: nat, jobs: nat, entries: nat)
    requires R.Sturdy(sp, i) && n < |SlotKeys(i)| && Refused(sp, i, n)
    ensures Refused(PassPart(sp, prev, i, jobs, entries).spokes, i, n)
  {
    var all := |PassJobs(prev, i)|;
    I.PartIs(sp, prev, i, jobs, entries);
    if jobs < all {
      RefusedAlongJobs(sp, prev, i, n, jobs);
    } else {
      RefusedAlongJobs(sp, prev, i, n, all);
      I.JobsStayHoused(sp, prev, i, all);
      CollectionKeepsRefusal(I.AfterJobs(sp, prev, i, all), PassKeep(prev, i), i.cx, entries, SlotKeys(i)[n],
                             C.OptionsAt(i, n));
    }
  }

  lemma {:induction false} WholeIsPart(sp: Spokes, prev: seq<Decision>, i: Input) returns (jobs: nat, entries: nat)
    ensures PassWork(sp, prev, i) == PassPart(sp, prev, i, jobs, entries)
  {
    jobs := |PassJobs(prev, i)|;
    var q := DoJobs(Progress(sp, PassPlan(i), [], 0), PassJobs(prev, i), i.cx);
    entries := |Uncovered(q.inv, PassKeep(prev, i), i.cx.discovered, true)|;
  }

  /** A refused slot is refused again on the next pass. */
  lemma {:induction false} RefusedAgain(sp: Spokes, prev: seq<Decision>, i: Input, n: nat)
    requires R.Sturdy(sp, i) && n < |SlotKeys(i)| && Refused(sp, i, n)
    ensures Refused(PassWork(sp, prev, i).spokes, i, n)
  {
    var jobs, entries := WholeIsPart(sp, prev, i);
    RefusedThroughout(sp, prev, i, n, jobs, entries);
  }

  lemma {:induction false} RefusedAtItsTurn(sp: Spokes, prev: seq<Decision>, i: Input, n: nat)
    requires R.Sturdy(sp, i) && n < |SlotKeys(i)| && Refused(sp, i, n)
    ensures I.AfterJobs(sp, prev, i, n + 1).inv == Remove(I.AfterJobs(sp, prev, i, n).inv, SlotKeys(i)[n])
  {
    RefusedAlongJobs(sp, prev, i, n, n);
    I.JobOf(prev, i, n);
    I.NextJobIs(Progress(sp, PassPlan(i), [], 0), PassJobs(prev, i), n, i.cx);
    RefusalDropsEntry(I.AfterJobs(sp, prev, i, n), SlotKeys(i)[n], C.OptionsAt(i, n), i.cx);
  }

  lemma {:induction false} SuffixSpares(js: seq<Job>, n: nat, k: SlotKey)
    requires n < |js| && forall m :: n < m < |js| ==> js[m].key != k
    ensures R.Spared(js[n + 1..], k)
  {
    forall j | j in js[n + 1..] && j.ApplyJob? ensures j.key != k {
      var m :| 0 <= m < |js[n + 1..]| && js[n + 1..][m] == j;
      assert js[n + 1 + m] == j;
    }
  }

  lemma {:induction false} LaterJobsSpare(prev: seq<Decision>, i: Input, n: nat)
    requires DistinctTargets(Decisions(i)) && n < |SlotKeys(i)|
    ensures R.Spared(PassJobs(prev, i)[n + 1..], SlotKeys(i)[n])
  {
    var js, k := PassJobs(prev, i), SlotKeys(i)[n];
    forall m | n < m < |js| ensures js[m].key != k { OtherJobs(prev, i, n, m); }
    SuffixSpares(js, n, k);
  }

  lemma {:induction false} RefusedAfterAllJobs(sp: Spokes, prev: seq<Decision>, i: Input, n: nat)
    requires R.Sturdy(sp, i) && n < |SlotKeys(i)| && Refused(sp, i, n)
    ensures forall e :: e in I.AfterJobs(sp, prev, i, |PassJobs(prev, i)|).inv ==> e.key != SlotKeys(i)[n]
  {
    RefusedAtItsTurn(sp, prev, i, n);
    I.AllJobs(sp, prev, i, n + 1);
    I.JobsStayHoused(sp, prev, i, n + 1);
    LaterJobsSpare(prev, i, n);
    R.JobsSpare(I.AfterJobs(sp, prev, i, n + 1), PassJobs(prev, i)[n + 1..], i.cx, SlotKeys(i)[n]);
  }

  /** A slot held by another source's replica, or without its namespace, ends every pass without an entry. */
  lemma {:induction false} RefusedSlotLosesEntry(sp: Spokes, prev: seq<Decision>, i: Input, n: nat)
    requires R.Sturdy(sp, i) && n < |SlotKeys(i)| && Refused(sp, i, n)
    ensures SlotKeys(i)[n] !in Keys(PassWork(sp, prev, i).inv)
  {
    var all := |PassJobs(prev, i)|;
    RefusedAfterAllJobs(sp, prev, i, n);
    I.AllJobs(sp, prev, i, all);
    I.JobsStayHoused(sp, prev, i, all);
    CollectionAccounts(I.AfterJobs(sp, prev, i, all), PassKeep(prev, i), i.cx);
  }

  lemma {:induction false} PlanDiffers(h: Hub, k: SlotKey, x: Fixed)
    requires k in AllowedKeys(SlotKeys(x.i), Decisions(x.i)) && k !in Keys(h.status.inventory)
    ensures k in Keys(PassPlan(InputAt(x, h.status))) && PassPlan(InputAt(x, h.status)) != h.status.inventory
  {
    PlanningAdds(h.status.inventory, SlotKeys(InputAt(x, h.status)), Decisions(InputAt(x, h.status)));
  }

  lemma {:induction false} PlanIsStored(h: Hub, plan: seq<InventoryEntry>, ds: seq<Decision>)
    requires plan != h.status.inventory
    ensures StoresPlan(h.(engine := HasRead(h.status, h.version)), plan, ds)
            == h.(engine := HasPlanned(WithPlan(h.status, plan), h.version + 1, h.status, h.last),
                  status := WithPlan(h.status, plan), version := h.version + 1, reported := None, last := ds)
  {}

  lemma {:induction false} DropIsStored(h: Hub, k: SlotKey, now: Time)
    requires h.engine.HasWorked? && h.engine.version == h.version
    requires k in Keys(h.engine.stored.inventory) && k !in Keys(h.engine.outcome.inventory)
    ensures var h' := Writes(h, now);
            && h'.version == h.version + 1 && h'.status.inventory == h.engine.outcome.inventory
            && h'.spokes == h.spokes && h'.engine.Resting?
  {}

  /** What is planned and not kept is written twice. */
  lemma {:induction false} PlannedAndDropped(h: Hub, k: SlotKey, now: Time, x: Fixed)
    requires k in AllowedKeys(SlotKeys(x.i), Decisions(x.i)) && k !in Keys(h.status.inventory)
    requires k !in Keys(PassWork(h.spokes, h.last, InputAt(x, h.status)).inv)
    ensures var h', w := Run(h, WholePass(now), x), PassWork(h.spokes, h.last, InputAt(x, h.status));
            && h'.version == h.version + 2 && h'.status.inventory == w.inv
            && h'.spokes == w.spokes && h'.engine.Resting?
  {
    RunPass(h, now, x);
    PlanDiffers(h, k, x);
    PlanIsStored(h, PassPlan(InputAt(x, h.status)), Decisions(x.i));
    DropIsStored(Run(h, TO_WORK, x), k, now);
  }

  lemma {:induction false} RefusedIgnoresStatus(sp: Spokes, n: nat, s: Status, x: Fixed)
    requires n < |SlotKeys(x.i)| && Refused(sp, x.i, n)
    ensures SlotKeys(InputAt(x, s)) == SlotKeys(x.i) && Decisions(InputAt(x, s)) == Decisions(x.i)
    ensures Refused(sp, InputAt(x, s), n)
  {}

  /** Between passes, with a refused slot that is not recorded. */
  ghost predicate Refusing(h: Hub, n: nat, x: Fixed) {
    && h.engine.Resting? && Housed(h.spokes) && DistinctKeys(h.status.inventory)
    && n < |SlotKeys(x.i)| && Refused(h.spokes, x.i, n) && SlotKeys(x.i)[n] !in Keys(h.status.inventory)
  }

  /** A pass stores its plan for such a slot and then takes it back, and leaves the next pass to do the same. */
  lemma {:induction false} RefusedSlotWritesTwice(h: Hub, n: nat, now: Time, x: Fixed)
    requires SoundInputs(x) && Refusing(h, n, x)
    ensures Run(h, WholePass(now), x).version == h.version + 2 && Refusing(Run(h, WholePass(now), x), n, x)
  {
    var i := InputAt(x, h.status);
    RefusedIgnoresStatus(h.spokes, n, h.status, x);
    RefusedSlotLosesEntry(h.spokes, h.last, i, n);
    PlannedAndDropped(h, SlotKeys(x.i)[n], now, x);
    RefusedAgain(h.spokes, h.last, i, n);
    I.PassStaysHoused(h.spokes, h.last, i, 0, 0);
    R.PassKeepsDistinct(h.spokes, h.last, i);
    RefusalIgnoresStatus(PassWork(h.spokes, h.last, i).spokes, n, h.status, x);
  }

  lemma {:induction false} RefusalIgnoresStatus(sp: Spokes, n: nat, s: Status, x: Fixed)
    requires n < |SlotKeys(InputAt(x, s))| && Refused(sp, InputAt(x, s), n)
    ensures n < |SlotKeys(x.i)| && Refused(sp, x.i, n)
  {}

  lemma {:induction false} RunAppend(h: Hub, a: seq<Step>, b: seq<Step>, x: Fixed)
    ensures Run(h, a + b, x) == Run(Run(h, a, x), b, x)
  {
    if b == [] {
      assert a + b == a;
    } else {
      assert (a + b)[..|a + b| - 1] == a + b[..|b| - 1];
      RunAppend(h, a, b[..|b| - 1], x);
    }
  }

  /** One whole pass after another. */
  function WholePasses(clocks: seq<Time>): seq<Step> {
    if clocks == [] then [] else WholePasses(clocks[..|clocks| - 1]) + WholePass(clocks[|clocks| - 1])
  }

  /** So under fixed inputs every pass writes the status twice, for ever. */
  lemma {:induction false} RefusedSlotWritesForever(h: Hub, n: nat, clocks: seq<Time>, x: Fixed)
    requires SoundInputs(x) && Refusing(h, n, x)
    ensures Run(h, WholePasses(clocks), x).version == h.version + 2 * |clocks|
    ensures Refusing(Run(h, WholePasses(clocks), x), n, x)
  {
    if clocks != [] {
      var front, now := clocks[..|clocks| - 1], clocks[|clocks| - 1];
      RefusedSlotWritesForever(h, n, front, x);
      RefusedSlotWritesTwice(Run(h, WholePasses(front), x), n, now, x);
      RunAppend(h, WholePasses(front), WholePass(now), x);
    }
  }

  // ---- ... over every interleaving ---------------------------------------------------------------------

  lemma {:induction false} PassKeepsRefusal(
    sp: Spokes, prev: seq<Decision>, s: Status, n: nat, jobs: nat, entries: nat, x: Fixed)
    requires SoundInputs(x) && Housed(sp) && DistinctKeys(s.inventory) && n < |SlotKeys(x.i)| && Refused(sp, x.i, n)
    ensures Refused(PassWork(sp, prev, InputAt(x, s)).spokes, x.i, n)
    ensures Refused(PassPart(sp, prev, InputAt(x, s), jobs, entries).spokes, x.i, n)
  {
    RefusedIgnoresStatus(sp, n, s, x);
    RefusedAgain(sp, prev, InputAt(x, s), n);
    RefusalIgnoresStatus(PassWork(sp, prev, InputAt(x, s)).spokes, n, s, x);
    RefusedThroughout(sp, prev, InputAt(x, s), n, jobs, entries);
    RefusalIgnoresStatus(PassPart(sp, prev, InputAt(x, s), jobs, entries).spokes, n, s, x);
  }

  /** Only the engine's work changes the spokes. */
  lemma {:induction false} StepSpokes(h: Hub, step: Step, x: Fixed)
    ensures var sp, t := After(h, step, x).spokes, h.engine;
            || sp == h.spokes
            || (t.HasPlanned? && sp == PassWork(h.spokes, t.prev, InputAt(x, t.read)).spokes)
            || (&& t.HasPlanned? && step.EngineCrashes?
                && sp == PassPart(h.spokes, t.prev, InputAt(x, t.read), step.jobs, step.entries).spokes)
  {}

  lemma {:induction false} StepKeepsRefusal(h: Hub, step: Step, n: nat, x: Fixed)
    requires SoundInputs(x) && Orderly(h, x) && n < |SlotKeys(x.i)| && Refused(h.spokes, x.i, n)
    ensures Refused(After(h, step, x).spokes, x.i, n)
  {
    StepSpokes(h, step, x);
    if h.engine.HasPlanned? {
      PassKeepsRefusal(h.spokes, h.engine.prev, h.engine.read, n, 0, 0, x);
      if step.EngineCrashes? {
        PassKeepsRefusal(h.spokes, h.engine.prev, h.engine.read, n, step.jobs, step.entries, x);
      }
    }
  }

  lemma {:induction false} RunKeepsRefusal(h: Hub, steps: seq<Step>, n: nat, x: Fixed)
    requires SoundInputs(x) && Unstarted(h) && n < |SlotKeys(x.i)| && Refused(h.spokes, x.i, n)
    ensures Refused(Run(h, steps, x).spokes, x.i, n)
  {
    if steps != [] {
      RunKeepsRefusal(h, steps[..|steps| - 1], n, x);
      OrderlyRun(h, steps[..|steps| - 1], x);
      StepKeepsRefusal(Run(h, steps[..|steps| - 1], x), steps[|steps| - 1], n, x);
    }
  }

  /** A recorded entry that the pass drops is written at least once. */
  lemma {:induction false} RecordedAndDropped(h: Hub, k: SlotKey, now: Time, x: Fixed)
    requires k in Keys(h.status.inventory)
    requires k !in Keys(PassWork(h.spokes, h.last, InputAt(x, h.status)).inv)
    ensures Run(h, WholePass(now), x).version > h.version
  {
    RunPass(h, now, x);
    PlanningAdds(h.status.inventory, SlotKeys(InputAt(x, h.status)), Decisions(InputAt(x, h.status)));
    DropIsStored(Run(h, TO_WORK, x), k, now);
  }

  /** Whatever the two controllers have done, crashed or forgotten: while a slot is refused, somebody writes again. */
  lemma {:induction false} RefusedSlotNeverSettles(h: Hub, steps: seq<Step>, n: nat, x: Fixed)
    requires SoundInputs(x) && Unstarted(h) && n < |SlotKeys(x.i)| && Refused(h.spokes, x.i, n)
    ensures !SilentForever(Run(h, steps, x), x)
  {
    var m, k := Run(h, steps, x), SlotKeys(x.i)[n];
    RunKeepsRefusal(h, steps, n, x);
    OrderlyRun(h, steps, x);
    RefusedIgnoresStatus(m.spokes, n, m.status, x);
    RefusedSlotLosesEntry(m.spokes, m.last, InputAt(x, m.status), n);
    if k in Keys(m.status.inventory) {
      RecordedAndDropped(m, k, NEVER, x);
    } else {
      PlannedAndDropped(m, k, NEVER, x);
    }
    assert !Still(m, Run(m, WholePass(NEVER), x));
  }

  // ---- A revoked slot writes once more ---------------------------------------------------------------------

  /** The request has one slot, and it is denied. */
  ghost predicate OneDenied(i: Input) { |SlotKeys(i)| == 1 && !Decisions(i)[0].allowed }

  lemma {:induction false} OneDenyJob(prev: seq<Decision>, i: Input)
    requires OneDenied(i)
    ensures PassJobs(prev, i)
            == [DenyJob(SlotKeys(i)[0], SlotKeys(i)[0] in PassRetained(prev, i),
                        NsOf(SlotKeys(i)[0]) in V.DeletedNamespaces(PassRevocations(prev, i), i.policies, i.meta,
                                                                    i.status.inventory))]
    ensures AllowedKeys(SlotKeys(i), Decisions(i)) == {}
    ensures PassPlan(i) == i.status.inventory
  {
    PlanningAdds(i.status.inventory, SlotKeys(i), Decisions(i));
  }

  lemma {:induction false} OneJobDone(p: Progress, j: Job, cx: Context)
    requires j.DenyJob?
    ensures DoJobs(p, [j], cx) == p.(states := p.states + [StateAt(j.key, true, DenialReason(j, p.inv))])
  {
    assert [j][..0] == [];
  }

  /** With nothing recorded, a denied slot reports a plain denial. */
  lemma {:induction false} NothingRecordedIsPlainDenial(sp: Spokes, prev: seq<Decision>, i: Input)
    requires OneDenied(i) && i.status.inventory == []
    ensures PassWork(sp, prev, i).states == [StateAt(SlotKeys(i)[0], true, PolicyDenied)]
  {
    OneDenyJob(prev, i);
    OneJobDone(Progress(sp, [], [], 0), PassJobs(prev, i)[0], i.cx);
    assert PassRetained(prev, i) == {};
  }

  lemma {:induction false} RevocationNamesNamespace(prev: seq<Decision>, i: Input, e: InventoryEntry)
    requires DistinctTargets(prev) && DistinctTargets(Decisions(i)) && e in i.status.inventory
    requires R.DeniedIn(i, NsOf(e.key)) && !R.RetainGoverns(prev, i, NsOf(e.key))
    ensures NsOf(e.key) in V.DeletedNamespaces(PassRevocations(prev, i), i.policies, i.meta, i.status.inventory)
    ensures e.key !in PassRetained(prev, i)
  {
    var r := R.RevocationOf(prev, i, e);
    R.GoverningIs(prev, i, r);
    R.OnlyRevocation(prev, i, e, r);
    assert e in EntriesIn(i.status.inventory, TargetKey(r.target));
  }

  /** A recorded replica of the denied slot is cleaned up under Delete: the slot reports the revocation, and nothing
      stays recorded. */
  lemma {:induction false} RevokedSlotReportsRevocation(sp: Spokes, prev: seq<Decision>, i: Input, e: InventoryEntry)
    requires R.Sound(sp, prev, i) && OneDenied(i) && i.status.inventory == [e] && e.key == SlotKeys(i)[0]
    requires !R.RetainGoverns(prev, i, NsOf(e.key)) && Collectable(e.key, i.cx)
    ensures PassWork(sp, prev, i).states == [StateAt(e.key, true, PolicyRevoked)] && PassWork(sp, prev, i).inv == []
  {
    var k, j := e.key, PassJobs(prev, i)[0];
    R.SlotTarget(i, 0);
    assert Decisions(i)[0] in Decisions(i) && e in i.status.inventory;
    RevocationNamesNamespace(prev, i, e);
    OneDenyJob(prev, i);
    OneJobDone(Progress(sp, [e], [], 0), j, i.cx);
    KeysOne(e);
    OneCollected(DoJobs(Progress(sp, [e], [], 0), [j], i.cx), e, PassKeep(prev, i), i.cx);
  }

  lemma {:induction false} OneCollected(q: Progress, e: InventoryEntry, keep: set<SlotKey>, cx: Context)
    requires cx.src.uid != "" && Housed(q.spokes) && q.inv == [e] && e.key !in keep && Collectable(e.key, cx)
    ensures Collected(q, keep, cx).states == q.states && Collected(q, keep, cx).inv == []
  {
    KeysOne(e);
    C.CollectionSettles(q, keep, cx);
    NoEntries(Collected(q, keep, cx).inv);
  }

  /** So after a pass that revoked the slot, with all inputs unchanged, the next pass writes again. */
  lemma {:induction false} RevokedSlotWritesAgain(h: Hub, o: Outcome, x: Fixed)
    requires SoundInputs(x) && BetweenPasses(h, x) && h.reported == Some(o) && OneDenied(x.i)
    requires o.states == [StateAt(SlotKeys(x.i)[0], true, PolicyRevoked)] && h.status.inventory == []
    ensures !SilentForever(h, x)
  {
    var s, t := StateAt(SlotKeys(x.i)[0], true, PolicyRevoked), StateAt(SlotKeys(x.i)[0], true, PolicyDenied);
    NothingRecordedIsPlainDenial(h.spokes, [], InputAt(x, h.status));
    OneRow(s);
    OneRow(t);
    assert Rows([s])[0] != Rows([t])[0];
    NobodyWritesAgainIff(h, o, x);
  }

  lemma {:induction false} OneRow(s: TargetState)
    requires !s.ready
    ensures Listed([s]) == [s]
  {
    assert [s][..0] == [];
    assert NotReady([s][..0]) == [];
  }
}
