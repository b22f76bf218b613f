/** Where the engine ends up under fixed inputs (internal/engine/reconciler.go): four passes decide whether the status
    writers fall silent, and the slots it found refused decide it. */
module LongRun {
  import opened Basics
  import opened Policies
  import opened Options
  import opened Inventory
  import opened Conflict
  import opened Engine
  import opened Passes
  import opened Status
  import opened Arbitration
  import opened Settling
  import opened Refusals
  import C = Convergence
  import F = FixedPoints
  import R = Retention

  // ---- A whole pass, alone ---------------------------------------------------------------------------

  function Worked(h: Hub, x: Fixed): Progress { PassWork(h.spokes, h.last, InputAt(x, h.status)) }

  lemma {:induction false} SoloPlan(h: Hub, plan: seq<InventoryEntry>, ds: seq<Decision>)
    ensures var h' := StoresPlan(h.(engine := HasRead(h.status, h.version)), plan, ds);
            && h'.engine == HasPlanned(WithPlan(h.status, plan), h'.version, h.status, h.last)
            && h'.status == WithPlan(h.status, plan) && h'.last == ds
            && h'.spokes == h.spokes && h'.request == h.request && h'.requestRan == h.requestRan
  {
    if plan == h.status.inventory { assert WithPlan(h.status, plan) == h.status; }
  }

  lemma {:induction false} SoloWrite(h: Hub, now: Time)
    requires h.engine.HasWorked? && h.engine.version == h.version && h.engine.stored == h.status
    ensures var h' := Writes(h, now);
            && h'.engine.Resting? && h'.reported == Some(h.engine.outcome)
            && h'.status.inventory == h.engine.outcome.inventory && h'.last == h.last
            && h'.spokes == h.spokes && h'.request == h.request && h'.requestRan == h.requestRan
  {}

  /** What an undisturbed pass leaves on the hub and on the spokes. */
  lemma {:induction false} SoloPass(h: Hub, now: Time, x: Fixed)
    ensures var h' := Run(h, WholePass(now), x);
            && h'.spokes == Worked(h, x).spokes && h'.status.inventory == Worked(h, x).inv
            && h'.engine.Resting? && h'.last == Decisions(x.i) && h'.requestRan == h.requestRan
            && h'.reported == Some(PassOutcome(h.spokes, h.last, InputAt(x, h.status)))
  {
    RunPass(h, now, x);
    SoloPlan(h, PassPlan(InputAt(x, h.status)), Decisions(x.i));
    SoloWrite(Run(h, TO_WORK, x), now);
  }

  // ---- Refused slots are those found refused -----------------------------------------------------------

  /** A slot is dropped from the inventory exactly when it is refused. */
  lemma {:induction false} DroppedIffRefused(sp: Spokes, k: SlotKey, eff: EffectiveOptions, cx: Context)
    requires cx.src.uid != "" && Housed(sp)
    ensures F.Dropped(F.Tried(sp, k, eff, cx).state) <==> RefusedAt(sp, k, eff, cx)
  {
    var sp' := sp.(namespaces := sp.namespaces + {NsOf(k)});
    if NsOf(k) in sp.namespaces {
      ConvergeDropsIff(sp, k, eff, cx);
    } else {
      ConvergeDropsIff(sp', k, eff, cx);
    }
  }

  lemma {:induction false} ConvergeDropsIff(sp: Spokes, k: SlotKey, eff: EffectiveOptions, cx: Context)
    requires cx.src.uid != ""
    ensures F.Dropped(Converge(sp, [], k, cx.src, eff, cx.slotFaults(k), cx.hash).state)
            <==> && cx.slotFaults(k).read.ReadOk? && k in sp.objects && sp.objects[k].sourceUid != cx.src.uid
                 && DecideConflict(sp.objects[k], cx.src.uid, cx.src.requested, cx.hash(cx.src.payload),
                                   eff.conflictPolicies, cx.hash).Refuse?
  {
    var f, desired, h := cx.slotFaults(k), Desired(cx.src, cx.hash), C.HashOf(cx);
    if f.read.ReadOk? {
      if k !in sp.objects {
        FinishNeverDrops(Apply(sp, k, desired, f.write), k, h);
      } else {
        var existing := sp.objects[k];
        FinishNeverDrops(ApplyWithRecreate(sp, k, desired, f), k, h);
        FinishNeverDrops(Apply(sp, k, desired.(payload := existing.payload), f.write), k, h);
        FinishNeverDrops(Written(sp, None, 0), k, h);
      }
    }
  }

  lemma {:induction false} FinishNeverDrops(w: Written, k: SlotKey, h: string)
    requires w.error.Some? ==> w.error.value == ClusterUnreachable || w.error.value == ApplyFailed
    ensures !F.Dropped(Finish(w, [], k, h).state)
  {}

  /** Trying a slot never makes it refused. */
  lemma {:induction false} TrialNeverRefuses(sp: Spokes, k: SlotKey, eff: EffectiveOptions, cx: Context)
    requires cx.src.uid != "" && Housed(sp) && RefusedAt(F.Tried(sp, k, eff, cx).spokes, k, eff, cx)
    ensures RefusedAt(sp, k, eff, cx)
  {
    if NsOf(k) in sp.namespaces {
      F.TrialLeaves(sp, k, eff, cx);
    } else if NsOf(k) in F.Tried(sp, k, eff, cx).spokes.namespaces {
      var sp' := sp.(namespaces := sp.namespaces + {NsOf(k)});
      F.TrialLeaves(sp', k, eff, cx);
    }
  }

  lemma {:induction false} RefusalIsLocal(a: Spokes, b: Spokes, k: SlotKey, eff: EffectiveOptions, cx: Context)
    requires F.Agree(a, b, k)
    ensures RefusedAt(a, k, eff, cx) <==> RefusedAt(b, k, eff, cx)
  {}

  /** A pass leaves exactly those slots refused that it found refused. */
  lemma {:induction false} RefusedAfterIff(h: Hub, now: Time, n: nat, x: Fixed)
    requires SoundInputs(x) && Housed(h.spokes) && DistinctKeys(h.status.inventory) && n < |SlotKeys(x.i)|
    ensures Refused(Run(h, WholePass(now), x).spokes, x.i, n) <==> Refused(h.spokes, x.i, n)
  {
    SoloPass(h, now, x);
    if Refused(h.spokes, x.i, n) {
      PassKeepsRefusal(h.spokes, h.last, h.status, n, 0, 0, x);
    }
    if Refused(Worked(h, x).spokes, x.i, n) {
      var k, eff, i := SlotKeys(x.i)[n], C.OptionsAt(x.i, n), InputAt(x, h.status);
      F.InputsStay(x.i, h.status);
      F.PassTriesSlot(h.spokes, h.last, i, n);
      RefusalIsLocal(F.Tried(h.spokes, k, eff, x.i.cx).spokes, Worked(h, x).spokes, k, eff, x.i.cx);
      TrialNeverRefuses(h.spokes, k, eff, x.i.cx);
    }
  }

  // ---- Four passes --------------------------------------------------------------------------------------------

  /** The request controller is done, and the engine is between passes with the evaluation remembered or lost. */
  ghost predicate Ready(h: Hub, x: Fixed) {
    && Invariant(h, x) && h.engine.Resting? && h.requestRan && Remembers(h.last, x)
    && Housed(h.spokes) && DistinctKeys(h.status.inventory)
  }

  lemma {:induction false} ReadyAgain(h: Hub, now: Time, x: Fixed)
    requires SoundInputs(x) && Ready(h, x)
    ensures var h' := Run(h, WholePass(now), x);
            && Ready(h', x) && h'.reported == Some(PassOutcome(h.spokes, [], InputAt(x, h.status)))
            && h'.spokes == PassWork(h.spokes, [], InputAt(x, h.status)).spokes
            && h'.status.inventory == PassWork(h.spokes, [], InputAt(x, h.status)).inv
  {
    SoloPass(h, now, x);
    RunKeeps(h, WholePass(now), x);
    EitherMemory(h.spokes, h.last, h.status, x);
    F.I.PassStaysHoused(h.spokes, [], InputAt(x, h.status), 0, 0);
    R.PassKeepsDistinct(h.spokes, [], InputAt(x, h.status));
  }

  /** The hub after this many of the passes. */
  function HubAfter(h: Hub, clocks: seq<Time>, m: nat, x: Fixed): Hub
    requires m <= |clocks|
  {
    Run(h, WholePasses(clocks[..m]), x)
  }

  lemma {:induction false} NextHub(h: Hub, clocks: seq<Time>, m: nat, x: Fixed)
    requires m < |clocks|
    ensures HubAfter(h, clocks, m + 1, x) == Run(HubAfter(h, clocks, m, x), WholePass(clocks[m]), x)
  {
    assert clocks[..m + 1][..m] == clocks[..m];
    RunAppend(h, WholePasses(clocks[..m]), WholePass(clocks[m]), x);
  }

  lemma {:induction false} ReadyThroughout(h: Hub, clocks: seq<Time>, m: nat, x: Fixed)
    requires SoundInputs(x) && Ready(h, x) && m <= |clocks|
    ensures Ready(HubAfter(h, clocks, m, x), x)
    ensures forall n :: 0 <= n < |SlotKeys(x.i)| ==>
              (Refused(HubAfter(h, clocks, m, x).spokes, x.i, n) <==> Refused(h.spokes, x.i, n))
  {
    if m > 0 {
      ReadyThroughout(h, clocks, m - 1, x);
      NextHub(h, clocks, m - 1, x);
      var before := HubAfter(h, clocks, m - 1, x);
      ReadyAgain(before, clocks[m - 1], x);
      forall n | 0 <= n < |SlotKeys(x.i)|
        ensures Refused(HubAfter(h, clocks, m, x).spokes, x.i, n) <==> Refused(h.spokes, x.i, n)
      {
        RefusedAfterIff(before, clocks[m - 1], n, x);
      }
    } else {
      NoPassYet(h, clocks, x);
    }
  }

  /** The second hub is what a pass leaves of the first. */
  ghost predicate Follows(h: Hub, h': Hub, x: Fixed) {
    var w := PassWork(h.spokes, [], F.At(x.i, h.status));
    h'.spokes == w.spokes && h'.status.inventory == w.inv
  }

  lemma {:induction false} PassFollows(h: Hub, clocks: seq<Time>, m: nat, x: Fixed)
    requires SoundInputs(x) && Ready(h, x) && m < |clocks|
    ensures Follows(HubAfter(h, clocks, m, x), HubAfter(h, clocks, m + 1, x), x)
  {
    NextHub(h, clocks, m, x);
    ReadyThroughout(h, clocks, m, x);
    ReadyAgain(HubAfter(h, clocks, m, x), clocks[m], x);
  }

  lemma {:induction false} FollowersChain(h: Hub, h1: Hub, h2: Hub, h3: Hub, x: Fixed)
    requires Follows(h, h1, x) && Follows(h1, h2, x) && Follows(h2, h3, x)
    ensures F.Chain(h.spokes, F.At(x.i, h.status), [h.status, h1.status, h2.status, h3.status],
                    [h.spokes, h1.spokes, h2.spokes, h3.spokes])
  {
    var i := F.At(x.i, h.status);
    assert forall s :: F.At(i, s) == F.At(x.i, s);
  }

  lemma {:induction false} ThirdFollowerIsStationary(h: Hub, h1: Hub, h2: Hub, h3: Hub, x: Fixed)
    requires Follows(h, h1, x) && Follows(h1, h2, x) && Follows(h2, h3, x) && R.Sturdy(h.spokes, F.At(x.i, h.status))
    ensures F.Stationary(h3.spokes, [], F.At(x.i, h3.status))
  {
    var i, s, sps := F.At(x.i, h.status), [h.status, h1.status, h2.status, h3.status],
                     [h.spokes, h1.spokes, h2.spokes, h3.spokes];
    FollowersChain(h, h1, h2, h3, x);
    F.ThreePassesSuffice(h.spokes, i, s, sps);
    assert F.At(i, h3.status) == F.At(x.i, h3.status);
  }

  lemma {:induction false} ReadyIsSturdy(h: Hub, x: Fixed)
    requires SoundInputs(x) && Ready(h, x)
    ensures R.Sturdy(h.spokes, F.At(x.i, h.status))
  {
    F.InputsStay(x.i, h.status);
  }

  lemma {:induction false} NoPassYet(h: Hub, clocks: seq<Time>, x: Fixed)
    ensures HubAfter(h, clocks, 0, x) == h
  {
    assert WholePasses(clocks[..0]) == [];
  }

  lemma {:induction false} ThirdHubIsStationary(h: Hub, clocks: seq<Time>, x: Fixed)
    requires SoundInputs(x) && Ready(h, x) && |clocks| >= 3
    ensures var h3 := HubAfter(h, clocks, 3, x); F.Stationary(h3.spokes, [], F.At(x.i, h3.status))
  {
    var h0, h1, h2, h3 := HubAfter(h, clocks, 0, x), HubAfter(h, clocks, 1, x), HubAfter(h, clocks, 2, x),
      HubAfter(h, clocks, 3, x);
    assert Follows(h0, h1, x) by { PassFollows(h, clocks, 0, x); }
    assert Follows(h1, h2, x) by { PassFollows(h, clocks, 1, x); }
    assert Follows(h2, h3, x) by { PassFollows(h, clocks, 2, x); }
    assert R.Sturdy(h0.spokes, F.At(x.i, h0.status)) by {
      ReadyThroughout(h, clocks, 0, x);
      ReadyIsSturdy(h0, x);
    }
    ThirdFollowerIsStationary(h0, h1, h2, h3, x);
  }

  lemma {:induction false} OutcomeByInventory(sp: Spokes, s: Status, s': Status, x: Fixed)
    requires s.inventory == s'.inventory
    ensures PassOutcome(sp, [], InputAt(x, s)) == PassOutcome(sp, [], InputAt(x, s'))
    ensures PassWork(sp, [], InputAt(x, s)) == PassWork(sp, [], InputAt(x, s'))
  {}

  /** Over a stationary hub a pass leaves everything as it was, and the next one would report the same. */
  lemma {:induction false} StationaryReport(h: Hub, now: Time, x: Fixed)
    requires SoundInputs(x) && Ready(h, x) && F.Stationary(h.spokes, [], InputAt(x, h.status))
    ensures var h' := Run(h, WholePass(now), x);
            && Reworked(h', x) == h'.spokes == h.spokes && h'.reported == Some(Recomputed(h', x))
            && Recomputed(h', x).inventory == h.status.inventory
  {
    ReadyAgain(h, now, x);
    F.StationaryStays(h.spokes, [], InputAt(x, h.status));
    OutcomeByInventory(h.spokes, h.status, Run(h, WholePass(now), x).status, x);
  }

  /** No allowed slot is refused. */
  ghost predicate NoneRefused(sp: Spokes, x: Fixed) {
    forall n :: 0 <= n < |SlotKeys(x.i)| ==> !Refused(sp, x.i, n)
  }

  /** In a stationary state the allowed slots without an entry are the refused ones. */
  lemma {:induction false} UnrecordedIffRefused(h: Hub, x: Fixed)
    requires SoundInputs(x) && F.Stationary(h.spokes, [], InputAt(x, h.status))
    ensures AllowedKeys(SlotKeys(x.i), Decisions(x.i)) <= Keys(h.status.inventory) <==> NoneRefused(h.spokes, x)
  {
    var i, ks, ds := InputAt(x, h.status), SlotKeys(x.i), Decisions(x.i);
    F.InputsStay(x.i, h.status);
    forall n | 0 <= n < |ks| && ds[n].allowed
      ensures ks[n] !in Keys(h.status.inventory) <==> Refused(h.spokes, x.i, n)
    {
      assert F.SlotSettled(h.spokes, i, n);
      DroppedIffRefused(h.spokes, ks[n], C.OptionsAt(x.i, n), x.i.cx);
    }
    if !NoneRefused(h.spokes, x) {
      var n :| 0 <= n < |ks| && Refused(h.spokes, x.i, n);
      assert ks[n] in AllowedKeys(ks, ds);
    }
  }

  lemma {:induction false} ReadyIsBetween(h: Hub, o: Outcome, x: Fixed)
    requires Ready(h, x) && h.reported == Some(o)
    ensures BetweenPasses(h, x)
  {}

  lemma {:induction false} FourthPassDecides(h: Hub, now: Time, x: Fixed)
    requires SoundInputs(x) && Ready(h, x) && F.Stationary(h.spokes, [], InputAt(x, h.status))
    ensures var h' := Run(h, WholePass(now), x);
            && h'.reported.Some?
            && (SilentForever(h', x)
                <==> NoneRefused(h.spokes, x) && OneReasonPerSlot(Listed(h'.reported.value.states)))
  {
    var h' := Run(h, WholePass(now), x);
    ReadyAgain(h, now, x);
    StationaryReport(h, now, x);
    UnrecordedIffRefused(h, x);
    ReadyIsBetween(h', Recomputed(h', x), x);
    NobodyWritesAgainIff(h', Recomputed(h', x), x);
    SameReportRefl(Recomputed(h', x));
  }

  lemma {:induction false} SameReportRefl(o: Outcome)
    ensures SameReport(o, o)
  {}

  lemma {:induction false} DecidedByFour(m: Hub, clocks: seq<Time>, x: Fixed)
    requires SoundInputs(x) && Ready(m, x) && |clocks| == 4
    ensures var h' := HubAfter(m, clocks, 4, x);
            && h'.reported.Some?
            && (SilentForever(h', x)
                <==> NoneRefused(m.spokes, x) && OneReasonPerSlot(Listed(h'.reported.value.states)))
  {
    var h3 := HubAfter(m, clocks, 3, x);
    ReadyThroughout(m, clocks, 3, x);
    ThirdHubIsStationary(m, clocks, x);
    FourthPassDecides(h3, clocks[3], x);
    NextHub(m, clocks, 3, x);
    assert NoneRefused(h3.spokes, x) <==> NoneRefused(m.spokes, x);
  }

  /** After any run of the two controllers that left the request controller done and the engine between passes, four
      undisturbed passes under fixed inputs decide, whatever the transport answers: from then on nobody ever writes
      the status or changes the spokes again, exactly when no allowed slot was refused before them and the states
      they list give one reason per slot name. */
  lemma {:induction false} FourPassesDecide(h: Hub, before: seq<Step>, clocks: seq<Time>, x: Fixed)
    requires SoundInputs(x) && Unstarted(h) && |clocks| == 4
    requires Run(h, before, x).requestRan && Run(h, before, x).engine.Resting? && Remembers(Run(h, before, x).last, x)
    ensures var m, h' := Run(h, before, x), Run(Run(h, before, x), WholePasses(clocks), x);
            && h'.reported.Some?
            && (SilentForever(h', x)
                <==> NoneRefused(m.spokes, x) && OneReasonPerSlot(Listed(h'.reported.value.states)))
  {
    OrderlyRun(h, before, x);
    DecidedByFour(Run(h, before, x), clocks, x);
    assert clocks[..4] == clocks;
  }
}
