/** What repeated passes under fixed inputs come to (internal/engine/reconciler.go): after three of them the spokes and
    the inventory no longer change, whatever the transport answers. */
module FixedPoints {
  import opened Basics
  import opened Policies
  import opened Options
  import opened Inventory
  import opened Conflict
  import opened Engine
  import opened Passes
  import C = Convergence
  import I = Interruptions
  import R = Render
  import Ret = Retention
  import S = Status
  import V = Revocations

  // ---- One slot, tried again and again -----------------------------------------------------------

  /** What trying the slot does, whatever the inventory is. */
  function Tried(sp: Spokes, k: SlotKey, eff: EffectiveOptions, cx: Context): SlotResult {
    ApplyTarget(sp, [], k, cx.src, eff, cx.slotFaults(k), cx.hash)
  }

  /** The same object, or none, at the slot, and its namespace exists in both or in neither. */
  predicate Agree(a: Spokes, b: Spokes, k: SlotKey) {
    SameAt(a, b, k) && (NsOf(k) in a.namespaces <==> NsOf(k) in b.namespaces)
  }

  lemma {:induction false} WriteIsLocal(a: Spokes, b: Spokes, k: SlotKey, r: R.Replica, f: SlotFaults)
    requires Agree(a, b, k)
    ensures Agree(Apply(a, k, r, f.write).spokes, Apply(b, k, r, f.write).spokes, k)
    ensures Agree(ApplyWithRecreate(a, k, r, f).spokes, ApplyWithRecreate(b, k, r, f).spokes, k)
    ensures ApplyWithRecreate(a, k, r, f).error == ApplyWithRecreate(b, k, r, f).error
  {}

  lemma {:induction false} ConvergeIsLocal(
    a: Spokes, inv: seq<InventoryEntry>, b: Spokes, k: SlotKey, eff: EffectiveOptions, cx: Context)
    requires Agree(a, b, k)
    ensures var r := Converge(a, inv, k, cx.src, eff, cx.slotFaults(k), cx.hash);
            var q := Converge(b, [], k, cx.src, eff, cx.slotFaults(k), cx.hash);
            Agree(r.spokes, q.spokes, k) && r.state == q.state
  {
    var f, desired := cx.slotFaults(k), Desired(cx.src, cx.hash);
    if f.read.ReadOk? {
      WriteIsLocal(a, b, k, desired, f);
      if k in a.objects && Classify(a.objects[k], cx.src.uid) != Stripped {
        WriteIsLocal(a, b, k, desired.(payload := a.objects[k].payload), f);
        match DecideConflict(a.objects[k], cx.src.uid, cx.src.requested, C.HashOf(cx), eff.conflictPolicies, cx.hash)
        case _ =>
      }
    }
  }

  lemma {:induction false} TrialIsLocal(
    a: Spokes, inv: seq<InventoryEntry>, b: Spokes, k: SlotKey, eff: EffectiveOptions, cx: Context)
    requires Agree(a, b, k)
    ensures var r := ApplyTarget(a, inv, k, cx.src, eff, cx.slotFaults(k), cx.hash);
            Agree(r.spokes, Tried(b, k, eff, cx).spokes, k) && r.state == Tried(b, k, eff, cx).state
  {
    ConvergeIsLocal(a, inv, b, k, eff, cx);
    ConvergeIsLocal(a.(namespaces := a.namespaces + {NsOf(k)}), inv,
                    b.(namespaces := b.namespaces + {NsOf(k)}), k, eff, cx);
  }

  /** Trying the slot changes nothing there. */
  predicate Idle(sp: Spokes, k: SlotKey, eff: EffectiveOptions, cx: Context) {
    Agree(sp, Tried(sp, k, eff, cx).spokes, k)
  }

  lemma {:induction false} IdleIsLocal(a: Spokes, b: Spokes, k: SlotKey, eff: EffectiveOptions, cx: Context)
    requires Agree(a, b, k) && Idle(a, k, eff, cx)
    ensures Idle(b, k, eff, cx)
  {
    TrialIsLocal(a, [], b, k, eff, cx);
  }

  lemma {:induction false} InSyncIsIdle(sp: Spokes, k: SlotKey, eff: EffectiveOptions, cx: Context)
    requires cx.src.uid != "" && NsOf(k) in sp.namespaces && InSync(sp, k, cx.src, cx.hash)
    ensures Idle(sp, k, eff, cx)
  {}

  lemma {:induction false} InvalidStaysEmpty(sp: Spokes, k: SlotKey, eff: EffectiveOptions, cx: Context)
    requires NsOf(k) in sp.namespaces && k !in sp.objects && cx.slotFaults(k).write.Invalid?
    ensures Idle(sp, k, eff, cx)
  {}

  /** A write over the object at the slot has no effect, puts the replica there, or, for an immutable field, only
      clears the slot. */
  ghost predicate Leaves(sp: Spokes, sp': Spokes, k: SlotKey, r: R.Replica, f: SlotFaults) {
    && (NsOf(k) in sp.namespaces <==> NsOf(k) in sp'.namespaces)
    && (|| SameAt(sp, sp', k)
        || (k in sp'.objects && sp'.objects[k] == r)
        || (k !in sp'.objects && f.write.Invalid?))
  }

  lemma {:induction false} WriteLeaves(sp: Spokes, k: SlotKey, r: R.Replica, f: SlotFaults)
    ensures Leaves(sp, Apply(sp, k, r, f.write).spokes, k, r, f)
    ensures Leaves(sp, ApplyWithRecreate(sp, k, r, f).spokes, k, r, f)
  {}

  lemma {:induction false} TrialLeaves(sp: Spokes, k: SlotKey, eff: EffectiveOptions, cx: Context)
    requires cx.src.uid != "" && NsOf(k) in sp.namespaces
    ensures var sp', f := Tried(sp, k, eff, cx).spokes, cx.slotFaults(k);
            && NsOf(k) in sp'.namespaces
            && (SameAt(sp, sp', k) || InSync(sp', k, cx.src, cx.hash) || (k !in sp'.objects && f.write.Invalid?))
  {
    var f, desired := cx.slotFaults(k), Desired(cx.src, cx.hash);
    WriteLeaves(sp, k, desired, f);
    if k in sp.objects {
      WriteLeaves(sp, k, desired.(payload := sp.objects[k].payload), f);
    }
  }

  /** In an existing namespace, one try is enough. */
  lemma {:induction false} HousedTrialSettles(sp: Spokes, k: SlotKey, eff: EffectiveOptions, cx: Context)
    requires cx.src.uid != "" && NsOf(k) in sp.namespaces
    ensures Idle(Tried(sp, k, eff, cx).spokes, k, eff, cx)
  {
    var sp' := Tried(sp, k, eff, cx).spokes;
    TrialLeaves(sp, k, eff, cx);
    if SameAt(sp, sp', k) {
      IdleIsLocal(sp, sp', k, eff, cx);
    } else if InSync(sp', k, cx.src, cx.hash) {
      InSyncIsIdle(sp', k, eff, cx);
    } else {
      InvalidStaysEmpty(sp', k, eff, cx);
    }
  }

  /** A namespace that is missing after the try was missing before, and nothing happened. */
  lemma {:induction false} UnhousedTrialIdles(sp: Spokes, k: SlotKey, eff: EffectiveOptions, cx: Context)
    requires cx.src.uid != "" && Housed(sp) && NsOf(k) !in Tried(sp, k, eff, cx).spokes.namespaces
    ensures Idle(sp, k, eff, cx)
  {
    if NsOf(k) in sp.namespaces { TrialLeaves(sp, k, eff, cx); }
  }

  /** Otherwise two are. */
  lemma {:induction false} TwoTrialsSettle(sp: Spokes, k: SlotKey, eff: EffectiveOptions, cx: Context)
    requires cx.src.uid != "" && Housed(sp)
    ensures Idle(Tried(Tried(sp, k, eff, cx).spokes, k, eff, cx).spokes, k, eff, cx)
  {
    var a := Tried(sp, k, eff, cx).spokes;
    if NsOf(k) in a.namespaces {
      HousedTrialSettles(a, k, eff, cx);
    } else {
      UnhousedTrialIdles(sp, k, eff, cx);
      IdleIsLocal(sp, a, k, eff, cx);
      IdleIsLocal(a, Tried(a, k, eff, cx).spokes, k, eff, cx);
    }
  }

  // ---- What a try does to the inventory ------------------------------------------------------------

  /** A definitive refusal: nothing was written, and the entry goes. */
  predicate Dropped(s: S.TargetState) { !s.ready && (s.reason == S.Conflicting || s.reason == S.NamespaceMissing) }

  function Kept(inv: seq<InventoryEntry>, s: S.TargetState, k: SlotKey, h: string): seq<InventoryEntry> {
    if s.ready then Upsert(inv, InventoryEntry(k, h)) else if Dropped(s) then Remove(inv, k) else inv
  }

  lemma {:induction false} FinishKeeps(w: Written, inv: seq<InventoryEntry>, k: SlotKey, h: string)
    requires w.error.Some? ==> w.error.value == S.ClusterUnreachable || w.error.value == S.ApplyFailed
    ensures Finish(w, inv, k, h).inv == Kept(inv, Finish(w, inv, k, h).state, k, h)
  {}

  lemma {:induction false} ConvergeKeeps(
    sp: Spokes, inv: seq<InventoryEntry>, k: SlotKey, eff: EffectiveOptions, cx: Context)
    ensures var r := Converge(sp, inv, k, cx.src, eff, cx.slotFaults(k), cx.hash);
            r.inv == Kept(inv, r.state, k, C.HashOf(cx))
  {
    var f, desired, h := cx.slotFaults(k), Desired(cx.src, cx.hash), C.HashOf(cx);
    if f.read.ReadOk? {
      if k !in sp.objects {
        FinishKeeps(Apply(sp, k, desired, f.write), inv, k, h);
      } else {
        var existing := sp.objects[k];
        FinishKeeps(ApplyWithRecreate(sp, k, desired, f), inv, k, h);
        if Classify(existing, cx.src.uid) != Stripped {
          match DecideConflict(existing, cx.src.uid, cx.src.requested, h, eff.conflictPolicies, cx.hash)
          case AdoptExisting => FinishKeeps(Apply(sp, k, desired.(payload := existing.payload), f.write), inv, k, h);
          case ApplyOwn => FinishKeeps(Written(sp, None, 0), inv, k, h);
          case _ =>
        }
      }
    }
  }

  /** The inventory after the try is decided by the slot's state. */
  lemma {:induction false} TrialKeeps(
    sp: Spokes, inv: seq<InventoryEntry>, k: SlotKey, eff: EffectiveOptions, cx: Context)
    ensures var r := ApplyTarget(sp, inv, k, cx.src, eff, cx.slotFaults(k), cx.hash);
            r.inv == Kept(inv, r.state, k, C.HashOf(cx))
  {
    if NsOf(k) in sp.namespaces {
      ConvergeKeeps(sp, inv, k, eff, cx);
    } else {
      ConvergeKeeps(sp.(namespaces := sp.namespaces + {NsOf(k)}), inv, k, eff, cx);
    }
  }

  lemma {:induction false} KeptEntries(inv: seq<InventoryEntry>, s: S.TargetState, k: SlotKey, h: string)
    requires k in Keys(inv)
    ensures var r := Kept(inv, s, k, h);
            && (s.ready ==> InventoryEntry(k, h) in r)
            && (Dropped(s) <==> k !in Keys(r))
  {
    UpsertKeys(inv, InventoryEntry(k, h));
  }

  // ---- A pass, slot by slot --------------------------------------------------------------------------

  /** Jobs in other namespaces leave the slot alone. */
  lemma {:induction false} OthersAgree(p: Progress, js: seq<Job>, cx: Context, k: SlotKey)
    requires cx.src.uid != "" && Housed(p.spokes) && forall j :: j in js ==> NsOf(j.key) != NsOf(k)
    ensures Agree(p.spokes, DoJobs(p, js, cx).spokes, k) && Housed(DoJobs(p, js, cx).spokes)
  {
    if js != [] {
      var front, j := js[..|js| - 1], js[|js| - 1];
      assert j in js && forall x :: x in front ==> x in js;
      OthersAgree(p, front, cx, k);
      var q := DoJobs(p, front, cx);
      if j.ApplyJob? {
        ApplyTargetIsSafe(q.spokes, q.inv, j.key, cx.src, j.options, cx.slotFaults(j.key), cx.hash);
      }
    }
  }

  lemma {:induction false} OtherJobs(prev: seq<Decision>, i: Input, n: nat)
    requires DistinctTargets(Decisions(i)) && n < |SlotKeys(i)|
    ensures forall j :: j in PassJobs(prev, i)[..n] || j in PassJobs(prev, i)[n + 1..] ==>
              NsOf(j.key) != NsOf(SlotKeys(i)[n])
  {
    var js := PassJobs(prev, i);
    forall m | 0 <= m < |js| && m != n ensures NsOf(js[m].key) != NsOf(SlotKeys(i)[n]) {
      Ret.SlotTarget(i, m);
      Ret.SlotTarget(i, n);
    }
  }

  /** The entries of the slot after its try, once the pass has gone on. */
  ghost predicate Recorded(inv: seq<InventoryEntry>, s: S.TargetState, k: SlotKey, h: string) {
    (s.ready ==> InventoryEntry(k, h) in inv) && (Dropped(s) <==> k !in Keys(inv))
  }

  lemma {:induction false} RecordedTransfers(
    a: seq<InventoryEntry>, b: seq<InventoryEntry>, s: S.TargetState, k: SlotKey, h: string)
    requires Recorded(a, s, k, h) && forall e: InventoryEntry :: e.key == k ==> (e in b <==> e in a)
    ensures Recorded(b, s, k, h)
  {}

  lemma {:induction false} BeforeItsTurn(sp: Spokes, prev: seq<Decision>, i: Input, n: nat)
    requires Ret.Sturdy(sp, i) && n < |SlotKeys(i)| && Decisions(i)[n].allowed
    ensures var q, k := I.AfterJobs(sp, prev, i, n), SlotKeys(i)[n];
            Agree(sp, q.spokes, k) && Housed(q.spokes) && DistinctKeys(q.inv) && k in Keys(q.inv)
  {
    var p, js, k := Progress(sp, PassPlan(i), [], 0), PassJobs(prev, i), SlotKeys(i)[n];
    PlanningAdds(i.status.inventory, SlotKeys(i), Decisions(i));
    OtherJobs(prev, i, n);
    OthersAgree(p, js[..n], i.cx, k);
    Ret.JobsSpare(p, js[..n], i.cx, k);
    assert k in Keys(PassPlan(i));
  }

  lemma {:induction false} ItsTurn(p: Progress, sp: Spokes, k: SlotKey, eff: EffectiveOptions, cx: Context)
    requires cx.src.uid != "" && Agree(sp, p.spokes, k) && Housed(p.spokes) && DistinctKeys(p.inv) && k in Keys(p.inv)
    ensures var q, t := DoJob(p, ApplyJob(k, eff), cx), Tried(sp, k, eff, cx);
            && Agree(t.spokes, q.spokes, k) && Recorded(q.inv, t.state, k, C.HashOf(cx))
            && Housed(q.spokes) && DistinctKeys(q.inv)
  {
    TrialIsLocal(p.spokes, p.inv, sp, k, eff, cx);
    TrialKeeps(p.spokes, p.inv, k, eff, cx);
    KeptEntries(p.inv, Tried(sp, k, eff, cx).state, k, C.HashOf(cx));
    Ret.ApplyKeepsOthers(p, k, eff, cx);
  }

  lemma {:induction false} AfterItsTurn(p: Progress, js: seq<Job>, keep: set<SlotKey>, cx: Context, k: SlotKey)
    requires cx.src.uid != "" && Housed(p.spokes) && DistinctKeys(p.inv) && k in keep
    requires forall j :: j in js ==> NsOf(j.key) != NsOf(k)
    ensures var w := Collected(DoJobs(p, js, cx), keep, cx);
            Agree(p.spokes, w.spokes, k) && forall e: InventoryEntry :: e.key == k ==> (e in w.inv <==> e in p.inv)
  {
    OthersAgree(p, js, cx, k);
    Ret.JobsSpare(p, js, cx, k);
    CollectionAccounts(DoJobs(p, js, cx), keep, cx);
  }

  /** A pass leaves at an allowed slot what trying it leaves, and records it by the state of that try. */
  lemma {:induction false} PassTriesSlot(sp: Spokes, prev: seq<Decision>, i: Input, n: nat)
    requires Ret.Sturdy(sp, i) && n < |SlotKeys(i)| && Decisions(i)[n].allowed
    ensures var k, w := SlotKeys(i)[n], PassWork(sp, prev, i);
            var t := Tried(sp, k, C.OptionsAt(i, n), i.cx);
            Agree(t.spokes, w.spokes, k) && Recorded(w.inv, t.state, k, C.HashOf(i.cx))
  {
    var k, eff := SlotKeys(i)[n], C.OptionsAt(i, n);
    BeforeItsTurn(sp, prev, i, n);
    ItsTurn(I.AfterJobs(sp, prev, i, n), sp, k, eff, i.cx);
    I.JobOf(prev, i, n);
    I.NextJobIs(Progress(sp, PassPlan(i), [], 0), PassJobs(prev, i), n, i.cx);
    OtherJobs(prev, i, n);
    AfterItsTurn(I.AfterJobs(sp, prev, i, n + 1), PassJobs(prev, i)[n + 1..], PassKeep(prev, i), i.cx, k);
    I.AllJobs(sp, prev, i, n + 1);
    RecordedTransfers(I.AfterJobs(sp, prev, i, n + 1).inv, PassWork(sp, prev, i).inv,
                      Tried(sp, k, eff, i.cx).state, k, C.HashOf(i.cx));
  }

  // ---- A pass, entry by entry -----------------------------------------------------------------------

  function Cleaned(sp: Spokes, k: SlotKey, cx: Context): Spokes {
    CollectEntry(sp, [], k, cx.src.uid, cx.kinds, cx.collectFaults(k)).spokes
  }

  /** Cleaning up fails and changes nothing. */
  predicate Worn(sp: Spokes, k: SlotKey, cx: Context) { StuckIn(sp, k, cx) && SameAt(sp, Cleaned(sp, k, cx), k) }

  lemma {:induction false} CleaningIsLocal(a: Spokes, b: Spokes, k: SlotKey, cx: Context)
    requires SameAt(a, b, k)
    ensures SameAt(Cleaned(a, k, cx), Cleaned(b, k, cx), k) && StuckIn(a, k, cx) == StuckIn(b, k, cx)
  {}

  lemma {:induction false} WornIsLocal(a: Spokes, b: Spokes, k: SlotKey, cx: Context)
    requires SameAt(a, b, k) && Worn(a, k, cx)
    ensures Worn(b, k, cx)
  {
    CleaningIsLocal(a, b, k, cx);
  }

  /** An entry that is stuck twice in a row is stuck for good. */
  lemma {:induction false} StuckTwiceIsWorn(sp: Spokes, k: SlotKey, cx: Context)
    requires cx.src.uid != "" && StuckIn(sp, k, cx) && StuckIn(Cleaned(sp, k, cx), k, cx)
    ensures Worn(Cleaned(sp, k, cx), k, cx)
  {}

  /** Collecting a list of entries does to each of them what cleaning it up does. */
  lemma {:induction false} CollectionCleans(p: Progress, es: seq<InventoryEntry>, cx: Context, k: SlotKey)
    requires DistinctKeys(es)
    ensures SameAt(if k in Keys(es) then Cleaned(p.spokes, k, cx) else p.spokes, CollectEach(p, es, cx).spokes, k)
  {
    if es != [] {
      var front, e := es[..|es| - 1], es[|es| - 1];
      FrontDistinct(es);
      CollectionCleans(p, front, cx, k);
      if e.key == k {
        CleaningIsLocal(p.spokes, CollectEach(p, front, cx).spokes, k, cx);
      }
    }
  }

  lemma {:induction false} PlannedOnlyAllowed(inv: seq<InventoryEntry>, ks: seq<SlotKey>, ds: seq<Decision>)
    requires |ks| == |ds|
    ensures forall e :: e in Planned(inv, ks, ds) && e.key !in AllowedKeys(ks, ds) ==> e in inv
  {
    if ks != [] {
      PlannedOnlyAllowed(inv, ks[..|ks| - 1], ds[..|ks| - 1]);
      AllowedStep(ks, ds);
    }
  }

  /** Nothing becomes of an entry outside the allowed slots until it is collected. */
  lemma {:induction false} UntilCollection(sp: Spokes, prev: seq<Decision>, i: Input, k: SlotKey)
    requires Ret.Sturdy(sp, i) && k !in AllowedKeys(SlotKeys(i), Decisions(i))
    ensures var q := DoJobs(Progress(sp, PassPlan(i), [], 0), PassJobs(prev, i), i.cx);
            && SameAt(sp, q.spokes, k) && Housed(q.spokes) && DistinctKeys(q.inv)
            && (forall e: InventoryEntry :: e.key == k ==> (e in q.inv <==> e in i.status.inventory))
  {
    PlanningAdds(i.status.inventory, SlotKeys(i), Decisions(i));
    PlannedOnlyAllowed(i.status.inventory, SlotKeys(i), Decisions(i));
    Ret.NotAllowedIsSpared(SlotKeys(i), Decisions(i), i.policies, PassRetained(prev, i),
                           V.DeletedNamespaces(PassRevocations(prev, i), i.policies, i.meta, i.status.inventory), k);
    Ret.JobsSpare(Progress(sp, PassPlan(i), [], 0), PassJobs(prev, i), i.cx, k);
  }

  /** An entry the pass does not keep survives it only stuck, and its object is as cleaning up left it. */
  lemma {:induction false} PassCleansEntry(sp: Spokes, prev: seq<Decision>, i: Input, e: InventoryEntry)
    requires Ret.Sturdy(sp, i) && e in PassWork(sp, prev, i).inv && e.key !in PassKeep(prev, i)
    ensures e in i.status.inventory && e.key.cluster in i.cx.discovered && StuckIn(sp, e.key, i.cx)
    ensures SameAt(Cleaned(sp, e.key, i.cx), PassWork(sp, prev, i).spokes, e.key)
  {
    var k, keep := e.key, PassKeep(prev, i);
    var q := DoJobs(Progress(sp, PassPlan(i), [], 0), PassJobs(prev, i), i.cx);
    UntilCollection(sp, prev, i, k);
    CollectionAccounts(q, keep, i.cx);
    CleaningIsLocal(sp, q.spokes, k, i.cx);
    var del := Uncovered(q.inv, keep, i.cx.discovered, true);
    assert e in del;
    UncoveredDistinct(q.inv, keep, i.cx.discovered, true);
    CollectionCleans(q.(inv := Released(q.inv, Uncovered(q.inv, keep, i.cx.discovered, false))), del, i.cx, k);
  }

  // ---- Placeholders come and go ------------------------------------------------------------------------

  /** The placeholders of the allowed slots from this one on that have no entry. */
  function Pending(inv: seq<InventoryEntry>, ks: seq<SlotKey>, ds: seq<Decision>, from: nat): seq<InventoryEntry>
    requires |ks| == |ds| && from <= |ks|
    decreases |ks| - from
  {
    if from == |ks| then []
    else
      (if ds[from].allowed && ks[from] !in Keys(inv) then [InventoryEntry(ks[from], "")] else [])
      + Pending(inv, ks, ds, from + 1)
  }

  lemma {:induction false} PendingKeys(inv: seq<InventoryEntry>, ks: seq<SlotKey>, ds: seq<Decision>, from: nat)
    requires |ks| == |ds| && from <= |ks|
    ensures forall e :: e in Pending(inv, ks, ds, from) ==> e.key !in Keys(inv) && e.key in ks[from..]
    decreases |ks| - from
  {
    if from < |ks| {
      PendingKeys(inv, ks, ds, from + 1);
      assert ks[from..] == [ks[from]] + ks[from + 1..];
    }
  }

  lemma {:induction false} PlanOneMore(inv: seq<InventoryEntry>, ks: seq<SlotKey>, ds: seq<Decision>, n: nat)
    requires |ks| == |ds| && n < |ks| && C.DistinctSlots(ks)
    ensures Planned(inv, ks[..n + 1], ds[..n + 1])
            == Planned(inv, ks[..n], ds[..n])
               + if ds[n].allowed && ks[n] !in Keys(inv) then [InventoryEntry(ks[n], "")] else []
  {
    assert ks[..n + 1][..n] == ks[..n] && ds[..n + 1][..n] == ds[..n];
    PlanningAdds(inv, ks[..n], ds[..n]);
    assert ks[n] !in AllowedKeys(ks[..n], ds[..n]);
  }

  /** The plan is the inventory with the placeholders behind it. */
  lemma {:induction false} PlanIsPending(inv: seq<InventoryEntry>, ks: seq<SlotKey>, ds: seq<Decision>, n: nat)
    requires |ks| == |ds| && n <= |ks| && C.DistinctSlots(ks)
    ensures Planned(inv, ks[..n], ds[..n]) + Pending(inv, ks, ds, n) == inv + Pending(inv, ks, ds, 0)
  {
    if n > 0 {
      PlanIsPending(inv, ks, ds, n - 1);
      PlanOneMore(inv, ks, ds, n - 1);
      assert Planned(inv, ks[..n], ds[..n]) + Pending(inv, ks, ds, n)
          == Planned(inv, ks[..n - 1], ds[..n - 1]) + Pending(inv, ks, ds, n - 1);
    }
  }

  lemma {:induction false} RemoveAbsent(inv: seq<InventoryEntry>, k: SlotKey)
    requires k !in Keys(inv)
    ensures Remove(inv, k) == inv
  {
    if inv != [] {
      assert inv == inv[..|inv| - 1] + [inv[|inv| - 1]];
      assert inv[|inv| - 1] in inv && forall e :: e in inv[..|inv| - 1] ==> e in inv;
      RemoveAbsent(inv[..|inv| - 1], k);
    }
  }

  lemma {:induction false} RemoveSplits(a: seq<InventoryEntry>, b: seq<InventoryEntry>, k: SlotKey)
    ensures Remove(a + b, k) == Remove(a, k) + Remove(b, k)
  {
    if b == [] {
      assert a + b == a;
    } else {
      assert (a + b)[..|a + b| - 1] == a + b[..|b| - 1];
      RemoveSplits(a, b[..|b| - 1], k);
    }
  }

  lemma {:induction false} RemoveBetween(a: seq<InventoryEntry>, e: InventoryEntry, b: seq<InventoryEntry>)
    requires e.key !in Keys(a) && e.key !in Keys(b)
    ensures Remove(a + ([e] + b), e.key) == a + b
  {
    RemoveSplits(a, [e] + b, e.key);
    RemoveSplits([e], b, e.key);
    RemoveAbsent(a, e.key);
    RemoveAbsent(b, e.key);
    RemoveOnly(e);
    assert [] + b == b;
  }

  lemma {:induction false} RemoveOnly(e: InventoryEntry)
    ensures Remove([e], e.key) == []
  {
    assert [e][..0] == [];
  }

  lemma {:induction false} UpsertPresent(inv: seq<InventoryEntry>, e: InventoryEntry)
    requires DistinctKeys(inv) && e in inv
    ensures Upsert(inv, e) == inv
  {
    var n :| 0 <= n < |inv| && inv[n] == e;
    UpsertAt(inv, n, e);
  }

  // ---- A pass that changes nothing ----------------------------------------------------------------------

  ghost predicate SlotSettled(sp: Spokes, i: Input, n: nat)
    requires n < |SlotKeys(i)|
  {
    var k, eff := SlotKeys(i)[n], C.OptionsAt(i, n);
    Decisions(i)[n].allowed ==>
      && Idle(sp, k, eff, i.cx)
      && Recorded(i.status.inventory, Tried(sp, k, eff, i.cx).state, k, C.HashOf(i.cx))
  }

  /** Every allowed slot is idle and recorded by its state, and every entry that is not kept is stuck for good. */
  ghost predicate Stationary(sp: Spokes, prev: seq<Decision>, i: Input) {
    && Ret.Sturdy(sp, i)
    && (forall n :: 0 <= n < |SlotKeys(i)| ==> SlotSettled(sp, i, n))
    && (forall e :: e in i.status.inventory && e.key !in PassKeep(prev, i) ==>
          e.key.cluster in i.cx.discovered && Worn(sp, e.key, i.cx))
  }

  lemma {:induction false} IdleKeepsSpokes(
    sp: Spokes, inv: seq<InventoryEntry>, k: SlotKey, eff: EffectiveOptions, cx: Context)
    requires cx.src.uid != "" && Housed(sp) && Idle(sp, k, eff, cx)
    ensures ApplyTarget(sp, inv, k, cx.src, eff, cx.slotFaults(k), cx.hash).spokes == sp
  {
    var r := ApplyTarget(sp, inv, k, cx.src, eff, cx.slotFaults(k), cx.hash);
    TrialIsLocal(sp, inv, sp, k, eff, cx);
    ApplyTargetIsSafe(sp, inv, k, cx.src, eff, cx.slotFaults(k), cx.hash);
    assert r.spokes.namespaces == sp.namespaces;
    I.SpokesEqual(sp, r.spokes);
  }

  lemma {:induction false} SlotsDistinct(i: Input)
    requires DistinctTargets(Decisions(i))
    ensures C.DistinctSlots(SlotKeys(i))
  {
    forall m, n | 0 <= m < n < |SlotKeys(i)| ensures SlotKeys(i)[m] != SlotKeys(i)[n] {
      Ret.SlotTarget(i, m);
      Ret.SlotTarget(i, n);
    }
  }

  lemma {:induction false} PendingStep(inv: seq<InventoryEntry>, ks: seq<SlotKey>, ds: seq<Decision>, n: nat)
    requires |ks| == |ds| && n < |ks|
    ensures Pending(inv, ks, ds, n)
            == if ds[n].allowed && ks[n] !in Keys(inv)
               then [InventoryEntry(ks[n], "")] + Pending(inv, ks, ds, n + 1) else Pending(inv, ks, ds, n + 1)
  {}

  lemma {:induction false} DroppedKeepsPending(inv: seq<InventoryEntry>, ks: seq<SlotKey>, ds: seq<Decision>, n: nat)
    requires |ks| == |ds| && n < |ks| && C.DistinctSlots(ks) && ds[n].allowed && ks[n] !in Keys(inv)
    ensures Remove(inv + Pending(inv, ks, ds, n), ks[n]) == inv + Pending(inv, ks, ds, n + 1)
  {
    PendingStep(inv, ks, ds, n);
    PendingKeys(inv, ks, ds, n + 1);
    assert ks[n] !in ks[n + 1..];
    RemoveBetween(inv, InventoryEntry(ks[n], ""), Pending(inv, ks, ds, n + 1));
  }

  /** The slot's placeholder goes with its try, and nothing else changes. */
  lemma {:induction false} TrialKeepsPending(
    inv: seq<InventoryEntry>, ks: seq<SlotKey>, ds: seq<Decision>, n: nat, s: S.TargetState, h: string)
    requires |ks| == |ds| && n < |ks| && C.DistinctSlots(ks) && ds[n].allowed && Recorded(inv, s, ks[n], h)
    requires DistinctKeys(inv + Pending(inv, ks, ds, n))
    ensures Kept(inv + Pending(inv, ks, ds, n), s, ks[n], h) == inv + Pending(inv, ks, ds, n + 1)
  {
    if Dropped(s) {
      DroppedKeepsPending(inv, ks, ds, n);
    } else {
      PendingStep(inv, ks, ds, n);
      if s.ready { UpsertPresent(inv + Pending(inv, ks, ds, n), InventoryEntry(ks[n], h)); }
    }
  }

  lemma {:induction false} StillSlot(sp: Spokes, prev: seq<Decision>, i: Input, n: nat)
    requires Ret.Sturdy(sp, i) && n < |SlotKeys(i)| && SlotSettled(sp, i, n)
    requires DistinctKeys(i.status.inventory + Pending(i.status.inventory, SlotKeys(i), Decisions(i), n))
    ensures var inv, ks, ds := i.status.inventory, SlotKeys(i), Decisions(i);
            forall states, writes ::
              var q := DoJob(Progress(sp, inv + Pending(inv, ks, ds, n), states, writes), PassJobs(prev, i)[n], i.cx);
              q.spokes == sp && q.inv == inv + Pending(inv, ks, ds, n + 1)
  {
    var inv, ks, ds := i.status.inventory, SlotKeys(i), Decisions(i);
    if ds[n].allowed {
      var k, eff := ks[n], C.OptionsAt(i, n);
      SlotsDistinct(i);
      IdleKeepsSpokes(sp, inv + Pending(inv, ks, ds, n), k, eff, i.cx);
      TrialIsLocal(sp, inv + Pending(inv, ks, ds, n), sp, k, eff, i.cx);
      TrialKeeps(sp, inv + Pending(inv, ks, ds, n), k, eff, i.cx);
      TrialKeepsPending(inv, ks, ds, n, Tried(sp, k, eff, i.cx).state, C.HashOf(i.cx));
    }
  }

  lemma {:induction false} StillJobs(sp: Spokes, prev: seq<Decision>, i: Input, m: nat)
    requires Stationary(sp, prev, i) && m <= |SlotKeys(i)|
    ensures var q := I.AfterJobs(sp, prev, i, m);
            q.spokes == sp && q.inv == i.status.inventory + Pending(i.status.inventory, SlotKeys(i), Decisions(i), m)
  {
    var ks, ds, p := SlotKeys(i), Decisions(i), Progress(sp, PassPlan(i), [], 0);
    if m > 0 {
      StillJobs(sp, prev, i, m - 1);
      assert PassJobs(prev, i)[..m][..m - 1] == PassJobs(prev, i)[..m - 1];
      PlanningAdds(i.status.inventory, ks, ds);
      Ret.JobsKeepDistinct(p, PassJobs(prev, i)[..m - 1], i.cx);
      StillSlot(sp, prev, i, m - 1);
    } else {
      SlotsDistinct(i);
      PlanIsPending(i.status.inventory, ks, ds, |ks|);
      assert ks[..|ks|] == ks && ds[..|ds|] == ds;
    }
  }

  lemma {:induction false} WornKeepsSpokes(p: Progress, k: SlotKey, cx: Context)
    requires cx.src.uid != "" && Worn(p.spokes, k, cx)
    ensures CollectOne(p, k, cx).spokes == p.spokes && CollectOne(p, k, cx).inv == p.inv
  {
    var q := CollectOne(p, k, cx);
    assert q.spokes == Cleaned(p.spokes, k, cx);
    I.SpokesEqual(p.spokes, q.spokes);
  }

  lemma {:induction false} StillCollection(p: Progress, es: seq<InventoryEntry>, cx: Context)
    requires cx.src.uid != "" && forall e :: e in es ==> Worn(p.spokes, e.key, cx)
    ensures CollectEach(p, es, cx).spokes == p.spokes && CollectEach(p, es, cx).inv == p.inv
  {
    if es != [] {
      assert es[|es| - 1] in es && forall e :: e in es[..|es| - 1] ==> e in es;
      StillCollection(p, es[..|es| - 1], cx);
      WornKeepsSpokes(CollectEach(p, es[..|es| - 1], cx), es[|es| - 1].key, cx);
    }
  }

  /** Over a stationary state a pass ends where it began. */
  lemma {:induction false} StationaryStays(sp: Spokes, prev: seq<Decision>, i: Input)
    requires Stationary(sp, prev, i)
    ensures PassWork(sp, prev, i).spokes == sp && PassWork(sp, prev, i).inv == i.status.inventory
  {
    var all, keep := |SlotKeys(i)|, PassKeep(prev, i);
    StillJobs(sp, prev, i, all);
    I.AllJobs(sp, prev, i, all);
    var q := I.AfterJobs(sp, prev, i, all);
    assert q.inv == i.status.inventory;
    NoEntries(Uncovered(q.inv, keep, i.cx.discovered, false));
    assert Released(q.inv, []) == q.inv;
    StillCollection(q, Uncovered(q.inv, keep, i.cx.discovered, true), i.cx);
  }

  // ---- Three passes -----------------------------------------------------------------------------------------

  /** The same inputs beside another stored status. */
  function At(i: Input, s: S.Status): Input { i.(status := s) }

  lemma {:induction false} InputsStay(i: Input, s: S.Status)
    ensures SlotKeys(At(i, s)) == SlotKeys(i) && Decisions(At(i, s)) == Decisions(i)
    ensures forall n :: 0 <= n < |SlotKeys(i)| ==> C.OptionsAt(At(i, s), n) == C.OptionsAt(i, n)
  {}

  lemma {:induction false} SturdyStays(sp: Spokes, prev: seq<Decision>, i: Input, s: S.Status)
    requires Ret.Sturdy(sp, i) && s.inventory == PassWork(sp, prev, i).inv
    ensures Ret.Sturdy(PassWork(sp, prev, i).spokes, At(i, s))
  {
    InputsStay(i, s);
    I.PassStaysHoused(sp, prev, i, 0, 0);
    Ret.PassKeepsDistinct(sp, prev, i);
  }

  /** What one pass does to an allowed slot, in terms of the inputs beside the status. */
  lemma {:induction false} PassTries(sp: Spokes, i: Input, s: S.Status, n: nat)
    requires Ret.Sturdy(sp, At(i, s)) && n < |SlotKeys(i)| && Decisions(i)[n].allowed
    ensures var k, w := SlotKeys(i)[n], PassWork(sp, [], At(i, s));
            var t := Tried(sp, k, C.OptionsAt(i, n), i.cx);
            Agree(t.spokes, w.spokes, k) && Recorded(w.inv, t.state, k, C.HashOf(i.cx))
  {
    InputsStay(i, s);
    PassTriesSlot(sp, [], At(i, s), n);
  }

  /** Three passes in a row, each over what the one before has left. */
  ghost predicate Chain(sp: Spokes, i: Input, s: seq<S.Status>, sps: seq<Spokes>) {
    && |s| == |sps| && s != [] && sps[0] == sp && s[0] == i.status
    && forall m :: 0 <= m < |s| - 1 ==>
         && sps[m + 1] == PassWork(sps[m], [], At(i, s[m])).spokes
         && s[m + 1].inventory == PassWork(sps[m], [], At(i, s[m])).inv
  }

  lemma {:induction false} ChainIsSturdy(sp: Spokes, i: Input, s: seq<S.Status>, sps: seq<Spokes>, m: nat)
    requires Chain(sp, i, s, sps) && Ret.Sturdy(sp, i) && m < |s|
    ensures Ret.Sturdy(sps[m], At(i, s[m]))
  {
    if m > 0 {
      ChainIsSturdy(sp, i, s, sps, m - 1);
      SturdyStays(sps[m - 1], [], At(i, s[m - 1]), s[m]);
    } else {
      assert At(i, s[0]) == i;
    }
  }

  lemma {:induction false} ThirdTrial(
    a: Spokes, b: Spokes, c: Spokes, d: Spokes, k: SlotKey, eff: EffectiveOptions, cx: Context)
    requires cx.src.uid != "" && Housed(a)
    requires Agree(Tried(a, k, eff, cx).spokes, b, k) && Agree(Tried(b, k, eff, cx).spokes, c, k)
    requires Agree(Tried(c, k, eff, cx).spokes, d, k)
    ensures Idle(d, k, eff, cx) && Tried(d, k, eff, cx).state == Tried(c, k, eff, cx).state
  {
    var a1 := Tried(a, k, eff, cx).spokes;
    TwoTrialsSettle(a, k, eff, cx);
    TrialIsLocal(a1, [], b, k, eff, cx);
    IdleIsLocal(Tried(a1, k, eff, cx).spokes, c, k, eff, cx);
    IdleIsLocal(c, d, k, eff, cx);
    TrialIsLocal(c, [], d, k, eff, cx);
  }

  lemma {:induction false} ThirdPassSettlesSlot(sp: Spokes, i: Input, s: seq<S.Status>, sps: seq<Spokes>, n: nat)
    requires Chain(sp, i, s, sps) && |s| == 4 && Ret.Sturdy(sp, i) && n < |SlotKeys(i)|
    ensures n < |SlotKeys(At(i, s[3]))| && SlotSettled(sps[3], At(i, s[3]), n)
  {
    InputsStay(i, s[3]);
    if Decisions(i)[n].allowed {
      forall m | 0 <= m < 3
        ensures Ret.Sturdy(sps[m], At(i, s[m]))
      {
        ChainIsSturdy(sp, i, s, sps, m);
      }
      PassTries(sps[0], i, s[0], n);
      PassTries(sps[1], i, s[1], n);
      PassTries(sps[2], i, s[2], n);
      ThirdTrial(sps[0], sps[1], sps[2], sps[3], SlotKeys(i)[n], C.OptionsAt(i, n), i.cx);
    }
  }

  /** Whether an entry is kept does not depend on what else is recorded. */
  lemma {:induction false} KeepIff(i: Input, s: S.Status, e: InventoryEntry)
    requires DistinctTargets(Decisions(i)) && e in s.inventory
    ensures e.key in PassKeep([], At(i, s))
            <==> || e.key in AllowedKeys(SlotKeys(i), Decisions(i))
                 || (Ret.DeniedIn(i, NsOf(e.key)) && Ret.RetainGoverns([], i, NsOf(e.key)))
  {
    InputsStay(i, s);
    Ret.RetainedIff([], At(i, s), e);
  }

  /** An entry that is not kept now was recorded and not kept before. */
  lemma {:induction false} UnkeptBefore(sp: Spokes, i: Input, s: S.Status, s': S.Status, e: InventoryEntry)
    requires Ret.Sturdy(sp, At(i, s)) && s'.inventory == PassWork(sp, [], At(i, s)).inv
    requires e in s'.inventory && e.key !in PassKeep([], At(i, s'))
    ensures e in s.inventory && e.key !in PassKeep([], At(i, s)) && e.key.cluster in i.cx.discovered
    ensures StuckIn(sp, e.key, i.cx) && SameAt(Cleaned(sp, e.key, i.cx), PassWork(sp, [], At(i, s)).spokes, e.key)
  {
    InputsStay(i, s);
    InputsStay(i, s');
    UntilCollection(sp, [], At(i, s), e.key);
    CollectionAccounts(DoJobs(Progress(sp, PassPlan(At(i, s)), [], 0), PassJobs([], At(i, s)), i.cx),
                       PassKeep([], At(i, s)), i.cx);
    KeepIff(i, s', e);
    if e in s.inventory { KeepIff(i, s, e); }
    PassCleansEntry(sp, [], At(i, s), e);
  }

  lemma {:induction false} ThirdPassWearsEntry(
    sp: Spokes, i: Input, s: seq<S.Status>, sps: seq<Spokes>, e: InventoryEntry)
    requires Chain(sp, i, s, sps) && |s| == 4 && Ret.Sturdy(sp, i)
    requires e in s[3].inventory && e.key !in PassKeep([], At(i, s[3]))
    ensures e.key.cluster in i.cx.discovered && Worn(sps[3], e.key, i.cx)
  {
    ChainIsSturdy(sp, i, s, sps, 1);
    ChainIsSturdy(sp, i, s, sps, 2);
    UnkeptBefore(sps[2], i, s[2], s[3], e);
    UnkeptBefore(sps[1], i, s[1], s[2], e);
    var k := e.key;
    CleaningIsLocal(sps[2], Cleaned(sps[1], k, i.cx), k, i.cx);
    StuckTwiceIsWorn(sps[1], k, i.cx);
    WornIsLocal(Cleaned(sps[1], k, i.cx), sps[2], k, i.cx);
    WornIsLocal(sps[2], sps[3], k, i.cx);
  }

  /** Whatever the transport answers, three passes under fixed inputs reach a state that passes no longer change. */
  lemma {:induction false} ThreePassesSuffice(sp: Spokes, i: Input, s: seq<S.Status>, sps: seq<Spokes>)
    requires Chain(sp, i, s, sps) && |s| == 4 && Ret.Sturdy(sp, i)
    ensures Stationary(sps[3], [], At(i, s[3]))
  {
    var i3 := At(i, s[3]);
    ChainIsSturdy(sp, i, s, sps, 3);
    InputsStay(i, s[3]);
    forall n | 0 <= n < |SlotKeys(i3)| ensures SlotSettled(sps[3], i3, n) {
      ThirdPassSettlesSlot(sp, i, s, sps, n);
    }
    forall e | e in i3.status.inventory && e.key !in PassKeep([], i3)
      ensures e.key.cluster in i.cx.discovered && Worn(sps[3], e.key, i.cx)
    {
      ThirdPassWearsEntry(sp, i, s, sps, e);
    }
  }
}
