/** What a pass says about targets it may not serve, and which namespaces it may make
    (internal/engine/reconciler.go). */
module Denials {
  import opened Policies
  import opened Options
  import opened Inventory
  import opened Engine
  import opened Passes
  import opened Retention
  import Retries
  import S = Status
  import V = Revocations

  // ---- Denied slots ----------------------------------------------------------------------------------

  lemma {:induction false} SlotIsDenied(i: Input, n: nat)
    requires n < |SlotKeys(i)| && !Decisions(i)[n].allowed
    ensures DeniedIn(i, NsOf(SlotKeys(i)[n]))
  {
    SlotTarget(i, n);
    assert Decisions(i)[n] in Decisions(i);
  }

  /** A recorded, denied slot is either retained or in a namespace whose replicas go. */
  lemma {:induction false} RecordedIsRevoked(prev: seq<Decision>, i: Input, e: InventoryEntry)
    requires DistinctTargets(prev) && DistinctTargets(Decisions(i))
    requires e in i.status.inventory && DeniedIn(i, NsOf(e.key))
    ensures || e.key in PassRetained(prev, i)
            || NsOf(e.key) in V.DeletedNamespaces(PassRevocations(prev, i), i.policies, i.meta, i.status.inventory)
  {
    var r := RevocationOf(prev, i, e);
    OnlyRevocation(prev, i, e, r);
    assert e in EntriesIn(i.status.inventory, TargetKey(r.target));
  }

  /** Up to its own turn, a denied slot's entry is neither added nor dropped. */
  lemma {:induction false} EntryAtItsTurn(sp: Spokes, prev: seq<Decision>, i: Input, n: nat)
    requires Sturdy(sp, i) && n < |SlotKeys(i)| && !Decisions(i)[n].allowed
    ensures var q := DoJobs(Progress(sp, PassPlan(i), [], 0), PassJobs(prev, i)[..n], i.cx);
            SlotKeys(i)[n] in Keys(q.inv) <==> SlotKeys(i)[n] in Keys(i.status.inventory)
  {
    var ks, ds, k, js := SlotKeys(i), Decisions(i), SlotKeys(i)[n], PassJobs(prev, i);
    SlotIsDenied(i, n);
    DeniedIsNotAllowed(i, k);
    PlanningAdds(i.status.inventory, ks, ds);
    NotAllowedIsSpared(ks, ds, i.policies, PassRetained(prev, i),
                       V.DeletedNamespaces(PassRevocations(prev, i), i.policies, i.meta, i.status.inventory), k);
    PrefixSpared(js, n, k);
    var start := Progress(sp, PassPlan(i), [], 0);
    JobsSpare(start, js[..n], i.cx, k);
    SameEntriesSameKey(DoJobs(start, js[..n], i.cx).inv, PassPlan(i), k);
  }

  lemma {:induction false} SameEntriesSameKey(a: seq<InventoryEntry>, b: seq<InventoryEntry>, k: SlotKey)
    requires forall e: InventoryEntry :: e.key == k ==> (e in a <==> e in b)
    ensures k in Keys(a) <==> k in Keys(b)
  {
    if k in Keys(a) {
      var e :| e in a && e.key == k;
      assert e in b;
    }
    if k in Keys(b) {
      var e :| e in b && e.key == k;
      assert e in a;
    }
  }

  lemma {:induction false} JobAppends(p: Progress, j: Job, cx: Context)
    ensures var q := DoJob(p, j, cx); |q.states| == |p.states| + 1 && p.states <= q.states
  {
  }

  lemma {:induction false} JobsAppend(p: Progress, js: seq<Job>, cx: Context, m: nat)
    requires m <= |js|
    ensures DoJobs(p, js[..m], cx).states <= DoJobs(p, js, cx).states
    decreases |js|
  {
    if m == |js| {
      assert js[..m] == js;
    } else {
      var front := js[..|js| - 1];
      JobsAppend(p, front, cx, m);
      assert front[..m] == js[..m];
      JobAppends(DoJobs(p, front, cx), js[|js| - 1], cx);
    }
  }

  /** Each job's state stays where it was put. */
  lemma {:induction false} StateAtItsTurn(p: Progress, js: seq<Job>, cx: Context, n: nat)
    requires n < |js|
    ensures DoJob(DoJobs(p, js[..n], cx), js[n], cx).states <= DoJobs(p, js, cx).states
  {
    assert js[..n + 1][..n] == js[..n];
    JobsAppend(p, js, cx, n + 1);
  }

  lemma {:induction false} CollectingAppends(p: Progress, es: seq<InventoryEntry>, cx: Context)
    ensures p.states <= CollectEach(p, es, cx).states
  {
    if es != [] { CollectingAppends(p, es[..|es| - 1], cx); }
  }

  /** The n-th state of a pass is the one its n-th slot gave. */
  lemma {:induction false} PassState(sp: Spokes, prev: seq<Decision>, i: Input, n: nat)
    requires n < |SlotKeys(i)|
    ensures var q := DoJobs(Progress(sp, PassPlan(i), [], 0), PassJobs(prev, i)[..n], i.cx);
            var states := DoJob(q, PassJobs(prev, i)[n], i.cx).states;
            && n < |PassWork(sp, prev, i).states| && |states| == n + 1
            && PassWork(sp, prev, i).states[n] == states[n]
  {
    var start, js := Progress(sp, PassPlan(i), [], 0), PassJobs(prev, i);
    var q := DoJobs(start, js, i.cx);
    Retries.OneStatePerJob(start, js[..n], i.cx);
    JobAppends(DoJobs(start, js[..n], i.cx), js[n], i.cx);
    StateAtItsTurn(start, js, i.cx, n);
    CollectingAppends(q.(inv := Passes.Released(q.inv, Uncovered(q.inv, PassKeep(prev, i), i.cx.discovered, false))),
                      Uncovered(q.inv, PassKeep(prev, i), i.cx.discovered, true), i.cx);
  }

  /** A denied slot is reported as revoked exactly when a replica is recorded there, whether it stays or goes, and as
      denied otherwise. */
  lemma {:induction false} DeniedSlotReports(sp: Spokes, prev: seq<Decision>, i: Input, n: nat)
    requires Sound(sp, prev, i) && n < |SlotKeys(i)| && !Decisions(i)[n].allowed
    ensures var k, states := SlotKeys(i)[n], PassWork(sp, prev, i).states;
            && n < |states| && !states[n].ready && states[n].desired
            && states[n].cluster == k.cluster && states[n].namespace == k.namespace && states[n].name == k.name
            && states[n].reason
               == if k in Keys(i.status.inventory) then S.PolicyRevoked else S.PolicyDenied
  {
    var k := SlotKeys(i)[n];
    PassState(sp, prev, i, n);
    EntryAtItsTurn(sp, prev, i, n);
    SlotIsDenied(i, n);
    if k in Keys(i.status.inventory) {
      var e :| e in i.status.inventory && e.key == k;
      RecordedIsRevoked(prev, i, e);
    }
  }

  /** Some recorded replica is of a denied target under which Retain governs. */
  ghost predicate SomeRetained(prev: seq<Decision>, i: Input) {
    exists e :: e in i.status.inventory && DeniedIn(i, NsOf(e.key)) && RetainGoverns(prev, i, NsOf(e.key))
  }

  lemma {:induction false} AnyRetainedIff(prev: seq<Decision>, i: Input)
    requires DistinctTargets(prev) && DistinctTargets(Decisions(i))
    ensures V.AnyRetained(PassRevocations(prev, i), i.policies, i.meta, i.status.inventory) <==> SomeRetained(prev, i)
  {
    var revs, inv := PassRevocations(prev, i), i.status.inventory;
    if V.AnyRetained(revs, i.policies, i.meta, inv) {
      var r :| r in revs && V.Retains(r, i.policies, i.meta) && EntriesIn(inv, TargetKey(r.target)) != [];
      var e := EntriesIn(inv, TargetKey(r.target))[0];
      assert e in EntriesIn(inv, TargetKey(r.target));
      assert e.key in PassRetained(prev, i);
      RetainedIff(prev, i, e);
    }
    if SomeRetained(prev, i) {
      var e :| e in inv && DeniedIn(i, NsOf(e.key)) && RetainGoverns(prev, i, NsOf(e.key));
      var r := RevocationOf(prev, i, e);
      GoverningIs(prev, i, r);
      assert e in EntriesIn(inv, TargetKey(r.target));
    }
  }

  /** The Revoked condition stands after a pass exactly when a recorded replica is retained. */
  lemma {:induction false} RevokedStandsIff(sp: Spokes, prev: seq<Decision>, i: Input)
    requires DistinctTargets(prev) && DistinctTargets(Decisions(i))
    ensures var c := S.Find(PassStatus(sp, prev, i).conditions, S.Revoked);
            && (c.Some? <==> SomeRetained(prev, i))
            && (c.Some? ==> c.value.status && c.value.reason == S.PolicyRevoked && c.value.generation == i.generation)
  {
    var o := PassOutcome(sp, prev, i);
    AnyRetainedIff(prev, i);
    S.BuiltSays(i.status.conditions, S.ReadyOf(o), o.retained, i.now);
  }

  // ---- Namespaces ------------------------------------------------------------------------------------

  /** A policy that permits the target lets its namespace be made. */
  ghost predicate MayCreate(i: Input, tgt: Target) {
    exists p :: p in i.policies && Permits(p, i.meta, tgt) && p.options.allowNamespaceCreation
  }

  lemma {:induction false} ConvergeKeepsNamespaces(
    sp: Spokes, inv: seq<InventoryEntry>, k: SlotKey, eff: EffectiveOptions, cx: Context)
    ensures Converge(sp, inv, k, cx.src, eff, cx.slotFaults(k), cx.hash).spokes.namespaces == sp.namespaces
  {
  }

  /** The slot's missing namespace is made exactly when it is seen missing, a policy that permits the target allows it,
      and the write takes effect. */
  lemma {:induction false} NamespaceMadeIff(p: Progress, prev: seq<Decision>, i: Input, n: nat)
    requires n < |PassJobs(prev, i)| && DistinctNames(i.policies)
    requires NsOf(PassJobs(prev, i)[n].key) !in p.spokes.namespaces
    ensures var j := PassJobs(prev, i)[n];
            NsOf(j.key) in DoJob(p, j, i.cx).spokes.namespaces <==>
            && i.cx.slotFaults(j.key).namespaceRead.ReadOk? && MayCreate(i, Decisions(i)[n].target)
            && TakesEffect(i.cx.slotFaults(j.key).namespaceWrite)
  {
    var j, d := PassJobs(prev, i)[n], Decisions(i)[n];
    assert d == Decided(i.meta, d.target, i.policies);
    AllowedIffOnePermits(i.meta, d.target, i.policies);
    if d.allowed {
      MatchedLookupIsPermitting(i.meta, d.target, i.policies);
      var with := p.spokes.(namespaces := p.spokes.namespaces + {NsOf(j.key)});
      ConvergeKeepsNamespaces(p.spokes, p.inv, j.key, j.options, i.cx);
      ConvergeKeepsNamespaces(with, p.inv, j.key, j.options, i.cx);
    }
  }
}
