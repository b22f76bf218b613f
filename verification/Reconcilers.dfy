/** The engine's reconciler (internal/engine/reconciler.go), in its own imperative form: one object that changes
    the spokes, the inventory and the recorded evaluations step by step, proved against the pass functions. */
module Reconcilers {
  import opened Basics
  import opened Policies
  import opened Options
  import opened Inventory
  import opened Conflict
  import opened Engine
  import opened Passes
  import opened Backoff
  import opened Retries
  import D = Durations
  import R = Render
  import S = Status
  import T = Targets
  import V = Revocations

  class Reconciler {
    var spokes: Spokes                             // behind the transport
    var lastResults: map<string, seq<Decision>>    // previous evaluation per Replication UID, lost on restart
    var inv: seq<InventoryEntry>                   // the pass's working inventory
    var states: seq<S.TargetState>                 // the pass's per-slot outcomes
    var writes: nat                                // write calls of the pass
    var delays: seq<int>                           // the pass's retry delays
    const backoff: BackoffTracker

    ghost predicate Valid()
      reads backoff
    {
      backoff.Valid()
    }

    function Now(): Progress
      reads this
    {
      Progress(spokes, inv, states, writes)
    }

    constructor (spokes: Spokes, base: int, max: int)
      requires 0 < base < D.TWO_63 && 0 < max < D.TWO_63
      ensures Valid() && fresh(backoff) && backoff.base == base && backoff.max == max && backoff.history == []
      ensures Now() == Progress(spokes, [], [], 0) && lastResults == map[]
    {
      this.spokes, lastResults, inv, states, writes, delays := spokes, map[], [], [], 0, [];
      backoff := new BackoffTracker(base, max);
    }

    // ---- Backoff --------------------------------------------------------------------------------

    /** Since history h0 and delays d0 the tracker was told es, and the positive delays were collected. */
    ghost predicate Noted(h0: seq<Event>, d0: seq<int>, es: seq<Event>)
      reads this, backoff
    {
      && Valid() && backoff.history == h0 + es
      && delays == d0 + DelaysOf(backoff.base, backoff.max, h0, es)
    }

    lemma {:induction false} NotedMore(
      h0: seq<Event>, d0: seq<int>, a: seq<Event>, h1: seq<Event>, d1: seq<int>, b: seq<Event>)
      requires h1 == h0 + a && d1 == d0 + DelaysOf(backoff.base, backoff.max, h0, a) && Noted(h1, d1, b)
      ensures Noted(h0, d0, a + b)
    {
      DelaysSplit(backoff.base, backoff.max, h0, a, b);
      assert h0 + a + b == h0 + (a + b);
      var da, db := DelaysOf(backoff.base, backoff.max, h0, a), DelaysOf(backoff.base, backoff.max, h1, b);
      assert d0 + da + db == d0 + (da + db);
    }

    /** A delay that is not positive is never the soonest. */
    method Retry(rep: string, cluster: string)
      requires Valid()
      modifies `delays, backoff
      ensures Noted(old(backoff.history), old(delays), [Failed(Pair(rep, cluster))])
    {
      var delay := backoff.Failure(rep, cluster);
      if delay > 0 {
        delays := delays + [delay];
      }
      assert [Failed(Pair(rep, cluster))][..0] == [];
    }

    method Clear(rep: string, cluster: string)
      requires Valid()
      modifies `delays, backoff
      ensures Noted(old(backoff.history), old(delays), [Succeeded(Pair(rep, cluster))])
    {
      backoff.Success(rep, cluster);
      assert [Succeeded(Pair(rep, cluster))][..0] == [];
    }

    // ---- Transport ------------------------------------------------------------------------------

    method Write(k: SlotKey, r: R.Replica, o: WriteOutcome) returns (error: Option<S.Reason>)
      modifies `spokes, `writes
      ensures Written(spokes, error, writes) == Apply(old(spokes), k, r, o).(writes := old(writes) + 1)
    {
      writes := writes + 1;
      if TakesEffect(o) {
        spokes := spokes.(objects := spokes.objects[k := r]);
      }
      error := if o.Lands? then None else Some(WriteError(o));
    }

    method Delete(k: SlotKey, o: WriteOutcome) returns (error: Option<S.Reason>)
      modifies `spokes, `writes
      ensures spokes == Drop(old(spokes), k, o) && writes == old(writes) + 1
      ensures error == if o.Lands? then None else Some(WriteError(o))
    {
      writes := writes + 1;
      if TakesEffect(o) {
        spokes := spokes.(objects := spokes.objects - {k});
      }
      error := if o.Lands? then None else Some(WriteError(o));
    }

    method Rewrite(k: SlotKey, r: R.Replica, f: SlotFaults) returns (error: Option<S.Reason>)
      modifies `spokes, `writes
      ensures var w := ApplyWithRecreate(old(spokes), k, r, f);
              Written(spokes, error, writes) == w.(writes := old(writes) + w.writes)
    {
      error := Write(k, r, f.write);
      if error.Some? && f.write.Invalid? {
        error := Delete(k, f.del);
        if error.None? {
          error := Write(k, r, f.rewrite);
        }
      }
    }

    method Report(k: SlotKey, desired: bool, reason: S.Reason)
      modifies `states
      ensures states == old(states) + [StateAt(k, desired, reason)]
    {
      states := states + [StateAt(k, desired, reason)];
    }

    // ---- One slot -----------------------------------------------------------------------------------

    /** Reports a failure that is retried. */
    method Fail(rep: string, k: SlotKey, desired: bool, reason: S.Reason)
      requires Valid()
      modifies `states, `delays, backoff
      ensures states == old(states) + [StateAt(k, desired, reason)]
      ensures Noted(old(backoff.history), old(delays), [Failed(Pair(rep, k.cluster))])
    {
      Report(k, desired, reason);
      Retry(rep, k.cluster);
    }

    method Settle(rep: string, k: SlotKey, h: string, error: Option<S.Reason>)
      requires Valid() && (error.Some? ==> error.value != S.Unset && error.value != S.Conflicting)
      modifies `inv, `states, `delays, backoff
      ensures var r := Finish(Written(spokes, error, 0), old(inv), k, h);
              && inv == r.inv && states == old(states) + [r.state]
              && Noted(old(backoff.history), old(delays), SlotEvents(rep, r.state))
    {
      if error.Some? {
        Fail(rep, k, true, error.value);
      } else {
        inv := Upsert(inv, InventoryEntry(k, h));
        Report(k, true, S.Unset);
        Clear(rep, k.cluster);
      }
    }

    method WriteSlot(rep: string, k: SlotKey, cx: Context, eff: EffectiveOptions)
      requires Valid()
      modifies `spokes, `inv, `states, `writes, `delays, backoff
      ensures var r := Converge(old(spokes), old(inv), k, cx.src, eff, cx.slotFaults(k), cx.hash);
              && Now() == Progress(r.spokes, r.inv, old(states) + [r.state], old(writes) + r.writes)
              && Noted(old(backoff.history), old(delays), SlotEvents(rep, r.state))
    {
      var h, desired, f := cx.hash(cx.src.payload), Desired(cx.src, cx.hash), cx.slotFaults(k);
      var error: Option<S.Reason> := None;
      if !f.read.ReadOk? {
        Fail(rep, k, true, ReadError(f.read));
        return;
      }
      if k !in spokes.objects {
        error := Write(k, desired, f.write);
      } else {
        var existing := spokes.objects[k];
        if Classify(existing, cx.src.uid) == Stripped {
          error := Rewrite(k, desired, f);
        } else {
          match DecideConflict(existing, cx.src.uid, cx.src.requested, h, eff.conflictPolicies, cx.hash) {
            case Refuse =>
              inv := Remove(inv, k);
              Report(k, true, S.Conflicting);
              return;
            case AdoptExisting => error := Write(k, desired.(payload := existing.payload), f.write);
            case TakeOver => error := Rewrite(k, desired, f);
            case ApplyOwn =>
              if existing.hashNote != h || cx.hash(existing.payload) != h {
                error := Rewrite(k, desired, f);
              }
          }
        }
      }
      Settle(rep, k, h, error);
    }

    method ApplySlot(rep: string, k: SlotKey, cx: Context, eff: EffectiveOptions)
      requires Valid()
      modifies `spokes, `inv, `states, `writes, `delays, backoff
      ensures Now() == DoJob(old(Now()), ApplyJob(k, eff), cx) && |states| == |old(states)| + 1
      ensures Noted(old(backoff.history), old(delays), SlotEvents(rep, states[|old(states)|]))
    {
      var f, ns := cx.slotFaults(k), NsOf(k);
      if !f.namespaceRead.ReadOk? {
        Fail(rep, k, true, ReadError(f.namespaceRead));
        return;
      }
      if ns !in spokes.namespaces {
        if !eff.allowNamespaceCreation {
          inv := Remove(inv, k);
          Fail(rep, k, true, S.NamespaceMissing);
          return;
        }
        writes := writes + 1;
        if TakesEffect(f.namespaceWrite) {
          spokes := spokes.(namespaces := spokes.namespaces + {ns});
        }
        if !f.namespaceWrite.Lands? {
          Fail(rep, k, true, WriteError(f.namespaceWrite));
          return;
        }
      }
      WriteSlot(rep, k, cx, eff);
    }

    // ---- Garbage collection --------------------------------------------------------------------------

    method ReleaseAll(es: seq<InventoryEntry>)
      modifies `inv
      ensures inv == Released(old(inv), es)
    {
      for n := 0 to |es|
        invariant inv == Released(old(inv), es[..n])
      {
        assert es[..n + 1][..n] == es[..n];
        inv := Remove(inv, es[n].key);
      }
      assert es[..|es|] == es;
    }

    method CollectSlot(rep: string, k: SlotKey, cx: Context)
      requires Valid()
      modifies `spokes, `inv, `states, `writes, `delays, backoff
      ensures Now() == CollectOne(old(Now()), k, cx)
      ensures Noted(old(backoff.history), old(delays), EntryEvents(rep, old(spokes), k, cx))
    {
      var f := cx.collectFaults(k);
      if KindOf(k) !in cx.kinds {
        Report(k, false, S.ApplyFailed);
      } else if !f.read.ReadOk? {
        Fail(rep, k, false, ReadError(f.read));
      } else if k !in spokes.objects {
        Clear(rep, k.cluster);
        inv := Remove(inv, k);
      } else if Classify(spokes.objects[k], cx.src.uid) == Foreign {
        inv := Remove(inv, k);
      } else {
        var error := Delete(k, f.del);
        if error.Some? {
          Fail(rep, k, false, error.value);
        } else {
          Clear(rep, k.cluster);
          inv := Remove(inv, k);
        }
      }
    }

    method CollectSlots(rep: string, es: seq<InventoryEntry>, cx: Context)
      requires Valid()
      modifies `spokes, `inv, `states, `writes, `delays, backoff
      ensures Now() == CollectEach(old(Now()), es, cx)
      ensures Noted(old(backoff.history), old(delays), CollectEvents(rep, old(Now()), es, cx))
    {
      for n := 0 to |es|
        invariant Now() == CollectEach(old(Now()), es[..n], cx)
        invariant Noted(old(backoff.history), old(delays), CollectEvents(rep, old(Now()), es[..n], cx))
      {
        assert es[..n + 1][..n] == es[..n];
        ghost var h1, d1, sp := backoff.history, delays, spokes;
        CollectSlot(rep, es[n].key, cx);
        NotedMore(old(backoff.history), old(delays), CollectEvents(rep, old(Now()), es[..n], cx),
                  h1, d1, EntryEvents(rep, sp, es[n].key, cx));
      }
      assert es[..|es|] == es;
    }

    method CollectGarbage(rep: string, keep: set<SlotKey>, cx: Context)
      requires Valid()
      modifies `spokes, `inv, `states, `writes, `delays, backoff
      ensures Now() == Collected(old(Now()), keep, cx)
      ensures Noted(old(backoff.history), old(delays), CollectedEvents(rep, old(Now()), keep, cx))
    {
      var del, rel := PlanGC(inv, keep, cx.discovered);
      ReleaseAll(rel);
      CollectSlots(rep, del, cx);
    }

    /** When to look again: after the soonest retry of the events since history h0, or after the given time. */
    method RequeueAfter(default: int, ghost h0: seq<Event>, ghost es: seq<Event>) returns (requeue: int)
      requires Noted(h0, [], es)
      ensures Due(backoff.base, backoff.max, h0, es, default, requeue)
    {
      assert delays == DelaysOf(backoff.base, backoff.max, h0, es);
      requeue := MinDelay(delays);
      if requeue == 0 {
        requeue := default;
      }
    }

    /** Stores the status when it differs. */
    method WriteStatusIfChanged(was: S.Status, next: S.Status, stores: bool) returns (stored: S.Status, failed: bool)
      ensures failed <==> next != was && !stores
      ensures stored == if failed then was else next
    {
      stored, failed := was, false;
      if next != was {
        if stores {
          stored := next;
        } else {
          failed := true;
        }
      }
    }

    method ForgetAll(rep: string, repUid: string)
      requires Valid()
      modifies `lastResults, backoff
      ensures Valid() && lastResults == old(lastResults) - {repUid}
      ensures backoff.history == old(backoff.history) + [Forgotten(rep)]
    {
      backoff.Forget(rep);
      lastResults := lastResults - {repUid};
    }

    /** The finalizer path. The finalizer goes when nothing is left and its update is stored, and then the streaks and
        the remembered evaluation are forgotten; otherwise the status is stored when it differs, and the soonest retry
        decides when to look again. Either write may fail. */
    method ReconcileDeletion(
      rep: string, repUid: string, status: S.Status, generation: int, cx: Context, now: S.Time, stores: bool)
      returns (dropped: bool, stored: S.Status, failed: bool, requeue: int)
      requires Valid()
      modifies this, backoff
      ensures Valid() && Now() == Drained(Progress(old(spokes), status.inventory, [], 0), cx)
      ensures dropped <==> inv == [] && stores
      ensures lastResults == if dropped then old(lastResults) - {repUid} else old(lastResults)
      ensures var es := CollectedEvents(rep, Progress(old(spokes), status.inventory, [], 0), {}, cx);
              && backoff.history == old(backoff.history) + es + (if dropped then [Forgotten(rep)] else [])
              && (!dropped && !failed ==>
                    Due(backoff.base, backoff.max, old(backoff.history), es, backoff.max, requeue))
      ensures var next := S.Built(status, S.Outcome(status.sourceHash, states, inv, false, generation, true), now);
              && stored == (if inv == [] || failed then status else next)
              && (failed <==> !stores && (inv == [] || next != status))
    {
      inv, states, writes, delays := status.inventory, [], 0, [];
      CollectGarbage(rep, {}, cx);
      dropped, stored, failed, requeue := false, status, false, 0;
      if |inv| == 0 {
        dropped, failed := stores, !stores;
        if dropped {
          ForgetAll(rep, repUid);
        }
        return;
      }
      var next := S.BuildStatus(status, S.Outcome(status.sourceHash, states, inv, false, generation, true), now);
      stored, failed := WriteStatusIfChanged(status, next, stores);
      if !failed {
        requeue := RequeueAfter(backoff.max, old(backoff.history),
                                CollectedEvents(rep, Progress(old(spokes), status.inventory, [], 0), {}, cx));
      }
    }

    // ---- A whole pass ---------------------------------------------------------------------------------

    method PlanEntries(ks: seq<SlotKey>, ds: seq<Decision>) returns (planned: bool)
      requires |ks| == |ds|
      modifies `inv
      ensures inv == Planned(old(inv), ks, ds) && (planned <==> inv != old(inv))
    {
      planned := false;
      for n := 0 to |ks|
        invariant inv == Planned(old(inv), ks[..n], ds[..n])
        invariant |old(inv)| <= |inv| && (planned <==> |old(inv)| < |inv|) && (!planned ==> inv == old(inv))
      {
        assert ks[..n + 1][..n] == ks[..n] && ds[..n + 1][..n] == ds[..n];
        if ds[n].allowed && !HasEntry(inv, ks[n]) {
          inv := inv + [InventoryEntry(ks[n], "")];
          planned := true;
        }
      }
      assert ks[..|ks|] == ks && ds[..|ds|] == ds;
    }

    /** Applies the allowed slots and reports the denied ones, in slot order. */
    method ApplySlots(rep: string, js: seq<Job>, cx: Context)
      requires Valid() && states == []
      modifies `spokes, `inv, `states, `writes, `delays, backoff
      ensures Now() == DoJobs(old(Now()), js, cx) && |states| == |js|
      ensures Noted(old(backoff.history), old(delays), ApplyEvents(rep, js, states))
    {
      for n := 0 to |js|
        invariant Now() == DoJobs(old(Now()), js[..n], cx) && |states| == n
        invariant Noted(old(backoff.history), old(delays), ApplyEvents(rep, js[..n], states))
      {
        assert js[..n + 1][..n] == js[..n];
        ghost var h1, d1, was := backoff.history, delays, states;
        match js[n] {
          case DenyJob(k, _, _) => Report(k, true, DenialReason(js[n], inv));
          case ApplyJob(k, eff) => ApplySlot(rep, k, cx, eff);
        }
        assert states[..n] == was;
        NotedMore(old(backoff.history), old(delays), ApplyEvents(rep, js[..n], was),
                  h1, d1, if js[n].DenyJob? then [] else SlotEvents(rep, states[n]));
      }
      assert js[..|js|] == js;
    }

    /** Evaluates every target, remembers the evaluation, and decides what to apply, what to keep and what is
        retained. */
    method Judge(repUid: string, i: Input)
      returns (ks: seq<SlotKey>, ds: seq<Decision>, js: seq<Job>, keep: set<SlotKey>, any: bool)
      modifies `lastResults
      ensures lastResults == old(lastResults)[repUid := Decisions(i)] && ks == SlotKeys(i) && ds == Decisions(i)
      ensures var prev := if repUid in old(lastResults) then old(lastResults)[repUid] else [];
              && js == PassJobs(prev, i) && keep == PassKeep(prev, i)
              && any == V.AnyRetained(PassRevocations(prev, i), i.policies, i.meta, i.status.inventory)
    {
      var slots, tgts := T.FlattenTargets(i.targets, i.sourceName, i.clusters);
      ks := seq(|slots|, n requires 0 <= n < |slots| => KeyOfSlot(slots[n], i.kind));
      assert ks == SlotKeys(i);
      ds := Evaluate(i.meta, tgts, i.policies);
      var prev := if repUid in lastResults then lastResults[repUid] else [];
      var revs := DetectRevocations(prev, ds);
      lastResults := lastResults[repUid := ds];
      revs := V.AddInventoryRevocations(revs, ds, i.status.inventory);
      var retained, deleted;
      retained, deleted, any := V.ApplyRevocations(revs, i.policies, i.meta, i.status.inventory);
      js := JobsFor(ks, ds, i.policies, retained, deleted);
      keep := retained + AllowedKeys(ks, ds);
    }

    /** Applies and collects. */
    method Work(rep: string, js: seq<Job>, keep: set<SlotKey>, cx: Context)
      requires Valid() && states == [] && delays == []
      modifies `spokes, `inv, `states, `writes, `delays, backoff
      ensures var q := DoJobs(old(Now()), js, cx);
              && Now() == Collected(q, keep, cx) && |q.states| == |js|
              && Noted(old(backoff.history), [], ApplyEvents(rep, js, q.states) + CollectedEvents(rep, q, keep, cx))
    {
      ApplySlots(rep, js, cx);
      ghost var h1, d1, q := backoff.history, delays, Now();
      CollectGarbage(rep, keep, cx);
      NotedMore(old(backoff.history), [], ApplyEvents(rep, js, q.states), h1, d1, CollectedEvents(rep, q, keep, cx));
    }

    /** One reconcile of a live Replication; stored is what the hub holds afterwards. The planned inventory is stored
        before anything is applied when it differs, the final status last when it differs from what is then stored,
        and either write may fail: without its plan the pass touches nothing. The soonest retry decides when to look
        again, and the resync period does without one. */
    method Reconcile(rep: string, repUid: string, i: Input, planStores: bool, statusStores: bool, resync: int)
      returns (stored: S.Status, failed: bool, requeue: int)
      requires Valid()
      modifies this, backoff
      ensures Valid() && lastResults == old(lastResults)[repUid := Decisions(i)]
      ensures var prev := if repUid in old(lastResults) then old(lastResults)[repUid] else [];
              var planned, next := i.status.(inventory := PassPlan(i)), PassStatus(old(spokes), prev, i);
              var es := PassEvents(rep, old(spokes), prev, i);
              if PassPlan(i) != i.status.inventory && !planStores then
                failed && stored == i.status && spokes == old(spokes) && backoff.history == old(backoff.history)
              else
                && Now() == PassWork(old(spokes), prev, i)
                && (failed <==> next != planned && !statusStores)
                && stored == (if failed then planned else next)
                && backoff.history == old(backoff.history) + es
                && (!failed ==> Due(backoff.base, backoff.max, old(backoff.history), es, resync, requeue))
    {
      inv, states, writes, delays := i.status.inventory, [], 0, [];
      ghost var prev := if repUid in lastResults then lastResults[repUid] else [];
      var ks, ds, js, keep, any := Judge(repUid, i);
      var planned := PlanEntries(ks, ds);
      stored, failed, requeue := i.status, false, 0;
      if planned {
        if !planStores {
          return stored, true, 0;
        }
        stored := i.status.(inventory := inv);
      }
      assert stored == i.status.(inventory := PassPlan(i));
      Work(rep, js, keep, i.cx);
      assert Now() == PassWork(old(spokes), prev, i);
      var o := S.Outcome(i.cx.hash(i.cx.src.payload), states, inv, any, i.generation, false);
      var next := S.BuildStatus(i.status, o, i.now);
      assert next == PassStatus(old(spokes), prev, i);
      stored, failed := WriteStatusIfChanged(stored, next, statusStores);
      if !failed {
        requeue := RequeueAfter(resync, old(backoff.history), PassEvents(rep, old(spokes), prev, i));
      }
    }
  }
}
