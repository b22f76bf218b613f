/** What a slot, a recorded entry and a whole pass report about what they met (internal/engine/reconciler.go,
    internal/engine/status.go). */
module Outcomes {
  import opened Labels
  import opened Policies
  import opened Options
  import opened Inventory
  import opened Conflict
  import opened Engine
  import opened Passes
  import N = Resolution
  import R = Render
  import S = Status
  import T = Targets

  // ---- One slot ------------------------------------------------------------------------------------

  /** Some call finds its cluster unavailable. */
  predicate SomeUnavailable(f: SlotFaults) {
    || f.namespaceRead.ReadUnavailable? || f.namespaceWrite.Unavailable? || f.read.ReadUnavailable?
    || f.write.Unavailable? || f.del.Unavailable? || f.rewrite.Unavailable?
  }

  predicate Refused(o: WriteOutcome) { o.Rejected? || o.Invalid? || o.Ambiguous? }

  /** Some call fails otherwise. */
  predicate SomeRefused(f: SlotFaults) {
    || f.namespaceRead.ReadFails? || Refused(f.namespaceWrite) || f.read.ReadFails?
    || Refused(f.write) || Refused(f.del) || Refused(f.rewrite)
  }

  /** Somebody else's object, and no consent to touch it: it is managed for another source, the request or the grants
      do not reach, or they reach adoption and the content differs. */
  predicate InTheWay(before: R.Replica, src: SourceView, eff: EffectiveOptions, hash: R.Hash) {
    && before.sourceUid != src.uid
    && (|| before.managedBy == "k8s-r8r"
        || !(src.requested.Overwrite? || src.requested.Adopt?)
        || !(Overwrite in eff.conflictPolicies || Adopt in eff.conflictPolicies)
        || (&& !(src.requested.Overwrite? && Overwrite in eff.conflictPolicies)
            && hash(before.payload) != hash(src.payload)))
  }

  lemma {:induction false} InTheWayIsRefused(before: R.Replica, src: SourceView, eff: EffectiveOptions, hash: R.Hash)
    requires src.uid != "" && before.sourceUid != src.uid
    ensures InTheWay(before, src, eff, hash)
            <==> DecideConflict(before, src.uid, src.requested, hash(src.payload), eff.conflictPolicies, hash).Refuse?
    ensures !Classify(before, src.uid).Stripped?
  {
  }

  /** The state names the slot, counts as desired, and gives one of the reasons a slot can give. */
  ghost predicate SlotState(s: S.TargetState, k: SlotKey) {
    && s.cluster == k.cluster && s.namespace == k.namespace && s.name == k.name && s.desired
    && (s.ready <==> s.reason.Unset?)
    && (|| s.reason.Unset? || s.reason.Conflicting? || s.reason.NamespaceMissing? || s.reason.ClusterUnreachable?
        || s.reason.ApplyFailed?)
  }

  lemma {:induction false} ConvergeReports(
    sp: Spokes, inv: seq<InventoryEntry>, k: SlotKey, src: SourceView, eff: EffectiveOptions, f: SlotFaults,
    hash: R.Hash)
    requires src.uid != ""
    ensures var s := Converge(sp, inv, k, src, eff, f, hash).state;
            && SlotState(s, k) && !s.reason.NamespaceMissing?
            && (s.reason.ClusterUnreachable? ==> SomeUnavailable(f)) && (s.reason.ApplyFailed? ==> SomeRefused(f))
            && (s.reason.Conflicting? <==>
                  f.read.ReadOk? && k in sp.objects && InTheWay(sp.objects[k], src, eff, hash))
  {
    if k in sp.objects && sp.objects[k].sourceUid != src.uid {
      InTheWayIsRefused(sp.objects[k], src, eff, hash);
    }
  }

  /** What a slot's reason means: a cluster is called unreachable only after an unavailable call, a slot failed only
      after another failure; a missing namespace is reported exactly when it is seen missing and may not be made, a
      conflict exactly when an object is found in the way; without any such cause the slot is ready. */
  lemma {:induction false} SlotReasonMeans(
    sp: Spokes, inv: seq<InventoryEntry>, k: SlotKey, src: SourceView, eff: EffectiveOptions, f: SlotFaults,
    hash: R.Hash)
    requires src.uid != "" && Housed(sp)
    ensures var s, missing := ApplyTarget(sp, inv, k, src, eff, f, hash).state, NsOf(k) !in sp.namespaces;
            && SlotState(s, k)
            && (s.reason.ClusterUnreachable? ==> SomeUnavailable(f)) && (s.reason.ApplyFailed? ==> SomeRefused(f))
            && (s.reason.NamespaceMissing? <==>
                  f.namespaceRead.ReadOk? && missing && !eff.allowNamespaceCreation)
            && (s.reason.Conflicting? <==>
                  && f.namespaceRead.ReadOk? && f.read.ReadOk?
                  && k in sp.objects && InTheWay(sp.objects[k], src, eff, hash))
  {
    if NsOf(k) in sp.namespaces {
      ConvergeReports(sp, inv, k, src, eff, f, hash);
    } else {
      ConvergeReports(sp.(namespaces := sp.namespaces + {NsOf(k)}), inv, k, src, eff, f, hash);
    }
  }

  // ---- One recorded entry ----------------------------------------------------------------------------

  /** A stuck entry is reported as not desired, by why it is stuck; an entry that is dealt with is not reported. */
  lemma {:induction false} EntryReasonMeans(
    sp: Spokes, inv: seq<InventoryEntry>, k: SlotKey, uid: string, kinds: set<GroupKind>, f: CollectFaults)
    ensures var s := CollectEntry(sp, inv, k, uid, kinds, f).state;
            && (s.Some? <==> Stuck(sp, k, uid, kinds, f))
            && (s.Some? ==>
                  && s.value.cluster == k.cluster && s.value.namespace == k.namespace && s.value.name == k.name
                  && !s.value.desired && !s.value.ready
                  && s.value.reason
                     == if && KindOf(k) in kinds
                           && (f.read.ReadUnavailable? || (f.read.ReadOk? && f.del.Unavailable?))
                        then S.ClusterUnreachable else S.ApplyFailed)
  {
  }

  // ---- A whole pass ------------------------------------------------------------------------------------

  /** The labels a cluster is judged by: those of its record, none when it has left discovery. */
  lemma {:induction false} LabelsAre(clusters: seq<T.ClusterRecord>, name: string)
    ensures (forall c :: c in clusters ==> c.name != name) ==> T.LabelsOf(clusters, name) == map[]
    ensures forall c :: c in clusters && c.name == name && T.OneRecordPerName(clusters) ==>
              T.LabelsOf(clusters, name) == c.labels
  {
    forall c | c in clusters && c.name == name && T.OneRecordPerName(clusters)
      ensures T.LabelsOf(clusters, name) == c.labels
    {
      T.LookupFinds(clusters, c);
    }
    if forall c :: c in clusters ==> c.name != name { LookupMisses(clusters, name); }
  }

  lemma {:induction false} LookupMisses(clusters: seq<T.ClusterRecord>, name: string)
    requires forall c :: c in clusters ==> c.name != name
    ensures T.LookupCluster(clusters, name).None?
  {
    if clusters != [] {
      assert clusters[0] in clusters;
      LookupMisses(clusters[1..], name);
    }
  }

  /** The slots of a pass: one per target namespace, named by the target or else the source, of the source's group and
      kind. */
  lemma {:induction false} SlotKeysAre(i: Input, k: SlotKey)
    ensures k in SlotKeys(i)
            <==> && k.group == i.kind.group && k.kind == i.kind.kind
                 && exists r :: && r in i.targets && k.cluster == r.cluster && k.namespace in r.namespaces
                                && k.name == (if r.targetName != "" then r.targetName else i.sourceName)
  {
    var s, slots, ks := T.Slot(k.cluster, k.namespace, k.name), T.SlotsOf(i.targets, i.sourceName), SlotKeys(i);
    N.SlotsIff(i.targets, i.sourceName, s);
    if k in ks {
      var n :| 0 <= n < |ks| && ks[n] == k;
      assert slots[n] == s;
    }
    if s in slots && k.group == i.kind.group && k.kind == i.kind.kind {
      var n :| 0 <= n < |slots| && slots[n] == s;
      assert ks[n] == k;
    }
  }

  /** A slot is served exactly when one policy permits it on the cluster as discovery lists it now. */
  lemma {:induction false} SlotAllowedIff(i: Input, n: nat, labels: LabelSet)
    requires n < |SlotKeys(i)| && T.OneRecordPerName(i.clusters)
    requires var k := SlotKeys(i)[n];
             || (exists c :: c in i.clusters && c.name == k.cluster && c.labels == labels)
             || ((forall c :: c in i.clusters ==> c.name != k.cluster) && labels == map[])
    ensures var k := SlotKeys(i)[n];
            Decisions(i)[n].allowed
            <==> exists p :: p in i.policies && Permits(p, i.meta, Target(k.cluster, labels, k.namespace))
  {
    var k, d := SlotKeys(i)[n], Decisions(i)[n];
    T.SlotsFollowPairs(i.targets, i.sourceName);
    LabelsAre(i.clusters, k.cluster);
    assert d.target == Target(k.cluster, labels, k.namespace);
    AllowedIffOnePermits(i.meta, d.target, i.policies);
  }

  /** A planned entry has no hash until its slot is applied, and stands for an allowed slot without an entry. */
  lemma {:induction false} PlaceholdersAre(i: Input, e: InventoryEntry)
    requires e in PassPlan(i) && e !in i.status.inventory
    ensures e.hash == "" && e.key in AllowedKeys(SlotKeys(i), Decisions(i)) && e.key !in Keys(i.status.inventory)
  {
    Placeholders(i.status.inventory, SlotKeys(i), Decisions(i), e);
  }

  lemma {:induction false} Placeholders(
    inv: seq<InventoryEntry>, ks: seq<SlotKey>, ds: seq<Decision>, e: InventoryEntry)
    requires |ks| == |ds| && e in Planned(inv, ks, ds) && e !in inv
    ensures e.hash == "" && e.key in AllowedKeys(ks, ds) && e.key !in Keys(inv)
  {
    var n := |ks| - 1;
    var rest := Planned(inv, ks[..n], ds[..n]);
    AllowedStep(ks, ds);
    PlanningAdds(inv, ks[..n], ds[..n]);
    if e in rest { Placeholders(inv, ks[..n], ds[..n], e); }
  }

  /** The status of a pass carries the hash of the source it rendered and what is now recorded, and counts the slots it
      was asked for. */
  lemma {:induction false} PassStatusSays(sp: Spokes, prev: seq<Decision>, i: Input)
    ensures var s := PassStatus(sp, prev, i);
            s.sourceHash == i.cx.hash(i.cx.src.payload) && s.inventory == PassWork(sp, prev, i).inv
    ensures PassStatus(sp, prev, i).summary.desired == |SlotKeys(i)|
  {
    var start, js := Progress(sp, PassPlan(i), [], 0), PassJobs(prev, i);
    var q := DoJobs(start, js, i.cx);
    JobsAreDesired(start, js, i.cx);
    CollectedAreNot(q.(inv := Passes.Released(q.inv, Uncovered(q.inv, PassKeep(prev, i), i.cx.discovered, false))),
                    Uncovered(q.inv, PassKeep(prev, i), i.cx.discovered, true), i.cx);
  }

  lemma {:induction false} DesiredOneMore(states: seq<S.TargetState>, s: S.TargetState)
    ensures S.CountDesired(states + [s]) == S.CountDesired(states) + if s.desired then 1 else 0
  {
    assert (states + [s])[..|states|] == states;
  }

  lemma {:induction false} JobIsDesired(p: Progress, j: Job, cx: Context) returns (s: S.TargetState)
    ensures DoJob(p, j, cx).states == p.states + [s] && s.desired
  {
    s := DoJob(p, j, cx).states[|p.states|];
  }

  lemma {:induction false} JobsAreDesired(p: Progress, js: seq<Job>, cx: Context)
    ensures S.CountDesired(DoJobs(p, js, cx).states) == S.CountDesired(p.states) + |js|
  {
    if js != [] {
      var front, j := js[..|js| - 1], js[|js| - 1];
      JobsAreDesired(p, front, cx);
      var s := JobIsDesired(DoJobs(p, front, cx), j, cx);
      DesiredOneMore(DoJobs(p, front, cx).states, s);
    }
  }

  lemma {:induction false} EntryIsNot(p: Progress, k: SlotKey, cx: Context)
    ensures S.CountDesired(CollectOne(p, k, cx).states) == S.CountDesired(p.states)
  {
    EntryReasonMeans(p.spokes, p.inv, k, cx.src.uid, cx.kinds, cx.collectFaults(k));
    var r := CollectEntry(p.spokes, p.inv, k, cx.src.uid, cx.kinds, cx.collectFaults(k));
    if r.state.Some? { DesiredOneMore(p.states, r.state.value); }
  }

  lemma {:induction false} CollectedAreNot(p: Progress, es: seq<InventoryEntry>, cx: Context)
    ensures S.CountDesired(CollectEach(p, es, cx).states) == S.CountDesired(p.states)
  {
    if es != [] {
      var front := es[..|es| - 1];
      CollectedAreNot(p, front, cx);
      EntryIsNot(CollectEach(p, front, cx), es[|es| - 1].key, cx);
    }
  }
}
