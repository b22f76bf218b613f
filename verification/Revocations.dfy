/** What happens to recorded replicas whose permission is gone
    (internal/engine/reconciler.go: addInventoryRevocations, applyRevocations, effectiveRevocationPolicy). */
module Revocations {
  import opened Basics
  import opened Policies
  import opened Options
  import opened Inventory

  function CoveredBy(revs: seq<Revocation>): set<NsKey> {
    set r | r in revs :: TargetKey(r.target)
  }

  /** A revocation recomputed from recorded state: no provenance, but a current denial. */
  function Synthetic(d: Decision): Revocation {
    Revocation(d.target, Decision(d.target, true, [], None), Some(d))
  }

  /** Every denied target that still has inventoried replicas counts as revoked. */
  function Augmented(revs: seq<Revocation>, ds: seq<Decision>, inv: seq<InventoryEntry>): seq<Revocation> {
    if ds == [] then revs
    else
      var rs, d := Augmented(revs, ds[..|ds| - 1], inv), ds[|ds| - 1];
      if d.allowed || TargetKey(d.target) in CoveredBy(rs) || EntriesIn(inv, TargetKey(d.target)) == [] then rs
      else rs + [Synthetic(d)]
  }

  method AddInventoryRevocations(revs: seq<Revocation>, ds: seq<Decision>, inv: seq<InventoryEntry>)
    returns (out: seq<Revocation>)
    ensures out == Augmented(revs, ds, inv)
  {
    var covered: set<NsKey> := {};
    for i := 0 to |revs|
      invariant covered == CoveredBy(revs[..i])
    {
      assert revs[..i + 1] == revs[..i] + [revs[i]];
      covered := covered + {TargetKey(revs[i].target)};
    }
    assert revs[..|revs|] == revs;
    out := revs;
    for i := 0 to |ds|
      invariant out == Augmented(revs, ds[..i], inv)
      invariant covered == CoveredBy(out)
    {
      assert ds[..i + 1][..i] == ds[..i];
      var k := TargetKey(ds[i].target);
      if !ds[i].allowed && k !in covered && |EntriesIn(inv, k)| != 0 {
        covered := covered + {k};
        out := out + [Synthetic(ds[i])];
      }
    }
    assert ds[..|ds|] == ds;
  }

  ghost predicate OnePerTarget(revs: seq<Revocation>) {
    forall i, j :: 0 <= i < j < |revs| ==> TargetKey(revs[i].target) != TargetKey(revs[j].target)
  }

  lemma {:induction false} CoveredAppend(revs: seq<Revocation>, r: Revocation)
    ensures CoveredBy(revs + [r]) == CoveredBy(revs) + {TargetKey(r.target)}
  {
    assert forall x :: x in revs + [r] <==> x in revs || x == r;
  }

  lemma {:induction false} AugmentedShape(revs: seq<Revocation>, ds: seq<Decision>, inv: seq<InventoryEntry>)
    requires OnePerTarget(revs)
    ensures OnePerTarget(Augmented(revs, ds, inv))
    ensures forall d :: d in ds && !d.allowed && EntriesIn(inv, TargetKey(d.target)) != [] ==>
              TargetKey(d.target) in CoveredBy(Augmented(revs, ds, inv))
    ensures forall r :: r in Augmented(revs, ds, inv) && r !in revs ==>
              exists d :: d in ds && !d.allowed && r == Synthetic(d)
    ensures forall r :: r in revs ==> r in Augmented(revs, ds, inv)
  {
    if ds != [] {
      var front, d := ds[..|ds| - 1], ds[|ds| - 1];
      AugmentedShape(revs, front, inv);
      assert ds == front + [d];
      var rs := Augmented(revs, front, inv);
      CoveredAppend(rs, Synthetic(d));
      if !(d.allowed || TargetKey(d.target) in CoveredBy(rs) || EntriesIn(inv, TargetKey(d.target)) == []) {
        forall i | 0 <= i < |rs| ensures TargetKey(rs[i].target) != TargetKey(d.target) {
          assert rs[i] in rs;
        }
      }
    }
  }

  /** The revocations one pass acts on. */
  function Effective(prev: seq<Decision>, ds: seq<Decision>, inv: seq<InventoryEntry>): seq<Revocation> {
    Augmented(Withdrawn(prev, ds), ds, inv)
  }

  /** Whatever the previous evaluation was, every denied target with inventoried replicas gets exactly one
      revocation, and that one carries the denial; every revocation that carries a decision carries a denial. */
  lemma {:induction false} DeniedTargetsRevokedOnce(prev: seq<Decision>, ds: seq<Decision>, inv: seq<InventoryEntry>)
    requires DistinctTargets(prev) && DistinctTargets(ds)
    ensures OnePerTarget(Effective(prev, ds, inv))
    ensures forall d :: d in ds && !d.allowed && EntriesIn(inv, TargetKey(d.target)) != [] ==>
              exists r ::
                r in Effective(prev, ds, inv) && TargetKey(r.target) == TargetKey(d.target) && r.current == Some(d)
    ensures forall r :: r in Effective(prev, ds, inv) && r.current.Some? ==>
              r.current.value in ds && !r.current.value.allowed
              && TargetKey(r.current.value.target) == TargetKey(r.target)
  {
    var revs := Withdrawn(prev, ds);
    WithdrawnExactly(prev, ds);
    AugmentedShape(revs, ds, inv);
    forall d | d in ds && !d.allowed && EntriesIn(inv, TargetKey(d.target)) != []
      ensures exists r ::
                r in Effective(prev, ds, inv) && TargetKey(r.target) == TargetKey(d.target) && r.current == Some(d)
    {
      var r :| r in Effective(prev, ds, inv) && TargetKey(r.target) == TargetKey(d.target);
      RevokedByThisDenial(prev, ds, inv, d, r);
    }
    forall r | r in Effective(prev, ds, inv) && r.current.Some?
      ensures r.current.value in ds && !r.current.value.allowed
              && TargetKey(r.current.value.target) == TargetKey(r.target)
    {
      if r in revs {
        LatestAbsent(ds, TargetKey(r.target));
      }
    }
  }

  lemma {:induction false} RevokedByThisDenial(
    prev: seq<Decision>, ds: seq<Decision>, inv: seq<InventoryEntry>, d: Decision, r: Revocation)
    requires DistinctTargets(prev) && DistinctTargets(ds)
    requires d in ds && r in Effective(prev, ds, inv) && TargetKey(r.target) == TargetKey(d.target)
    ensures r.current == Some(d)
  {
    var revs := Withdrawn(prev, ds);
    WithdrawnExactly(prev, ds);
    AugmentedShape(revs, ds, inv);
    var i :| 0 <= i < |ds| && ds[i] == d;
    if r in revs {
      LatestIsUnique(ds, i);
    } else {
      var d' :| d' in ds && !d'.allowed && r == Synthetic(d');
      var j :| 0 <= j < |ds| && ds[j] == d';
    }
  }

  // ---- Which revocation policy governs ---------------------------------------------------

  /** The policies whose source dimensions match, in list order. */
  function SourceMatching(ps: seq<ReplicationPolicy>, src: Source): (r: seq<ReplicationPolicy>)
    ensures forall p :: p in r <==> p in ps && MatchesSource(p, src)
  {
    if ps == [] then []
    else
      var p := ps[|ps| - 1];
      assert ps == ps[..|ps| - 1] + [p];
      SourceMatching(ps[..|ps| - 1], src) + (if MatchesSource(p, src) then [p] else [])
  }

  function Governing(ps: seq<ReplicationPolicy>, rev: Revocation, src: Source): RevocationPolicy {
    var granted := ByName(ps, rev.previous.matched);
    if granted != [] then Resolved(granted).revocation
    else if SourceMatching(ps, src) == [] then Delete
    else Resolved(SourceMatching(ps, src)).revocation
  }

  /** Evaluating a policy alone reveals whether its source dimensions match. */
  lemma {:induction false} AloneRevealsSource(p: ReplicationPolicy, src: Source, tgt: Target)
    ensures var d := Decided(src, tgt, [p]);
            (d.allowed || d.denied == Some(TargetCluster) || d.denied == Some(TargetNamespace))
            <==> MatchesSource(p, src)
  {
    assert [p][..0] == [];
    var failed := FailedDimension(p, src, tgt);
    assert PermittingNames([p][..0], src, tgt) == [] && Furthest([p][..0], src, tgt) == SourceNamespace;
    assert PermittingNames([p], src, tgt) == if failed.None? then [p.name] else [];
    assert failed.Some? ==> Furthest([p], src, tgt) == failed.value;
  }

  method EffectiveRevocationPolicy(ps: seq<ReplicationPolicy>, rev: Revocation, src: Source)
    returns (governing: RevocationPolicy)
    ensures governing == Governing(ps, rev, src)
  {
    if |rev.previous.matched| > 0 {
      var subset := ByName(ps, rev.previous.matched);
      if |subset| > 0 {
        var eff := ResolveOptions(subset);
        return eff.revocation;
      }
    } else {
      NoNamesNoPolicies(ps);
    }
    var subset: seq<ReplicationPolicy> := [];
    for i := 0 to |ps|
      invariant subset == SourceMatching(ps[..i], src)
    {
      assert ps[..i + 1][..i] == ps[..i];
      AloneRevealsSource(ps[i], src, rev.target);
      var d := Decide(src, rev.target, [ps[i]]);
      if d.allowed || d.denied == Some(TargetCluster) || d.denied == Some(TargetNamespace) {
        subset := subset + [ps[i]];
      }
    }
    assert ps[..|ps|] == ps;
    if |subset| == 0 {
      return Delete;
    }
    var eff := ResolveOptions(subset);
    return eff.revocation;
  }

  lemma {:induction false} NoNamesNoPolicies(ps: seq<ReplicationPolicy>)
    ensures ByName(ps, []) == []
  {
    if ByName(ps, []) != [] {
      assert ByName(ps, [])[0] in ByName(ps, []);
      assert false;
    }
  }

  /** Retain wins exactly when a policy that granted the permission and still exists says Retain, or, when
      none of those exists any more, when a policy matching the source says so. */
  lemma {:induction false} RetainIff(ps: seq<ReplicationPolicy>, rev: Revocation, src: Source)
    ensures Governing(ps, rev, src).Retain? <==>
            if exists p :: p in ps && p.name in rev.previous.matched
            then exists p :: p in ps && p.name in rev.previous.matched && p.options.revocation.Retain?
            else exists p :: p in ps && MatchesSource(p, src) && p.options.revocation.Retain?
  {
    var granted := ByName(ps, rev.previous.matched);
    var matching := SourceMatching(ps, src);
    if granted != [] { assert granted[0] in granted; }
  }

  // ---- Applying revocations ----------------------------------------------------------------

  /** The revocation is a policy withdrawal with recorded replicas, and they stay. */
  predicate Retains(rev: Revocation, ps: seq<ReplicationPolicy>, src: Source) {
    rev.current.Some? && Governing(ps, rev, src).Retain?
  }

  function RetainedKeys(revs: seq<Revocation>, ps: seq<ReplicationPolicy>, src: Source, inv: seq<InventoryEntry>)
    : (ks: set<SlotKey>)
    ensures forall k :: k in ks <==>
              exists r, e :: r in revs && Retains(r, ps, src) && e in EntriesIn(inv, TargetKey(r.target)) && e.key == k
  {
    set r, e | r in revs && Retains(r, ps, src) && e in EntriesIn(inv, TargetKey(r.target)) :: e.key
  }

  function DeletedNamespaces(revs: seq<Revocation>, ps: seq<ReplicationPolicy>, src: Source, inv: seq<InventoryEntry>)
    : set<NsKey>
  {
    set r | r in revs && r.current.Some? && EntriesIn(inv, TargetKey(r.target)) != [] && !Retains(r, ps, src)
      :: TargetKey(r.target)
  }

  predicate AnyRetained(revs: seq<Revocation>, ps: seq<ReplicationPolicy>, src: Source, inv: seq<InventoryEntry>) {
    exists r :: r in revs && Retains(r, ps, src) && EntriesIn(inv, TargetKey(r.target)) != []
  }

  method ApplyRevocations(revs: seq<Revocation>, ps: seq<ReplicationPolicy>, src: Source, inv: seq<InventoryEntry>)
    returns (retained: set<SlotKey>, deleted: set<NsKey>, any: bool)
    ensures retained == RetainedKeys(revs, ps, src, inv)
    ensures deleted == DeletedNamespaces(revs, ps, src, inv)
    ensures any == AnyRetained(revs, ps, src, inv)
  {
    retained, deleted, any := {}, {}, false;
    for i := 0 to |revs|
      invariant retained == RetainedKeys(revs[..i], ps, src, inv)
      invariant deleted == DeletedNamespaces(revs[..i], ps, src, inv)
      invariant any == AnyRetained(revs[..i], ps, src, inv)
    {
      var rev := revs[i];
      assert revs[..i + 1] == revs[..i] + [rev];
      var entries := EntriesIn(inv, TargetKey(rev.target));
      assert rev.current.None? || entries == [] ==> RetainedKeys(revs[..i + 1], ps, src, inv) == retained;
      if rev.current.Some? && |entries| != 0 {
        var governing := EffectiveRevocationPolicy(ps, rev, src);
        if governing.Retain? {
          any := true;
          retained := retained + Keys(entries);
        } else {
          deleted := deleted + {TargetKey(rev.target)};
        }
      }
    }
    assert revs[..|revs|] == revs;
  }
}
