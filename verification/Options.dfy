/** Combining the options of several permitting policies, and detecting withdrawn
    permissions (internal/policy/options.go). */
module Options {
  import opened Basics
  import opened Policies

  datatype EffectiveOptions = EffectiveOptions(
    allowNamespaceCreation: bool,
    conflictPolicies: seq<ConflictPolicy>,
    revocation: RevocationPolicy)

  // ---- ResolveOptions ---------------------------------------------------------

  /** Canonical output order; a value outside the enumeration, which the API rejects, ranks with Fail. */
  function OutputRank(c: ConflictPolicy): nat {
    match c
    case Fail => 0
    case Adopt => 1
    case Overwrite => 2
    case UnknownConflict(_) => 0
  }

  function AddUnseen(have: seq<ConflictPolicy>, more: seq<ConflictPolicy>): seq<ConflictPolicy> {
    if more == [] then have
    else
      var r := AddUnseen(have, more[..|more| - 1]);
      var c := more[|more| - 1];
      if c in r then r else r + [c]
  }

  /** Fail, then every granted conflict policy in the order it is first seen. */
  function FirstSeen(ps: seq<ReplicationPolicy>): seq<ConflictPolicy> {
    if ps == [] then [Fail]
    else AddUnseen(FirstSeen(ps[..|ps| - 1]), ps[|ps| - 1].options.conflictPolicies)
  }

  function InsertByRank(c: ConflictPolicy, cs: seq<ConflictPolicy>): seq<ConflictPolicy> {
    if cs == [] || OutputRank(c) <= OutputRank(cs[0]) then [c] + cs
    else [cs[0]] + InsertByRank(c, cs[1..])
  }

  function SortByRank(cs: seq<ConflictPolicy>): seq<ConflictPolicy> {
    if cs == [] then [] else InsertByRank(cs[0], SortByRank(cs[1..]))
  }

  function Resolved(ps: seq<ReplicationPolicy>): EffectiveOptions {
    EffectiveOptions(
      exists p :: p in ps && p.options.allowNamespaceCreation,
      SortByRank(FirstSeen(ps)),
      if exists p :: p in ps && p.options.revocation.Retain? then Retain else Delete)
  }

  method ResolveOptions(ps: seq<ReplicationPolicy>) returns (eff: EffectiveOptions)
    ensures eff == Resolved(ps)
  {
    var allow, conflicts, revocation := false, [Fail], Delete;
    var seen := {Fail};
    for i := 0 to |ps|
      invariant allow <==> exists p :: p in ps[..i] && p.options.allowNamespaceCreation
      invariant revocation.Retain? <==> exists p :: p in ps[..i] && p.options.revocation.Retain?
      invariant conflicts == FirstSeen(ps[..i])
      invariant forall c :: c in seen <==> c in conflicts
    {
      assert ps[..i + 1] == ps[..i] + [ps[i]] && ps[..i + 1][..i] == ps[..i];
      var opts := ps[i].options;
      if opts.allowNamespaceCreation {
        allow := true;
      }
      ghost var before := conflicts;
      for j := 0 to |opts.conflictPolicies|
        invariant conflicts == AddUnseen(before, opts.conflictPolicies[..j])
        invariant forall c :: c in seen <==> c in conflicts
      {
        assert opts.conflictPolicies[..j + 1][..j] == opts.conflictPolicies[..j];
        var c := opts.conflictPolicies[j];
        if c !in seen {
          seen := seen + {c};
          conflicts := conflicts + [c];
        }
      }
      assert opts.conflictPolicies[..|opts.conflictPolicies|] == opts.conflictPolicies;
      if opts.revocation.Retain? {
        revocation := Retain;
      }
    }
    assert ps[..|ps|] == ps;
    eff := EffectiveOptions(allow, SortByRank(conflicts), revocation);
  }

  ghost predicate NoDuplicates<T>(xs: seq<T>) {
    forall i, j :: 0 <= i < j < |xs| ==> xs[i] != xs[j]
  }

  ghost predicate RankSorted(cs: seq<ConflictPolicy>) {
    forall i, j :: 0 <= i < j < |cs| ==> OutputRank(cs[i]) <= OutputRank(cs[j])
  }

  lemma {:induction false} AddUnseenMembers(have: seq<ConflictPolicy>, more: seq<ConflictPolicy>)
    requires NoDuplicates(have)
    ensures NoDuplicates(AddUnseen(have, more))
    ensures forall c :: c in AddUnseen(have, more) <==> c in have || c in more
  {
    if more != [] {
      AddUnseenMembers(have, more[..|more| - 1]);
      assert more == more[..|more| - 1] + [more[|more| - 1]];
    }
  }

  lemma {:induction false} FirstSeenMembers(ps: seq<ReplicationPolicy>)
    ensures NoDuplicates(FirstSeen(ps))
    ensures forall c :: c in FirstSeen(ps) <==> c == Fail || exists p :: p in ps && c in p.options.conflictPolicies
  {
    if ps != [] {
      FirstSeenMembers(ps[..|ps| - 1]);
      AddUnseenMembers(FirstSeen(ps[..|ps| - 1]), ps[|ps| - 1].options.conflictPolicies);
      assert ps == ps[..|ps| - 1] + [ps[|ps| - 1]];
    }
  }

  lemma {:induction false} InsertByRankSorts(c: ConflictPolicy, cs: seq<ConflictPolicy>)
    requires RankSorted(cs) && NoDuplicates(cs) && c !in cs
    ensures RankSorted(InsertByRank(c, cs)) && NoDuplicates(InsertByRank(c, cs))
    ensures forall x :: x in InsertByRank(c, cs) <==> x == c || x in cs
  {
    if cs != [] && OutputRank(c) > OutputRank(cs[0]) {
      InsertByRankSorts(c, cs[1..]);
      var tail := InsertByRank(c, cs[1..]);
      assert cs == [cs[0]] + cs[1..];
      forall j | 0 <= j < |tail| ensures OutputRank(cs[0]) <= OutputRank(tail[j]) && cs[0] != tail[j] {
        assert tail[j] in tail;
      }
    }
  }

  lemma {:induction false} SortByRankSorts(cs: seq<ConflictPolicy>)
    requires NoDuplicates(cs)
    ensures RankSorted(SortByRank(cs)) && NoDuplicates(SortByRank(cs))
    ensures forall x :: x in SortByRank(cs) <==> x in cs
  {
    if cs != [] {
      SortByRankSorts(cs[1..]);
      assert cs == [cs[0]] + cs[1..];
      InsertByRankSorts(cs[0], SortByRank(cs[1..]));
    }
  }

  /** Conflict policies are the union of the grants plus Fail, each once and in canonical order. */
  lemma {:induction false} ResolvedConflictPolicies(ps: seq<ReplicationPolicy>)
    ensures forall c :: c in Resolved(ps).conflictPolicies
                        <==> c == Fail || exists p :: p in ps && c in p.options.conflictPolicies
    ensures NoDuplicates(Resolved(ps).conflictPolicies) && RankSorted(Resolved(ps).conflictPolicies)
  {
    FirstSeenMembers(ps);
    SortByRankSorts(FirstSeen(ps));
  }

  /** No policy of the list grants a value outside the API enumeration. */
  ghost predicate EnumValued(ps: seq<ReplicationPolicy>) {
    forall p, c :: p in ps && c in p.options.conflictPolicies ==> !c.UnknownConflict?
  }

  ghost predicate RanksAscend(cs: seq<ConflictPolicy>) {
    forall i, j :: 0 <= i < j < |cs| ==> OutputRank(cs[i]) < OutputRank(cs[j])
  }

  lemma {:induction false} RankReaches(cs: seq<ConflictPolicy>, n: nat)
    requires RanksAscend(cs) && n < |cs|
    ensures n <= OutputRank(cs[n])
  {
    if n > 0 { RankReaches(cs, n - 1); }
  }

  lemma {:induction false} RankSortedUnique(cs: seq<ConflictPolicy>)
    requires NoDuplicates(cs) && RankSorted(cs) && Fail in cs
    requires forall c :: c in cs ==> !c.UnknownConflict?
    ensures cs == [Fail] + (if Adopt in cs then [Adopt] else []) + (if Overwrite in cs then [Overwrite] else [])
  {
    forall j | 0 <= j < |cs| ensures !cs[j].UnknownConflict? { assert cs[j] in cs; }
    assert RanksAscend(cs);
    var i :| 0 <= i < |cs| && cs[i] == Fail;
    RankReaches(cs, i);
    RankReaches(cs, |cs| - 1);
    assert cs[0] == Fail;
    if |cs| == 1 {
      assert cs == [Fail];
    } else if |cs| == 2 {
      assert cs == [Fail, cs[1]];
    } else {
      RankReaches(cs, 1);
      assert OutputRank(cs[1]) < OutputRank(cs[2]);
      assert cs == [Fail, Adopt, Overwrite];
    }
  }

  /** For enumerated options the result is canonical: it does not depend on policy order. */
  lemma {:induction false} ResolvedIgnoresOrder(ps: seq<ReplicationPolicy>, qs: seq<ReplicationPolicy>)
    requires EnumValued(ps) && (forall p :: p in ps <==> p in qs)
    ensures Resolved(ps) == Resolved(qs)
  {
    ResolvedConflictPolicies(ps);
    ResolvedConflictPolicies(qs);
    RankSortedUnique(Resolved(ps).conflictPolicies);
    RankSortedUnique(Resolved(qs).conflictPolicies);
  }

  // ---- DetectRevocations ------------------------------------------------------

  datatype NsKey = NsKey(cluster: string, namespace: string)

  function TargetKey(t: Target): NsKey { NsKey(t.cluster, t.namespace) }

  /** current is None when the target is absent from the current evaluation. */
  datatype Revocation = Revocation(target: Target, previous: Decision, current: Option<Decision>)

  ghost predicate DistinctTargets(ds: seq<Decision>) {
    forall i, j :: 0 <= i < j < |ds| ==> TargetKey(ds[i].target) != TargetKey(ds[j].target)
  }

  /** The last decision about a key. */
  function Latest(ds: seq<Decision>, k: NsKey): Option<Decision> {
    if ds == [] then None
    else if TargetKey(ds[|ds| - 1].target) == k then Some(ds[|ds| - 1])
    else Latest(ds[..|ds| - 1], k)
  }

  /** Allowed before, and now denied or absent, in the order of the previous result. */
  function Withdrawn(prev: seq<Decision>, cur: seq<Decision>): seq<Revocation> {
    if prev == [] then []
    else
      var d := prev[|prev| - 1];
      var now := Latest(cur, TargetKey(d.target));
      Withdrawn(prev[..|prev| - 1], cur)
      + (if d.allowed && (now.None? || !now.value.allowed) then [Revocation(d.target, d, now)] else [])
  }

  method DetectRevocations(prev: seq<Decision>, cur: seq<Decision>) returns (revoked: seq<Revocation>)
    ensures revoked == Withdrawn(prev, cur)
  {
    var byKey: map<NsKey, Decision> := map[];
    for i := 0 to |cur|
      invariant forall k :: (k in byKey <==> Latest(cur[..i], k).Some?)
                            && (k in byKey ==> Latest(cur[..i], k) == Some(byKey[k]))
    {
      assert cur[..i + 1][..i] == cur[..i];
      byKey := byKey[TargetKey(cur[i].target) := cur[i]];
    }
    assert cur[..|cur|] == cur;
    revoked := [];
    for i := 0 to |prev|
      invariant revoked == Withdrawn(prev[..i], cur)
    {
      assert prev[..i + 1][..i] == prev[..i];
      var d := prev[i];
      var k := TargetKey(d.target);
      if d.allowed && !(k in byKey && byKey[k].allowed) {
        revoked := revoked + [Revocation(d.target, d, if k in byKey then Some(byKey[k]) else None)];
      }
    }
    assert prev[..|prev|] == prev;
  }

  lemma {:induction false} LatestIsUnique(ds: seq<Decision>, i: nat)
    requires DistinctTargets(ds) && i < |ds|
    ensures Latest(ds, TargetKey(ds[i].target)) == Some(ds[i])
  {
    if i < |ds| - 1 {
      LatestIsUnique(ds[..|ds| - 1], i);
    }
  }

  lemma {:induction false} LatestAbsent(ds: seq<Decision>, k: NsKey)
    ensures Latest(ds, k).Some? ==> Latest(ds, k).value in ds && TargetKey(Latest(ds, k).value.target) == k
    ensures Latest(ds, k).None? ==> forall d :: d in ds ==> TargetKey(d.target) != k
  {
    if ds != [] {
      LatestAbsent(ds[..|ds| - 1], k);
      assert ds == ds[..|ds| - 1] + [ds[|ds| - 1]];
    }
  }

  ghost predicate IsWithdrawal(r: Revocation, prev: seq<Decision>, cur: seq<Decision>) {
    && r.previous in prev && r.previous.allowed && r.target == r.previous.target
    && r.current == Latest(cur, TargetKey(r.target)) && (r.current.None? || !r.current.value.allowed)
  }

  /** A revocation is reported for exactly the allowed-before, not-allowed-now targets, once each. */
  lemma {:induction false} WithdrawnExactly(prev: seq<Decision>, cur: seq<Decision>)
    requires DistinctTargets(prev)
    ensures forall r :: r in Withdrawn(prev, cur) <==> IsWithdrawal(r, prev, cur)
    ensures forall i, j :: 0 <= i < j < |Withdrawn(prev, cur)| ==>
              TargetKey(Withdrawn(prev, cur)[i].target) != TargetKey(Withdrawn(prev, cur)[j].target)
  {
    WithdrawnMembers(prev, cur);
    if prev != [] {
      var front, d := prev[..|prev| - 1], prev[|prev| - 1];
      WithdrawnExactly(front, cur);
      var rs := Withdrawn(front, cur);
      forall i | 0 <= i < |rs| ensures TargetKey(rs[i].target) != TargetKey(d.target) {
        assert rs[i] in rs;
        var m :| 0 <= m < |front| && front[m] == rs[i].previous;
      }
    }
  }

  lemma {:induction false} WithdrawnMembers(prev: seq<Decision>, cur: seq<Decision>)
    ensures forall r :: r in Withdrawn(prev, cur) <==> IsWithdrawal(r, prev, cur)
  {
    if prev != [] {
      WithdrawnMembers(prev[..|prev| - 1], cur);
      assert prev == prev[..|prev| - 1] + [prev[|prev| - 1]];
    }
  }
}
