/** ReplicationPolicy evaluation (internal/policy/policy.go): default deny, allowlists
    only, and a union of policies that never mixes dimensions across policies. */
module Policies {
  import opened Basics
  import opened Labels

  datatype ConflictPolicy = Fail | Adopt | Overwrite | UnknownConflict(text: string)

  datatype RevocationPolicy = Delete | Retain

  datatype PolicyOptions = PolicyOptions(
    allowNamespaceCreation: bool,
    conflictPolicies: seq<ConflictPolicy>,
    revocation: RevocationPolicy)

  /** namespaceSelector is None when the API field is nil. */
  datatype ReplicationPolicy = ReplicationPolicy(
    name: string,
    sourceNamespaces: seq<string>,
    namespaceSelector: Option<SelectorSpec>,
    kinds: seq<string>,
    clusterSelector: SelectorSpec,
    targetNamespaces: seq<string>,
    options: PolicyOptions)

  datatype Source = Source(kind: string, namespace: string, namespaceLabels: LabelSet)

  datatype Target = Target(cluster: string, clusterLabels: LabelSet, namespace: string)

  datatype Dimension = NoPolicies | SourceNamespace | SourceKind | TargetCluster | TargetNamespace

  /** Without the human-readable reason. */
  datatype Decision = Decision(
    target: Target, allowed: bool, matched: seq<string>, denied: Option<Dimension>)

  function Rank(d: Dimension): nat {
    match d
    case NoPolicies => 0
    case SourceNamespace => 1
    case SourceKind => 2
    case TargetCluster => 3
    case TargetNamespace => 4
  }

  predicate MatchesSourceNamespace(p: ReplicationPolicy, src: Source) {
    src.namespace in p.sourceNamespaces
    || (p.namespaceSelector.Some? && SpecMatches(p.namespaceSelector.value, src.namespaceLabels))
  }

  /** The source half of the four dimensions. */
  predicate MatchesSource(p: ReplicationPolicy, src: Source) {
    MatchesSourceNamespace(p, src) && src.kind in p.kinds
  }

  /** All four dimensions at once. */
  predicate Permits(p: ReplicationPolicy, src: Source, tgt: Target) {
    && MatchesSource(p, src)
    && SpecMatches(p.clusterSelector, tgt.clusterLabels)
    && tgt.namespace in p.targetNamespaces
  }

  /** The first dimension on which p fails, or None when p permits the target. */
  function FailedDimension(p: ReplicationPolicy, src: Source, tgt: Target): (d: Option<Dimension>)
    ensures d.None? <==> Permits(p, src, tgt)
    ensures d.Some? ==> 1 <= Rank(d.value) <= 4
    ensures d == Some(SourceNamespace) <==> !MatchesSourceNamespace(p, src)
    ensures d == Some(SourceKind) <==> MatchesSourceNamespace(p, src) && src.kind !in p.kinds
    ensures d == Some(TargetCluster) <==> MatchesSource(p, src) && !SpecMatches(p.clusterSelector, tgt.clusterLabels)
    ensures d == Some(TargetNamespace) <==>
            && MatchesSource(p, src) && SpecMatches(p.clusterSelector, tgt.clusterLabels)
            && tgt.namespace !in p.targetNamespaces
  {
    if !MatchesSourceNamespace(p, src) then Some(SourceNamespace)
    else if src.kind !in p.kinds then Some(SourceKind)
    else if !SpecMatches(p.clusterSelector, tgt.clusterLabels) then Some(TargetCluster)
    else if tgt.namespace !in p.targetNamespaces then Some(TargetNamespace)
    else None
  }

  /** The names of the permitting policies, in list order. */
  function PermittingNames(ps: seq<ReplicationPolicy>, src: Source, tgt: Target): seq<string> {
    if ps == [] then []
    else
      var last := ps[|ps| - 1];
      PermittingNames(ps[..|ps| - 1], src, tgt) + (if Permits(last, src, tgt) then [last.name] else [])
  }

  /** The furthest dimension a single failing policy reached. */
  function Furthest(ps: seq<ReplicationPolicy>, src: Source, tgt: Target): Dimension {
    if ps == [] then SourceNamespace
    else
      var best := Furthest(ps[..|ps| - 1], src, tgt);
      var failed := FailedDimension(ps[|ps| - 1], src, tgt);
      if failed.Some? && Rank(failed.value) >= Rank(best) then failed.value else best
  }

  function Decided(src: Source, tgt: Target, ps: seq<ReplicationPolicy>): (d: Decision) {
    if ps == [] then Decision(tgt, false, [], Some(NoPolicies))
    else
      var names := PermittingNames(ps, src, tgt);
      if names != [] then Decision(tgt, true, SortBy(names, Itself), None)
      else Decision(tgt, false, [], Some(Furthest(ps, src, tgt)))
  }

  method Decide(src: Source, tgt: Target, ps: seq<ReplicationPolicy>) returns (d: Decision)
    ensures d == Decided(src, tgt, ps)
  {
    if |ps| == 0 {
      return Decision(tgt, false, [], Some(NoPolicies));
    }
    var matched: seq<string> := [];
    var bestDim := SourceNamespace;
    for i := 0 to |ps|
      invariant matched == PermittingNames(ps[..i], src, tgt)
      invariant bestDim == Furthest(ps[..i], src, tgt)
    {
      assert ps[..i + 1][..i] == ps[..i];
      var failed := FailedDimension(ps[i], src, tgt);
      if failed.None? {
        matched := matched + [ps[i].name];
      } else if Rank(failed.value) >= Rank(bestDim) {
        bestDim := failed.value;
      }
    }
    assert ps[..|ps|] == ps;
    if |matched| > 0 {
      d := Decision(tgt, true, SortBy(matched, Itself), None);
    } else {
      d := Decision(tgt, false, [], Some(bestDim));
    }
  }

  function Evaluated(src: Source, tgts: seq<Target>, ps: seq<ReplicationPolicy>): (ds: seq<Decision>)
    ensures |ds| == |tgts|
  {
    seq(|tgts|, i requires 0 <= i < |tgts| => Decided(src, tgts[i], ps))
  }

  method Evaluate(src: Source, tgts: seq<Target>, ps: seq<ReplicationPolicy>) returns (ds: seq<Decision>)
    ensures ds == Evaluated(src, tgts, ps)
  {
    ds := [];
    for i := 0 to |tgts|
      invariant |ds| == i
      invariant forall j :: 0 <= j < i ==> ds[j] == Decided(src, tgts[j], ps)
    {
      var d := Decide(src, tgts[i], ps);
      ds := ds + [d];
    }
  }

  // ---- Union semantics ------------------------------------------------------

  lemma {:induction false} PermittingNamesAre(ps: seq<ReplicationPolicy>, src: Source, tgt: Target, name: string)
    ensures name in PermittingNames(ps, src, tgt)
            <==> exists p :: p in ps && Permits(p, src, tgt) && p.name == name
  {
    if ps != [] {
      var front, last := ps[..|ps| - 1], ps[|ps| - 1];
      PermittingNamesAre(front, src, tgt, name);
      assert ps == front + [last];
    }
  }

  /** A target is allowed exactly when one single policy matches all four dimensions;
      the matched list names exactly the permitting policies. */
  lemma {:induction false} AllowedIffOnePermits(src: Source, tgt: Target, ps: seq<ReplicationPolicy>)
    ensures Decided(src, tgt, ps).allowed <==> exists p :: p in ps && Permits(p, src, tgt)
    ensures forall name :: name in Decided(src, tgt, ps).matched
                           <==> exists p :: p in ps && Permits(p, src, tgt) && p.name == name
    ensures SortedBy(Decided(src, tgt, ps).matched, Itself)
  {
    var names := PermittingNames(ps, src, tgt);
    var d := Decided(src, tgt, ps);
    SortBySorts(names, Itself);
    assert names != [] ==> d.matched == SortBy(names, Itself);
    forall name
      ensures name in d.matched <==> exists p :: p in ps && Permits(p, src, tgt) && p.name == name
    {
      PermittingNamesAre(ps, src, tgt, name);
      assert name in d.matched <==> name in multiset(d.matched);
      assert name in names <==> name in multiset(names);
    }
    if names != [] {
      PermittingNamesAre(ps, src, tgt, names[0]);
    }
    if p :| p in ps && Permits(p, src, tgt) {
      PermittingNamesAre(ps, src, tgt, p.name);
    }
  }

  lemma {:induction false} FurthestIsMaximum(ps: seq<ReplicationPolicy>, src: Source, tgt: Target)
    ensures forall p :: p in ps && !Permits(p, src, tgt)
                        ==> Rank(FailedDimension(p, src, tgt).value) <= Rank(Furthest(ps, src, tgt))
    ensures Furthest(ps, src, tgt) == SourceNamespace
            || exists p :: p in ps && FailedDimension(p, src, tgt) == Some(Furthest(ps, src, tgt))
  {
    if ps != [] {
      var front, last := ps[..|ps| - 1], ps[|ps| - 1];
      FurthestIsMaximum(front, src, tgt);
      assert ps == front + [last];
    }
  }

  /** The denied dimension is reached by some policy and passed by none. */
  lemma {:induction false} DeniedDimensionIsFurthest(src: Source, tgt: Target, ps: seq<ReplicationPolicy>)
    requires !Decided(src, tgt, ps).allowed
    ensures Decided(src, tgt, ps).denied.Some?
    ensures ps == [] <==> Decided(src, tgt, ps).denied == Some(NoPolicies)
    ensures ps != [] ==>
              && (exists p :: p in ps && FailedDimension(p, src, tgt) == Decided(src, tgt, ps).denied)
              && (forall p :: p in ps ==>
                    && FailedDimension(p, src, tgt).Some?
                    && Rank(FailedDimension(p, src, tgt).value) <= Rank(Decided(src, tgt, ps).denied.value))
  {
    AllowedIffOnePermits(src, tgt, ps);
    FurthestIsMaximum(ps, src, tgt);
    if ps != [] {
      assert ps[0] in ps;
    }
  }

  lemma {:induction false} PermittingNamesAppend(
    a: seq<ReplicationPolicy>, b: seq<ReplicationPolicy>, src: Source, tgt: Target)
    ensures PermittingNames(a + b, src, tgt) == PermittingNames(a, src, tgt) + PermittingNames(b, src, tgt)
  {
    if b == [] {
      assert a + b == a;
    } else {
      assert (a + b)[..|a + b| - 1] == a + b[..|b| - 1];
      PermittingNamesAppend(a, b[..|b| - 1], src, tgt);
    }
  }

  lemma {:induction false} PermittingNamesPermute(
    ps: seq<ReplicationPolicy>, qs: seq<ReplicationPolicy>, src: Source, tgt: Target)
    requires multiset(ps) == multiset(qs)
    ensures multiset(PermittingNames(ps, src, tgt)) == multiset(PermittingNames(qs, src, tgt))
  {
    if ps == [] {
      assert |qs| == |multiset(qs)| == |multiset(ps)| == 0;
    } else {
      var front, last := ps[..|ps| - 1], ps[|ps| - 1];
      var left, right := PullOut(ps, qs);
      PermittingNamesPermute(front, left + right, src, tgt);
      assert ps == front + [last] && qs == (left + [last]) + right;
      PermittingNamesAppend(left + [last], right, src, tgt);
      PermittingNamesAppend(left, [last], src, tgt);
      PermittingNamesAppend(left, right, src, tgt);
      PermittingNamesAppend(front, [last], src, tgt);
      MoveToEnd(PermittingNames(left, src, tgt), PermittingNames([last], src, tgt), PermittingNames(right, src, tgt));
    }
  }

  lemma {:induction false} FurthestMonotone(
    ps: seq<ReplicationPolicy>, qs: seq<ReplicationPolicy>, src: Source, tgt: Target)
    requires forall p :: p in ps ==> p in qs
    ensures Rank(Furthest(ps, src, tgt)) <= Rank(Furthest(qs, src, tgt))
  {
    FurthestIsMaximum(ps, src, tgt);
    FurthestIsMaximum(qs, src, tgt);
    FurthestAtLeast(qs, src, tgt);
  }

  lemma {:induction false} FurthestAtLeast(ps: seq<ReplicationPolicy>, src: Source, tgt: Target)
    ensures 1 <= Rank(Furthest(ps, src, tgt))
  {
    if ps != [] { FurthestAtLeast(ps[..|ps| - 1], src, tgt); }
  }

  lemma {:induction false} FurthestIgnoresOrder(
    ps: seq<ReplicationPolicy>, qs: seq<ReplicationPolicy>, src: Source, tgt: Target)
    requires multiset(ps) == multiset(qs)
    ensures Furthest(ps, src, tgt) == Furthest(qs, src, tgt)
  {
    SameElements(ps, qs);
    FurthestMonotone(ps, qs, src, tgt);
    FurthestMonotone(qs, ps, src, tgt);
  }

  /** Permuting the policies changes nothing in a decision. */
  lemma {:induction false} DecisionIgnoresPolicyOrder(
    src: Source, tgt: Target, ps: seq<ReplicationPolicy>, qs: seq<ReplicationPolicy>)
    requires multiset(ps) == multiset(qs)
    ensures Decided(src, tgt, ps) == Decided(src, tgt, qs)
  {
    var ns, ms := PermittingNames(ps, src, tgt), PermittingNames(qs, src, tgt);
    SameElements(ps, qs);
    PermittingNamesPermute(ps, qs, src, tgt);
    SameElements(ns, ms);
    FurthestIgnoresOrder(ps, qs, src, tgt);
    SortByPermutation(ns, ms, Itself);
  }

  /** Adding policies never denies an allowed target, and keeps every name it matched. */
  lemma {:induction false} AddingPoliciesKeepsAllowed(
    src: Source, tgt: Target, ps: seq<ReplicationPolicy>, more: seq<ReplicationPolicy>)
    requires forall p :: p in ps ==> p in more
    requires Decided(src, tgt, ps).allowed
    ensures Decided(src, tgt, more).allowed
    ensures forall name :: name in Decided(src, tgt, ps).matched ==> name in Decided(src, tgt, more).matched
  {
    AllowedIffOnePermits(src, tgt, ps);
    AllowedIffOnePermits(src, tgt, more);
  }

  // ---- Names ----------------------------------------------------------------

  /** Policies are cluster-scoped API objects, so their names are distinct. */
  ghost predicate DistinctNames(ps: seq<ReplicationPolicy>) {
    forall i, j :: 0 <= i < j < |ps| ==> ps[i].name != ps[j].name
  }

  /** The policies carrying one of the given names, in list order. */
  function ByName(ps: seq<ReplicationPolicy>, names: seq<string>): (r: seq<ReplicationPolicy>)
    ensures forall p :: p in r <==> p in ps && p.name in names
  {
    if ps == [] then []
    else
      var rest := ByName(ps[1..], names);
      assert ps == [ps[0]] + ps[1..];
      if ps[0].name in names then [ps[0]] + rest else rest
  }

  /** Looking the matched names up again yields exactly the permitting policies. */
  lemma {:induction false} MatchedLookupIsPermitting(src: Source, tgt: Target, ps: seq<ReplicationPolicy>)
    requires DistinctNames(ps)
    ensures forall p :: p in ByName(ps, Decided(src, tgt, ps).matched) <==> p in ps && Permits(p, src, tgt)
  {
    AllowedIffOnePermits(src, tgt, ps);
    forall p, q | p in ps && q in ps && p.name == q.name ensures p == q {
      var i :| 0 <= i < |ps| && ps[i] == p;
      var j :| 0 <= j < |ps| && ps[j] == q;
    }
  }
}
