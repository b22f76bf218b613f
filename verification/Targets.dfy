/** Target resolution at request time (internal/controller/request/controller.go) and
    its expansion back into slots by the engine (internal/engine/reconciler.go). */
module Targets {
  import opened Basics
  import opened Labels
  import opened Policies
  import opened Options

  datatype ClusterRecord = ClusterRecord(name: string, labels: LabelSet, ready: bool)

  /** A parsed annotation request; an absent selector parses to Nothing. */
  datatype Request = Request(selector: Selector, namespaces: seq<string>, targetName: string)

  datatype ResolvedTarget = ResolvedTarget(cluster: string, targetName: string, namespaces: seq<string>)

  function NameOf(c: ClusterRecord): string { c.name }

  function EffectiveNamespaces(req: Request, sourceNamespace: string): (r: seq<string>) {
    if |req.namespaces| > 0 then req.namespaces else [sourceNamespace]
  }

  predicate Selected(req: Request, c: ClusterRecord) {
    c.ready && Matches(req.selector, c.labels)
  }

  function ForNamespaces(c: ClusterRecord, namespaces: seq<string>): (r: seq<Target>)
    ensures |r| == |namespaces|
  {
    seq(|namespaces|, i requires 0 <= i < |namespaces| => Target(c.name, c.labels, namespaces[i]))
  }

  /** The selected clusters crossed with the namespaces. */
  function Candidates(clusters: seq<ClusterRecord>, req: Request, namespaces: seq<string>): seq<Target> {
    if clusters == [] then []
    else
      var last := clusters[|clusters| - 1];
      Candidates(clusters[..|clusters| - 1], req, namespaces)
      + (if Selected(req, last) then ForNamespaces(last, namespaces) else [])
  }

  function Filter(ds: seq<Decision>, allowed: bool): (r: seq<Decision>)
    ensures forall d :: d in r <==> d in ds && d.allowed == allowed
  {
    if ds == [] then []
    else
      var d := ds[|ds| - 1];
      assert ds == ds[..|ds| - 1] + [d];
      Filter(ds[..|ds| - 1], allowed) + (if d.allowed == allowed then [d] else [])
  }

  function IndexOf(rs: seq<ResolvedTarget>, cluster: string): (i: nat)
    ensures i <= |rs|
    ensures i < |rs| ==> rs[i].cluster == cluster
    ensures forall j :: 0 <= j < i ==> rs[j].cluster != cluster
  {
    if rs == [] then 0
    else if rs[0].cluster == cluster then 0
    else 1 + IndexOf(rs[1..], cluster)
  }

  function AddTarget(rs: seq<ResolvedTarget>, t: Target, targetName: string): seq<ResolvedTarget> {
    var i := IndexOf(rs, t.cluster);
    if i < |rs| then rs[i := rs[i].(namespaces := rs[i].namespaces + [t.namespace])]
    else rs + [ResolvedTarget(t.cluster, targetName, [t.namespace])]
  }

  /** Groups decisions per cluster, clusters in order of first appearance. */
  function Grouped(ds: seq<Decision>, targetName: string): seq<ResolvedTarget> {
    if ds == [] then []
    else AddTarget(Grouped(ds[..|ds| - 1], targetName), ds[|ds| - 1].target, targetName)
  }

  function ResolutionDecisions(
    clusters: seq<ClusterRecord>, req: Request, src: Source, ps: seq<ReplicationPolicy>): seq<Decision>
  {
    var tgts := Candidates(SortBy(clusters, NameOf), req, EffectiveNamespaces(req, src.namespace));
    Evaluated(src, tgts, ps)
  }

  function Resolved(
    clusters: seq<ClusterRecord>, req: Request, src: Source, ps: seq<ReplicationPolicy>): seq<ResolvedTarget>
  {
    Grouped(Filter(ResolutionDecisions(clusters, req, src, ps), true), req.targetName)
  }

  ghost predicate DistinctClusters(rs: seq<ResolvedTarget>) {
    forall i, j :: 0 <= i < j < |rs| ==> rs[i].cluster != rs[j].cluster
  }

  method ListCandidates(sorted: seq<ClusterRecord>, req: Request, namespaces: seq<string>) returns (tgts: seq<Target>)
    ensures tgts == Candidates(sorted, req, namespaces)
  {
    tgts := [];
    for i := 0 to |sorted|
      invariant tgts == Candidates(sorted[..i], req, namespaces)
    {
      assert sorted[..i + 1][..i] == sorted[..i];
      var c := sorted[i];
      if Selected(req, c) {
        ghost var before := tgts;
        for j := 0 to |namespaces|
          invariant tgts == before + ForNamespaces(c, namespaces)[..j]
        {
          tgts := tgts + [Target(c.name, c.labels, namespaces[j])];
        }
      }
    }
    assert sorted[..|sorted|] == sorted;
  }

  method GroupByCluster(allowed: seq<Decision>, targetName: string) returns (resolved: seq<ResolvedTarget>)
    ensures resolved == Grouped(allowed, targetName)
    ensures DistinctClusters(resolved)
  {
    resolved := [];
    var byCluster: map<string, nat> := map[];
    for i := 0 to |allowed|
      invariant resolved == Grouped(allowed[..i], targetName)
      invariant forall c :: c in byCluster ==> byCluster[c] < |resolved| && resolved[byCluster[c]].cluster == c
      invariant forall j :: 0 <= j < |resolved| ==>
                  resolved[j].cluster in byCluster && byCluster[resolved[j].cluster] == j
    {
      assert allowed[..i + 1][..i] == allowed[..i];
      var t := allowed[i].target;
      ghost var before := resolved;
      if t.cluster !in byCluster {
        resolved := resolved + [ResolvedTarget(t.cluster, targetName, [])];
        byCluster := byCluster[t.cluster := |resolved| - 1];
      }
      var idx := byCluster[t.cluster];
      assert idx == |before| ==> resolved[idx].namespaces + [t.namespace] == [t.namespace];
      resolved := resolved[idx := resolved[idx].(namespaces := resolved[idx].namespaces + [t.namespace])];
      assert idx == IndexOf(before, t.cluster);
      assert resolved == AddTarget(before, t, targetName);
    }
    assert allowed[..|allowed|] == allowed;
  }

  method ResolveTargets(
    clusters: seq<ClusterRecord>, req: Request, src: Source, ps: seq<ReplicationPolicy>)
    returns (resolved: seq<ResolvedTarget>, denied: seq<Decision>)
    ensures resolved == Resolved(clusters, req, src, ps)
    ensures denied == Filter(ResolutionDecisions(clusters, req, src, ps), false)
    ensures DistinctClusters(resolved)
  {
    var tgts := ListCandidates(SortBy(clusters, NameOf), req, EffectiveNamespaces(req, src.namespace));
    var ds := Evaluate(src, tgts, ps);
    resolved := GroupByCluster(Filter(ds, true), req.targetName);
    denied := Filter(ds, false);
  }

  // ---- The engine's view ------------------------------------------------------

  datatype Slot = Slot(cluster: string, namespace: string, name: string)

  /** The first record with the name. */
  function LookupCluster(clusters: seq<ClusterRecord>, name: string): Option<ClusterRecord> {
    if clusters == [] then None
    else if clusters[0].name == name then Some(clusters[0])
    else LookupCluster(clusters[1..], name)
  }

  function LabelsOf(clusters: seq<ClusterRecord>, name: string): LabelSet {
    var rec := LookupCluster(clusters, name);
    if rec.Some? then rec.value.labels else map[]
  }

  function PairsOf(r: ResolvedTarget): (ks: seq<NsKey>)
    ensures |ks| == |r.namespaces|
  {
    seq(|r.namespaces|, i requires 0 <= i < |r.namespaces| => NsKey(r.cluster, r.namespaces[i]))
  }

  /** The (cluster, namespace) pairs of a resolution, in order. */
  function Pairs(rs: seq<ResolvedTarget>): seq<NsKey> {
    if rs == [] then [] else Pairs(rs[..|rs| - 1]) + PairsOf(rs[|rs| - 1])
  }

  /** The policy request the engine derives from the pairs. */
  function EngineTargets(pairs: seq<NsKey>, clusters: seq<ClusterRecord>): (r: seq<Target>)
    ensures |r| == |pairs|
  {
    seq(|pairs|, i requires 0 <= i < |pairs| =>
      Target(pairs[i].cluster, LabelsOf(clusters, pairs[i].cluster), pairs[i].namespace))
  }

  function SlotsFor(r: ResolvedTarget, sourceName: string): (ss: seq<Slot>)
    ensures |ss| == |r.namespaces|
  {
    var name := if r.targetName == "" then sourceName else r.targetName;
    seq(|r.namespaces|, i requires 0 <= i < |r.namespaces| => Slot(r.cluster, r.namespaces[i], name))
  }

  function SlotsOf(rs: seq<ResolvedTarget>, sourceName: string): seq<Slot> {
    if rs == [] then [] else SlotsOf(rs[..|rs| - 1], sourceName) + SlotsFor(rs[|rs| - 1], sourceName)
  }

  method FlattenTarget(t: ResolvedTarget, sourceName: string, clusters: seq<ClusterRecord>)
    returns (slots: seq<Slot>, tgts: seq<Target>)
    ensures slots == SlotsFor(t, sourceName)
    ensures tgts == EngineTargets(PairsOf(t), clusters)
  {
    var name := if t.targetName == "" then sourceName else t.targetName;
    var labels := LabelsOf(clusters, t.cluster);
    slots, tgts := [], [];
    for j := 0 to |t.namespaces|
      invariant slots == SlotsFor(t, sourceName)[..j]
      invariant tgts == EngineTargets(PairsOf(t), clusters)[..j]
    {
      slots := slots + [Slot(t.cluster, t.namespaces[j], name)];
      tgts := tgts + [Target(t.cluster, labels, t.namespaces[j])];
    }
  }

  method FlattenTargets(rs: seq<ResolvedTarget>, sourceName: string, clusters: seq<ClusterRecord>)
    returns (slots: seq<Slot>, tgts: seq<Target>)
    ensures slots == SlotsOf(rs, sourceName)
    ensures tgts == EngineTargets(Pairs(rs), clusters)
  {
    slots, tgts := [], [];
    for i := 0 to |rs|
      invariant slots == SlotsOf(rs[..i], sourceName)
      invariant tgts == EngineTargets(Pairs(rs[..i]), clusters)
    {
      var ss, ts := FlattenTarget(rs[i], sourceName, clusters);
      FlattenOneMore(rs, i, sourceName, clusters);
      slots, tgts := slots + ss, tgts + ts;
    }
    assert rs[..|rs|] == rs;
  }

  lemma {:induction false} FlattenOneMore(
    rs: seq<ResolvedTarget>, i: nat, sourceName: string, clusters: seq<ClusterRecord>)
    requires i < |rs|
    ensures SlotsOf(rs[..i + 1], sourceName) == SlotsOf(rs[..i], sourceName) + SlotsFor(rs[i], sourceName)
    ensures EngineTargets(Pairs(rs[..i + 1]), clusters)
            == EngineTargets(Pairs(rs[..i]), clusters) + EngineTargets(PairsOf(rs[i]), clusters)
  {
    assert rs[..i + 1][..i] == rs[..i];
  }

  lemma {:induction false} SlotsFollowPairs(rs: seq<ResolvedTarget>, sourceName: string)
    ensures |SlotsOf(rs, sourceName)| == |Pairs(rs)|
    ensures forall i :: 0 <= i < |Pairs(rs)| ==>
              && SlotsOf(rs, sourceName)[i].cluster == Pairs(rs)[i].cluster
              && SlotsOf(rs, sourceName)[i].namespace == Pairs(rs)[i].namespace
  {
    if rs != [] { SlotsFollowPairs(rs[..|rs| - 1], sourceName); }
  }

  // ---- Agreement --------------------------------------------------------------

  function DecisionKeys(ds: seq<Decision>): (r: seq<NsKey>)
    ensures |r| == |ds|
  {
    seq(|ds|, i requires 0 <= i < |ds| => TargetKey(ds[i].target))
  }

  /** Decisions about one cluster stand together. */
  ghost predicate Contiguous(ds: seq<Decision>) {
    forall i, j, k :: 0 <= i < j < k < |ds| && ds[i].target.cluster == ds[k].target.cluster
                      ==> ds[j].target.cluster == ds[i].target.cluster
  }

  lemma {:induction false} PairsAppend(rs: seq<ResolvedTarget>, t: ResolvedTarget)
    ensures Pairs(rs + [t]) == Pairs(rs) + PairsOf(t)
  {
    assert (rs + [t])[..|rs|] == rs;
  }

  /** What grouping keeps as it goes: the last group holds the last decision's cluster. */
  ghost predicate GroupingInvariant(ds: seq<Decision>, rs: seq<ResolvedTarget>, targetName: string) {
    && Pairs(rs) == DecisionKeys(ds)
    && DistinctClusters(rs)
    && (forall i :: 0 <= i < |rs| ==> rs[i].targetName == targetName && rs[i].namespaces != [])
    && (forall i :: 0 <= i < |rs| ==> exists j :: 0 <= j < |ds| && ds[j].target.cluster == rs[i].cluster)
    && (ds != [] ==> rs != [] && rs[|rs| - 1].cluster == ds[|ds| - 1].target.cluster)
  }

  lemma {:induction false} GrowLastGroup(
    rs: seq<ResolvedTarget>, namespace: string) returns (grown: seq<ResolvedTarget>)
    requires rs != []
    ensures var r := rs[|rs| - 1];
            && grown == rs[|rs| - 1 := r.(namespaces := r.namespaces + [namespace])]
            && Pairs(grown) == Pairs(rs) + [NsKey(r.cluster, namespace)]
  {
    var front, r := rs[..|rs| - 1], rs[|rs| - 1];
    var r' := r.(namespaces := r.namespaces + [namespace]);
    grown := front + [r'];
    assert rs == front + [r];
    PairsAppend(front, r);
    PairsAppend(front, r');
    assert PairsOf(r') == PairsOf(r) + [NsKey(r.cluster, namespace)];
  }

  lemma {:induction false} GroupingGrows(ds: seq<Decision>, rs: seq<ResolvedTarget>, targetName: string, d: Decision)
    requires GroupingInvariant(ds, rs, targetName) && Contiguous(ds + [d])
    requires IndexOf(rs, d.target.cluster) < |rs|
    ensures GroupingInvariant(ds + [d], AddTarget(rs, d.target, targetName), targetName)
  {
    var t := d.target;
    var i := IndexOf(rs, t.cluster);
    var a :| 0 <= a < |ds| && ds[a].target.cluster == rs[i].cluster;
    var all := ds + [d];
    assert all[a].target.cluster == t.cluster && all[|ds|] == d && all[|ds| - 1] == ds[|ds| - 1];
    assert a < |ds| - 1 ==> all[|ds| - 1].target.cluster == t.cluster;
    assert i == |rs| - 1;
    var grown := GrowLastGroup(rs, t.namespace);
    assert DecisionKeys(all) == DecisionKeys(ds) + [TargetKey(t)];
    forall m | 0 <= m < |rs| ensures exists j :: 0 <= j < |all| && all[j].target.cluster == grown[m].cluster {
      var j :| 0 <= j < |ds| && ds[j].target.cluster == rs[m].cluster;
      assert all[j] == ds[j];
    }
  }

  lemma {:induction false} GroupingOpens(ds: seq<Decision>, rs: seq<ResolvedTarget>, targetName: string, d: Decision)
    requires GroupingInvariant(ds, rs, targetName)
    requires IndexOf(rs, d.target.cluster) == |rs|
    ensures GroupingInvariant(ds + [d], AddTarget(rs, d.target, targetName), targetName)
  {
    var t := d.target;
    var all := ds + [d];
    PairsAppend(rs, ResolvedTarget(t.cluster, targetName, [t.namespace]));
    assert DecisionKeys(all) == DecisionKeys(ds) + [TargetKey(t)];
    forall m | 0 <= m < |rs| ensures exists j :: 0 <= j < |all| && all[j].target.cluster == rs[m].cluster {
      var j :| 0 <= j < |ds| && ds[j].target.cluster == rs[m].cluster;
      assert all[j] == ds[j];
    }
    assert all[|ds|] == d;
  }

  lemma {:induction false} GroupingSteps(ds: seq<Decision>, rs: seq<ResolvedTarget>, targetName: string, d: Decision)
    requires GroupingInvariant(ds, rs, targetName) && Contiguous(ds + [d])
    ensures GroupingInvariant(ds + [d], AddTarget(rs, d.target, targetName), targetName)
  {
    if IndexOf(rs, d.target.cluster) < |rs| {
      GroupingGrows(ds, rs, targetName, d);
    } else {
      GroupingOpens(ds, rs, targetName, d);
    }
  }

  lemma {:induction false} ContiguousFront(ds: seq<Decision>)
    requires Contiguous(ds) && ds != []
    ensures Contiguous(ds[..|ds| - 1]) && ds == ds[..|ds| - 1] + [ds[|ds| - 1]]
  {}

  /** Grouping loses nothing and keeps the order: flattening a grouping gives back the decisions. */
  lemma {:induction false} PairsOfGrouped(ds: seq<Decision>, targetName: string)
    requires Contiguous(ds)
    ensures GroupingInvariant(ds, Grouped(ds, targetName), targetName)
  {
    if ds != [] {
      ContiguousFront(ds);
      PairsOfGrouped(ds[..|ds| - 1], targetName);
      GroupingSteps(ds[..|ds| - 1], Grouped(ds[..|ds| - 1], targetName), targetName, ds[|ds| - 1]);
    }
  }

  ghost predicate NamesAscend(ts: seq<Target>) {
    forall i, j :: 0 <= i < j < |ts| ==> Leq(ts[i].cluster, ts[j].cluster)
  }

  lemma {:induction false} CandidatesAscend(clusters: seq<ClusterRecord>, req: Request, namespaces: seq<string>)
    requires SortedBy(clusters, NameOf)
    ensures NamesAscend(Candidates(clusters, req, namespaces))
    ensures forall t :: t in Candidates(clusters, req, namespaces) ==>
              exists c :: c in clusters && Selected(req, c) && c.name == t.cluster && c.labels == t.clusterLabels
    ensures forall t :: t in Candidates(clusters, req, namespaces) ==> t.namespace in namespaces
  {
    if clusters != [] {
      var front, last := clusters[..|clusters| - 1], clusters[|clusters| - 1];
      CandidatesAscend(front, req, namespaces);
      assert clusters == front + [last];
      LeqReflexive(last.name);
      var ts := Candidates(front, req, namespaces);
      forall i | 0 <= i < |ts| ensures Leq(ts[i].cluster, last.name) {
        assert ts[i] in ts;
        var c :| c in front && c.name == ts[i].cluster;
        var a :| 0 <= a < |front| && front[a] == c;
        assert Leq(NameOf(clusters[a]), NameOf(clusters[|front|]));
      }
    }
  }

  lemma {:induction false} FilterAscends(ds: seq<Decision>, allowed: bool)
    requires forall i, j :: 0 <= i < j < |ds| ==> Leq(ds[i].target.cluster, ds[j].target.cluster)
    ensures forall i, j :: 0 <= i < j < |Filter(ds, allowed)| ==>
              Leq(Filter(ds, allowed)[i].target.cluster, Filter(ds, allowed)[j].target.cluster)
  {
    if ds != [] {
      var front := ds[..|ds| - 1];
      FilterAscends(front, allowed);
      var r := Filter(front, allowed);
      forall i | 0 <= i < |r| ensures Leq(r[i].target.cluster, ds[|ds| - 1].target.cluster) {
        assert r[i] in r;
        var a :| 0 <= a < |front| && front[a] == r[i];
      }
    }
  }

  lemma {:induction false} AscendingIsContiguous(ds: seq<Decision>)
    requires forall i, j :: 0 <= i < j < |ds| ==> Leq(ds[i].target.cluster, ds[j].target.cluster)
    ensures Contiguous(ds)
  {
    forall i, j, k | 0 <= i < j < k < |ds| && ds[i].target.cluster == ds[k].target.cluster
      ensures ds[j].target.cluster == ds[i].target.cluster
    {
      LeqAntisymmetric(ds[i].target.cluster, ds[j].target.cluster);
    }
  }

  /** The resolution does not depend on the order in which discovery lists the clusters. */
  lemma {:induction false} ResolutionIgnoresListOrder(
    clusters: seq<ClusterRecord>, listed: seq<ClusterRecord>, req: Request, src: Source, ps: seq<ReplicationPolicy>)
    requires multiset(clusters) == multiset(listed) && Separates(NameOf, multiset(clusters))
    ensures Resolved(clusters, req, src, ps) == Resolved(listed, req, src, ps)
  {
    SortByPermutation(clusters, listed, NameOf);
  }

  /** Flattened, a resolution is exactly the allowed decisions in order, each cluster listed once. */
  lemma {:induction false} ResolutionFlattens(
    clusters: seq<ClusterRecord>, req: Request, src: Source, ps: seq<ReplicationPolicy>)
    ensures Pairs(Resolved(clusters, req, src, ps))
            == DecisionKeys(Filter(ResolutionDecisions(clusters, req, src, ps), true))
    ensures DistinctClusters(Resolved(clusters, req, src, ps))
    ensures forall r :: r in Resolved(clusters, req, src, ps) ==> r.targetName == req.targetName && r.namespaces != []
  {
    SortBySorts(clusters, NameOf);
    CandidatesAscend(SortBy(clusters, NameOf), req, EffectiveNamespaces(req, src.namespace));
    var ds := ResolutionDecisions(clusters, req, src, ps);
    FilterAscends(ds, true);
    AscendingIsContiguous(Filter(ds, true));
    PairsOfGrouped(Filter(ds, true), req.targetName);
  }

  lemma {:induction false} LookupFinds(clusters: seq<ClusterRecord>, c: ClusterRecord)
    requires Separates(NameOf, multiset(clusters)) && c in clusters
    ensures LookupCluster(clusters, c.name) == Some(c)
  {
    assert c in multiset(clusters) && clusters[0] in multiset(clusters);
    if clusters[0].name == c.name {
      assert NameOf(clusters[0]) == NameOf(c);
    } else {
      assert clusters == [clusters[0]] + clusters[1..];
      assert forall x :: x in multiset(clusters[1..]) ==> x in multiset(clusters);
      LookupFinds(clusters[1..], c);
    }
  }

  /** What was allowed about a target the request resolved to. */
  lemma {:induction false} AllowedDecisionSource(
    clusters: seq<ClusterRecord>, req: Request, src: Source, ps: seq<ReplicationPolicy>, d: Decision)
    requires d in Filter(ResolutionDecisions(clusters, req, src, ps), true)
    ensures d.allowed && d == Decided(src, d.target, ps)
    ensures d.target.namespace in EffectiveNamespaces(req, src.namespace)
    ensures exists c ::
              c in clusters && Selected(req, c) && c.name == d.target.cluster && c.labels == d.target.clusterLabels
  {
    var sorted := SortBy(clusters, NameOf);
    var namespaces := EffectiveNamespaces(req, src.namespace);
    var tgts := Candidates(sorted, req, namespaces);
    SortBySorts(clusters, NameOf);
    CandidatesAscend(sorted, req, namespaces);
    var ds := ResolutionDecisions(clusters, req, src, ps);
    var i :| 0 <= i < |ds| && ds[i] == d;
    assert d.target == tgts[i] && tgts[i] in tgts;
    var c :| c in sorted && Selected(req, c) && c.name == tgts[i].cluster && c.labels == tgts[i].clusterLabels;
    SameElements(sorted, clusters);
  }

  /** Under the same policies, labels and discovery the engine's own evaluation denies no resolved target. */
  lemma {:induction false} EngineAgreesWithRequest(
    clusters: seq<ClusterRecord>, req: Request, src: Source, ps: seq<ReplicationPolicy>)
    requires Separates(NameOf, multiset(clusters))
    ensures var tgts := EngineTargets(Pairs(Resolved(clusters, req, src, ps)), clusters);
            forall d :: d in Evaluated(src, tgts, ps) ==> d.allowed
  {
    var rs := Resolved(clusters, req, src, ps);
    var allowed := Filter(ResolutionDecisions(clusters, req, src, ps), true);
    var tgts := EngineTargets(Pairs(rs), clusters);
    var ds := Evaluated(src, tgts, ps);
    ResolutionFlattens(clusters, req, src, ps);
    forall i | 0 <= i < |ds| ensures ds[i].allowed {
      var d := allowed[i];
      AllowedDecisionSource(clusters, req, src, ps, d);
      var c :| c in clusters && c.name == d.target.cluster && c.labels == d.target.clusterLabels;
      LookupFinds(clusters, c);
      assert Pairs(rs)[i] == TargetKey(d.target);
      assert tgts[i] == d.target;
    }
  }

  // ---- Slots are distinct -------------------------------------------------------

  /** Discovery keeps one record per name. */
  ghost predicate OneRecordPerName(clusters: seq<ClusterRecord>) {
    forall i, j :: 0 <= i < j < |clusters| ==> clusters[i].name != clusters[j].name
  }

  ghost predicate DistinctPairs(rs: seq<ResolvedTarget>) { NoDuplicates(Pairs(rs)) }

  lemma {:induction false} InsertKeepsNames(c: ClusterRecord, cs: seq<ClusterRecord>)
    requires OneRecordPerName(cs) && forall x :: x in cs ==> x.name != c.name
    ensures OneRecordPerName(Insert(c, cs, NameOf))
    ensures forall x :: x in Insert(c, cs, NameOf) <==> x == c || x in cs
  {
    if cs != [] && !Leq(c.name, cs[0].name) {
      assert cs == [cs[0]] + cs[1..];
      InsertKeepsNames(c, cs[1..]);
      var tail := Insert(c, cs[1..], NameOf);
      forall i | 0 <= i < |tail| ensures tail[i].name != cs[0].name {
        assert tail[i] in tail;
        if tail[i] != c { var a :| 0 <= a < |cs[1..]| && cs[1..][a] == tail[i]; }
      }
    } else {
      assert forall i :: 0 <= i < |cs| ==> cs[i] in cs;
    }
  }

  lemma {:induction false} SortingKeepsNames(cs: seq<ClusterRecord>)
    requires OneRecordPerName(cs)
    ensures OneRecordPerName(SortBy(cs, NameOf))
    ensures forall x :: x in SortBy(cs, NameOf) <==> x in cs
  {
    if cs != [] {
      SortingKeepsNames(cs[1..]);
      assert cs == [cs[0]] + cs[1..];
      InsertKeepsNames(cs[0], SortBy(cs[1..], NameOf));
    }
  }

  ghost predicate OncePerKey(ts: seq<Target>) {
    forall i, j :: 0 <= i < j < |ts| ==> TargetKey(ts[i]) != TargetKey(ts[j])
  }

  lemma {:induction false} CandidatesNameClusters(clusters: seq<ClusterRecord>, req: Request, namespaces: seq<string>)
    ensures forall t :: t in Candidates(clusters, req, namespaces) ==> exists c :: c in clusters && c.name == t.cluster
  {
    if clusters != [] {
      var front, last := clusters[..|clusters| - 1], clusters[|clusters| - 1];
      CandidatesNameClusters(front, req, namespaces);
      assert clusters == front + [last];
    }
  }

  lemma {:induction false} AppendOncePerKey(ts: seq<Target>, c: ClusterRecord, namespaces: seq<string>)
    requires OncePerKey(ts) && NoDuplicates(namespaces) && forall i :: 0 <= i < |ts| ==> ts[i].cluster != c.name
    ensures OncePerKey(ts + ForNamespaces(c, namespaces))
  {}

  lemma {:induction false} CandidatesDistinct(clusters: seq<ClusterRecord>, req: Request, namespaces: seq<string>)
    requires OneRecordPerName(clusters) && NoDuplicates(namespaces)
    ensures OncePerKey(Candidates(clusters, req, namespaces))
  {
    if clusters != [] {
      var front, last := clusters[..|clusters| - 1], clusters[|clusters| - 1];
      CandidatesDistinct(front, req, namespaces);
      CandidatesNameClusters(front, req, namespaces);
      var ts := Candidates(front, req, namespaces);
      forall i | 0 <= i < |ts| ensures ts[i].cluster != last.name {
        assert ts[i] in ts;
        var c :| c in front && c.name == ts[i].cluster;
        var a :| 0 <= a < |front| && front[a] == c;
      }
      AppendOncePerKey(ts, last, namespaces);
      assert ts + [] == ts;
    }
  }

  lemma {:induction false} FilterKeepsDistinct(ds: seq<Decision>, allowed: bool)
    requires DistinctTargets(ds)
    ensures DistinctTargets(Filter(ds, allowed))
  {
    if ds != [] {
      var front := ds[..|ds| - 1];
      FilterKeepsDistinct(front, allowed);
      var r := Filter(front, allowed);
      forall i | 0 <= i < |r| ensures TargetKey(r[i].target) != TargetKey(ds[|ds| - 1].target) {
        assert r[i] in r;
        var a :| 0 <= a < |front| && front[a] == r[i];
      }
    }
  }

  /** A request that names no namespace twice never resolves to one (cluster, namespace) pair twice. */
  lemma {:induction false} ResolutionIsDistinct(
    clusters: seq<ClusterRecord>, req: Request, src: Source, ps: seq<ReplicationPolicy>)
    requires OneRecordPerName(clusters) && NoDuplicates(req.namespaces)
    ensures DistinctPairs(Resolved(clusters, req, src, ps))
  {
    var sorted, namespaces := SortBy(clusters, NameOf), EffectiveNamespaces(req, src.namespace);
    SortingKeepsNames(clusters);
    CandidatesDistinct(sorted, req, namespaces);
    var ds := ResolutionDecisions(clusters, req, src, ps);
    FilterKeepsDistinct(ds, true);
    ResolutionFlattens(clusters, req, src, ps);
  }
}
