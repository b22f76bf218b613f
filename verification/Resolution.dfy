/** What a request resolves to (internal/controller/request/controller.go), target by target, and how the engine names
    the slots (internal/engine/reconciler.go). */
module Resolution {
  import opened Basics
  import opened Labels
  import opened Policies
  import opened Options
  import opened Targets

  /** The namespace is asked for: listed, or that of the source when the list is empty. */
  predicate Asked(req: Request, src: Source, namespace: string) {
    if req.namespaces == [] then namespace == src.namespace else namespace in req.namespaces
  }

  lemma {:induction false} AskedIsEffective(req: Request, src: Source, namespace: string)
    ensures Asked(req, src, namespace) <==> namespace in EffectiveNamespaces(req, src.namespace)
  {}

  lemma {:induction false} NamespaceTargets(c: ClusterRecord, namespaces: seq<string>, t: Target)
    ensures t in ForNamespaces(c, namespaces)
            <==> t.cluster == c.name && t.clusterLabels == c.labels && t.namespace in namespaces
  {
    var ts := ForNamespaces(c, namespaces);
    if t.cluster == c.name && t.clusterLabels == c.labels && t.namespace in namespaces {
      var i :| 0 <= i < |namespaces| && namespaces[i] == t.namespace;
      assert ts[i] == t;
    }
  }

  /** The candidates are the ready clusters the selector matches, with every namespace. */
  lemma {:induction false} CandidatesAre(
    clusters: seq<ClusterRecord>, req: Request, namespaces: seq<string>, t: Target)
    ensures t in Candidates(clusters, req, namespaces)
            <==> && t.namespace in namespaces
                 && exists c :: && c in clusters && c.name == t.cluster && c.labels == t.clusterLabels
                                && c.ready && Matches(req.selector, c.labels)
  {
    if clusters != [] {
      var front, last := clusters[..|clusters| - 1], clusters[|clusters| - 1];
      CandidatesAre(front, req, namespaces, t);
      NamespaceTargets(last, namespaces, t);
      assert clusters == front + [last];
    }
  }

  lemma {:induction false} SortedMembers(clusters: seq<ClusterRecord>, c: ClusterRecord)
    ensures c in SortBy(clusters, NameOf) <==> c in clusters
  {
    SortBySorts(clusters, NameOf);
    SameElements(SortBy(clusters, NameOf), clusters);
  }

  /** A target is decided exactly when its namespace is asked for and its cluster is ready and matches. */
  lemma {:induction false} DecidedTargets(
    clusters: seq<ClusterRecord>, req: Request, src: Source, ps: seq<ReplicationPolicy>, d: Decision)
    ensures d in ResolutionDecisions(clusters, req, src, ps)
            <==> && d == Decided(src, d.target, ps) && Asked(req, src, d.target.namespace)
                 && exists c :: && c in clusters && c.name == d.target.cluster && c.labels == d.target.clusterLabels
                                && c.ready && Matches(req.selector, c.labels)
  {
    var sorted, namespaces := SortBy(clusters, NameOf), EffectiveNamespaces(req, src.namespace);
    var tgts, ds := Candidates(sorted, req, namespaces), ResolutionDecisions(clusters, req, src, ps);
    AskedIsEffective(req, src, d.target.namespace);
    CandidatesAre(sorted, req, namespaces, d.target);
    forall c ensures c in sorted <==> c in clusters { SortedMembers(clusters, c); }
    if d in ds {
      var i :| 0 <= i < |ds| && ds[i] == d;
      assert d.target == tgts[i];
    }
    if d.target in tgts && d == Decided(src, d.target, ps) {
      var i :| 0 <= i < |tgts| && tgts[i] == d.target;
      assert ds[i] == d;
    }
  }

  /** The ready, selected cluster and the policy by which a pair is served. */
  ghost predicate ServedBy(
    k: NsKey, c: ClusterRecord, p: ReplicationPolicy, clusters: seq<ClusterRecord>, req: Request, src: Source,
    ps: seq<ReplicationPolicy>)
  {
    && c in clusters && c.name == k.cluster && c.ready && Matches(req.selector, c.labels)
    && p in ps && Permits(p, src, Target(c.name, c.labels, k.namespace))
  }

  lemma {:induction false} ServedIsDecided(
    clusters: seq<ClusterRecord>, req: Request, src: Source, ps: seq<ReplicationPolicy>, k: NsKey, c: ClusterRecord,
    p: ReplicationPolicy) returns (d: Decision)
    requires Asked(req, src, k.namespace) && ServedBy(k, c, p, clusters, req, src, ps)
    ensures d in ResolutionDecisions(clusters, req, src, ps) && d.allowed && TargetKey(d.target) == k
  {
    var t := Target(c.name, c.labels, k.namespace);
    d := Decided(src, t, ps);
    AllowedIffOnePermits(src, t, ps);
    DecidedTargets(clusters, req, src, ps, d);
  }

  lemma {:induction false} DecidedIsServed(
    clusters: seq<ClusterRecord>, req: Request, src: Source, ps: seq<ReplicationPolicy>, d: Decision)
    returns (c: ClusterRecord, p: ReplicationPolicy)
    requires d in ResolutionDecisions(clusters, req, src, ps) && d.allowed
    ensures Asked(req, src, d.target.namespace) && ServedBy(TargetKey(d.target), c, p, clusters, req, src, ps)
  {
    DecidedTargets(clusters, req, src, ps, d);
    AllowedIffOnePermits(src, d.target, ps);
    c :| && c in clusters && c.name == d.target.cluster && c.labels == d.target.clusterLabels
         && c.ready && Matches(req.selector, c.labels);
    p :| p in ps && Permits(p, src, d.target);
    assert d.target == Target(c.name, c.labels, d.target.namespace);
  }

  lemma {:induction false} KeyOfDecision(ds: seq<Decision>, k: NsKey)
    ensures k in DecisionKeys(ds) <==> exists d :: d in ds && TargetKey(d.target) == k
  {
    if k in DecisionKeys(ds) {
      var i :| 0 <= i < |ds| && DecisionKeys(ds)[i] == k;
      assert ds[i] in ds;
    }
    if d :| d in ds && TargetKey(d.target) == k {
      var i :| 0 <= i < |ds| && ds[i] == d;
      assert DecisionKeys(ds)[i] == k;
    }
  }

  lemma {:induction false} ResolvedIffServed(
    clusters: seq<ClusterRecord>, req: Request, src: Source, ps: seq<ReplicationPolicy>, k: NsKey)
    ensures k in Pairs(Targets.Resolved(clusters, req, src, ps))
            <==> Asked(req, src, k.namespace) && exists c, p :: ServedBy(k, c, p, clusters, req, src, ps)
  {
    var allowed := Filter(ResolutionDecisions(clusters, req, src, ps), true);
    ResolutionFlattens(clusters, req, src, ps);
    KeyOfDecision(allowed, k);
    if k in DecisionKeys(allowed) {
      var d :| d in allowed && TargetKey(d.target) == k;
      var c, p := DecidedIsServed(clusters, req, src, ps, d);
    }
    if Asked(req, src, k.namespace) && exists c, p :: ServedBy(k, c, p, clusters, req, src, ps) {
      var c, p :| ServedBy(k, c, p, clusters, req, src, ps);
      var d := ServedIsDecided(clusters, req, src, ps, k, c, p);
      assert d in allowed;
    }
  }

  /** A pair is resolved exactly when its namespace is asked for and some policy permits it on a ready cluster of that
      name whose labels the selector matches. */
  lemma {:induction false} ResolvedIff(
    clusters: seq<ClusterRecord>, req: Request, src: Source, ps: seq<ReplicationPolicy>, k: NsKey)
    ensures k in Pairs(Targets.Resolved(clusters, req, src, ps))
            <==> && (if req.namespaces == [] then k.namespace == src.namespace else k.namespace in req.namespaces)
                 && exists c, p :: && c in clusters && c.name == k.cluster && c.ready && Matches(req.selector, c.labels)
                                   && p in ps && Permits(p, src, Target(c.name, c.labels, k.namespace))
  {
    ResolvedIffServed(clusters, req, src, ps, k);
    if c, p :| ServedBy(k, c, p, clusters, req, src, ps) {
      assert c in clusters && p in ps;
    }
    if c, p :| && c in clusters && c.name == k.cluster && c.ready && Matches(req.selector, c.labels)
               && p in ps && Permits(p, src, Target(c.name, c.labels, k.namespace)) {
      assert ServedBy(k, c, p, clusters, req, src, ps);
    }
  }

  /** A candidate is reported as denied exactly when no policy permits it. */
  lemma {:induction false} DeniedIff(
    clusters: seq<ClusterRecord>, req: Request, src: Source, ps: seq<ReplicationPolicy>, d: Decision)
    requires d == Decided(src, d.target, ps)
    ensures d in Filter(ResolutionDecisions(clusters, req, src, ps), false)
            <==> && Asked(req, src, d.target.namespace)
                 && (exists c :: && c in clusters && c.name == d.target.cluster && c.labels == d.target.clusterLabels
                                 && c.ready && Matches(req.selector, c.labels))
                 && forall p :: p in ps ==> !Permits(p, src, d.target)
  {
    DecidedTargets(clusters, req, src, ps, d);
    AllowedIffOnePermits(src, d.target, ps);
  }

  // ---- Slots -------------------------------------------------------------------------------------

  lemma {:induction false} SlotsOfTarget(r: ResolvedTarget, sourceName: string, s: Slot)
    ensures s in SlotsFor(r, sourceName)
            <==> && s.cluster == r.cluster && s.namespace in r.namespaces
                 && s.name == (if r.targetName != "" then r.targetName else sourceName)
  {
    var ss := SlotsFor(r, sourceName);
    if s in ss {
      var i :| 0 <= i < |ss| && ss[i] == s;
    }
    if && s.cluster == r.cluster && s.namespace in r.namespaces
       && s.name == (if r.targetName != "" then r.targetName else sourceName) {
      var i :| 0 <= i < |r.namespaces| && r.namespaces[i] == s.namespace;
      assert ss[i] == s;
    }
  }

  /** The slots of a Replication: one per listed namespace, named by its target, or else like the source. */
  lemma {:induction false} SlotsIff(rs: seq<ResolvedTarget>, sourceName: string, s: Slot)
    ensures s in SlotsOf(rs, sourceName)
            <==> exists r :: && r in rs && s.cluster == r.cluster && s.namespace in r.namespaces
                             && s.name == (if r.targetName != "" then r.targetName else sourceName)
  {
    if rs != [] {
      var front, last := rs[..|rs| - 1], rs[|rs| - 1];
      assert rs == front + [last];
      SlotsIff(front, sourceName, s);
      SlotsOfTarget(last, sourceName, s);
    }
  }

  lemma {:induction false} PairsIff(rs: seq<ResolvedTarget>, k: NsKey)
    ensures k in Pairs(rs) <==> exists r :: r in rs && r.cluster == k.cluster && k.namespace in r.namespaces
  {
    if rs != [] {
      var front, last := rs[..|rs| - 1], rs[|rs| - 1];
      assert rs == front + [last];
      PairsIff(front, k);
      var ks := PairsOf(last);
      if k in ks {
        var i :| 0 <= i < |ks| && ks[i] == k;
      }
      if last.cluster == k.cluster && k.namespace in last.namespaces {
        var i :| 0 <= i < |last.namespaces| && last.namespaces[i] == k.namespace;
        assert ks[i] == k;
      }
    }
  }

  /** The slots the engine makes of a resolution: one at every resolved pair, under the requested name, or else the
      source's. */
  lemma {:induction false} ResolvedSlotsIff(
    clusters: seq<ClusterRecord>, req: Request, src: Source, ps: seq<ReplicationPolicy>, sourceName: string, s: Slot)
    ensures s in SlotsOf(Targets.Resolved(clusters, req, src, ps), sourceName)
            <==> && NsKey(s.cluster, s.namespace) in Pairs(Targets.Resolved(clusters, req, src, ps))
                 && s.name == (if req.targetName != "" then req.targetName else sourceName)
  {
    var rs := Targets.Resolved(clusters, req, src, ps);
    ResolutionFlattens(clusters, req, src, ps);
    SlotsIff(rs, sourceName, s);
    PairsIff(rs, NsKey(s.cluster, s.namespace));
  }
}
