/** What an admitted request can count on: the admission check (internal/webhook/check.go) against what the request
    controller resolves later (internal/controller/request/controller.go). */
module Admission {
  import opened Basics
  import opened Labels
  import opened Policies
  import opened Options
  import opened Webhook
  import opened Comparisons
  import N = Resolution
  import T = Targets

  /** Some cluster records and some labels of the source namespace let the request reach the namespace. */
  ghost predicate Servable(
    ps: seq<ReplicationPolicy>, kind: string, namespace: string, req: T.Request, tns: string)
  {
    exists clusters, labels, name :: Resolves(clusters, labels, name, ps, kind, namespace, req, tns)
  }

  ghost predicate Resolves(
    clusters: seq<T.ClusterRecord>, labels: LabelSet, name: string, ps: seq<ReplicationPolicy>, kind: string,
    namespace: string, req: T.Request, tns: string)
  {
    NsKey(name, tns) in T.Pairs(T.Resolved(clusters, req, Source(kind, namespace, labels), ps))
  }

  ghost predicate Satisfiable(spec: SelectorSpec) { exists ls :: SpecMatches(spec, ls) }

  /** One policy covers the source under some labels of its namespace, and shares a label set with the request. */
  ghost predicate CanServe(p: ReplicationPolicy, kind: string, namespace: string, selector: Selector, tns: string) {
    && (namespace in p.sourceNamespaces || (p.namespaceSelector.Some? && Satisfiable(p.namespaceSelector.value)))
    && kind in p.kinds && tns in p.targetNamespaces
    && p.clusterSelector.Valid? && ShareLabels(selector, p.clusterSelector.selector)
  }

  lemma {:induction false} CanServeResolves(
    ps: seq<ReplicationPolicy>, kind: string, namespace: string, req: T.Request, tns: string, p: ReplicationPolicy)
    requires p in ps && CanServe(p, kind, namespace, req.selector, tns) && tns in T.EffectiveNamespaces(req, namespace)
    ensures Servable(ps, kind, namespace, req, tns)
  {
    var ls :| Matches(req.selector, ls) && Matches(p.clusterSelector.selector, ls);
    var labels: LabelSet := map[];
    if namespace !in p.sourceNamespaces {
      labels :| SpecMatches(p.namespaceSelector.value, labels);
    }
    var src, c := Source(kind, namespace, labels), T.ClusterRecord("", ls, true);
    N.AskedIsEffective(req, src, tns);
    assert Permits(p, src, Target(c.name, c.labels, tns));
    assert N.ServedBy(NsKey("", tns), c, p, [c], req, src, ps);
    N.ResolvedIffServed([c], req, src, ps, NsKey("", tns));
    assert Resolves([c], labels, "", ps, kind, namespace, req, tns);
  }

  lemma {:induction false} ResolvedCanServe(
    clusters: seq<T.ClusterRecord>, labels: LabelSet, name: string, ps: seq<ReplicationPolicy>, kind: string,
    namespace: string, req: T.Request, tns: string) returns (p: ReplicationPolicy)
    requires Resolves(clusters, labels, name, ps, kind, namespace, req, tns)
    ensures p in ps && CanServe(p, kind, namespace, req.selector, tns)
  {
    var src := Source(kind, namespace, labels);
    N.ResolvedIffServed(clusters, req, src, ps, NsKey(name, tns));
    var c, q :| N.ServedBy(NsKey(name, tns), c, q, clusters, req, src, ps);
    assert Matches(req.selector, c.labels) && Matches(q.clusterSelector.selector, c.labels);
    p := q;
  }

  /** A requested namespace can be served exactly when one policy can serve it. */
  lemma {:induction false} ServableIff(
    ps: seq<ReplicationPolicy>, kind: string, namespace: string, req: T.Request, tns: string)
    requires tns in T.EffectiveNamespaces(req, namespace)
    ensures Servable(ps, kind, namespace, req, tns)
            <==> exists p :: p in ps && CanServe(p, kind, namespace, req.selector, tns)
  {
    if Servable(ps, kind, namespace, req, tns) {
      var clusters, labels, name :| Resolves(clusters, labels, name, ps, kind, namespace, req, tns);
      var p := ResolvedCanServe(clusters, labels, name, ps, kind, namespace, req, tns);
    }
    if p :| p in ps && CanServe(p, kind, namespace, req.selector, tns) {
      CanServeResolves(ps, kind, namespace, req, tns, p);
    }
  }

  // ---- When the check decides --------------------------------------------------------------------

  /** The comparisons on every compared key leave room; without numeric operators there is none. */
  ghost predicate RoomFor(a: Selector, b: Selector) {
    a.Requirements? && b.Requirements? ==>
      forall key :: Compared(a.reqs + b.reqs, key) ==> LeavesRoom(a.reqs + b.reqs, key)
  }

  /** Nothing the check does not look into stands in the way: the namespace selector can match, and the comparisons
      can be met. */
  ghost predicate Plain(p: ReplicationPolicy, namespace: string, selector: Selector) {
    && (namespace !in p.sourceNamespaces && p.namespaceSelector.Some? ==> Satisfiable(p.namespaceSelector.value))
    && (p.clusterSelector.Valid? ==> RoomFor(selector, p.clusterSelector.selector))
  }

  lemma {:induction false} PlainCanServe(
    p: ReplicationPolicy, kind: string, namespace: string, selector: Selector, tns: string)
    requires Plain(p, namespace, selector)
    ensures CanServe(p, kind, namespace, selector, tns)
            <==> MayMatchSource(p, kind, namespace) && tns in p.targetNamespaces && MaySelect(p, Some(selector))
  {
    if p.clusterSelector.Valid? {
      CompatibleIffWitness(selector, p.clusterSelector.selector);
    }
  }

  lemma {:induction false} NoDenialMeans(
    ps: seq<ReplicationPolicy>, kind: string, namespace: string, selector: Option<Selector>, tnss: seq<string>)
    ensures CheckNamespaces(ps, kind, namespace, selector, tnss).None?
            <==> forall tns :: tns in tnss ==> CheckNamespace(ps, kind, namespace, selector, tns).None?
  {
    if tnss != [] {
      NoDenialMeans(ps, kind, namespace, selector, tnss[1..]);
      assert forall tns :: tns in tnss <==> tns == tnss[0] || tns in tnss[1..];
    }
  }

  lemma {:induction false} NamespaceVerdict(
    ps: seq<ReplicationPolicy>, kind: string, namespace: string, req: T.Request, tns: string)
    requires req.selector.Requirements? && forall p :: p in ps ==> Plain(p, namespace, req.selector)
    requires tns in T.EffectiveNamespaces(req, namespace)
    ensures CheckNamespace(ps, kind, namespace, Some(req.selector), tns).None?
            <==> Servable(ps, kind, namespace, req, tns)
  {
    ServableIff(ps, kind, namespace, req, tns);
    forall p | p in ps
      ensures CanServe(p, kind, namespace, req.selector, tns)
              <==> MayMatchSource(p, kind, namespace) && tns in p.targetNamespaces && MaySelect(p, Some(req.selector))
    {
      PlainCanServe(p, kind, namespace, req.selector, tns);
    }
  }

  lemma {:induction false} CheckedMeans(
    ps: seq<ReplicationPolicy>, kind: string, namespace: string, req: T.Request)
    requires req.selector.Requirements?
    ensures Checked(ps, kind, namespace, Shaped(req, namespace)).None?
            <==> forall tns :: tns in T.EffectiveNamespaces(req, namespace) ==>
                   CheckNamespace(ps, kind, namespace, Some(req.selector), tns).None?
  {
    var tnss := T.EffectiveNamespaces(req, namespace);
    NoDenialMeans(ps, kind, namespace, Some(req.selector), tnss);
    assert tnss[0] in tnss;
    if CheckNamespace(ps, kind, namespace, Some(req.selector), tnss[0]).None? {
      var p :| p in ps && MayMatchSource(p, kind, namespace) && tnss[0] in p.targetNamespaces;
      assert MayMatchNamespace(p, namespace);
    }
  }

  /** Where no comparison and no namespace selector is unmeetable, the check decides: a request with a selector is
      admitted exactly when each of its namespaces can be served. */
  lemma {:induction false} AdmittedIffServable(
    ps: seq<ReplicationPolicy>, kind: string, namespace: string, req: T.Request)
    requires forall p :: p in ps ==> Plain(p, namespace, req.selector)
    ensures req.selector.Requirements? && Checked(ps, kind, namespace, Shaped(req, namespace)).None?
            <==> forall tns :: tns in T.EffectiveNamespaces(req, namespace) ==>
                   Servable(ps, kind, namespace, req, tns)
  {
    var tnss := T.EffectiveNamespaces(req, namespace);
    assert tnss[0] in tnss;
    if req.selector.Requirements? {
      CheckedMeans(ps, kind, namespace, req);
      forall tns | tns in tnss
        ensures CheckNamespace(ps, kind, namespace, Some(req.selector), tns).None?
                <==> Servable(ps, kind, namespace, req, tns)
      {
        NamespaceVerdict(ps, kind, namespace, req, tns);
      }
    } else {
      ServableIff(ps, kind, namespace, req, tnss[0]);
    }
  }

  predicate NoComparisons(sel: Selector) { sel.Requirements? ==> forall r :: r in sel.reqs ==> !IsNumeric(r) }

  /** Without numeric operators, and with namespace selectors that some labels match, an admitted request can be served
      in each of its namespaces, and only such a request is admitted. */
  lemma {:induction false} AdmittedWithoutComparisons(
    ps: seq<ReplicationPolicy>, kind: string, namespace: string, req: T.Request)
    requires NoComparisons(req.selector)
    requires forall p :: p in ps && p.clusterSelector.Valid? ==> NoComparisons(p.clusterSelector.selector)
    requires forall p :: p in ps && p.namespaceSelector.Some? ==> Satisfiable(p.namespaceSelector.value)
    ensures req.selector.Requirements? && Checked(ps, kind, namespace, Shaped(req, namespace)).None?
            <==> forall tns :: tns in T.EffectiveNamespaces(req, namespace) ==>
                   Servable(ps, kind, namespace, req, tns)
  {
    forall p | p in ps ensures Plain(p, namespace, req.selector) {
    }
    AdmittedIffServable(ps, kind, namespace, req);
  }

  // ---- What a denial says ------------------------------------------------------------------------

  /** The policy may match sources in this namespace. */
  predicate Covers(p: ReplicationPolicy, namespace: string) {
    namespace in p.sourceNamespaces || p.namespaceSelector.Some?
  }

  /** What is wrong with the named namespace: no policy that may match the source lists it, or none of those that do
      shares a label set with the request, comparisons aside. */
  ghost predicate NamespaceDenied(
    ps: seq<ReplicationPolicy>, kind: string, namespace: string, req: ParsedRequest, dimension: Dimension, tns: string)
  {
    && tns in req.namespaces
    && (dimension.TargetNamespace? ==>
          forall p :: p in ps && Covers(p, namespace) && kind in p.kinds ==> tns !in p.targetNamespaces)
    && (dimension.TargetCluster? ==>
          && (exists p :: p in ps && Covers(p, namespace) && kind in p.kinds && tns in p.targetNamespaces)
          && req.selector.Some?
          && forall p :: p in ps && Covers(p, namespace) && kind in p.kinds && tns in p.targetNamespaces ==>
               p.clusterSelector.Invalid? || !Compatible(req.selector.value, p.clusterSelector.selector))
  }

  /** Each dimension of a denial by what it says about the policies. */
  lemma {:induction false} DenialSays(ps: seq<ReplicationPolicy>, kind: string, namespace: string, req: ParsedRequest)
    ensures var d := Checked(ps, kind, namespace, req);
            && (d == Some(Denial(NoPolicies, None)) <==> ps == [])
            && (d == Some(Denial(SourceNamespace, None)) <==>
                  ps != [] && forall p :: p in ps ==> !Covers(p, namespace))
            && (d == Some(Denial(SourceKind, None)) <==>
                  && (exists p :: p in ps && Covers(p, namespace))
                  && forall p :: p in ps && Covers(p, namespace) ==> kind !in p.kinds)
            && (d.Some? && !IsSourceDenial(d.value) ==>
                  && (d.value.dimension.TargetNamespace? || d.value.dimension.TargetCluster?)
                  && d.value.namespace.Some?
                  && NamespaceDenied(ps, kind, namespace, req, d.value.dimension, d.value.namespace.value))
  {
    if ps != [] { assert ps[0] in ps; }
    if CheckNamespaces(ps, kind, namespace, req.selector, req.namespaces).Some? {
      var tns := CheckNamespacesFinds(ps, kind, namespace, req.selector, req.namespaces);
    }
  }
}
