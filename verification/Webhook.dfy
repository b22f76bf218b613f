/** The admission-time policy pre-check (internal/webhook/check.go): what can be denied
    without knowing any cluster. */
module Webhook {
  import opened Basics
  import opened Labels
  import opened Policies
  import opened Options
  import T = Targets

  // ---- Joint satisfiability of two selectors ------------------------------------

  /** Numeric comparisons are not decided: they only demand that the key exists. */
  predicate AcceptsRelaxed(r: Requirement, v: Option<string>) {
    if r.op.GreaterThan? || r.op.LessThan? then v.Some? else Accepts(r, v)
  }

  predicate MatchesRelaxed(sel: Selector, ls: LabelSet) {
    sel.Requirements? && forall r :: r in sel.reqs ==> AcceptsRelaxed(r, Lookup(ls, r.key))
  }

  /** What the requirements seen so far demand of one key. */
  datatype KeyState = KeyState(
    positive: Option<set<string>>, negative: set<string>, mustExist: bool, mustNotExist: bool)

  const UNCONSTRAINED := KeyState(None, {}, false, false)

  predicate Admits(s: KeyState, v: Option<string>) {
    && (s.mustExist ==> v.Some?)
    && (s.mustNotExist ==> v.None?)
    && (s.positive.Some? ==> v.Some? && v.value in s.positive.value)
    && (v.Some? ==> v.value !in s.negative)
  }

  function StateOf(states: map<string, KeyState>, key: string): KeyState {
    if key in states then states[key] else UNCONSTRAINED
  }

  function Narrow(s: KeyState, r: Requirement): (s': KeyState)
    ensures forall v :: Admits(s', v) <==> Admits(s, v) && AcceptsRelaxed(r, v)
  {
    match r.op
    case Equals | DoubleEquals | In =>
      s.(mustExist := true,
         positive := if s.positive.None? then Some(r.values) else Some(s.positive.value * r.values))
    case NotEquals | NotIn => s.(negative := s.negative + r.values)
    case Exists => s.(mustExist := true)
    case DoesNotExist => s.(mustNotExist := true)
    case GreaterThan | LessThan => s.(mustExist := true)
  }

  /** The per-key verdict of the procedure. */
  predicate Consistent(s: KeyState) {
    && !(s.mustNotExist && (s.mustExist || s.positive.Some?))
    && (s.positive.Some? ==> s.positive.value - s.negative != {})
  }

  /** A value for one key: absent where allowed, else a remaining value, else a fresh one. */
  ghost function Choose(s: KeyState): (v: Option<string>)
    requires Consistent(s)
    ensures Admits(s, v)
  {
    if s.positive.Some? then
      var w :| w in s.positive.value - s.negative;
      Some(w)
    else if s.mustExist then Some(Fresh(s.negative))
    else None
  }

  ghost predicate Tracks(states: map<string, KeyState>, reqs: seq<Requirement>) {
    forall key, v :: Admits(StateOf(states, key), v)
                     <==> forall r :: r in reqs && r.key == key ==> AcceptsRelaxed(r, v)
  }

  lemma {:induction false} WitnessExists(states: map<string, KeyState>, reqs: seq<Requirement>)
    returns (ls: LabelSet)
    requires Tracks(states, reqs)
    requires forall key :: key in states ==> Consistent(states[key])
    ensures forall r :: r in reqs ==> AcceptsRelaxed(r, Lookup(ls, r.key))
  {
    ls := map key | key in states && Choose(states[key]).Some? :: Choose(states[key]).value;
    forall r | r in reqs ensures AcceptsRelaxed(r, Lookup(ls, r.key)) {
      assert Admits(StateOf(states, r.key), Lookup(ls, r.key));
    }
  }

  lemma {:induction false} NarrowTracks(states: map<string, KeyState>, reqs: seq<Requirement>, r: Requirement)
    requires Tracks(states, reqs)
    ensures Tracks(states[r.key := Narrow(StateOf(states, r.key), r)], reqs + [r])
  {
    var states' := states[r.key := Narrow(StateOf(states, r.key), r)];
    forall key, v
      ensures Admits(StateOf(states', key), v)
              <==> forall q :: q in reqs + [r] && q.key == key ==> AcceptsRelaxed(q, v)
    {
      assert forall q :: q in reqs + [r] <==> q in reqs || q == r;
      assert Admits(StateOf(states, key), v) <==> forall q :: q in reqs && q.key == key ==> AcceptsRelaxed(q, v);
      if key == r.key {
        assert StateOf(states', key) == Narrow(StateOf(states, key), r);
      } else {
        assert StateOf(states', key) == StateOf(states, key);
      }
    }
  }

  /** Some label set matches both selectors, numeric comparisons aside. */
  ghost predicate Compatible(a: Selector, b: Selector) {
    exists ls :: MatchesRelaxed(a, ls) && MatchesRelaxed(b, ls)
  }

  method JointlySatisfiable(a: Selector, b: Selector) returns (ok: bool)
    ensures ok <==> Compatible(a, b)
  {
    if a.Nothing? || b.Nothing? {
      return false;
    }
    var reqs := a.reqs + b.reqs;
    var states: map<string, KeyState> := map[];
    for i := 0 to |reqs|
      invariant Tracks(states, reqs[..i])
    {
      var r := reqs[i];
      NarrowTracks(states, reqs[..i], r);
      assert reqs[..i] + [r] == reqs[..i + 1];
      states := states[r.key := Narrow(StateOf(states, r.key), r)];
    }
    assert reqs[..|reqs|] == reqs;
    var keys := states.Keys;
    while keys != {}
      invariant keys <= states.Keys
      invariant forall key :: key in states.Keys - keys ==> Consistent(states[key])
    {
      var key :| key in keys;
      if !Consistent(states[key]) {
        Inconsistent(a, b, states, key);
        return false;
      }
      keys := keys - {key};
    }
    ghost var ls := WitnessExists(states, reqs);
    assert MatchesRelaxed(a, ls) && MatchesRelaxed(b, ls);
    return true;
  }

  lemma {:induction false} MatchedKeyIsConsistent(
    a: Selector, b: Selector, states: map<string, KeyState>, key: string, ls: LabelSet)
    requires MatchesRelaxed(a, ls) && MatchesRelaxed(b, ls) && Tracks(states, a.reqs + b.reqs)
    ensures Consistent(StateOf(states, key))
  {
    var s, v := StateOf(states, key), Lookup(ls, key);
    assert Admits(s, v);
    assert s.positive.Some? ==> v.value in s.positive.value - s.negative;
  }

  lemma {:induction false} Inconsistent(a: Selector, b: Selector, states: map<string, KeyState>, key: string)
    requires a.Requirements? && b.Requirements? && Tracks(states, a.reqs + b.reqs)
    requires key in states && !Consistent(states[key])
    ensures !Compatible(a, b)
  {
    if ls :| MatchesRelaxed(a, ls) && MatchesRelaxed(b, ls) {
      MatchedKeyIsConsistent(a, b, states, key, ls);
      assert false;
    }
  }

  /** Soundness: selectors the procedure rejects share no label set. */
  lemma {:induction false} IncompatibleNeverMatch(a: Selector, b: Selector, ls: LabelSet)
    requires !Compatible(a, b)
    ensures !(Matches(a, ls) && Matches(b, ls))
  {
    if Matches(a, ls) && Matches(b, ls) {
      assert MatchesRelaxed(a, ls) && MatchesRelaxed(b, ls);
      assert false;
    }
  }

  // ---- checkPolicies ----------------------------------------------------------------

  /** selector is None when the annotation is absent or empty; namespaces already defaulted. */
  datatype ParsedRequest = ParsedRequest(selector: Option<Selector>, namespaces: seq<string>)

  datatype Denial = Denial(dimension: Dimension, namespace: Option<string>)

  /** The same annotations as the request controller parses them, in the shape of the webhook. */
  function Shaped(req: T.Request, sourceNamespace: string): ParsedRequest {
    ParsedRequest(if req.selector.Nothing? then None else Some(req.selector),
                  T.EffectiveNamespaces(req, sourceNamespace))
  }

  /** Namespace labels are unknown at admission, so a namespace selector counts as matching. */
  predicate MayMatchNamespace(p: ReplicationPolicy, sourceNamespace: string) {
    sourceNamespace in p.sourceNamespaces || p.namespaceSelector.Some?
  }

  ghost predicate MaySelect(p: ReplicationPolicy, selector: Option<Selector>) {
    selector.Some? ==> p.clusterSelector.Valid? && Compatible(selector.value, p.clusterSelector.selector)
  }

  predicate MayMatchSource(p: ReplicationPolicy, kind: string, sourceNamespace: string) {
    MayMatchNamespace(p, sourceNamespace) && kind in p.kinds
  }

  /** The verdict about one requested namespace. */
  ghost function CheckNamespace(
    ps: seq<ReplicationPolicy>, kind: string, sourceNamespace: string, selector: Option<Selector>, tns: string)
    : Option<Denial>
  {
    if !exists p :: p in ps && MayMatchSource(p, kind, sourceNamespace) && tns in p.targetNamespaces
    then Some(Denial(TargetNamespace, Some(tns)))
    else if !exists p :: p in ps && MayMatchSource(p, kind, sourceNamespace) && tns in p.targetNamespaces
                         && MaySelect(p, selector)
    then Some(Denial(TargetCluster, Some(tns)))
    else None
  }

  ghost function CheckNamespaces(
    ps: seq<ReplicationPolicy>, kind: string, sourceNamespace: string, selector: Option<Selector>, tnss: seq<string>)
    : Option<Denial>
  {
    if tnss == [] then None
    else
      var d := CheckNamespace(ps, kind, sourceNamespace, selector, tnss[0]);
      if d.Some? then d else CheckNamespaces(ps, kind, sourceNamespace, selector, tnss[1..])
  }

  ghost function Checked(ps: seq<ReplicationPolicy>, kind: string, sourceNamespace: string, req: ParsedRequest)
    : Option<Denial>
  {
    if ps == [] then Some(Denial(NoPolicies, None))
    else if !exists p :: p in ps && MayMatchNamespace(p, sourceNamespace) then Some(Denial(SourceNamespace, None))
    else if !exists p :: p in ps && MayMatchSource(p, kind, sourceNamespace) then Some(Denial(SourceKind, None))
    else CheckNamespaces(ps, kind, sourceNamespace, req.selector, req.namespaces)
  }

  method PoliciesForSourceNamespace(ps: seq<ReplicationPolicy>, sourceNamespace: string)
    returns (out: seq<ReplicationPolicy>)
    ensures forall p :: p in out <==> p in ps && MayMatchNamespace(p, sourceNamespace)
  {
    out := [];
    for i := 0 to |ps|
      invariant forall p :: p in out <==> p in ps[..i] && MayMatchNamespace(p, sourceNamespace)
    {
      if sourceNamespace in ps[i].sourceNamespaces || ps[i].namespaceSelector.Some? {
        out := out + [ps[i]];
      }
    }
  }

  method PoliciesForKind(ps: seq<ReplicationPolicy>, kind: string) returns (out: seq<ReplicationPolicy>)
    ensures forall p :: p in out <==> p in ps && kind in p.kinds
  {
    out := [];
    for i := 0 to |ps|
      invariant forall p :: p in out <==> p in ps[..i] && kind in p.kinds
    {
      if kind in ps[i].kinds {
        out := out + [ps[i]];
      }
    }
  }

  method PoliciesForTargetNamespace(ps: seq<ReplicationPolicy>, tns: string) returns (out: seq<ReplicationPolicy>)
    ensures forall p :: p in out <==> p in ps && tns in p.targetNamespaces
  {
    out := [];
    for i := 0 to |ps|
      invariant forall p :: p in out <==> p in ps[..i] && tns in p.targetNamespaces
    {
      if tns in ps[i].targetNamespaces {
        out := out + [ps[i]];
      }
    }
  }

  method AnySelects(ps: seq<ReplicationPolicy>, selector: Selector) returns (satisfiable: bool)
    ensures satisfiable <==> exists p :: p in ps && MaySelect(p, Some(selector))
  {
    satisfiable := false;
    for i := 0 to |ps|
      invariant !satisfiable && forall p :: p in ps[..i] ==> !MaySelect(p, Some(selector))
    {
      if ps[i].clusterSelector.Valid? {
        var ok := JointlySatisfiable(selector, ps[i].clusterSelector.selector);
        if ok {
          assert ps[i] in ps;
          return true;
        }
      }
    }
    assert ps[..|ps|] == ps;
  }

  method CheckPolicies(ps: seq<ReplicationPolicy>, kind: string, sourceNamespace: string, req: ParsedRequest)
    returns (d: Option<Denial>)
    ensures d == Checked(ps, kind, sourceNamespace, req)
  {
    if |ps| == 0 {
      return Some(Denial(NoPolicies, None));
    }
    var nsMatched := PoliciesForSourceNamespace(ps, sourceNamespace);
    if |nsMatched| == 0 {
      return Some(Denial(SourceNamespace, None));
    }
    assert nsMatched[0] in nsMatched;
    var kindMatched := PoliciesForKind(nsMatched, kind);
    if |kindMatched| == 0 {
      return Some(Denial(SourceKind, None));
    }
    assert kindMatched[0] in kindMatched;
    assert forall p :: p in kindMatched <==> p in ps && MayMatchSource(p, kind, sourceNamespace);
    for i := 0 to |req.namespaces|
      invariant CheckNamespaces(ps, kind, sourceNamespace, req.selector, req.namespaces)
                == CheckNamespaces(ps, kind, sourceNamespace, req.selector, req.namespaces[i..])
    {
      var tns := req.namespaces[i];
      assert req.namespaces[i..][0] == tns && req.namespaces[i..][1..] == req.namespaces[i + 1..];
      var tnsMatched := PoliciesForTargetNamespace(kindMatched, tns);
      if |tnsMatched| == 0 {
        assert CheckNamespace(ps, kind, sourceNamespace, req.selector, tns) == Some(Denial(TargetNamespace, Some(tns)));
        return Some(Denial(TargetNamespace, Some(tns)));
      }
      assert tnsMatched[0] in tnsMatched;
      if req.selector.Some? {
        var satisfiable := AnySelects(tnsMatched, req.selector.value);
        if !satisfiable {
          assert CheckNamespace(ps, kind, sourceNamespace, req.selector, tns) == Some(Denial(TargetCluster, Some(tns)));
          return Some(Denial(TargetCluster, Some(tns)));
        }
      }
      assert CheckNamespace(ps, kind, sourceNamespace, req.selector, tns).None?;
    }
    return None;
  }

  // ---- A denial is final ---------------------------------------------------------------

  lemma {:induction false} CheckNamespacesFinds(
    ps: seq<ReplicationPolicy>, kind: string, sourceNamespace: string, selector: Option<Selector>, tnss: seq<string>)
    returns (tns: string)
    requires CheckNamespaces(ps, kind, sourceNamespace, selector, tnss).Some?
    ensures tns in tnss
    ensures CheckNamespaces(ps, kind, sourceNamespace, selector, tnss)
            == CheckNamespace(ps, kind, sourceNamespace, selector, tns)
  {
    if CheckNamespace(ps, kind, sourceNamespace, selector, tnss[0]).Some? {
      tns := tnss[0];
    } else {
      tns := CheckNamespacesFinds(ps, kind, sourceNamespace, selector, tnss[1..]);
    }
  }

  /** Whatever a policy really permits, the admission-time approximation also finds possible. */
  lemma {:induction false} PermittedIsPossible(
    p: ReplicationPolicy, src: Source, tgt: Target, selector: Selector)
    requires Permits(p, src, tgt) && Matches(selector, tgt.clusterLabels)
    ensures MayMatchSource(p, src.kind, src.namespace) && tgt.namespace in p.targetNamespaces
    ensures MaySelect(p, Some(selector))
  {
    if !Compatible(selector, p.clusterSelector.selector) {
      IncompatibleNeverMatch(selector, p.clusterSelector.selector, tgt.clusterLabels);
      assert false;
    }
  }

  /** A (cluster, namespace) pair of a resolution comes from a permitting policy and a selected cluster. */
  lemma {:induction false} ResolvedPairIsPermitted(
    clusters: seq<T.ClusterRecord>, req: T.Request, src: Source, ps: seq<ReplicationPolicy>, r: T.ResolvedTarget,
    tns: string)
    returns (p: ReplicationPolicy, tgt: Target)
    requires r in T.Resolved(clusters, req, src, ps) && tns in r.namespaces
    ensures p in ps && Permits(p, src, tgt) && tgt.namespace == tns && Matches(req.selector, tgt.clusterLabels)
  {
    var rs := T.Resolved(clusters, req, src, ps);
    var allowed := T.Filter(T.ResolutionDecisions(clusters, req, src, ps), true);
    T.ResolutionFlattens(clusters, req, src, ps);
    var i :| 0 <= i < |rs| && rs[i] == r;
    PairListed(rs, i, tns);
    var k :| 0 <= k < |T.Pairs(rs)| && T.Pairs(rs)[k] == NsKey(r.cluster, tns);
    var d := allowed[k];
    assert T.DecisionKeys(allowed)[k] == TargetKey(d.target);
    T.AllowedDecisionSource(clusters, req, src, ps, d);
    AllowedIffOnePermits(src, d.target, ps);
    p :| p in ps && Permits(p, src, d.target);
    tgt := d.target;
  }

  lemma {:induction false} PairListed(rs: seq<T.ResolvedTarget>, i: nat, tns: string)
    requires i < |rs| && tns in rs[i].namespaces
    ensures NsKey(rs[i].cluster, tns) in T.Pairs(rs)
  {
    var last := rs[|rs| - 1];
    if i == |rs| - 1 {
      var j :| 0 <= j < |last.namespaces| && last.namespaces[j] == tns;
      assert T.PairsOf(last)[j] == NsKey(last.cluster, tns);
    } else {
      PairListed(rs[..|rs| - 1], i, tns);
    }
  }

  /** The denial speaks about every target of the request, or about one namespace of it. */
  predicate IsSourceDenial(d: Denial) {
    d.dimension.NoPolicies? || d.dimension.SourceNamespace? || d.dimension.SourceKind?
  }

  lemma {:induction false} SourceDenialPermitsNothing(
    ps: seq<ReplicationPolicy>, src: Source, req: T.Request, p: ReplicationPolicy, tgt: Target)
    requires p in ps && Permits(p, src, tgt) && Matches(req.selector, tgt.clusterLabels)
    requires Checked(ps, src.kind, src.namespace, Shaped(req, src.namespace)).Some?
    ensures !IsSourceDenial(Checked(ps, src.kind, src.namespace, Shaped(req, src.namespace)).value)
    ensures CheckNamespace(ps, src.kind, src.namespace, Shaped(req, src.namespace).selector, tgt.namespace).None?
  {
    PermittedIsPossible(p, src, tgt, req.selector);
    var shaped := Shaped(req, src.namespace);
    assert MayMatchNamespace(p, src.namespace);
    assert Checked(ps, src.kind, src.namespace, shaped)
        == CheckNamespaces(ps, src.kind, src.namespace, shaped.selector, shaped.namespaces);
    var tns := CheckNamespacesFinds(ps, src.kind, src.namespace, shaped.selector, shaped.namespaces);
  }

  lemma {:induction false} UnservedNamespace(
    ps: seq<ReplicationPolicy>, src: Source, req: T.Request, clusters: seq<T.ClusterRecord>, tns: string)
    requires Checked(ps, src.kind, src.namespace, Shaped(req, src.namespace)).Some?
    requires CheckNamespace(ps, src.kind, src.namespace, Shaped(req, src.namespace).selector, tns).Some?
    ensures forall r :: r in T.Resolved(clusters, req, src, ps) ==> tns !in r.namespaces
  {
    forall r | r in T.Resolved(clusters, req, src, ps) ensures tns !in r.namespaces {
      if tns in r.namespaces {
        var p, tgt := ResolvedPairIsPermitted(clusters, req, src, ps, r, tns);
        SourceDenialPermitsNothing(ps, src, req, p, tgt);
        assert false;
      }
    }
  }

  lemma {:induction false} SourceDenialServesNothing(
    ps: seq<ReplicationPolicy>, src: Source, req: T.Request, clusters: seq<T.ClusterRecord>)
    requires Checked(ps, src.kind, src.namespace, Shaped(req, src.namespace)).Some?
    requires IsSourceDenial(Checked(ps, src.kind, src.namespace, Shaped(req, src.namespace)).value)
    ensures T.Resolved(clusters, req, src, ps) == []
  {
    var rs := T.Resolved(clusters, req, src, ps);
    T.ResolutionFlattens(clusters, req, src, ps);
    if rs != [] {
      assert rs[0] in rs;
      var p, tgt := ResolvedPairIsPermitted(clusters, req, src, ps, rs[0], rs[0].namespaces[0]);
      SourceDenialPermitsNothing(ps, src, req, p, tgt);
      assert false;
    }
  }

  /** A denied request can never be served: there is one requested namespace that resolves to no target, whatever
      clusters exist and whatever labels the source namespace has. The denials that do not depend on the target
      mean that no requested namespace ever does. */
  lemma {:induction false} DenialIsFinal(ps: seq<ReplicationPolicy>, kind: string, namespace: string, req: T.Request)
    returns (tns: string)
    requires Checked(ps, kind, namespace, Shaped(req, namespace)).Some?
    ensures tns in T.EffectiveNamespaces(req, namespace)
    ensures forall clusters, labels, r :: r in T.Resolved(clusters, req, Source(kind, namespace, labels), ps) ==>
              tns !in r.namespaces
    ensures IsSourceDenial(Checked(ps, kind, namespace, Shaped(req, namespace)).value) ==>
              forall clusters, labels :: T.Resolved(clusters, req, Source(kind, namespace, labels), ps) == []
  {
    var shaped := Shaped(req, namespace);
    if IsSourceDenial(Checked(ps, kind, namespace, shaped).value) {
      tns := shaped.namespaces[0];
      forall clusters, labels ensures T.Resolved(clusters, req, Source(kind, namespace, labels), ps) == [] {
        SourceDenialServesNothing(ps, Source(kind, namespace, labels), req, clusters);
      }
    } else {
      tns := CheckNamespacesFinds(ps, kind, namespace, shaped.selector, shaped.namespaces);
      forall clusters, labels, r | r in T.Resolved(clusters, req, Source(kind, namespace, labels), ps)
        ensures tns !in r.namespaces
      {
        UnservedNamespace(ps, Source(kind, namespace, labels), req, clusters, tns);
      }
    }
  }
}
