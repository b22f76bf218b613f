/** Where a rendered replica goes and what it says about its source (internal/engine/render.go), field by field. */
module Placement {
  import opened Basics
  import opened Render

  lemma {:induction false} SetTextReads(obj: Unstructured, field: string, value: string)
    requires HasMetaMap(obj)
    ensures ReadText(Meta(SetText(obj, field, value)), field) == value
    ensures Meta(SetText(obj, field, value)) - {field} == Meta(obj) - {field}
    ensures SetText(obj, field, value) - {"metadata"} == obj - {"metadata"} && HasMetaMap(SetText(obj, field, value))
  {}

  lemma {:induction false} StripsServerManaged(obj: Unstructured)
    requires HasMetaMap(obj)
    ensures Meta(StripServerManaged(obj)) == Meta(obj) - SERVER_MANAGED && HasMetaMap(StripServerManaged(obj))
    ensures "status" !in StripServerManaged(obj)
  {}

  lemma {:induction false} RelocatedParts(src: Unstructured, namespace: string, name: string)
    requires HasMetaMap(src)
    ensures var rep := Relocated(src, namespace, name);
            && HasMetaMap(rep) && "status" !in rep
            && ReadText(Meta(rep), "namespace") == namespace
            && ReadText(Meta(rep), "name") == (if name == "" then ReadText(Meta(src), "name") else name)
            && Meta(rep) - {"namespace", "name"} == Meta(src) - SERVER_MANAGED - {"namespace", "name"}
  {
    var r0 := StripServerManaged(src);
    var r1 := SetText(r0, "namespace", namespace);
    var called := if name == "" then ReadText(Meta(src), "name") else name;
    StripsServerManaged(src);
    SetTextReads(r0, "namespace", namespace);
    SetTextReads(r1, "name", called);
    var md, md1, md2 := Meta(r0), Meta(r1), Meta(SetText(r1, "name", called));
    assert "namespace" in md2 <==> "namespace" in md2 - {"name"};
    assert "namespace" in md1 <==> "namespace" in md1 - {"name"};
    if "namespace" in md2 { assert (md2 - {"name"})["namespace"] == (md1 - {"name"})["namespace"]; }
    assert md2 - {"namespace", "name"} == (md2 - {"name"}) - {"namespace"};
    assert md1 - {"namespace", "name"} == (md1 - {"name"}) - {"namespace"} == (md1 - {"namespace"}) - {"name"};
    assert md - {"namespace", "name"} == (md - {"namespace"}) - {"name"};
  }

  lemma {:induction false} SetBothMeta(obj: Unstructured, labels: Json, annotations: Json)
    requires HasMetaMap(obj) && "status" !in obj
    ensures var rep := SetMeta(SetMeta(obj, "labels", labels), "annotations", annotations);
            Meta(rep) - {"labels", "annotations"} == Meta(obj) - {"labels", "annotations"} && "status" !in rep
  {
    SetMetaSets(obj, "labels", labels);
    SetMetaSets(SetMeta(obj, "labels", labels), "annotations", annotations);
  }

  /** Nothing the API server manages is left. */
  ghost predicate Unmanaged(md: map<string, Json>) {
    && "resourceVersion" !in md && "uid" !in md && "generation" !in md && "creationTimestamp" !in md
    && "deletionTimestamp" !in md && "deletionGracePeriodSeconds" !in md && "managedFields" !in md
    && "ownerReferences" !in md && "selfLink" !in md && "finalizers" !in md
  }

  /** The metadata fields that a replica does not take from its source as they are. */
  const OWN_FIELDS: set<string> := {
    "namespace", "name", "labels", "annotations", "resourceVersion", "uid", "generation", "creationTimestamp",
    "deletionTimestamp", "deletionGracePeriodSeconds", "managedFields", "ownerReferences", "selfLink", "finalizers"}

  lemma {:induction false} ManagedFields(md: map<string, Json>)
    requires md.Keys !! SERVER_MANAGED
    ensures Unmanaged(md) && OWN_FIELDS == SERVER_MANAGED + {"namespace", "name", "labels", "annotations"}
  {
    assert forall k :: k in SERVER_MANAGED ==> k !in md;
    assert "resourceVersion" in SERVER_MANAGED && "uid" in SERVER_MANAGED && "generation" in SERVER_MANAGED;
    assert "creationTimestamp" in SERVER_MANAGED && "deletionTimestamp" in SERVER_MANAGED;
    assert "deletionGracePeriodSeconds" in SERVER_MANAGED && "managedFields" in SERVER_MANAGED;
    assert "ownerReferences" in SERVER_MANAGED && "selfLink" in SERVER_MANAGED && "finalizers" in SERVER_MANAGED;
  }

  /** A replica goes to the target namespace, under the target name or the source's own, without status and without
      anything the API server manages; every other metadata field, and the whole body, are the source's. */
  lemma {:induction false} RenderedPlacement(
    src: Unstructured, namespace: string, name: string, hubName: string, deny: Denylist, hash: Hash)
    requires HasMetaMap(src)
    ensures var rep := Rendered(src, namespace, name, hubName, deny, hash);
            && ReadText(Meta(rep), "namespace") == namespace
            && ReadText(Meta(rep), "name") == (if name == "" then ReadText(Meta(src), "name") else name)
            && "status" !in rep && Unmanaged(Meta(rep)) && Meta(rep) - OWN_FIELDS == Meta(src) - OWN_FIELDS
            && rep - {"metadata"} == src - {"metadata", "status"}
  {
    var rep, r0 := Rendered(src, namespace, name, hubName, deny, hash), Relocated(src, namespace, name);
    RelocatedParts(src, namespace, name);
    SetBothMeta(r0, Object(AsJson(ReplicaLabels(src, hubName, deny))),
                Object(AsJson(ReplicaAnnotations(src, deny, hash))));
    PlacedParts(src, Meta(r0), Meta(rep));
    ManagedFields(Meta(rep));
    RenderedParts(src, namespace, name, hubName, deny, hash);
    StatusFree(rep, src);
  }

  lemma {:induction false} StatusFree(rep: Unstructured, src: Unstructured)
    requires "status" !in rep && Body(rep) == Body(src)
    ensures rep - {"metadata"} == src - {"metadata", "status"}
  {
    assert rep - {"metadata"} == Body(rep);
  }

  /** Two maps agree outside these keys. */
  ghost predicate SameOutside(m: map<string, Json>, n: map<string, Json>, ks: set<string>) {
    forall k :: k !in ks ==> (k in m <==> k in n) && (k in m && k in n ==> m[k] == n[k])
  }

  lemma {:induction false} OutsideIff(m: map<string, Json>, n: map<string, Json>, ks: set<string>)
    ensures m - ks == n - ks <==> SameOutside(m, n, ks)
  {
    if m - ks == n - ks {
      forall k | k !in ks ensures (k in m <==> k in n) && (k in m && k in n ==> m[k] == n[k]) {
        assert k in m <==> k in m - ks;
        assert k in n <==> k in n - ks;
        if k in m && k in n { assert (m - ks)[k] == (n - ks)[k]; }
      }
    }
    if SameOutside(m, n, ks) {
      assert (m - ks).Keys == (n - ks).Keys;
    }
  }

  lemma {:induction false} PlacedParts(src: Unstructured, moved: map<string, Json>, md: map<string, Json>)
    requires moved - {"namespace", "name"} == Meta(src) - SERVER_MANAGED - {"namespace", "name"}
    requires md - {"labels", "annotations"} == moved - {"labels", "annotations"}
    ensures ReadText(md, "namespace") == ReadText(moved, "namespace") && ReadText(md, "name") == ReadText(moved, "name")
    ensures md.Keys !! SERVER_MANAGED
    ensures var own := SERVER_MANAGED + {"namespace", "name", "labels", "annotations"}; md - own == Meta(src) - own
  {
    OutsideIff(moved, Meta(src) - SERVER_MANAGED, {"namespace", "name"});
    OutsideIff(md, moved, {"labels", "annotations"});
    PlacedOutside(Meta(src), moved, md, SERVER_MANAGED);
    OutsideIff(md, Meta(src), SERVER_MANAGED + {"namespace", "name", "labels", "annotations"});
  }

  lemma {:induction false} PlacedOutside(
    all: map<string, Json>, moved: map<string, Json>, md: map<string, Json>, gone: set<string>)
    requires SameOutside(moved, all - gone, {"namespace", "name"}) && SameOutside(md, moved, {"labels", "annotations"})
    requires gone !! {"namespace", "name", "labels", "annotations"}
    ensures ReadText(md, "namespace") == ReadText(moved, "namespace") && ReadText(md, "name") == ReadText(moved, "name")
    ensures md.Keys !! gone && SameOutside(md, all, gone + {"namespace", "name", "labels", "annotations"})
  {}

  /** What the engine writes about the source, label by label. */
  ghost predicate NamesSource(labels: map<string, string>, src: Unstructured, hubName: string) {
    && Entry(labels, "app.kubernetes.io/managed-by") == "k8s-r8r"
    && Entry(labels, "r8r.io/source-cluster") == (if hubName == "" then "hub" else hubName)
    && Entry(labels, "r8r.io/source-namespace") == ReadText(Meta(src), "namespace")
    && Entry(labels, "r8r.io/source-name") == ReadText(Meta(src), "name")
    && Entry(labels, "r8r.io/source-kind") == ReadText(src, "kind")
    && Entry(labels, "r8r.io/source-uid") == ReadText(Meta(src), "uid")
  }

  lemma {:induction false} MarksNameSource(m: map<string, string>, src: Unstructured, hubName: string)
    ensures NamesSource(m + Marks(src, hubName), src, hubName)
    ensures Marks(src, hubName).Keys
            == {"app.kubernetes.io/managed-by", "r8r.io/source-cluster", "r8r.io/source-namespace",
                "r8r.io/source-name", "r8r.io/source-kind", "r8r.io/source-uid"}
  {
    var marks := Marks(src, hubName);
    assert LABEL_MANAGED_BY in marks && LABEL_SOURCE_CLUSTER in marks && LABEL_SOURCE_NAMESPACE in marks;
    assert LABEL_SOURCE_NAME in marks && LABEL_SOURCE_KIND in marks && LABEL_SOURCE_UID in marks;
  }

  /** The labels of a replica name its source, and the rest of them, like its annotations, are the source's entries off
      the denylist; the hash annotation is the hash of the source's payload. */
  lemma {:induction false} RenderedSays(
    src: Unstructured, namespace: string, name: string, hubName: string, deny: Denylist, hash: Hash)
    requires HasMetaMap(src)
    ensures var rep := Rendered(src, namespace, name, hubName, deny, hash);
            && NamesSource(StringMap(rep, "labels"), src, hubName)
            && Entry(StringMap(rep, "annotations"), "r8r.io/source-hash") == hash(Canonical(src, deny))
    ensures var rep := Rendered(src, namespace, name, hubName, deny, hash);
            forall k :: !Stripped(k, deny) ==>
              && (k in StringMap(rep, "labels") <==> k in StringMap(src, "labels"))
              && (k in StringMap(rep, "annotations") <==> k in StringMap(src, "annotations"))
              && (k in StringMap(rep, "labels") ==> StringMap(rep, "labels")[k] == StringMap(src, "labels")[k])
              && (k in StringMap(rep, "annotations") ==>
                    StringMap(rep, "annotations")[k] == StringMap(src, "annotations")[k])
    ensures var rep := Rendered(src, namespace, name, hubName, deny, hash);
            && (forall k :: k in StringMap(rep, "labels") && Stripped(k, deny) ==> k in Marks(src, hubName))
            && (forall k :: k in StringMap(rep, "annotations") && Stripped(k, deny) ==> k == "r8r.io/source-hash")
  {
    var rep := Rendered(src, namespace, name, hubName, deny, hash);
    RenderedParts(src, namespace, name, hubName, deny, hash);
    StringMapOf(rep, "labels", ReplicaLabels(src, hubName, deny));
    StringMapOf(rep, "annotations", ReplicaAnnotations(src, deny, hash));
    MarksNameSource(Clean(StringMap(src, "labels"), deny), src, hubName);
    MarksAreStripped(src, hubName, deny);
  }

  lemma {:induction false} AdoptPatchPlaced(
    src: Unstructured, apiVersion: string, kind: string, namespace: string, name: string, hubName: string, hash: string)
    ensures var patch := AdoptPatch(src, apiVersion, kind, namespace, name, hubName, hash);
            && patch.Keys == {"apiVersion", "kind", "metadata"}
            && ReadText(patch, "apiVersion") == apiVersion && ReadText(patch, "kind") == kind
            && Meta(patch).Keys == {"namespace", "name", "labels", "annotations"}
            && ReadText(Meta(patch), "namespace") == namespace && ReadText(Meta(patch), "name") == name
  {}

  /** An adopting patch goes to the adopted object, of the adopted kind, names the source, and carries nothing else. */
  lemma {:induction false} AdoptPatchSays(
    src: Unstructured, apiVersion: string, kind: string, namespace: string, name: string, hubName: string, hash: string)
    ensures var patch := AdoptPatch(src, apiVersion, kind, namespace, name, hubName, hash);
            && patch.Keys == {"apiVersion", "kind", "metadata"}
            && ReadText(patch, "apiVersion") == apiVersion && ReadText(patch, "kind") == kind
            && Meta(patch).Keys == {"namespace", "name", "labels", "annotations"}
            && ReadText(Meta(patch), "namespace") == namespace && ReadText(Meta(patch), "name") == name
            && NamesSource(StringMap(patch, "labels"), src, hubName) && |StringMap(patch, "labels")| == 6
            && StringMap(patch, "annotations") == map["r8r.io/source-hash" := hash]
  {
    var patch := AdoptPatch(src, apiVersion, kind, namespace, name, hubName, hash);
    AdoptPatchPlaced(src, apiVersion, kind, namespace, name, hubName, hash);
    AdoptPatchParts(src, apiVersion, kind, namespace, name, hubName, hash);
    StringMapOf(patch, "labels", Marks(src, hubName));
    StringMapOf(patch, "annotations", map[ANNOTATION_SOURCE_HASH := hash]);
    OnlyMarks(src, hubName);
  }

  lemma {:induction false} OnlyMarks(src: Unstructured, hubName: string)
    ensures NamesSource(Marks(src, hubName), src, hubName) && |Marks(src, hubName)| == 6
  {
    MarksNameSource(map[], src, hubName);
    assert map[] + Marks(src, hubName) == Marks(src, hubName);
    assert |Marks(src, hubName)| == |Marks(src, hubName).Keys|;
  }

  // ---- What the payload covers -------------------------------------------------------------------

  /** The denylist, key by key. */
  lemma {:induction false} StrippedIff(k: string, deny: Denylist)
    ensures Stripped(k, deny)
            <==> || "r8r.io/" <= k || k == "app.kubernetes.io/managed-by"
                 || k == "kubectl.kubernetes.io/last-applied-configuration" || k == "app.kubernetes.io/instance"
                 || "argocd.argoproj.io/" <= k || "replicator.v1.mittwald.de/" <= k
                 || "reflector.v1.k8s.emberstack.com/" <= k || "meta.helm.sh/" <= k
                 || "kustomize.toolkit.fluxcd.io/" <= k
                 || k in deny.keys || exists p :: p in deny.prefixes && p <= k
  {
    assert |FOREIGN_PREFIXES| == 5 && |FOREIGN_KEYS| == 1;
    assert MatchesPrefix(k, FOREIGN_PREFIXES)
      <==> || HasPrefix(k, FOREIGN_PREFIXES[0]) || HasPrefix(k, FOREIGN_PREFIXES[1])
           || HasPrefix(k, FOREIGN_PREFIXES[2])
           || HasPrefix(k, FOREIGN_PREFIXES[3]) || HasPrefix(k, FOREIGN_PREFIXES[4]);
    if i :| 0 <= i < |deny.prefixes| && HasPrefix(k, deny.prefixes[i]) {
      assert deny.prefixes[i] in deny.prefixes;
    }
    if p :| p in deny.prefixes && p <= k {
      var i :| 0 <= i < |deny.prefixes| && deny.prefixes[i] == p;
      assert HasPrefix(k, deny.prefixes[i]);
    }
  }

  /** Two maps agree on every key off the denylist. */
  ghost predicate SameOffDenylist(m: map<string, Json>, n: map<string, Json>, deny: Denylist) {
    forall k :: !Stripped(k, deny) ==> (k in m <==> k in n) && (k in m && k in n ==> m[k] == n[k])
  }

  lemma {:induction false} CleanIff(m: map<string, Json>, n: map<string, Json>, deny: Denylist)
    ensures Clean(m, deny) == Clean(n, deny) <==> SameOffDenylist(m, n, deny)
  {
    if Clean(m, deny) == Clean(n, deny) {
      forall k | !Stripped(k, deny) ensures (k in m <==> k in n) && (k in m && k in n ==> m[k] == n[k]) {
        assert k in m <==> k in Clean(m, deny);
        assert k in n <==> k in Clean(n, deny);
        if k in m && k in n { assert Clean(m, deny)[k] == Clean(n, deny)[k]; }
      }
    }
    if SameOffDenylist(m, n, deny) {
      assert Clean(m, deny).Keys == Clean(n, deny).Keys;
    }
  }

  /** Two objects have one payload exactly when they agree on every field but metadata and status, and on every label
      and annotation off the denylist. */
  lemma {:induction false} PayloadCovers(a: Unstructured, b: Unstructured, deny: Denylist)
    ensures Canonical(a, deny) == Canonical(b, deny)
            <==> && SameOutside(a, b, {"metadata", "status"})
                 && SameOffDenylist(RawMap(a, "labels"), RawMap(b, "labels"), deny)
                 && SameOffDenylist(RawMap(a, "annotations"), RawMap(b, "annotations"), deny)
  {
    SamePayloadIff(a, b, deny);
    CleanIff(RawMap(a, "labels"), RawMap(b, "labels"), deny);
    CleanIff(RawMap(a, "annotations"), RawMap(b, "annotations"), deny);
    OutsideIff(a, b, {"metadata", "status"});
  }
}
