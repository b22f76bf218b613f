/** Rendering a source into a replica and the canonical payload the content hash covers
    (internal/engine/render.go), over raw JSON objects. */
module Render {
  import opened Basics

  datatype Json =
    | Null
    | Bool(b: bool)
    | Number(n: int)
    | Text(s: string)
    | List(items: seq<Json>)
    | Object(fields: map<string, Json>)

  /** An unstructured API object. */
  type Unstructured = map<string, Json>

  /** What the hash covers. */
  type Payload = map<string, Json>

  const LABEL_MANAGED_BY := "app.kubernetes.io/managed-by"
  const MANAGED_BY := "k8s-r8r"
  const LABEL_SOURCE_CLUSTER := "r8r.io/source-cluster"
  const LABEL_SOURCE_NAMESPACE := "r8r.io/source-namespace"
  const LABEL_SOURCE_NAME := "r8r.io/source-name"
  const LABEL_SOURCE_KIND := "r8r.io/source-kind"
  const LABEL_SOURCE_UID := "r8r.io/source-uid"
  const ANNOTATION_SOURCE_HASH := "r8r.io/source-hash"
  const ANNOTATION_LAST_APPLIED := "kubectl.kubernetes.io/last-applied-configuration"
  const R8R_PREFIX := "r8r.io/"

  const FOREIGN_PREFIXES: seq<string> := [
    "argocd.argoproj.io/", "replicator.v1.mittwald.de/", "reflector.v1.k8s.emberstack.com/",
    "meta.helm.sh/", "kustomize.toolkit.fluxcd.io/"]
  const FOREIGN_KEYS: seq<string> := ["app.kubernetes.io/instance"]

  const SERVER_MANAGED: set<string> := {
    "resourceVersion", "uid", "generation", "creationTimestamp", "deletionTimestamp",
    "deletionGracePeriodSeconds", "managedFields", "ownerReferences", "selfLink", "finalizers"}

  /** The operator's additions to the built-in denylist. */
  datatype Denylist = Denylist(keys: seq<string>, prefixes: seq<string>)

  /** A hash of canonical payloads: SHA-256 of their JSON encoding, left abstract. */
  type Hash = Payload -> string

  predicate MatchesPrefix(k: string, prefixes: seq<string>) {
    exists i :: 0 <= i < |prefixes| && HasPrefix(k, prefixes[i])
  }

  predicate Stripped(k: string, deny: Denylist) {
    || HasPrefix(k, R8R_PREFIX) || k == LABEL_MANAGED_BY || k == ANNOTATION_LAST_APPLIED
    || k in FOREIGN_KEYS || k in deny.keys
    || MatchesPrefix(k, FOREIGN_PREFIXES) || MatchesPrefix(k, deny.prefixes)
  }

  method AnyPrefix(k: string, prefixes: seq<string>) returns (r: bool)
    ensures r == MatchesPrefix(k, prefixes)
  {
    for i := 0 to |prefixes|
      invariant forall j :: 0 <= j < i ==> !HasPrefix(k, prefixes[j])
    {
      if HasPrefix(k, prefixes[i]) {
        return true;
      }
    }
    return false;
  }

  method IsStrippedKey(k: string, deny: Denylist) returns (r: bool)
    ensures r == Stripped(k, deny)
  {
    if HasPrefix(k, R8R_PREFIX) || k == LABEL_MANAGED_BY || k == ANNOTATION_LAST_APPLIED {
      return true;
    }
    if k in FOREIGN_KEYS || k in deny.keys {
      return true;
    }
    r := AnyPrefix(k, FOREIGN_PREFIXES);
    if !r {
      r := AnyPrefix(k, deny.prefixes);
    }
  }

  /** The entries a replica keeps and the hash covers; one predicate decides both. */
  function Clean<V>(m: map<string, V>, deny: Denylist): (r: map<string, V>) {
    map k | k in m && !Stripped(k, deny) :: m[k]
  }

  method CleanStrippedKeys<V>(m: map<string, V>, deny: Denylist) returns (out: map<string, V>)
    ensures out == Clean(m, deny)
  {
    out := map[];
    var todo := m.Keys;
    while todo != {}
      invariant todo <= m.Keys
      invariant forall k :: k in out <==> k in m.Keys - todo && !Stripped(k, deny)
      invariant forall k :: k in out ==> out[k] == m[k]
    {
      var k :| k in todo;
      var drop := IsStrippedKey(k, deny);
      if !drop {
        out := out[k := m[k]];
      }
      todo := todo - {k};
    }
  }

  // ---- Reading and writing metadata -------------------------------------------------

  /** The metadata map; empty when metadata is absent or not a map. */
  function Meta(obj: Unstructured): map<string, Json> {
    if "metadata" in obj && obj["metadata"].Object? then obj["metadata"].fields else map[]
  }

  function RawField(obj: Unstructured, field: string): Json {
    if field in Meta(obj) then Meta(obj)[field] else Null
  }

  /** The raw map stored under a metadata field; empty when it is not a map. */
  function RawMap(obj: Unstructured, field: string): map<string, Json> {
    var j := RawField(obj, field);
    if j.Object? then j.fields else map[]
  }

  predicate AllText(m: map<string, Json>) {
    forall k :: k in m ==> m[k].Text?
  }

  /** GetLabels and GetAnnotations: one non-string value hides the whole map. */
  function StringMap(obj: Unstructured, field: string): map<string, string> {
    var m := RawMap(obj, field);
    if AllText(m) then map k | k in m :: m[k].s else map[]
  }

  function ReadText(fields: map<string, Json>, field: string): string {
    if field in fields && fields[field].Text? then fields[field].s else ""
  }

  function Entry(m: map<string, string>, k: string): string {
    if k in m then m[k] else ""
  }

  function AsJson(m: map<string, string>): (j: map<string, Json>)
    ensures j.Keys == m.Keys && AllText(j)
  {
    map k | k in m :: Text(m[k])
  }

  /** SetNestedField under metadata: creates the map when absent, gives up when it is not a map. */
  function SetMeta(obj: Unstructured, field: string, value: Json): Unstructured {
    if "metadata" in obj && !obj["metadata"].Object? then obj
    else obj["metadata" := Object(Meta(obj)[field := value])]
  }

  function RemoveMeta(obj: Unstructured, fields: set<string>): Unstructured {
    if "metadata" in obj && obj["metadata"].Object? then obj["metadata" := Object(Meta(obj) - fields)] else obj
  }

  function SetText(obj: Unstructured, field: string, value: string): Unstructured {
    if value == "" then RemoveMeta(obj, {field}) else SetMeta(obj, field, Text(value))
  }

  // ---- canonicalPayload ---------------------------------------------------------------

  function CleanField(obj: Unstructured, field: string, deny: Denylist): map<string, Json> {
    Clean(RawMap(obj, field), deny)
  }

  /** Everything outside metadata and status. */
  function Body(obj: Unstructured): Unstructured { obj - {"metadata", "status"} }

  function Reduced(labels: map<string, Json>, annotations: map<string, Json>): map<string, Json> {
    var r: map<string, Json> := if |labels| > 0 then map["labels" := Object(labels)] else map[];
    if |annotations| > 0 then r["annotations" := Object(annotations)] else r
  }

  function Assemble(body: Unstructured, labels: map<string, Json>, annotations: map<string, Json>): Payload {
    var reduced := Reduced(labels, annotations);
    if |reduced| > 0 then body["metadata" := Object(reduced)] else body
  }

  function Canonical(obj: Unstructured, deny: Denylist): Payload {
    Assemble(Body(obj), CleanField(obj, "labels", deny), CleanField(obj, "annotations", deny))
  }

  method CleanSection(md: map<string, Json>, field: string, deny: Denylist) returns (m: map<string, Json>)
    ensures m == Clean(if field in md && md[field].Object? then md[field].fields else map[], deny)
  {
    m := map[];
    if field in md && md[field].Object? {
      m := CleanStrippedKeys(md[field].fields, deny);
    }
  }

  /** What is left of metadata: the cleaned labels and annotations that are not empty. */
  method ReduceMetadata(content: Unstructured, deny: Denylist) returns (reduced: map<string, Json>)
    ensures reduced == Reduced(CleanField(content, "labels", deny), CleanField(content, "annotations", deny))
  {
    reduced := map[];
    if "metadata" in content && content["metadata"].Object? {
      var md := content["metadata"].fields;
      assert Meta(content) == md;
      var l := CleanSection(md, "labels", deny);
      if |l| > 0 { reduced := reduced["labels" := Object(l)]; }
      var a := CleanSection(md, "annotations", deny);
      if |a| > 0 { reduced := reduced["annotations" := Object(a)]; }
    } else {
      assert Clean<Json>(map[], deny) == map[];
    }
  }

  method CanonicalPayload(obj: Unstructured, deny: Denylist) returns (content: Payload)
    ensures content == Canonical(obj, deny)
  {
    content := obj - {"status"};
    var reduced := ReduceMetadata(content, deny);
    StatusAside(obj, deny, reduced);
    if |reduced| > 0 {
      content := content["metadata" := Object(reduced)];
    } else {
      content := content - {"metadata"};
    }
  }

  lemma {:induction false} StatusAside(obj: Unstructured, deny: Denylist, reduced: map<string, Json>)
    ensures (obj - {"status"})["metadata" := Object(reduced)] == Body(obj)["metadata" := Object(reduced)]
    ensures (obj - {"status"}) - {"metadata"} == Body(obj)
    ensures CleanField(obj - {"status"}, "labels", deny) == CleanField(obj, "labels", deny)
    ensures CleanField(obj - {"status"}, "annotations", deny) == CleanField(obj, "annotations", deny)
  {
    assert Meta(obj - {"status"}) == Meta(obj);
  }

  // ---- Render and AdoptPatch ------------------------------------------------------------

  function Marks(src: Unstructured, hubName: string): (m: map<string, string>) {
    map[LABEL_MANAGED_BY := MANAGED_BY,
        LABEL_SOURCE_CLUSTER := if hubName == "" then "hub" else hubName,
        LABEL_SOURCE_NAMESPACE := ReadText(Meta(src), "namespace"),
        LABEL_SOURCE_NAME := ReadText(Meta(src), "name"),
        LABEL_SOURCE_KIND := ReadText(src, "kind"),
        LABEL_SOURCE_UID := ReadText(Meta(src), "uid")]
  }

  function StripServerManaged(obj: Unstructured): Unstructured {
    RemoveMeta(obj - {"status"}, SERVER_MANAGED)
  }

  /** The copy without server-managed fields, moved and named. */
  function Relocated(src: Unstructured, namespace: string, name: string): Unstructured {
    SetText(SetText(StripServerManaged(src), "namespace", namespace),
            "name", if name == "" then ReadText(Meta(src), "name") else name)
  }

  /** The labels and annotations of a replica. */
  function ReplicaLabels(src: Unstructured, hubName: string, deny: Denylist): map<string, string> {
    Clean(StringMap(src, "labels"), deny) + Marks(src, hubName)
  }

  function ReplicaAnnotations(src: Unstructured, deny: Denylist, hash: Hash): map<string, string> {
    Clean(StringMap(src, "annotations"), deny) + map[ANNOTATION_SOURCE_HASH := hash(Canonical(src, deny))]
  }

  function Rendered(
    src: Unstructured, namespace: string, name: string, hubName: string, deny: Denylist, hash: Hash): Unstructured
  {
    var rep := Relocated(src, namespace, name);
    var rep := SetMeta(rep, "labels", Object(AsJson(ReplicaLabels(src, hubName, deny))));
    SetMeta(rep, "annotations", Object(AsJson(ReplicaAnnotations(src, deny, hash))))
  }

  function AdoptPatch(
    src: Unstructured, apiVersion: string, kind: string, namespace: string, name: string, hubName: string, hash: string)
    : Unstructured
  {
    map["apiVersion" := Text(apiVersion), "kind" := Text(kind),
        "metadata" := Object(map[
          "namespace" := Text(namespace), "name" := Text(name),
          "labels" := Object(AsJson(Marks(src, hubName))),
          "annotations" := Object(AsJson(map[ANNOTATION_SOURCE_HASH := hash]))])]
  }

  // ---- The payload survives rendering -----------------------------------------------------

  /** The engine's own keys are all on the denylist. */
  lemma {:induction false} MarksAreStripped(src: Unstructured, hubName: string, deny: Denylist)
    ensures forall k :: k in Marks(src, hubName) ==> Stripped(k, deny)
    ensures Stripped(ANNOTATION_SOURCE_HASH, deny)
  {
    assert LABEL_SOURCE_CLUSTER[..7] == R8R_PREFIX && LABEL_SOURCE_NAMESPACE[..7] == R8R_PREFIX;
    assert LABEL_SOURCE_NAME[..7] == R8R_PREFIX && LABEL_SOURCE_KIND[..7] == R8R_PREFIX;
    assert LABEL_SOURCE_UID[..7] == R8R_PREFIX && ANNOTATION_SOURCE_HASH[..7] == R8R_PREFIX;
  }

  lemma {:induction false} CleanAbsorbs(m: map<string, string>, own: map<string, string>, deny: Denylist)
    requires forall k :: k in own ==> Stripped(k, deny)
    ensures Clean(AsJson(Clean(m, deny) + own), deny) == AsJson(Clean(m, deny))
  {
    var a, b := Clean(AsJson(Clean(m, deny) + own), deny), AsJson(Clean(m, deny));
    forall k ensures k in a <==> k in b {}
    assert a.Keys == b.Keys;
  }

  /** GetLabels sees what the hash sees, unless a non-string value hides unstripped keys. */
  predicate Legible(obj: Unstructured, field: string, deny: Denylist) {
    AllText(RawMap(obj, field)) || forall k :: k in RawMap(obj, field) ==> Stripped(k, deny)
  }

  lemma {:induction false} LegibleField(obj: Unstructured, field: string, deny: Denylist)
    ensures Legible(obj, field, deny) <==> AsJson(Clean(StringMap(obj, field), deny)) == CleanField(obj, field, deny)
  {
    var raw := RawMap(obj, field);
    var a, b := AsJson(Clean(StringMap(obj, field), deny)), CleanField(obj, field, deny);
    if AllText(raw) {
      assert a.Keys == b.Keys;
      assert forall k :: k in a ==> a[k] == b[k];
    } else {
      assert a == map[];
      if Legible(obj, field, deny) {
        assert b == map[];
      } else {
        var k :| k in raw && !Stripped(k, deny);
        assert k in b;
      }
    }
  }

  /** Metadata is a map, or absent: what the API server stores. */
  predicate HasMetaMap(obj: Unstructured) { "metadata" in obj ==> obj["metadata"].Object? }

  /** Rewriting one metadata field leaves the others and the body alone. */
  lemma {:induction false} SetTextKeeps(obj: Unstructured, field: string, value: string, other: string)
    requires field != other && HasMetaMap(obj)
    ensures RawField(SetText(obj, field, value), other) == RawField(obj, other)
    ensures Body(SetText(obj, field, value)) == Body(obj) && HasMetaMap(SetText(obj, field, value))
  {}

  lemma {:induction false} StripKeeps(obj: Unstructured, field: string)
    requires field !in SERVER_MANAGED && HasMetaMap(obj)
    ensures RawField(StripServerManaged(obj), field) == RawField(obj, field)
    ensures Body(StripServerManaged(obj)) == Body(obj) && HasMetaMap(StripServerManaged(obj))
  {}

  lemma {:induction false} RelocatedKeeps(src: Unstructured, namespace: string, name: string, field: string)
    requires HasMetaMap(src) && (field == "labels" || field == "annotations")
    ensures RawField(Relocated(src, namespace, name), field) == RawField(src, field)
    ensures Body(Relocated(src, namespace, name)) == Body(src) && HasMetaMap(Relocated(src, namespace, name))
  {
    var r0 := StripServerManaged(src);
    StripKeeps(src, field);
    SetTextKeeps(r0, "namespace", namespace, field);
    var r1 := SetText(r0, "namespace", namespace);
    SetTextKeeps(r1, "name", if name == "" then ReadText(Meta(src), "name") else name, field);
  }

  lemma {:induction false} SetMetaSets(obj: Unstructured, field: string, value: Json)
    requires HasMetaMap(obj)
    ensures Meta(SetMeta(obj, field, value)) == Meta(obj)[field := value]
    ensures Body(SetMeta(obj, field, value)) == Body(obj) && HasMetaMap(SetMeta(obj, field, value))
  {}

  /** What rendering does to the object, part by part. */
  lemma {:induction false} RenderedParts(
    src: Unstructured, namespace: string, name: string, hubName: string, deny: Denylist, hash: Hash)
    requires HasMetaMap(src)
    ensures var rep := Rendered(src, namespace, name, hubName, deny, hash);
            && HasMetaMap(rep) && Body(rep) == Body(src)
            && RawMap(rep, "labels") == AsJson(ReplicaLabels(src, hubName, deny))
            && RawMap(rep, "annotations") == AsJson(ReplicaAnnotations(src, deny, hash))
  {
    RelocatedKeeps(src, namespace, name, "labels");
    SetBoth(Relocated(src, namespace, name),
            AsJson(ReplicaLabels(src, hubName, deny)), AsJson(ReplicaAnnotations(src, deny, hash)));
  }

  lemma {:induction false} SetBoth(obj: Unstructured, labels: map<string, Json>, annotations: map<string, Json>)
    requires HasMetaMap(obj)
    ensures var rep := SetMeta(SetMeta(obj, "labels", Object(labels)), "annotations", Object(annotations));
            && HasMetaMap(rep) && Body(rep) == Body(obj)
            && RawMap(rep, "labels") == labels && RawMap(rep, "annotations") == annotations
  {
    SetMetaSets(obj, "labels", Object(labels));
    SetMetaSets(SetMeta(obj, "labels", Object(labels)), "annotations", Object(annotations));
  }

  lemma {:induction false} StringMapOf(obj: Unstructured, field: string, m: map<string, string>)
    requires RawMap(obj, field) == AsJson(m)
    ensures StringMap(obj, field) == m
  {
    assert forall k :: k in m ==> AsJson(m)[k] == Text(m[k]);
  }

  lemma {:induction false} MarkEntries(m: map<string, string>, src: Unstructured, hubName: string)
    ensures Entry(m + Marks(src, hubName), LABEL_MANAGED_BY) == MANAGED_BY
    ensures Entry(m + Marks(src, hubName), LABEL_SOURCE_UID) == ReadText(Meta(src), "uid")
  {
    var marks := Marks(src, hubName);
    assert LABEL_MANAGED_BY in marks && LABEL_SOURCE_UID in marks;
  }

  lemma {:induction false} ReducedInjective(
    l1: map<string, Json>, a1: map<string, Json>, l2: map<string, Json>, a2: map<string, Json>)
    requires Reduced(l1, a1) == Reduced(l2, a2)
    ensures l1 == l2 && a1 == a2
  {
    var r1, r2 := Reduced(l1, a1), Reduced(l2, a2);
    assert |l1| > 0 <==> "labels" in r1;
    assert |l2| > 0 <==> "labels" in r2;
    assert |a1| > 0 <==> "annotations" in r1;
    assert |a2| > 0 <==> "annotations" in r2;
    assert |l1| > 0 ==> r1["labels"] == Object(l1);
    assert |l2| > 0 ==> r2["labels"] == Object(l2);
    assert |a1| > 0 ==> r1["annotations"] == Object(a1);
    assert |a2| > 0 ==> r2["annotations"] == Object(a2);
  }

  /** A payload determines the body and the kept labels and annotations. */
  lemma {:induction false} AssembleInjective(
    b1: Unstructured, l1: map<string, Json>, a1: map<string, Json>,
    b2: Unstructured, l2: map<string, Json>, a2: map<string, Json>)
    requires "metadata" !in b1 && "metadata" !in b2
    requires Assemble(b1, l1, a1) == Assemble(b2, l2, a2)
    ensures b1 == b2 && l1 == l2 && a1 == a2
  {
    AssembledParts(b1, l1, a1);
    AssembledParts(b2, l2, a2);
    assert Reduced(l1, a1) == Reduced(l2, a2);
    ReducedInjective(l1, a1, l2, a2);
  }

  lemma {:induction false} AssembledParts(body: Unstructured, labels: map<string, Json>, annotations: map<string, Json>)
    requires "metadata" !in body
    ensures var p, r := Assemble(body, labels, annotations), Reduced(labels, annotations);
            && body == p - {"metadata"} && ("metadata" in p <==> r != map[])
            && ("metadata" in p ==> p["metadata"] == Object(r))
  {}

  /** Two objects have one payload exactly when they agree on their body and their cleaned labels and annotations. */
  lemma {:induction false} SamePayloadIff(a: Unstructured, b: Unstructured, deny: Denylist)
    ensures Canonical(a, deny) == Canonical(b, deny) <==>
            && Body(a) == Body(b) && CleanField(a, "labels", deny) == CleanField(b, "labels", deny)
            && CleanField(a, "annotations", deny) == CleanField(b, "annotations", deny)
  {
    if Canonical(a, deny) == Canonical(b, deny) {
      AssembleInjective(Body(a), CleanField(a, "labels", deny), CleanField(a, "annotations", deny),
                        Body(b), CleanField(b, "labels", deny), CleanField(b, "annotations", deny));
    }
  }

  /** The replica hashes like its source exactly when GetLabels and GetAnnotations can read what the
      hash reads; otherwise the engine would re-apply on every pass. */
  lemma {:induction false} RenderPreservesPayloadIff(
    src: Unstructured, namespace: string, name: string, hubName: string, deny: Denylist, hash: Hash)
    requires HasMetaMap(src)
    ensures Canonical(Rendered(src, namespace, name, hubName, deny, hash), deny) == Canonical(src, deny)
            <==> Legible(src, "labels", deny) && Legible(src, "annotations", deny)
  {
    var rep := Rendered(src, namespace, name, hubName, deny, hash);
    RenderedParts(src, namespace, name, hubName, deny, hash);
    MarksAreStripped(src, hubName, deny);
    var own := map[ANNOTATION_SOURCE_HASH := hash(Canonical(src, deny))];
    CleanAbsorbs(StringMap(src, "labels"), Marks(src, hubName), deny);
    CleanAbsorbs(StringMap(src, "annotations"), own, deny);
    LegibleField(src, "labels", deny);
    LegibleField(src, "annotations", deny);
    SamePayloadIff(rep, src, deny);
  }

  /** Label and annotation values are strings: the API server accepts nothing else. */
  predicate WellFormed(obj: Unstructured) {
    HasMetaMap(obj) && AllText(RawMap(obj, "labels")) && AllText(RawMap(obj, "annotations"))
  }

  /** A malformed label does break the contract: this source never hashes like its replica. */
  lemma {:induction false} MalformedLabelBreaksPayload(deny: Denylist, hash: Hash, hubName: string)
    requires !Stripped("team", deny)
    ensures var src: Unstructured := map["metadata" := Object(map["labels" := Object(map["team" := Number(1)])])];
            Canonical(Rendered(src, "ns", "n", hubName, deny, hash), deny) != Canonical(src, deny)
  {
    var src: Unstructured := map["metadata" := Object(map["labels" := Object(map["team" := Number(1)])])];
    RenderPreservesPayloadIff(src, "ns", "n", hubName, deny, hash);
    assert RawMap(src, "labels") == map["team" := Number(1)];
    assert RawMap(src, "labels")["team"] == Number(1);
  }

  /** For every well-formed source, target, hub name and denylist: the replica has the source's payload,
      is itself well-formed, and rendering it again keeps the payload once more. */
  lemma {:induction false} RenderPreservesPayload(
    src: Unstructured, namespace: string, name: string, hubName: string, deny: Denylist, hash: Hash,
    namespace2: string, name2: string, hubName2: string)
    requires WellFormed(src)
    ensures var rep := Rendered(src, namespace, name, hubName, deny, hash);
            && WellFormed(rep)
            && Canonical(rep, deny) == Canonical(src, deny)
            && Canonical(Rendered(rep, namespace2, name2, hubName2, deny, hash), deny) == Canonical(src, deny)
  {
    var rep := Rendered(src, namespace, name, hubName, deny, hash);
    RenderedParts(src, namespace, name, hubName, deny, hash);
    RenderPreservesPayloadIff(src, namespace, name, hubName, deny, hash);
    RenderPreservesPayloadIff(rep, namespace2, name2, hubName2, deny, hash);
  }

  // ---- The engine's view of an object ---------------------------------------------------------

  /** What the engine reads from a spoke object: two ownership labels, the hash annotation, the payload.
      A missing label reads as the empty string. */
  datatype Replica = Replica(managedBy: string, sourceUid: string, hashNote: string, payload: Payload)

  function View(obj: Unstructured, deny: Denylist): Replica {
    Replica(Entry(StringMap(obj, "labels"), LABEL_MANAGED_BY),
            Entry(StringMap(obj, "labels"), LABEL_SOURCE_UID),
            Entry(StringMap(obj, "annotations"), ANNOTATION_SOURCE_HASH),
            Canonical(obj, deny))
  }

  /** A rendered replica carries both marks, the source's hash and the source's payload. */
  lemma {:induction false} RenderedView(
    src: Unstructured, namespace: string, name: string, hubName: string, deny: Denylist, hash: Hash)
    requires WellFormed(src)
    ensures View(Rendered(src, namespace, name, hubName, deny, hash), deny)
            == Replica(MANAGED_BY, ReadText(Meta(src), "uid"), hash(Canonical(src, deny)), Canonical(src, deny))
  {
    var rep := Rendered(src, namespace, name, hubName, deny, hash);
    RenderedParts(src, namespace, name, hubName, deny, hash);
    RenderPreservesPayloadIff(src, namespace, name, hubName, deny, hash);
    StringMapOf(rep, "labels", ReplicaLabels(src, hubName, deny));
    StringMapOf(rep, "annotations", ReplicaAnnotations(src, deny, hash));
    MarkEntries(Clean(StringMap(src, "labels"), deny), src, hubName);
  }

  // ---- Applying onto an existing object ---------------------------------------------------------

  /** The merge rule of a server-side apply: objects merge field by field at every depth, anything else is replaced,
      and fields of other managers stay. (What this manager owned before and no longer applies is taken to be gone
      from the existing object already.) */
  function Overlaid(a: Json, b: Json): Json
    decreases b
  {
    if a.Object? && b.Object? then
      Object(map k | k in a.fields.Keys + b.fields.Keys ::
               if k !in b.fields then a.fields[k]
               else if k !in a.fields then b.fields[k]
               else Overlaid(a.fields[k], b.fields[k]))
    else b
  }

  function MergedBody(m: Unstructured, n: Unstructured): Unstructured {
    map k | k in m.Keys + n.Keys :: if k !in n then m[k] else if k !in m then n[k] else Overlaid(m[k], n[k])
  }

  /** Every field of a is a field of b, at every depth where both are objects. */
  predicate NoDeeper(a: Json, b: Json)
    decreases b
  {
    a.Object? && b.Object? ==>
      && a.fields.Keys <= b.fields.Keys
      && forall k :: k in a.fields && k in b.fields ==> NoDeeper(a.fields[k], b.fields[k])
  }

  lemma {:induction false} OverlaidIff(a: Json, b: Json)
    ensures Overlaid(a, b) == b <==> NoDeeper(a, b)
    decreases b
  {
    if a.Object? && b.Object? {
      forall k | k in a.fields && k in b.fields
        ensures Overlaid(a.fields[k], b.fields[k]) == b.fields[k] <==> NoDeeper(a.fields[k], b.fields[k])
      {
        OverlaidIff(a.fields[k], b.fields[k]);
      }
      OverlaidFields(a.fields, b.fields, Overlaid(a, b).fields);
    }
  }

  lemma {:induction false} OverlaidFields(m: Unstructured, n: Unstructured, r: Unstructured)
    requires r == MergedBody(m, n)
    ensures r == n <==> m.Keys <= n.Keys && forall k :: k in m && k in n ==> Overlaid(m[k], n[k]) == n[k]
  {
    assert r.Keys == m.Keys + n.Keys;
    if m.Keys <= n.Keys && forall k :: k in m && k in n ==> Overlaid(m[k], n[k]) == n[k] {
      assert forall k :: k in n ==> r[k] == n[k];
    }
    if r == n {
      forall k | k in m ensures k in n { assert k in r; }
      forall k | k in m && k in n ensures Overlaid(m[k], n[k]) == n[k] { assert r[k] == n[k]; }
    }
  }

  /** Labels and annotations merge key by key. */
  function MergedField(existing: Unstructured, patch: Unstructured, field: string): map<string, Json> {
    RawMap(existing, field) + RawMap(patch, field)
  }

  function MergedMeta(existing: Unstructured, patch: Unstructured): map<string, Json> {
    var md := Meta(existing) + Meta(patch);
    var md := if "labels" in Meta(patch) then md["labels" := Object(MergedField(existing, patch, "labels"))] else md;
    if "annotations" in Meta(patch)
    then md["annotations" := Object(MergedField(existing, patch, "annotations"))] else md
  }

  function Merge(existing: Unstructured, patch: Unstructured): Unstructured {
    var fields := MergedBody(existing, patch - {"metadata"});
    if "metadata" in patch then fields["metadata" := Object(MergedMeta(existing, patch))] else fields
  }

  lemma {:induction false} MergedParts(existing: Unstructured, patch: Unstructured)
    requires HasMetaMap(patch) && "labels" in Meta(patch) && "annotations" in Meta(patch)
    ensures var merged := Merge(existing, patch);
            && Body(merged) == MergedBody(Body(existing), Body(patch))
            && RawMap(merged, "labels") == MergedField(existing, patch, "labels")
            && RawMap(merged, "annotations") == MergedField(existing, patch, "annotations")
  {
    assert Meta(Merge(existing, patch)) == MergedMeta(existing, patch);
  }

  lemma {:induction false} AdoptPatchParts(
    src: Unstructured, apiVersion: string, kind: string, namespace: string, name: string, hubName: string, hash: string)
    ensures var patch := AdoptPatch(src, apiVersion, kind, namespace, name, hubName, hash);
            && HasMetaMap(patch) && "labels" in Meta(patch) && "annotations" in Meta(patch)
            && RawMap(patch, "labels") == AsJson(Marks(src, hubName))
            && RawMap(patch, "annotations") == AsJson(map[ANNOTATION_SOURCE_HASH := hash])
            && Body(patch) == map["apiVersion" := Text(apiVersion), "kind" := Text(kind)]
  {}

  lemma {:induction false} MergedStrings(
    m: map<string, Json>, own: map<string, string>, obj: Unstructured, field: string)
    requires AllText(m) && RawMap(obj, field) == m + AsJson(own)
    ensures StringMap(obj, field) == (map k | k in m :: m[k].s) + own
  {
    assert AllText(m + AsJson(own));
  }

  lemma {:induction false} CleanMerge(m: map<string, Json>, own: map<string, string>, deny: Denylist)
    requires forall k :: k in own ==> Stripped(k, deny)
    ensures Clean(m + AsJson(own), deny) == Clean(m, deny)
  {}

  /** Merging stripped keys over an object, and fields it already has, is invisible to the hash. */
  lemma {:induction false} InvisibleMerge(
    existing: Unstructured, patch: Unstructured, labels: map<string, string>, anns: map<string, string>, deny: Denylist)
    requires HasMetaMap(patch) && "labels" in Meta(patch) && "annotations" in Meta(patch)
    requires RawMap(patch, "labels") == AsJson(labels) && RawMap(patch, "annotations") == AsJson(anns)
    requires forall k :: k in labels || k in anns ==> Stripped(k, deny)
    requires MergedBody(Body(existing), Body(patch)) == Body(existing)
    ensures Canonical(Merge(existing, patch), deny) == Canonical(existing, deny)
  {
    MergedParts(existing, patch);
    CleanMerge(RawMap(existing, "labels"), labels, deny);
    CleanMerge(RawMap(existing, "annotations"), anns, deny);
  }

  lemma {:induction false} VisibleMarks(
    existing: Unstructured, patch: Unstructured, src: Unstructured, hubName: string, hash: string)
    requires WellFormed(existing)
    requires HasMetaMap(patch) && "labels" in Meta(patch) && "annotations" in Meta(patch)
    requires RawMap(patch, "labels") == AsJson(Marks(src, hubName))
    requires RawMap(patch, "annotations") == AsJson(map[ANNOTATION_SOURCE_HASH := hash])
    ensures Entry(StringMap(Merge(existing, patch), "labels"), LABEL_MANAGED_BY) == MANAGED_BY
    ensures Entry(StringMap(Merge(existing, patch), "labels"), LABEL_SOURCE_UID) == ReadText(Meta(src), "uid")
    ensures Entry(StringMap(Merge(existing, patch), "annotations"), ANNOTATION_SOURCE_HASH) == hash
  {
    var merged := Merge(existing, patch);
    MergedParts(existing, patch);
    var labels := RawMap(existing, "labels");
    MergedStrings(labels, Marks(src, hubName), merged, "labels");
    MarkEntries(map k | k in labels :: labels[k].s, src, hubName);
    MergedStrings(RawMap(existing, "annotations"), map[ANNOTATION_SOURCE_HASH := hash], merged, "annotations");
  }

  /** Adopting adds marks and the hash annotation and leaves the payload as it was. */
  lemma {:induction false} AdoptKeepsPayload(
    existing: Unstructured, src: Unstructured, apiVersion: string, kind: string,
    namespace: string, name: string, hubName: string, hash: string, deny: Denylist)
    requires WellFormed(existing)
    requires "apiVersion" in existing && existing["apiVersion"] == Text(apiVersion)
    requires "kind" in existing && existing["kind"] == Text(kind)
    ensures View(Merge(existing, AdoptPatch(src, apiVersion, kind, namespace, name, hubName, hash)), deny)
            == Replica(MANAGED_BY, ReadText(Meta(src), "uid"), hash, Canonical(existing, deny))
  {
    var patch := AdoptPatch(src, apiVersion, kind, namespace, name, hubName, hash);
    AdoptPatchParts(src, apiVersion, kind, namespace, name, hubName, hash);
    MarksAreStripped(src, hubName, deny);
    assert MergedBody(Body(existing), Body(patch)) == Body(existing);
    InvisibleMerge(existing, patch, Marks(src, hubName), map[ANNOTATION_SOURCE_HASH := hash], deny);
    VisibleMarks(existing, patch, src, hubName, hash);
  }

  /** Nothing of the existing object would survive a merge outside what the patch sets. */
  predicate NothingExtra(existing: Unstructured, patch: Unstructured, deny: Denylist) {
    && NoDeeper(Object(Body(existing)), Object(Body(patch)))
    && CleanField(existing, "labels", deny).Keys <= CleanField(patch, "labels", deny).Keys
    && CleanField(existing, "annotations", deny).Keys <= CleanField(patch, "annotations", deny).Keys
  }

  lemma {:induction false} MergedCleanIff(m: map<string, Json>, n: map<string, Json>, deny: Denylist)
    ensures Clean(m + n, deny) == Clean(n, deny) <==> Clean(m, deny).Keys <= Clean(n, deny).Keys
  {
    var a, b := Clean(m + n, deny), Clean(n, deny);
    assert a.Keys == Clean(m, deny).Keys + b.Keys;
    assert forall k :: k in b ==> a[k] == b[k];
  }

  lemma {:induction false} MergedBodyIff(m: Unstructured, n: Unstructured)
    ensures MergedBody(m, n) == n <==> NoDeeper(Object(m), Object(n))
  {
    OverlaidIff(Object(m), Object(n));
    assert Overlaid(Object(m), Object(n)) == Object(MergedBody(m, n));
  }

  /** A merging apply restores the desired payload exactly when the existing object holds nothing extra:
      a key somebody added to a replica survives every re-apply. */
  lemma {:induction false} MergeRestoresIff(existing: Unstructured, patch: Unstructured, deny: Denylist)
    requires HasMetaMap(patch) && "labels" in Meta(patch) && "annotations" in Meta(patch)
    ensures Canonical(Merge(existing, patch), deny) == Canonical(patch, deny)
            <==> NothingExtra(existing, patch, deny)
  {
    var merged := Merge(existing, patch);
    MergedParts(existing, patch);
    MergedCleanIff(RawMap(existing, "labels"), RawMap(patch, "labels"), deny);
    MergedCleanIff(RawMap(existing, "annotations"), RawMap(patch, "annotations"), deny);
    MergedBodyIff(Body(existing), Body(patch));
    SamePayloadIff(merged, patch, deny);
  }

  /** Any key added inside a field of a replica, such as its data, survives every re-apply, so the payload is never
      restored. */
  lemma {:induction false} AddedKeySurvives(
    existing: Unstructured, patch: Unstructured, deny: Denylist, field: string, key: string)
    requires HasMetaMap(patch) && "labels" in Meta(patch) && "annotations" in Meta(patch)
    requires field in Body(existing) && Body(existing)[field].Object? && key in Body(existing)[field].fields
    requires field in Body(patch) && Body(patch)[field].Object? && key !in Body(patch)[field].fields
    ensures Canonical(Merge(existing, patch), deny) != Canonical(patch, deny)
  {
    MergeRestoresIff(existing, patch, deny);
    assert !NoDeeper(Body(existing)[field], Body(patch)[field]);
  }

  /** For instance a Secret with the one key a, to which somebody added b. */
  lemma {:induction false} AddedKeyExample(meta: map<string, Json>, deny: Denylist)
    requires "labels" in meta && "annotations" in meta
    ensures var patch: Unstructured := map["metadata" := Object(meta), "data" := Object(map["a" := Text("1")])];
            var edited: Unstructured := map["metadata" := Object(meta),
                                            "data" := Object(map["a" := Text("1"), "b" := Text("2")])];
            Canonical(Merge(edited, patch), deny) != Canonical(patch, deny)
  {
    var patch: Unstructured := map["metadata" := Object(meta), "data" := Object(map["a" := Text("1")])];
    var edited: Unstructured := map["metadata" := Object(meta),
                                    "data" := Object(map["a" := Text("1"), "b" := Text("2")])];
    AddedKeySurvives(edited, patch, deny, "data", "b");
  }
}
