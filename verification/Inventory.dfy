/** The inventory of created replicas and the garbage-collection plan derived from it
    (internal/engine/inventory.go). */
module Inventory {
  import opened Options

  datatype SlotKey = SlotKey(cluster: string, namespace: string, name: string, group: string, kind: string)

  datatype InventoryEntry = InventoryEntry(key: SlotKey, hash: string)

  function Keys(inv: seq<InventoryEntry>): (ks: set<SlotKey>) {
    set e | e in inv :: e.key
  }

  lemma {:induction false} KeysAppend(a: seq<InventoryEntry>, b: seq<InventoryEntry>)
    ensures Keys(a + b) == Keys(a) + Keys(b)
  {
    assert forall e :: e in a + b <==> e in a || e in b;
  }

  lemma {:induction false} KeysOne(e: InventoryEntry)
    ensures Keys([e]) == {e.key}
  {
    assert e in [e];
  }

  lemma {:induction false} NoEntries(inv: seq<InventoryEntry>)
    ensures inv == [] || exists e :: e in inv
  {
    if inv != [] { assert inv[0] in inv; }
  }

  ghost predicate DistinctKeys(inv: seq<InventoryEntry>) {
    forall i, j :: 0 <= i < j < |inv| ==> inv[i].key != inv[j].key
  }

  lemma {:induction false} AppendDistinct(inv: seq<InventoryEntry>, e: InventoryEntry)
    requires DistinctKeys(inv) && e.key !in Keys(inv)
    ensures DistinctKeys(inv + [e])
  {
    assert forall n :: 0 <= n < |inv| ==> inv[n] in inv;
  }

  lemma {:induction false} FrontDistinct(inv: seq<InventoryEntry>)
    requires DistinctKeys(inv) && inv != []
    ensures DistinctKeys(inv[..|inv| - 1]) && inv[|inv| - 1].key !in Keys(inv[..|inv| - 1])
    ensures Keys(inv) == Keys(inv[..|inv| - 1]) + {inv[|inv| - 1].key}
  {
    var front, e := inv[..|inv| - 1], inv[|inv| - 1];
    assert inv == front + [e];
    KeysAppend(front, [e]);
    KeysOne(e);
  }

  /** Drops the entries with the key, keeping the order of the rest. */
  function Remove(inv: seq<InventoryEntry>, k: SlotKey): (r: seq<InventoryEntry>)
    ensures forall e :: e in r <==> e in inv && e.key != k
    ensures Keys(r) == Keys(inv) - {k}
  {
    if inv == [] then []
    else
      var front, e := inv[..|inv| - 1], inv[|inv| - 1];
      assert inv == front + [e];
      if e.key == k then Remove(front, k) else Remove(front, k) + [e]
  }

  /** Refreshes the hash of the entry with the same key, or appends the entry. */
  function Upsert(inv: seq<InventoryEntry>, entry: InventoryEntry): (r: seq<InventoryEntry>)
    ensures |inv| <= |r|
    ensures forall i :: 0 <= i < |inv| ==> r[i].key == inv[i].key
    ensures forall e :: e in r ==> e in inv || e == entry
    ensures entry in r
  {
    if inv == [] then [entry]
    else if inv[0].key == entry.key then
      assert inv == [inv[0]] + inv[1..];
      [entry] + inv[1..]
    else
      assert inv == [inv[0]] + inv[1..];
      [inv[0]] + Upsert(inv[1..], entry)
  }

  lemma {:induction false} UpsertKeys(inv: seq<InventoryEntry>, entry: InventoryEntry)
    ensures Keys(Upsert(inv, entry)) == Keys(inv) + {entry.key}
  {
    var r := Upsert(inv, entry);
    forall k | k in Keys(inv) ensures k in Keys(r) {
      var e :| e in inv && e.key == k;
      var i :| 0 <= i < |inv| && inv[i] == e;
      assert r[i] in r && r[i].key == k;
    }
    assert entry in r;
  }

  predicate HasEntry(inv: seq<InventoryEntry>, k: SlotKey) { k in Keys(inv) }

  function EntriesIn(inv: seq<InventoryEntry>, ns: NsKey): (r: seq<InventoryEntry>)
    ensures forall e :: e in r <==> e in inv && NsKey(e.key.cluster, e.key.namespace) == ns
  {
    if inv == [] then []
    else
      var e := inv[|inv| - 1];
      assert inv == inv[..|inv| - 1] + [e];
      EntriesIn(inv[..|inv| - 1], ns) + (if NsKey(e.key.cluster, e.key.namespace) == ns then [e] else [])
  }

  // ---- The slices, in place ---------------------------------------------------------

  /** Compacts the first n elements within the array, as a slice reusing its backing array. */
  method RemoveEntry(a: array<InventoryEntry>, n: nat, k: SlotKey) returns (m: nat)
    requires n <= a.Length
    modifies a
    ensures m <= n
    ensures a[..m] == Remove(old(a[..n]), k)
    ensures a[n..] == old(a[n..])
  {
    m := 0;
    for i := 0 to n
      invariant m <= i
      invariant a[..m] == Remove(old(a[..i]), k)
      invariant a[i..] == old(a[i..])
    {
      ghost var before := old(a[..i + 1]);
      assert before[..i] == old(a[..i]) && before[i] == a[i];
      if a[i].key != k {
        a[m] := a[i];
        m := m + 1;
      }
    }
  }

  /** Refreshes in place; not found means the caller appends. */
  method RefreshEntry(a: array<InventoryEntry>, n: nat, entry: InventoryEntry) returns (found: bool)
    requires n <= a.Length
    modifies a
    ensures found <==> entry.key in Keys(old(a[..n]))
    ensures (if found then a[..n] else a[..n] + [entry]) == Upsert(old(a[..n]), entry)
    ensures a[n..] == old(a[n..])
  {
    for i := 0 to n
      invariant a[..] == old(a[..])
      invariant forall j :: 0 <= j < i ==> a[j].key != entry.key
    {
      if a[i].key == entry.key {
        UpsertAt(a[..n], i, entry);
        a[i] := InventoryEntry(a[i].key, entry.hash);
        return true;
      }
    }
    UpsertMissing(a[..n], entry);
    return false;
  }

  lemma {:induction false} UpsertAt(inv: seq<InventoryEntry>, i: nat, entry: InventoryEntry)
    requires i < |inv| && inv[i].key == entry.key
    requires forall j :: 0 <= j < i ==> inv[j].key != entry.key
    ensures Upsert(inv, entry) == inv[i := entry]
  {
    if i > 0 {
      var tail := inv[1..];
      assert forall j :: 0 <= j < i - 1 ==> tail[j].key != entry.key;
      UpsertAt(tail, i - 1, entry);
      assert inv[i := entry] == [inv[0]] + tail[i - 1 := entry];
    }
  }

  lemma {:induction false} UpsertMissing(inv: seq<InventoryEntry>, entry: InventoryEntry)
    requires entry.key !in Keys(inv)
    ensures Upsert(inv, entry) == inv + [entry]
  {
    if inv != [] {
      var tail := inv[1..];
      assert inv == [inv[0]] + tail;
      assert inv[0] in inv && forall e :: e in tail ==> e in inv;
      UpsertMissing(tail, entry);
    }
  }

  lemma {:induction false} UpsertKeepsDistinct(inv: seq<InventoryEntry>, entry: InventoryEntry)
    requires DistinctKeys(inv)
    ensures DistinctKeys(Upsert(inv, entry))
  {
    if entry.key in Keys(inv) {
      var i :| 0 <= i < |inv| && inv[i].key == entry.key;
      UpsertAt(inv, i, entry);
    } else {
      UpsertMissing(inv, entry);
    }
  }

  lemma {:induction false} RemoveKeepsDistinct(inv: seq<InventoryEntry>, k: SlotKey)
    requires DistinctKeys(inv)
    ensures DistinctKeys(Remove(inv, k))
    ensures k !in Keys(inv) ==> Remove(inv, k) == inv
  {
    if inv != [] {
      var front, e := inv[..|inv| - 1], inv[|inv| - 1];
      FrontDistinct(inv);
      RemoveKeepsDistinct(front, k);
      AppendDistinct(Remove(front, k), e);
      assert inv == front + [e];
    }
  }

  // ---- PlanGC -------------------------------------------------------------------------

  /** Entries not kept whose cluster is (not) discovered, in order. */
  function Uncovered(inv: seq<InventoryEntry>, keep: set<SlotKey>, discovered: set<string>, present: bool)
    : (r: seq<InventoryEntry>)
    ensures forall e :: e in r <==> e in inv && e.key !in keep && (e.key.cluster in discovered) == present
  {
    if inv == [] then []
    else
      var e := inv[|inv| - 1];
      assert inv == inv[..|inv| - 1] + [e];
      Uncovered(inv[..|inv| - 1], keep, discovered, present)
      + (if e.key !in keep && (e.key.cluster in discovered) == present then [e] else [])
  }

  method PlanGC(inv: seq<InventoryEntry>, keep: set<SlotKey>, discovered: set<string>)
    returns (del: seq<InventoryEntry>, rel: seq<InventoryEntry>)
    ensures del == Uncovered(inv, keep, discovered, true)
    ensures rel == Uncovered(inv, keep, discovered, false)
    ensures forall e :: e in inv ==>
              || (e.key in keep && e !in del && e !in rel)
              || (e.key !in keep && e in del && e !in rel)
              || (e.key !in keep && e !in del && e in rel)
  {
    del, rel := [], [];
    for i := 0 to |inv|
      invariant del == Uncovered(inv[..i], keep, discovered, true)
      invariant rel == Uncovered(inv[..i], keep, discovered, false)
    {
      assert inv[..i + 1][..i] == inv[..i];
      var e := inv[i];
      if e.key !in keep {
        if e.key.cluster !in discovered {
          rel := rel + [e];
        } else {
          del := del + [e];
        }
      }
    }
    assert inv[..|inv|] == inv;
  }

  /** A plan never lists one entry twice when keys are distinct. */
  lemma {:induction false} UncoveredDistinct(
    inv: seq<InventoryEntry>, keep: set<SlotKey>, discovered: set<string>, present: bool)
    requires DistinctKeys(inv)
    ensures DistinctKeys(Uncovered(inv, keep, discovered, present))
  {
    if inv != [] {
      var front, e := inv[..|inv| - 1], inv[|inv| - 1];
      FrontDistinct(inv);
      UncoveredDistinct(front, keep, discovered, present);
      AppendDistinct(Uncovered(front, keep, discovered, present), e);
    }
  }
}
