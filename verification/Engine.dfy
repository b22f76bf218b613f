/** One reconcile pass of the replication engine (internal/engine/reconciler.go). Every transport call has an
    explicit outcome, so a pass is a function of the spokes it finds and of those outcomes. */
module Engine {
  import opened Basics
  import opened Policies
  import opened Options
  import opened Inventory
  import opened Conflict
  import R = Render
  import S = Status

  /** What the transport reaches: the objects at replica names, and the existing namespaces. */
  datatype Spokes = Spokes(objects: map<SlotKey, R.Replica>, namespaces: set<NsKey>)

  /** The source object as the pass read it. */
  datatype SourceView = SourceView(uid: string, payload: R.Payload, requested: ConflictPolicy)

  datatype ReadOutcome = ReadOk | ReadUnavailable | ReadFails

  /** Ambiguous: an error is reported although the write took effect. Invalid: an immutable field was rejected. */
  datatype WriteOutcome = Lands | Unavailable | Rejected | Invalid | Ambiguous

  /** The outcomes of the calls that converging one slot can make, in order. */
  datatype SlotFaults = SlotFaults(
    namespaceRead: ReadOutcome, namespaceWrite: WriteOutcome,
    read: ReadOutcome, write: WriteOutcome, del: WriteOutcome, rewrite: WriteOutcome)

  datatype CollectFaults = CollectFaults(read: ReadOutcome, del: WriteOutcome)

  datatype GroupKind = GroupKind(group: string, kind: string)

  function NsOf(k: SlotKey): NsKey { NsKey(k.cluster, k.namespace) }

  function KindOf(k: SlotKey): GroupKind { GroupKind(k.group, k.kind) }

  /** Objects live in existing namespaces. */
  ghost predicate Housed(sp: Spokes) {
    forall k :: k in sp.objects ==> NsOf(k) in sp.namespaces
  }

  /** The object at the slot carries this source's UID. */
  predicate Carries(sp: Spokes, k: SlotKey, uid: string) {
    k in sp.objects && sp.objects[k].sourceUid == uid
  }

  // ---- Writing -------------------------------------------------------------------------

  /** error is None when the call succeeded; writes counts the write calls issued. */
  datatype Written = Written(spokes: Spokes, error: Option<S.Reason>, writes: nat)

  function ReadError(o: ReadOutcome): S.Reason {
    if o.ReadUnavailable? then S.ClusterUnreachable else S.ApplyFailed
  }

  function WriteError(o: WriteOutcome): S.Reason {
    if o.Unavailable? then S.ClusterUnreachable else S.ApplyFailed
  }

  predicate TakesEffect(o: WriteOutcome) { o.Lands? || o.Ambiguous? }

  function Put(sp: Spokes, k: SlotKey, r: R.Replica, o: WriteOutcome): Spokes {
    if TakesEffect(o) then sp.(objects := sp.objects[k := r]) else sp
  }

  function Drop(sp: Spokes, k: SlotKey, o: WriteOutcome): Spokes {
    if TakesEffect(o) then sp.(objects := sp.objects - {k}) else sp
  }

  function Apply(sp: Spokes, k: SlotKey, r: R.Replica, o: WriteOutcome): Written {
    Written(Put(sp, k, r, o), if o.Lands? then None else Some(WriteError(o)), 1)
  }

  /** Falls back to delete and recreate when an immutable field is rejected. */
  function ApplyWithRecreate(sp: Spokes, k: SlotKey, r: R.Replica, f: SlotFaults): Written {
    if !f.write.Invalid? then Apply(sp, k, r, f.write)
    else
      var dropped := Drop(sp, k, f.del);
      if !f.del.Lands? then Written(dropped, Some(WriteError(f.del)), 2)
      else Apply(dropped, k, r, f.rewrite).(writes := 3)
  }

  // ---- One slot ------------------------------------------------------------------------

  datatype SlotResult = SlotResult(spokes: Spokes, inv: seq<InventoryEntry>, state: S.TargetState, writes: nat)

  function StateAt(k: SlotKey, desired: bool, reason: S.Reason): S.TargetState {
    S.TargetState(k.cluster, k.namespace, k.name, reason.Unset?, desired, reason, "")
  }

  function Desired(src: SourceView, hash: R.Hash): R.Replica {
    R.Replica(R.MANAGED_BY, src.uid, hash(src.payload), src.payload)
  }

  /** A failed write keeps the entry for a retry; a success records the hash. */
  function Finish(w: Written, inv: seq<InventoryEntry>, k: SlotKey, h: string): SlotResult {
    if w.error.Some? then SlotResult(w.spokes, inv, StateAt(k, true, w.error.value), w.writes)
    else SlotResult(w.spokes, Upsert(inv, InventoryEntry(k, h)), StateAt(k, true, S.Unset), w.writes)
  }

  /** The slot once its namespace exists. */
  function Converge(
    sp: Spokes, inv: seq<InventoryEntry>, k: SlotKey, src: SourceView, eff: EffectiveOptions,
    f: SlotFaults, hash: R.Hash): SlotResult
  {
    var h := hash(src.payload);
    var desired := Desired(src, hash);
    if !f.read.ReadOk? then SlotResult(sp, inv, StateAt(k, true, ReadError(f.read)), 0)
    else if k !in sp.objects then Finish(Apply(sp, k, desired, f.write), inv, k, h)
    else
      var existing := sp.objects[k];
      if Classify(existing, src.uid) == Stripped then Finish(ApplyWithRecreate(sp, k, desired, f), inv, k, h)
      else
        match DecideConflict(existing, src.uid, src.requested, h, eff.conflictPolicies, hash)
        case Refuse => SlotResult(sp, Remove(inv, k), StateAt(k, true, S.Conflicting), 0)
        case AdoptExisting =>
          Finish(Apply(sp, k, desired.(payload := existing.payload), f.write), inv, k, h)
        case TakeOver => Finish(ApplyWithRecreate(sp, k, desired, f), inv, k, h)
        case ApplyOwn =>
          if existing.hashNote != h || hash(existing.payload) != h
          then Finish(ApplyWithRecreate(sp, k, desired, f), inv, k, h)
          else Finish(Written(sp, None, 0), inv, k, h)
  }

  /** An allowed slot: ensure the namespace, then converge the object. A missing namespace that may not be
      created and a conflict are definitive: nothing was written, so the entry is dropped. */
  function ApplyTarget(
    sp: Spokes, inv: seq<InventoryEntry>, k: SlotKey, src: SourceView, eff: EffectiveOptions,
    f: SlotFaults, hash: R.Hash): SlotResult
  {
    var ns := NsOf(k);
    if !f.namespaceRead.ReadOk? then SlotResult(sp, inv, StateAt(k, true, ReadError(f.namespaceRead)), 0)
    else if ns in sp.namespaces then Converge(sp, inv, k, src, eff, f, hash)
    else if !eff.allowNamespaceCreation then
      SlotResult(sp, Remove(inv, k), StateAt(k, true, S.NamespaceMissing), 0)
    else
      var sp' := if TakesEffect(f.namespaceWrite) then sp.(namespaces := sp.namespaces + {ns}) else sp;
      if !f.namespaceWrite.Lands? then SlotResult(sp', inv, StateAt(k, true, WriteError(f.namespaceWrite)), 1)
      else
        var r := Converge(sp', inv, k, src, eff, f, hash);
        r.(writes := r.writes + 1)
  }

  /** Both keys for touching an object this source does not own: the object is unmanaged, and request and
      policy agree on taking it over, or on adopting content that hashes equal. */
  ghost predicate Consented(
    before: R.Replica, after: R.Replica, src: SourceView, eff: EffectiveOptions, hash: R.Hash)
  {
    && before.managedBy != R.MANAGED_BY
    && (|| (src.requested.Overwrite? && Overwrite in eff.conflictPolicies)
        || (&& (src.requested.Overwrite? || src.requested.Adopt?)
            && (Overwrite in eff.conflictPolicies || Adopt in eff.conflictPolicies)
            && hash(before.payload) == hash(src.payload) && after.payload == before.payload))
  }

  /** What converging a slot may do to the object there. */
  ghost predicate FairlyWritten(
    sp: Spokes, sp': Spokes, k: SlotKey, src: SourceView, eff: EffectiveOptions, hash: R.Hash)
  {
    k in sp.objects && sp.objects[k].sourceUid != src.uid ==>
      if k in sp'.objects then
        sp'.objects[k] == sp.objects[k] || Consented(sp.objects[k], sp'.objects[k], src, eff, hash)
      else
        sp.objects[k].managedBy != R.MANAGED_BY && src.requested.Overwrite? && Overwrite in eff.conflictPolicies
  }

  /** Only the slot's own object changes. */
  ghost predicate OnlyAt(sp: Spokes, sp': Spokes, k: SlotKey) {
    && (forall x :: x != k ==> (x in sp'.objects <==> x in sp.objects))
    && (forall x :: x != k && x in sp.objects ==> sp'.objects[x] == sp.objects[x])
    && sp.namespaces <= sp'.namespaces <= sp.namespaces + {NsOf(k)}
  }

  /** An entry leaves the inventory only while the slot holds nothing of this source. */
  ghost predicate DropsOnlyForeign(inv: seq<InventoryEntry>, r: SlotResult, k: SlotKey, uid: string) {
    && Keys(inv) - {k} <= Keys(r.inv) <= Keys(inv) + {k}
    && (k in Keys(inv) && k !in Keys(r.inv) ==> !Carries(r.spokes, k, uid))
  }

  /** All three at once. */
  ghost predicate SafeResult(
    sp: Spokes, inv: seq<InventoryEntry>, r: SlotResult, k: SlotKey, src: SourceView, eff: EffectiveOptions,
    hash: R.Hash)
  {
    && FairlyWritten(sp, r.spokes, k, src, eff, hash) && OnlyAt(sp, r.spokes, k) && Housed(r.spokes)
    && DropsOnlyForeign(inv, r, k, src.uid)
  }

  lemma {:induction false} FinishIsSafe(
    sp: Spokes, inv: seq<InventoryEntry>, w: Written, k: SlotKey, src: SourceView, eff: EffectiveOptions,
    hash: R.Hash, h: string)
    requires FairlyWritten(sp, w.spokes, k, src, eff, hash) && OnlyAt(sp, w.spokes, k) && Housed(w.spokes)
    ensures SafeResult(sp, inv, Finish(w, inv, k, h), k, src, eff, hash)
  {
    UpsertKeys(inv, InventoryEntry(k, h));
  }

  lemma {:induction false} RecreateIsSafe(
    sp: Spokes, inv: seq<InventoryEntry>, k: SlotKey, src: SourceView, eff: EffectiveOptions, f: SlotFaults,
    hash: R.Hash, h: string)
    requires Housed(sp) && k in sp.objects
    requires sp.objects[k].sourceUid == src.uid
             || (sp.objects[k].managedBy != R.MANAGED_BY && src.requested.Overwrite?
                 && Overwrite in eff.conflictPolicies)
    ensures SafeResult(sp, inv, Finish(ApplyWithRecreate(sp, k, Desired(src, hash), f), inv, k, h), k, src, eff, hash)
  {
    FinishIsSafe(sp, inv, ApplyWithRecreate(sp, k, Desired(src, hash), f), k, src, eff, hash, h);
  }

  lemma {:induction false} ConvergeIsSafe(
    sp: Spokes, inv: seq<InventoryEntry>, k: SlotKey, src: SourceView, eff: EffectiveOptions, f: SlotFaults,
    hash: R.Hash)
    requires src.uid != "" && Housed(sp) && NsOf(k) in sp.namespaces
    ensures SafeResult(sp, inv, Converge(sp, inv, k, src, eff, f, hash), k, src, eff, hash)
  {
    var h, desired := hash(src.payload), Desired(src, hash);
    if f.read.ReadOk? {
      if k !in sp.objects {
        FinishIsSafe(sp, inv, Apply(sp, k, desired, f.write), k, src, eff, hash, h);
      } else {
        var existing := sp.objects[k];
        if existing.sourceUid == src.uid {
          RecreateIsSafe(sp, inv, k, src, eff, f, hash, h);
          FinishIsSafe(sp, inv, Written(sp, None, 0), k, src, eff, hash, h);
        } else {
          match DecideConflict(existing, src.uid, src.requested, h, eff.conflictPolicies, hash)
          case AdoptExisting =>
            FinishIsSafe(sp, inv, Apply(sp, k, desired.(payload := existing.payload), f.write), k, src, eff, hash, h);
          case TakeOver => RecreateIsSafe(sp, inv, k, src, eff, f, hash, h);
          case _ =>
        }
      }
    }
  }

  /** Converging one slot: nobody else's object is touched without both keys, no other object changes, and
      the inventory entry is dropped only when the slot holds nothing of this source. */
  lemma {:induction false} ApplyTargetIsSafe(
    sp: Spokes, inv: seq<InventoryEntry>, k: SlotKey, src: SourceView, eff: EffectiveOptions, f: SlotFaults,
    hash: R.Hash)
    requires src.uid != "" && Housed(sp)
    ensures SafeResult(sp, inv, ApplyTarget(sp, inv, k, src, eff, f, hash), k, src, eff, hash)
  {
    var sp' := sp.(namespaces := sp.namespaces + {NsOf(k)});
    if NsOf(k) in sp.namespaces {
      ConvergeIsSafe(sp, inv, k, src, eff, f, hash);
    } else {
      ConvergeIsSafe(sp', inv, k, src, eff, f, hash);
    }
  }

  /** A replica in sync: both marks, and annotation and content at the source's hash. */
  predicate InSync(sp: Spokes, k: SlotKey, src: SourceView, hash: R.Hash) {
    && k in sp.objects && IsManagedReplica(sp.objects[k], src.uid)
    && sp.objects[k].hashNote == hash(src.payload) && hash(sp.objects[k].payload) == hash(src.payload)
  }

  ghost predicate ReadyInSync(r: SlotResult, k: SlotKey, src: SourceView, hash: R.Hash) {
    r.state.ready ==> InSync(r.spokes, k, src, hash) && InventoryEntry(k, hash(src.payload)) in r.inv
  }

  lemma {:induction false} FinishInSync(w: Written, inv: seq<InventoryEntry>, k: SlotKey, src: SourceView, hash: R.Hash)
    requires w.error != Some(S.Unset) && (w.error.None? ==> InSync(w.spokes, k, src, hash))
    ensures ReadyInSync(Finish(w, inv, k, hash(src.payload)), k, src, hash)
  {}

  /** Whatever fails, a slot reported ready holds a replica in sync and has its entry at the current hash. */
  lemma {:induction false} ReadyMeansInSync(
    sp: Spokes, inv: seq<InventoryEntry>, k: SlotKey, src: SourceView, eff: EffectiveOptions, f: SlotFaults,
    hash: R.Hash)
    requires src.uid != ""
    ensures ReadyInSync(ApplyTarget(sp, inv, k, src, eff, f, hash), k, src, hash)
  {
    if NsOf(k) in sp.namespaces {
      ConvergedIsInSync(sp, inv, k, src, eff, f, hash);
    } else {
      ConvergedIsInSync(sp.(namespaces := sp.namespaces + {NsOf(k)}), inv, k, src, eff, f, hash);
    }
  }

  lemma {:induction false} ConvergedIsInSync(
    sp: Spokes, inv: seq<InventoryEntry>, k: SlotKey, src: SourceView, eff: EffectiveOptions, f: SlotFaults,
    hash: R.Hash)
    requires src.uid != ""
    ensures ReadyInSync(Converge(sp, inv, k, src, eff, f, hash), k, src, hash)
  {
    var h, desired := hash(src.payload), Desired(src, hash);
    if f.read.ReadOk? {
      if k !in sp.objects {
        FinishInSync(Apply(sp, k, desired, f.write), inv, k, src, hash);
      } else {
        var existing := sp.objects[k];
        FinishInSync(ApplyWithRecreate(sp, k, desired, f), inv, k, src, hash);
        if Classify(existing, src.uid) != Stripped {
          match DecideConflict(existing, src.uid, src.requested, h, eff.conflictPolicies, hash)
          case AdoptExisting =>
            FinishInSync(Apply(sp, k, desired.(payload := existing.payload), f.write), inv, k, src, hash);
          case ApplyOwn =>
            if existing.hashNote == h && hash(existing.payload) == h {
              FinishInSync(Written(sp, None, 0), inv, k, src, hash);
            }
          case _ =>
        }
      }
    }
  }

  /** What a write of the replica r over the object at k may leave, and when it succeeds. */
  ghost predicate Rewritten(
    sp: Spokes, inv: seq<InventoryEntry>, res: SlotResult, k: SlotKey, r: R.Replica, h: string, works: bool)
    requires k in sp.objects
  {
    && (res.state.ready <==> works)
    && (works ==> res.spokes.objects == sp.objects[k := r] && res.inv == Upsert(inv, InventoryEntry(k, h)))
    && (!works ==>
          && res.inv == inv
          && (k in res.spokes.objects ==> res.spokes.objects[k] == sp.objects[k] || res.spokes.objects[k] == r))
  }

  /** What a slot held by somebody else comes to once it has been read, whatever becomes of the writes: taken over,
      adopted with its content, or refused with its entry dropped. A failed write keeps the entry. */
  lemma {:induction false} ForeignSlotDecided(
    sp: Spokes, inv: seq<InventoryEntry>, k: SlotKey, src: SourceView, eff: EffectiveOptions, f: SlotFaults,
    hash: R.Hash)
    requires src.uid != "" && k in sp.objects && sp.objects[k].sourceUid != src.uid && NsOf(k) in sp.namespaces
    requires f.namespaceRead.ReadOk? && f.read.ReadOk?
    ensures var r, before, h := ApplyTarget(sp, inv, k, src, eff, f, hash), sp.objects[k], hash(src.payload);
            var strength := Strength(WeakerOf(src.requested, eff.conflictPolicies));
            if before.managedBy != R.MANAGED_BY && strength == 2 then
              Rewritten(sp, inv, r, k, Desired(src, hash), h,
                        f.write.Lands? || (f.write.Invalid? && f.del.Lands? && f.rewrite.Lands?))
            else if before.managedBy != R.MANAGED_BY && strength == 1 && hash(before.payload) == h then
              Rewritten(sp, inv, r, k, Desired(src, hash).(payload := before.payload), h, f.write.Lands?)
            else
              r.spokes == sp && r.state.reason == S.Conflicting && r.inv == Remove(inv, k)
  {
    var desired, before, h := Desired(src, hash), sp.objects[k], hash(src.payload);
    RewriteOutcome(sp, inv, k, desired, f, h);
    ApplyOutcome(sp, inv, k, desired.(payload := before.payload), f.write, h);
  }

  lemma {:induction false} ApplyOutcome(
    sp: Spokes, inv: seq<InventoryEntry>, k: SlotKey, r: R.Replica, o: WriteOutcome, h: string)
    requires k in sp.objects
    ensures Rewritten(sp, inv, Finish(Apply(sp, k, r, o), inv, k, h), k, r, h, o.Lands?)
  {}

  lemma {:induction false} RewriteOutcome(
    sp: Spokes, inv: seq<InventoryEntry>, k: SlotKey, r: R.Replica, f: SlotFaults, h: string)
    requires k in sp.objects
    ensures Rewritten(sp, inv, Finish(ApplyWithRecreate(sp, k, r, f), inv, k, h), k, r, h,
                      f.write.Lands? || (f.write.Invalid? && f.del.Lands? && f.rewrite.Lands?))
  {
    assert (sp.objects - {k})[k := r] == sp.objects[k := r];
  }

  // ---- Garbage collection -----------------------------------------------------------------

  /** state is None when the entry was dealt with. */
  datatype CollectResult = CollectResult(
    spokes: Spokes, inv: seq<InventoryEntry>, state: Option<S.TargetState>, writes: nat)

  /** One entry to delete: only an object carrying this source's UID is deleted, marked or relabelled. */
  function CollectEntry(
    sp: Spokes, inv: seq<InventoryEntry>, k: SlotKey, uid: string, kinds: set<GroupKind>,
    f: CollectFaults): CollectResult
  {
    if KindOf(k) !in kinds then CollectResult(sp, inv, Some(StateAt(k, false, S.ApplyFailed)), 0)
    else if !f.read.ReadOk? then CollectResult(sp, inv, Some(StateAt(k, false, ReadError(f.read))), 0)
    else if k !in sp.objects || Classify(sp.objects[k], uid) == Foreign then CollectResult(sp, Remove(inv, k), None, 0)
    else if f.del.Lands? then CollectResult(Drop(sp, k, f.del), Remove(inv, k), None, 1)
    else CollectResult(Drop(sp, k, f.del), inv, Some(StateAt(k, false, WriteError(f.del))), 1)
  }

  /** The entry survives its collection: its kind is off the allowlist, or the check or the delete failed. */
  predicate Stuck(sp: Spokes, k: SlotKey, uid: string, kinds: set<GroupKind>, f: CollectFaults) {
    || KindOf(k) !in kinds
    || !f.read.ReadOk?
    || (k in sp.objects && !Classify(sp.objects[k], uid).Foreign? && !f.del.Lands?)
  }

  /** Collecting one entry: a foreign object is never touched, no other object changes, and the entry is
      dropped exactly when it is not stuck, leaving nothing of this source behind. */
  lemma {:induction false} CollectEntryIsSafe(
    sp: Spokes, inv: seq<InventoryEntry>, k: SlotKey, uid: string, kinds: set<GroupKind>, f: CollectFaults)
    requires uid != "" && Housed(sp)
    ensures var r := CollectEntry(sp, inv, k, uid, kinds, f);
            && OnlyAt(sp, r.spokes, k) && Housed(r.spokes)
            && (k in sp.objects && sp.objects[k].sourceUid != uid ==> r.spokes == sp)
            && (k in r.spokes.objects ==> k in sp.objects && r.spokes.objects[k] == sp.objects[k])
            && r.inv == (if Stuck(sp, k, uid, kinds, f) then inv else Remove(inv, k))
            && (!Stuck(sp, k, uid, kinds, f) ==> !Carries(r.spokes, k, uid))
  {}
}
