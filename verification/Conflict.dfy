/** Who owns an object found at a replica's name, and what may be done to it
    (internal/engine/conflict.go, internal/engine/drift.go). */
module Conflict {
  import opened Policies
  import opened Render

  /** Stripped: the source UID still names us, but managed-by was rewritten or removed. */
  datatype Ownership = Foreign | Managed | Stripped

  function Classify(r: Replica, uid: string): (o: Ownership)
    ensures o.Foreign? <==> uid == "" || r.sourceUid != uid
    ensures o.Managed? <==> uid != "" && IsManagedReplica(r, uid)
  {
    if uid == "" || r.sourceUid != uid then Foreign
    else if r.managedBy == MANAGED_BY then Managed
    else Stripped
  }

  predicate IsManagedReplica(r: Replica, uid: string) {
    r.managedBy == MANAGED_BY && r.sourceUid == uid
  }

  function Strength(c: ConflictPolicy): nat {
    match c
    case Overwrite => 2
    case Adopt => 1
    case Fail => 0
    case UnknownConflict(_) => 0
  }

  function Normalize(c: ConflictPolicy): ConflictPolicy {
    if c.Overwrite? || c.Adopt? then c else Fail
  }

  /** Both keys must turn: the request and some grant each reach the action. */
  function WeakerOf(requested: ConflictPolicy, allowed: seq<ConflictPolicy>): ConflictPolicy {
    if requested.Overwrite? && Overwrite in allowed then Overwrite
    else if (requested.Overwrite? || requested.Adopt?) && (Overwrite in allowed || Adopt in allowed) then Adopt
    else Fail
  }

  method EffectiveConflictPolicy(requested: ConflictPolicy, allowed: seq<ConflictPolicy>)
    returns (effective: ConflictPolicy)
    ensures effective == WeakerOf(requested, allowed)
  {
    var grant := Fail;
    for i := 0 to |allowed|
      invariant grant == if Overwrite in allowed[..i] then Overwrite else if Adopt in allowed[..i] then Adopt else Fail
    {
      if Strength(allowed[i]) > Strength(grant) {
        grant := allowed[i];
      }
    }
    assert allowed[..|allowed|] == allowed;
    if Strength(requested) < Strength(grant) {
      return Normalize(requested);
    }
    return grant;
  }

  /** The effective policy is the weaker of the two keys: it reaches a strength exactly when the request does and
      some grant does. */
  lemma {:induction false} WeakerOfIsMinimum(requested: ConflictPolicy, allowed: seq<ConflictPolicy>, n: nat)
    requires n > 0
    ensures Strength(WeakerOf(requested, allowed)) >= n
            <==> Strength(requested) >= n && exists c :: c in allowed && Strength(c) >= n
    ensures !WeakerOf(requested, allowed).UnknownConflict?
  {
    if c :| c in allowed && Strength(c) >= n {
      assert c.Overwrite? || c.Adopt?;
    }
  }

  datatype Action = ApplyOwn | Refuse | AdoptExisting | TakeOver

  /** The verdict about an existing object. */
  function DecideConflict(
    existing: Replica, uid: string, requested: ConflictPolicy, sourceHash: string,
    allowed: seq<ConflictPolicy>, hash: Hash): Action
  {
    if IsManagedReplica(existing, uid) then ApplyOwn
    else if existing.managedBy == MANAGED_BY then Refuse
    else
      match WeakerOf(requested, allowed)
      case Overwrite => TakeOver
      case Adopt => if hash(existing.payload) == sourceHash then AdoptExisting else Refuse
      case _ => Refuse
  }
}
