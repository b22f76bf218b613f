/** What a reader of a Replication's status may conclude (internal/engine/status.go), reason by reason and row by
    row. */
module Verdicts {
  import opened Basics
  import opened Status

  // ---- The reason of Ready -----------------------------------------------------------------------

  predicate Known(r: Reason) {
    || r.Conflicting? || r.PolicyRevoked? || r.PolicyDenied? || r.NamespaceMissing? || r.ClusterUnreachable?
    || r.ApplyFailed? || r.SourceMissing?
  }

  /** a is reported before b, pair by pair; a reason the ranking does not know comes last. */
  predicate Outranks(a: Reason, b: Reason) {
    match a
    case Conflicting => !b.Conflicting?
    case PolicyRevoked => !(b.Conflicting? || b.PolicyRevoked?)
    case PolicyDenied => !(b.Conflicting? || b.PolicyRevoked? || b.PolicyDenied?)
    case NamespaceMissing => b.ClusterUnreachable? || b.ApplyFailed? || b.SourceMissing? || !Known(b)
    case ClusterUnreachable => b.ApplyFailed? || b.SourceMissing? || !Known(b)
    case ApplyFailed => b.SourceMissing? || !Known(b)
    case SourceMissing => !Known(b)
    case _ => false
  }

  lemma {:induction false} PriorityIs(i: nat, j: nat)
    requires i < |PRIORITY| && j < |PRIORITY|
    ensures Known(PRIORITY[i]) && (Outranks(PRIORITY[i], PRIORITY[j]) <==> i < j)
  {
    assert PRIORITY == [
      Conflicting, PolicyRevoked, PolicyDenied, NamespaceMissing, ClusterUnreachable, ApplyFailed, SourceMissing];
  }

  lemma {:induction false} KnownIsListed(r: Reason)
    ensures Known(r) <==> r in PRIORITY
  {
    var p := PRIORITY;
    assert p[0] == Conflicting && p[1] == PolicyRevoked && p[2] == PolicyDenied && p[3] == NamespaceMissing;
    assert p[4] == ClusterUnreachable && p[5] == ApplyFailed && p[6] == SourceMissing && |p| == 7;
  }

  lemma {:induction false} WorstIsChosen(states: seq<TargetState>, fallback: Reason, s: TargetState)
    requires s in states && !s.ready && Known(s.reason)
    ensures !Outranks(s.reason, Dominant(states, fallback))
    ensures exists x :: x in states && !x.ready && x.reason == Dominant(states, fallback)
  {
    KnownIsListed(s.reason);
    FirstPresentIsFirst(states, PRIORITY);
    var n :| 0 <= n < |PRIORITY| && PRIORITY[n] == s.reason;
    var r := FirstPresent(states, PRIORITY).value;
    var i :| 0 <= i < |PRIORITY| && PRIORITY[i] == r
      && forall j, s :: 0 <= j < i && s in states && !s.ready ==> s.reason != PRIORITY[j];
    PriorityIs(n, i);
  }

  /** The first non-ready state that gives a reason. */
  ghost predicate FirstToSay(states: seq<TargetState>, i: int) {
    && 0 <= i < |states| && !states[i].ready && !states[i].reason.Unset?
    && forall j :: 0 <= j < i && !states[j].ready ==> states[j].reason.Unset?
  }

  lemma {:induction false} FirstReasonIs(states: seq<TargetState>)
    ensures if FirstReason(states).Unset? then forall s :: s in states && !s.ready ==> s.reason.Unset?
            else exists i :: FirstToSay(states, i) && states[i].reason == FirstReason(states)
  {
    if states != [] {
      var n := |states| - 1;
      FirstReasonIs(states[..n]);
      assert states == states[..n] + [states[n]];
      if !FirstReason(states[..n]).Unset? {
        var i :| FirstToSay(states[..n], i) && states[..n][i].reason == FirstReason(states[..n]);
        assert FirstToSay(states, i);
      } else if !states[n].ready && !states[n].reason.Unset? {
        forall j | 0 <= j < n && !states[j].ready ensures states[j].reason.Unset? {
          assert states[..n][j] in states[..n];
        }
        assert FirstToSay(states, n);
      }
    }
  }

  lemma {:induction false} NothingRanked(states: seq<TargetState>)
    requires forall s :: s in states && !s.ready ==> !Known(s.reason)
    ensures FirstPresent(states, PRIORITY).None?
  {
    FirstPresentIsFirst(states, PRIORITY);
    forall s | s in states && !s.ready ensures s.reason !in PRIORITY { KnownIsListed(s.reason); }
  }

  ghost predicate SomethingRanked(states: seq<TargetState>) {
    exists s :: s in states && !s.ready && Known(s.reason)
  }

  /** The reason of a failed state that none of the others outranks; without a ranked reason, that of the first failed
      state that gives one; without any, ApplyFailed. */
  ghost predicate RightReason(states: seq<TargetState>, reason: Reason) {
    if SomethingRanked(states) then
      && (exists x :: x in states && !x.ready && x.reason == reason)
      && forall s :: s in states && !s.ready ==> !Outranks(s.reason, reason)
    else if forall s :: s in states && !s.ready ==> s.reason.Unset? then reason == ApplyFailed
    else exists i :: FirstToSay(states, i) && states[i].reason == reason
  }

  lemma {:induction false} DominantIsRight(states: seq<TargetState>)
    ensures RightReason(states, Dominant(states, FirstReason(states)))
  {
    var fallback := FirstReason(states);
    if SomethingRanked(states) {
      var x :| x in states && !x.ready && Known(x.reason);
      WorstIsChosen(states, fallback, x);
      forall s | s in states && !s.ready ensures !Outranks(s.reason, Dominant(states, fallback)) {
        if Known(s.reason) { WorstIsChosen(states, fallback, s); }
      }
    } else {
      NothingRanked(states);
      FirstReasonIs(states);
    }
  }

  /** Ready carries the right reason when something failed; when nothing did, AllTargetsReady, or NoTargets where a live
      object asked for nothing. */
  lemma {:induction false} ReadyReason(prev: Status, o: Outcome, now: Time)
    ensures var c := Find(Built(prev, o, now).conditions, Ready);
            && c.Some?
            && (if exists s :: s in o.states && !s.ready then RightReason(o.states, c.value.reason)
                else if o.deleting || exists s :: s in o.states && s.desired then c.value.reason == AllTargetsReady
                else c.value.reason == NoTargets)
  {
    var ready := ReadyCondition(SummaryOf(o.states), o.states, o.generation, o.deleting);
    BuiltSays(prev.conditions, ready, o.retained, now);
    NoneFailed(o.states);
    SomeDesired(o.states);
    DominantIsRight(o.states);
  }

  // ---- Counts --------------------------------------------------------------------------------------------

  ghost function DesiredAt(states: seq<TargetState>): set<int> { set i | 0 <= i < |states| && states[i].desired }

  ghost function ReadyAt(states: seq<TargetState>): set<int> { set i | 0 <= i < |states| && states[i].ready }

  ghost function FailedAt(states: seq<TargetState>): set<int> { set i | 0 <= i < |states| && !states[i].ready }

  lemma {:induction false} DesiredAreCounted(states: seq<TargetState>)
    ensures CountDesired(states) == |DesiredAt(states)|
  {
    if states != [] {
      var n := |states| - 1;
      DesiredAreCounted(states[..n]);
      assert DesiredAt(states) == DesiredAt(states[..n]) + if states[n].desired then {n} else {};
    }
  }

  lemma {:induction false} ReadyAreCounted(states: seq<TargetState>)
    ensures CountReady(states) == |ReadyAt(states)|
  {
    if states != [] {
      var n := |states| - 1;
      ReadyAreCounted(states[..n]);
      assert ReadyAt(states) == ReadyAt(states[..n]) + if states[n].ready then {n} else {};
    }
  }

  lemma {:induction false} FailedAreTheRest(states: seq<TargetState>)
    ensures |ReadyAt(states)| + |FailedAt(states)| == |states|
  {
    if states != [] {
      var n := |states| - 1;
      var front := states[..n];
      FailedAreTheRest(front);
      if states[n].ready {
        assert ReadyAt(states) == ReadyAt(front) + {n};
        assert FailedAt(states) == FailedAt(front);
      } else {
        assert ReadyAt(states) == ReadyAt(front);
        assert FailedAt(states) == FailedAt(front) + {n};
      }
    }
  }

  lemma {:induction false} FailedAreCounted(states: seq<TargetState>)
    ensures |NotReady(states)| == |FailedAt(states)|
  {
    CountsAddUp(states);
    ReadyAreCounted(states);
    FailedAreTheRest(states);
  }

  /** The counts of the summary are the numbers of states that are desired, ready and not ready. */
  lemma {:induction false} SummaryCounts(prev: Status, o: Outcome, now: Time)
    ensures var sum := Built(prev, o, now).summary;
            && sum.desired == |set i | 0 <= i < |o.states| && o.states[i].desired|
            && sum.ready == |set i | 0 <= i < |o.states| && o.states[i].ready|
            && sum.failed == |set i | 0 <= i < |o.states| && !o.states[i].ready|
  {
    DesiredAreCounted(o.states);
    ReadyAreCounted(o.states);
    FailedAreCounted(o.states);
  }

  /** The non-ready states are listed in the order of the states: a state comes after as many as fail before it. */
  lemma {:induction false} ListedInOrder(states: seq<TargetState>, n: nat)
    requires n < |states| && !states[n].ready
    ensures var m := |set i | 0 <= i < n && !states[i].ready|;
            m < |NotReady(states)| && NotReady(states)[m] == states[n]
    decreases |states|
  {
    var last := |states| - 1;
    if n == last {
      FailedAreCounted(states[..n]);
      assert FailedAt(states[..n]) == set i | 0 <= i < n && !states[i].ready;
    } else {
      ListedInOrder(states[..last], n);
      assert (set i | 0 <= i < n && !states[..last][i].ready) == set i | 0 <= i < n && !states[i].ready;
    }
  }

  // ---- Rows and times --------------------------------------------------------------------------------

  /** The last recorded row of a slot. */
  ghost predicate LastRow(ts: seq<NonReadyTarget>, k: StateKey, j: int) {
    0 <= j < |ts| && KeyOfDetail(ts[j]) == k && forall m :: j < m < |ts| ==> KeyOfDetail(ts[m]) != k
  }

  lemma {:induction false} RecordedLast(ts: seq<NonReadyTarget>, k: StateKey, j: nat)
    requires LastRow(ts, k, j)
    ensures Recorded(ts, k) == (ts[j].reason, ts[j].since)
  {
    if j < |ts| - 1 { RecordedLast(ts[..|ts| - 1], k, j); }
  }

  lemma {:induction false} RecordedNone(ts: seq<NonReadyTarget>, k: StateKey)
    requires forall t :: t in ts ==> KeyOfDetail(t) != k
    ensures Recorded(ts, k) == (Unset, NEVER)
  {
    if ts != [] { RecordedNone(ts[..|ts| - 1], k); }
  }

  /** Row n reports state s: it moves its time to now exactly when the reason is not the one recorded last, and keeps
      the recorded time otherwise. */
  ghost predicate RowReports(row: NonReadyTarget, s: TargetState, prev: seq<NonReadyTarget>, now: Time) {
    && row.cluster == s.cluster && row.namespace == s.namespace && row.name == s.name
    && row.reason == s.reason && row.message == s.message
    && (forall j :: LastRow(prev, KeyOfState(s), j) ==>
          row.since == if prev[j].reason == s.reason then prev[j].since else now)
    && ((forall t :: t in prev ==> KeyOfDetail(t) != KeyOfState(s)) ==>
          row.since == if s.reason.Unset? then NEVER else now)
  }

  lemma {:induction false} DetailReports(s: TargetState, prev: seq<NonReadyTarget>, now: Time)
    ensures RowReports(Detail(s, prev, now), s, prev, now)
  {
    forall j | LastRow(prev, KeyOfState(s), j)
      ensures Recorded(prev, KeyOfState(s)) == (prev[j].reason, prev[j].since)
    {
      RecordedLast(prev, KeyOfState(s), j);
    }
    if forall t :: t in prev ==> KeyOfDetail(t) != KeyOfState(s) { RecordedNone(prev, KeyOfState(s)); }
  }

  /** The detail lists the first 20 non-ready states, in order, each with the time since when it has failed in this
      way, and counts the others. */
  lemma {:induction false} RowsReport(prev: Status, o: Outcome, now: Time, n: nat)
    requires n < |NotReady(o.states)|
    ensures var s := Built(prev, o, now);
            && (n < 20 ==> n < |s.nonReady| && RowReports(s.nonReady[n], NotReady(o.states)[n], prev.nonReady, now))
            && |s.nonReady| <= 20
            && s.overflow == if |NotReady(o.states)| <= 20 then 0 else |NotReady(o.states)| - 20
  {
    if n < 20 {
      DetailReports(NotReady(o.states)[n], prev.nonReady, now);
    }
  }

  // ---- Transition times ------------------------------------------------------------------------------

  /** The time of a condition moves to now exactly when it is new or its status flips. */
  ghost predicate TimeFollowsStatus(before: Option<Condition>, after: Option<Condition>, now: Time) {
    after.Some? ==>
      after.value.since
      == if before.Some? && before.value.status == after.value.status then before.value.since else now
  }

  lemma {:induction false} SetConditionTime(cs: seq<Condition>, c: Condition, now: Time)
    ensures TimeFollowsStatus(Find(cs, c.kind), Find(SetCondition(cs, c, now), c.kind), now)
  {
    if cs != [] && cs[0].kind != c.kind {
      SetConditionTime(cs[1..], c, now);
    }
  }

  /** Both conditions of the engine keep their time as long as their status stays; all others are carried over. */
  lemma {:induction false} ConditionTimes(prev: Status, o: Outcome, now: Time, kind: ConditionType)
    ensures var before, after := Find(prev.conditions, kind), Find(Built(prev, o, now).conditions, kind);
            && TimeFollowsStatus(before, if kind == Ready || kind == Revoked then after else None, now)
            && (kind != Ready && kind != Revoked ==> after == before)
  {
    var ready := ReadyCondition(SummaryOf(o.states), o.states, o.generation, o.deleting);
    var cs, revoked := SetCondition(prev.conditions, ready, now), RevokedCondition(o.generation);
    BuiltSays(prev.conditions, ready, o.retained, now);
    SetConditionTime(prev.conditions, ready, now);
    SetConditionTime(cs, revoked, now);
    SetConditionFrames(prev.conditions, ready, now, Revoked);
    SetConditionFrames(cs, revoked, now, Ready);
    RemoveConditionFrames(cs, Revoked, Ready);
  }
}
