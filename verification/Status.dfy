/** Assembling the status of a Replication (internal/engine/status.go). */
module Status {
  import opened Basics
  import opened Inventory

  type Time = int

  /** The zero value of a timestamp. */
  const NEVER: Time := 0

  /** Unset is the empty reason. */
  datatype Reason =
    | Unset
    | Conflicting | PolicyRevoked | PolicyDenied | NamespaceMissing
    | ClusterUnreachable | ApplyFailed | SourceMissing
    | NoTargets | AllTargetsReady | TargetsFound | OtherReason(text: string)

  /** Most severe first. */
  const PRIORITY: seq<Reason> := [
    Conflicting, PolicyRevoked, PolicyDenied, NamespaceMissing, ClusterUnreachable, ApplyFailed, SourceMissing]

  const MAX_LISTED: nat := 20

  datatype TargetState = TargetState(
    cluster: string, namespace: string, name: string, ready: bool, desired: bool, reason: Reason, message: string)

  datatype NonReadyTarget = NonReadyTarget(
    cluster: string, namespace: string, name: string, reason: Reason, message: string, since: Time)

  datatype ConditionType = Ready | TargetsResolved | Revoked | OtherCondition(text: string)

  /** Condition messages, by what they say. */
  datatype Message =
    | NothingReplicated | Retained | Text(text: string)
    | AllOf(ready: nat, desired: nat) | SomeOf(ready: nat, desired: nat, failed: nat)
    | OnClusters(clusters: nat, denied: nat) | AllDenied(denied: nat) | NoneReady

  datatype Condition = Condition(
    kind: ConditionType, status: bool, reason: Reason, message: Message, generation: int, since: Time)

  datatype Summary = Summary(desired: nat, ready: nat, failed: nat)

  datatype Status = Status(
    summary: Summary, sourceHash: string, conditions: seq<Condition>,
    nonReady: seq<NonReadyTarget>, overflow: nat, inventory: seq<InventoryEntry>)

  // ---- Condition lists -------------------------------------------------------------

  function Find(cs: seq<Condition>, kind: ConditionType): Option<Condition> {
    if cs == [] then None else if cs[0].kind == kind then Some(cs[0]) else Find(cs[1..], kind)
  }

  /** meta.SetStatusCondition: the transition time moves only when the status flips. */
  function SetCondition(cs: seq<Condition>, c: Condition, now: Time): seq<Condition> {
    if cs == [] then [c.(since := now)]
    else if cs[0].kind == c.kind then
      [c.(since := if cs[0].status == c.status then cs[0].since else now)] + cs[1..]
    else [cs[0]] + SetCondition(cs[1..], c, now)
  }

  function RemoveCondition(cs: seq<Condition>, kind: ConditionType): seq<Condition> {
    if cs == [] then []
    else if cs[0].kind == kind then RemoveCondition(cs[1..], kind)
    else [cs[0]] + RemoveCondition(cs[1..], kind)
  }

  /** The list already says c, whenever it started to. */
  predicate Says(cs: seq<Condition>, c: Condition) {
    var f := Find(cs, c.kind);
    f.Some? && f.value.(since := c.since) == c
  }

  lemma {:induction false} SetConditionSays(cs: seq<Condition>, c: Condition, now: Time)
    ensures Says(SetCondition(cs, c, now), c)
  {
    if cs != [] && cs[0].kind != c.kind {
      SetConditionSays(cs[1..], c, now);
    }
  }

  lemma {:induction false} SaidStays(cs: seq<Condition>, c: Condition, now: Time)
    requires Says(cs, c)
    ensures SetCondition(cs, c, now) == cs
  {
    if cs[0].kind != c.kind {
      SaidStays(cs[1..], c, now);
    }
  }

  /** Setting one type changes no other type. */
  lemma {:induction false} SetConditionFrames(cs: seq<Condition>, c: Condition, now: Time, kind: ConditionType)
    requires kind != c.kind
    ensures Find(SetCondition(cs, c, now), kind) == Find(cs, kind)
  {
    if cs != [] && cs[0].kind != c.kind {
      SetConditionFrames(cs[1..], c, now, kind);
    }
  }

  lemma {:induction false} RemoveConditionFrames(cs: seq<Condition>, gone: ConditionType, kind: ConditionType)
    ensures Find(RemoveCondition(cs, gone), kind) == if kind == gone then None else Find(cs, kind)
  {
    if cs != [] {
      RemoveConditionFrames(cs[1..], gone, kind);
    }
  }

  lemma {:induction false} AbsentStays(cs: seq<Condition>, kind: ConditionType)
    requires Find(cs, kind).None?
    ensures RemoveCondition(cs, kind) == cs
  {
    if cs != [] {
      AbsentStays(cs[1..], kind);
    }
  }

  // ---- buildStatus -----------------------------------------------------------------

  datatype StateKey = StateKey(cluster: string, namespace: string, name: string)

  function KeyOfState(s: TargetState): StateKey { StateKey(s.cluster, s.namespace, s.name) }

  function KeyOfDetail(t: NonReadyTarget): StateKey { StateKey(t.cluster, t.namespace, t.name) }

  /** Reason and transition time recorded for a key; the last entry wins. */
  function Recorded(ts: seq<NonReadyTarget>, k: StateKey): (Reason, Time) {
    if ts == [] then (Unset, NEVER)
    else if KeyOfDetail(ts[|ts| - 1]) == k then (ts[|ts| - 1].reason, ts[|ts| - 1].since)
    else Recorded(ts[..|ts| - 1], k)
  }

  function NotReady(states: seq<TargetState>): (r: seq<TargetState>)
    ensures forall s :: s in r <==> s in states && !s.ready
  {
    if states == [] then []
    else
      var s := states[|states| - 1];
      assert states == states[..|states| - 1] + [s];
      NotReady(states[..|states| - 1]) + (if s.ready then [] else [s])
  }

  function CountDesired(states: seq<TargetState>): nat {
    if states == [] then 0
    else CountDesired(states[..|states| - 1]) + (if states[|states| - 1].desired then 1 else 0)
  }

  function CountReady(states: seq<TargetState>): nat {
    if states == [] then 0
    else CountReady(states[..|states| - 1]) + (if states[|states| - 1].ready then 1 else 0)
  }

  function Detail(s: TargetState, prev: seq<NonReadyTarget>, now: Time): NonReadyTarget {
    var (reason, since) := Recorded(prev, KeyOfState(s));
    NonReadyTarget(s.cluster, s.namespace, s.name, s.reason, s.message, if reason == s.reason then since else now)
  }

  function Listed(states: seq<TargetState>): seq<TargetState> {
    var ns := NotReady(states);
    if |ns| <= MAX_LISTED then ns else ns[..MAX_LISTED]
  }

  function Details(states: seq<TargetState>, prev: seq<NonReadyTarget>, now: Time): (r: seq<NonReadyTarget>)
    ensures |r| == |states|
  {
    seq(|states|, i requires 0 <= i < |states| => Detail(states[i], prev, now))
  }

  function FirstReason(states: seq<TargetState>): Reason {
    if states == [] then Unset
    else
      var r := FirstReason(states[..|states| - 1]);
      if r.Unset? && !states[|states| - 1].ready then states[|states| - 1].reason else r
  }

  /** The first reason of the list that some non-ready state carries. */
  function FirstPresent(states: seq<TargetState>, reasons: seq<Reason>): Option<Reason> {
    if reasons == [] then None
    else if exists s :: s in states && !s.ready && s.reason == reasons[0] then Some(reasons[0])
    else FirstPresent(states, reasons[1..])
  }

  function Dominant(states: seq<TargetState>, fallback: Reason): Reason {
    var r := FirstPresent(states, PRIORITY);
    if r.Some? then r.value else if fallback.Unset? then ApplyFailed else fallback
  }

  method DominantReason(states: seq<TargetState>, fallback: Reason) returns (reason: Reason)
    ensures reason == Dominant(states, fallback)
  {
    var present: set<Reason> := {};
    for i := 0 to |states|
      invariant forall r :: r in present <==> exists s :: s in states[..i] && !s.ready && s.reason == r
    {
      assert states[..i + 1] == states[..i] + [states[i]];
      if !states[i].ready {
        present := present + {states[i].reason};
      }
    }
    assert states[..|states|] == states;
    for i := 0 to |PRIORITY|
      invariant FirstPresent(states, PRIORITY) == FirstPresent(states, PRIORITY[i..])
    {
      assert PRIORITY[i..][0] == PRIORITY[i] && PRIORITY[i..][1..] == PRIORITY[i + 1..];
      if PRIORITY[i] in present {
        return PRIORITY[i];
      }
    }
    return if fallback.Unset? then ApplyFailed else fallback;
  }

  function ReadyCondition(sum: Summary, states: seq<TargetState>, generation: int, deleting: bool): Condition {
    if sum.failed == 0 && sum.desired == 0 && !deleting then
      Condition(Ready, false, NoTargets, NothingReplicated, generation, NEVER)
    else if sum.failed == 0 then
      Condition(Ready, true, AllTargetsReady, AllOf(sum.ready, sum.desired), generation, NEVER)
    else
      Condition(Ready, false, Dominant(states, FirstReason(states)),
                SomeOf(sum.ready, sum.desired, sum.failed), generation, NEVER)
  }

  function RevokedCondition(generation: int): Condition {
    Condition(Revoked, true, PolicyRevoked, Retained, generation, NEVER)
  }

  function BuiltConditions(cs: seq<Condition>, ready: Condition, retained: bool, now: Time): seq<Condition> {
    var cs := SetCondition(cs, ready, now);
    if retained then SetCondition(cs, RevokedCondition(ready.generation), now) else RemoveCondition(cs, Revoked)
  }

  /** What the engine knows about one pass when it writes the status. */
  datatype Outcome = Outcome(
    sourceHash: string, states: seq<TargetState>, inventory: seq<InventoryEntry>, retained: bool,
    generation: int, deleting: bool)

  function SummaryOf(states: seq<TargetState>): Summary {
    Summary(CountDesired(states), CountReady(states), |NotReady(states)|)
  }

  function Built(prev: Status, o: Outcome, now: Time): Status {
    var sum := SummaryOf(o.states);
    var listed := Listed(o.states);
    Status(sum, o.sourceHash,
           BuiltConditions(prev.conditions, ReadyCondition(sum, o.states, o.generation, o.deleting), o.retained, now),
           Details(listed, prev.nonReady, now), |NotReady(o.states)| - |listed|, o.inventory)
  }

  lemma {:induction false} DetailsAppend(states: seq<TargetState>, s: TargetState, prev: seq<NonReadyTarget>, now: Time)
    ensures Details(states + [s], prev, now) == Details(states, prev, now) + [Detail(s, prev, now)]
  {}

  lemma {:induction false} TallyStep(states: seq<TargetState>, i: nat)
    requires i < |states|
    ensures CountDesired(states[..i + 1]) == CountDesired(states[..i]) + (if states[i].desired then 1 else 0)
    ensures CountReady(states[..i + 1]) == CountReady(states[..i]) + (if states[i].ready then 1 else 0)
    ensures NotReady(states[..i + 1]) == NotReady(states[..i]) + (if states[i].ready then [] else [states[i]])
    ensures FirstReason(states[..i + 1])
            == if FirstReason(states[..i]).Unset? && !states[i].ready then states[i].reason
               else FirstReason(states[..i])
    ensures Listed(states[..i + 1])
            == if states[i].ready || |Listed(states[..i])| == MAX_LISTED then Listed(states[..i])
               else Listed(states[..i]) + [states[i]]
  {
    assert states[..i + 1][..i] == states[..i];
  }

  /** The counting loop of buildStatus. */
  method Tally(states: seq<TargetState>, prev: seq<NonReadyTarget>, now: Time)
    returns (sum: Summary, detail: seq<NonReadyTarget>, overflow: nat, first: Reason)
    ensures sum == SummaryOf(states)
    ensures detail == Details(Listed(states), prev, now)
    ensures overflow == |NotReady(states)| - |Listed(states)|
    ensures first == FirstReason(states)
  {
    var desired, ready, failed := 0, 0, 0;
    detail, overflow, first := [], 0, Unset;
    for i := 0 to |states|
      invariant desired == CountDesired(states[..i]) && ready == CountReady(states[..i])
      invariant failed == |NotReady(states[..i])| == |detail| + overflow
      invariant detail == Details(Listed(states[..i]), prev, now)
      invariant first == FirstReason(states[..i])
    {
      var s := states[i];
      TallyStep(states, i);
      if s.desired { desired := desired + 1; }
      if s.ready {
        ready := ready + 1;
        continue;
      }
      failed := failed + 1;
      if |detail| < MAX_LISTED {
        DetailsAppend(Listed(states[..i]), s, prev, now);
        detail := detail + [Detail(s, prev, now)];
      } else {
        overflow := overflow + 1;
      }
      if first.Unset? { first := s.reason; }
    }
    assert states[..|states|] == states;
    sum := Summary(desired, ready, failed);
  }

  method BuildStatus(prev: Status, o: Outcome, now: Time) returns (next: Status)
    ensures next == Built(prev, o, now)
  {
    var sum, detail, overflow, first := Tally(o.states, prev.nonReady, now);
    var ready := Condition(Ready, true, AllTargetsReady, AllOf(sum.ready, sum.desired), o.generation, NEVER);
    if sum.failed == 0 && sum.desired == 0 && !o.deleting {
      ready := ready.(status := false, reason := NoTargets,
                      message := NothingReplicated);
    } else if sum.failed != 0 {
      var reason := DominantReason(o.states, first);
      ready := ready.(status := false, reason := reason, message := SomeOf(sum.ready, sum.desired, sum.failed));
    }
    var conditions := SetCondition(prev.conditions, ready, now);
    if o.retained {
      conditions := SetCondition(conditions, RevokedCondition(o.generation), now);
    } else {
      conditions := RemoveCondition(conditions, Revoked);
    }
    next := Status(sum, o.sourceHash, conditions, detail, overflow, o.inventory);
  }

  // ---- Conservation ----------------------------------------------------------------

  lemma {:induction false} CountsAddUp(states: seq<TargetState>)
    ensures CountReady(states) + |NotReady(states)| == |states|
  {
    if states != [] { CountsAddUp(states[..|states| - 1]); }
  }

  /** No target is lost in the summary, and no failure is lost in the detail. */
  lemma {:induction false} StatusConserves(prev: Status, o: Outcome, now: Time)
    ensures var s := Built(prev, o, now);
            && s.summary.ready + s.summary.failed == |o.states|
            && |s.nonReady| == (if s.summary.failed < MAX_LISTED then s.summary.failed else MAX_LISTED)
            && |s.nonReady| + s.overflow == s.summary.failed
            && s.inventory == o.inventory
  {
    CountsAddUp(o.states);
  }

  lemma {:induction false} FirstPresentIsFirst(states: seq<TargetState>, reasons: seq<Reason>)
    ensures match FirstPresent(states, reasons)
            case None => forall s :: s in states && !s.ready ==> s.reason !in reasons
            case Some(r) => exists i :: 0 <= i < |reasons| && reasons[i] == r
                              && (exists s :: s in states && !s.ready && s.reason == r)
                              && forall j, s :: 0 <= j < i && s in states && !s.ready ==> s.reason != reasons[j]
  {
    if reasons != [] {
      var head := exists s :: s in states && !s.ready && s.reason == reasons[0];
      if head {
        assert reasons[0] == reasons[0];
      } else {
        FirstPresentIsFirst(states, reasons[1..]);
        if FirstPresent(states, reasons[1..]).Some? {
          var r := FirstPresent(states, reasons[1..]).value;
          var i :| 0 <= i < |reasons[1..]| && reasons[1..][i] == r
            && forall j, s :: 0 <= j < i && s in states && !s.ready ==> s.reason != reasons[1..][j];
          assert reasons[i + 1] == r;
          forall j, s | 0 <= j < i + 1 && s in states && !s.ready ensures s.reason != reasons[j] {
            if j > 0 { assert reasons[1..][j - 1] == reasons[j]; }
          }
        }
      }
    }
  }

  /** Ready says True exactly when nothing failed and something was asked for (or the object is going
      away); otherwise it carries the most severe reason present, when one of them is ranked. */
  lemma {:induction false} ReadyVerdict(prev: Status, o: Outcome, now: Time)
    ensures var ready := Find(Built(prev, o, now).conditions, Ready);
            && ready.Some?
            && (ready.value.status <==>
                  && (forall s :: s in o.states ==> s.ready)
                  && ((exists s :: s in o.states && s.desired) || o.deleting))
            && ((exists s :: s in o.states && !s.ready && s.reason in PRIORITY) ==>
                  exists i :: 0 <= i < |PRIORITY| && ready.value.reason == PRIORITY[i]
                    && (exists s :: s in o.states && !s.ready && s.reason == PRIORITY[i])
                    && forall j, s :: 0 <= j < i && s in o.states && !s.ready ==> s.reason != PRIORITY[j])
  {
    var c := ReadyCondition(SummaryOf(o.states), o.states, o.generation, o.deleting);
    BuiltSays(prev.conditions, c, o.retained, now);
    NoneFailed(o.states);
    SomeDesired(o.states);
    FirstPresentIsFirst(o.states, PRIORITY);
  }

  lemma {:induction false} NoneFailed(states: seq<TargetState>)
    ensures |NotReady(states)| == 0 <==> forall s :: s in states ==> s.ready
  {
    if |NotReady(states)| > 0 {
      assert NotReady(states)[0] in NotReady(states);
    }
  }

  lemma {:induction false} SomeDesired(states: seq<TargetState>)
    ensures CountDesired(states) > 0 <==> exists s :: s in states && s.desired
  {
    if states != [] {
      SomeDesired(states[..|states| - 1]);
      assert states == states[..|states| - 1] + [states[|states| - 1]];
    }
  }

  lemma {:induction false} BuiltSays(cs: seq<Condition>, ready: Condition, retained: bool, now: Time)
    requires ready.kind == Ready
    ensures Says(BuiltConditions(cs, ready, retained, now), ready)
    ensures retained ==> Says(BuiltConditions(cs, ready, retained, now), RevokedCondition(ready.generation))
    ensures !retained ==> Find(BuiltConditions(cs, ready, retained, now), Revoked).None?
    ensures forall kind :: kind != Ready && kind != Revoked ==>
              Find(BuiltConditions(cs, ready, retained, now), kind) == Find(cs, kind)
  {
    var cs1 := SetCondition(cs, ready, now);
    var revoked := RevokedCondition(ready.generation);
    SetConditionSays(cs, ready, now);
    SetConditionSays(cs1, revoked, now);
    SetConditionFrames(cs1, revoked, now, Ready);
    RemoveConditionFrames(cs1, Revoked, Ready);
    RemoveConditionFrames(cs1, Revoked, Revoked);
    forall kind | kind != Ready && kind != Revoked
      ensures Find(BuiltConditions(cs, ready, retained, now), kind) == Find(cs, kind)
    {
      SetConditionFrames(cs, ready, now, kind);
      SetConditionFrames(cs1, revoked, now, kind);
      RemoveConditionFrames(cs1, Revoked, kind);
    }
  }

  // ---- Fixpoint --------------------------------------------------------------------

  /** The conditions already say what the engine has to say. */
  predicate ConditionsSettled(cs: seq<Condition>, ready: Condition, retained: bool) {
    && Says(cs, ready)
    && (if retained then Says(cs, RevokedCondition(ready.generation)) else Find(cs, Revoked).None?)
  }

  lemma {:induction false} SettledConditionsStay(cs: seq<Condition>, ready: Condition, retained: bool, now: Time)
    requires ConditionsSettled(cs, ready, retained)
    ensures BuiltConditions(cs, ready, retained, now) == cs
  {
    SaidStays(cs, ready, now);
    if retained {
      SaidStays(cs, RevokedCondition(ready.generation), now);
    } else {
      AbsentStays(cs, Revoked);
    }
  }

  /** Listed states that share a slot name agree on the reason. */
  predicate OneReasonPerSlot(states: seq<TargetState>) {
    forall i, j :: 0 <= i < |states| && 0 <= j < |states| && KeyOfState(states[i]) == KeyOfState(states[j])
                   ==> states[i].reason == states[j].reason
  }

  lemma {:induction false} RecordedIsLast(
    states: seq<TargetState>, prev: seq<NonReadyTarget>, now: Time, i: nat) returns (j: nat)
    requires i < |states|
    ensures j < |states| && KeyOfState(states[j]) == KeyOfState(states[i])
    ensures Recorded(Details(states, prev, now), KeyOfState(states[i]))
            == (states[j].reason, Detail(states[j], prev, now).since)
  {
    var ds := Details(states, prev, now);
    var last := |states| - 1;
    if KeyOfState(states[last]) == KeyOfState(states[i]) {
      j := last;
    } else {
      assert Details(states[..last], prev, now) == ds[..last];
      j := RecordedIsLast(states[..last], prev, now, i);
    }
  }

  /** Rewriting the detail of a status at a later clock changes nothing, whatever the clock, exactly when
      the listed states give one reason per slot name. */
  lemma {:induction false} DetailsFixpointIff(states: seq<TargetState>, prev: seq<NonReadyTarget>, now: Time)
    ensures (forall later :: Details(states, Details(states, prev, now), later) == Details(states, prev, now))
            <==> OneReasonPerSlot(states)
  {
    var ds := Details(states, prev, now);
    if OneReasonPerSlot(states) {
      forall later ensures Details(states, ds, later) == ds {
        forall i | 0 <= i < |states| ensures Detail(states[i], ds, later) == ds[i] {
          var j := RecordedIsLast(states, prev, now, i);
        }
      }
    } else {
      var a, b :| 0 <= a < |states| && 0 <= b < |states| && KeyOfState(states[a]) == KeyOfState(states[b])
        && states[a].reason != states[b].reason;
      var ja := RecordedIsLast(states, prev, now, a);
      var jb := RecordedIsLast(states, prev, now, b);
      var c := if states[ja].reason != states[a].reason then a else b;
      assert Recorded(ds, KeyOfState(states[c])).0 != states[c].reason;
      var later := ds[c].since + 1;
      assert Details(states, ds, later)[c].since == later;
    }
  }

  /** buildStatus applied to its own output with the same outcome at any later clock returns the same
      status, exactly when the listed non-ready states give one reason per slot name. */
  lemma {:induction false} StatusFixpointIff(prev: Status, o: Outcome, now: Time)
    ensures (forall later :: Built(Built(prev, o, now), o, later) == Built(prev, o, now))
            <==> OneReasonPerSlot(Listed(o.states))
  {
    var next := Built(prev, o, now);
    var ready := ReadyCondition(SummaryOf(o.states), o.states, o.generation, o.deleting);
    BuiltSays(prev.conditions, ready, o.retained, now);
    forall later ensures BuiltConditions(next.conditions, ready, o.retained, later) == next.conditions {
      SettledConditionsStay(next.conditions, ready, o.retained, later);
    }
    DetailsFixpointIff(Listed(o.states), prev.nonReady, now);
    forall later
      ensures Built(next, o, later) == next
              <==> Details(Listed(o.states), next.nonReady, later) == next.nonReady
    {
      assert Built(next, o, later).conditions == next.conditions;
    }
  }

  // ---- What a status reports -----------------------------------------------------------

  /** A detail row without its transition time. */
  function Row(s: TargetState): NonReadyTarget {
    NonReadyTarget(s.cluster, s.namespace, s.name, s.reason, s.message, NEVER)
  }

  function Rows(states: seq<TargetState>): (rs: seq<NonReadyTarget>)
    ensures |rs| == |states|
  {
    seq(|states|, i requires 0 <= i < |states| => Row(states[i]))
  }

  function ReadyOf(o: Outcome): Condition { ReadyCondition(SummaryOf(o.states), o.states, o.generation, o.deleting) }

  /** The engine's parts of the status are those of this outcome, with whatever transition times. */
  ghost predicate ReportedAs(s: Status, o: Outcome) {
    && s.summary == SummaryOf(o.states) && s.sourceHash == o.sourceHash && s.inventory == o.inventory
    && s.overflow == |NotReady(o.states)| - |Listed(o.states)|
    && ConditionsSettled(s.conditions, ReadyOf(o), o.retained)
    && exists prev, now :: s.nonReady == Details(Listed(o.states), prev, now)
  }

  /** Two outcomes say the same in a status: counts, listed rows, verdict, hash, inventory and retention. */
  ghost predicate SameReport(o: Outcome, o': Outcome) {
    && SummaryOf(o.states) == SummaryOf(o'.states) && Rows(Listed(o.states)) == Rows(Listed(o'.states))
    && ReadyOf(o) == ReadyOf(o') && o.sourceHash == o'.sourceHash
    && o.inventory == o'.inventory && o.retained == o'.retained
  }

  lemma {:induction false} BuiltIsReported(prev: Status, o: Outcome, now: Time)
    ensures ReportedAs(Built(prev, o, now), o)
  {
    BuiltSays(prev.conditions, ReadyOf(o), o.retained, now);
  }

  lemma {:induction false} DetailsAreRows(states: seq<TargetState>, prev: seq<NonReadyTarget>, now: Time, i: nat)
    requires i < |states|
    ensures Details(states, prev, now)[i].(since := NEVER) == Rows(states)[i]
  {}

  lemma {:induction false} RowsDetermineDetails(
    a: seq<TargetState>, b: seq<TargetState>, prev: seq<NonReadyTarget>, now: Time)
    requires Rows(a) == Rows(b)
    ensures Details(a, prev, now) == Details(b, prev, now)
  {
    forall i | 0 <= i < |a| ensures Detail(a[i], prev, now) == Detail(b[i], prev, now) {
      assert Rows(a)[i] == Rows(b)[i];
    }
  }

  lemma {:induction false} DetailsDetermineRows(
    a: seq<TargetState>, p: seq<NonReadyTarget>, t: Time, b: seq<TargetState>, q: seq<NonReadyTarget>, u: Time)
    requires Details(a, p, t) == Details(b, q, u)
    ensures Rows(a) == Rows(b)
  {
    forall i | 0 <= i < |a| ensures Rows(a)[i] == Rows(b)[i] {
      DetailsAreRows(a, p, t, i);
      DetailsAreRows(b, q, u, i);
    }
  }

  lemma {:induction false} SameRowsStay(s: Status, o: Outcome, o': Outcome, later: Time)
    requires ReportedAs(s, o) && Rows(Listed(o.states)) == Rows(Listed(o'.states)) && OneReasonPerSlot(Listed(o.states))
    ensures Details(Listed(o'.states), s.nonReady, later) == s.nonReady
  {
    var prev, now :| s.nonReady == Details(Listed(o.states), prev, now);
    DetailsFixpointIff(Listed(o.states), prev, now);
    RowsDetermineDetails(Listed(o.states), Listed(o'.states), s.nonReady, later);
  }

  lemma {:induction false} SameReportIsSilent(s: Status, o: Outcome, o': Outcome, later: Time)
    requires ReportedAs(s, o) && SameReport(o, o') && OneReasonPerSlot(Listed(o.states))
    ensures Built(s, o', later) == s
  {
    SettledConditionsStay(s.conditions, ReadyOf(o'), o'.retained, later);
    SameRowsStay(s, o, o', later);
    assert |Rows(Listed(o.states))| == |Listed(o.states)| && |Rows(Listed(o'.states))| == |Listed(o'.states)|;
  }

  lemma {:induction false} SaidConditionsAgree(
    cs: seq<Condition>, ready: Condition, retained: bool, ready': Condition, retained': bool, now: Time)
    requires ready.kind == Ready && ready'.kind == Ready && ready.since == ready'.since
    requires ConditionsSettled(cs, ready, retained) && BuiltConditions(cs, ready', retained', now) == cs
    ensures ready == ready' && retained == retained'
  {
    BuiltSays(cs, ready', retained', now);
  }

  lemma {:induction false} SilentRowsAgree(s: Status, o: Outcome, o': Outcome)
    requires ReportedAs(s, o) && forall later :: Details(Listed(o'.states), s.nonReady, later) == s.nonReady
    ensures Rows(Listed(o.states)) == Rows(Listed(o'.states)) && OneReasonPerSlot(Listed(o.states))
  {
    var prev, now :| s.nonReady == Details(Listed(o.states), prev, now);
    DetailsDetermineRows(Listed(o'.states), s.nonReady, now, Listed(o.states), prev, now);
    forall later ensures Details(Listed(o.states), s.nonReady, later) == s.nonReady {
      RowsDetermineDetails(Listed(o.states), Listed(o'.states), s.nonReady, later);
    }
    DetailsFixpointIff(Listed(o.states), prev, now);
  }

  lemma {:induction false} SilentIsSameReport(s: Status, o: Outcome, o': Outcome)
    requires ReportedAs(s, o) && forall later :: Built(s, o', later) == s
    ensures SameReport(o, o') && OneReasonPerSlot(Listed(o.states))
  {
    assert Built(s, o', NEVER) == s;
    forall later ensures Details(Listed(o'.states), s.nonReady, later) == s.nonReady {
      assert Built(s, o', later).nonReady == s.nonReady;
    }
    SilentRowsAgree(s, o, o');
    SaidConditionsAgree(s.conditions, ReadyOf(o), o.retained, ReadyOf(o'), o'.retained, NEVER);
  }

  /** A status that reports one outcome is left alone by another, at any later clock, exactly when the other says the
      same and the listed states give one reason per slot name. */
  lemma {:induction false} SilentIff(s: Status, o: Outcome, o': Outcome)
    requires ReportedAs(s, o)
    ensures (forall later :: Built(s, o', later) == s) <==> SameReport(o, o') && OneReasonPerSlot(Listed(o.states))
  {
    if SameReport(o, o') && OneReasonPerSlot(Listed(o.states)) {
      forall later ensures Built(s, o', later) == s { SameReportIsSilent(s, o, o', later); }
    }
    if forall later :: Built(s, o', later) == s {
      SilentIsSameReport(s, o, o');
    }
  }

  function CleanupFailsStates(cluster: string, namespace: string, name: string): seq<TargetState> {
    [TargetState(cluster, namespace, name, false, true, PolicyRevoked, ""),
     TargetState(cluster, namespace, name, false, false, ClusterUnreachable, "")]
  }

  /** A denied slot whose clean-up also fails is listed twice with different reasons: its first entry is stamped anew
      on every pass, so such a status is rewritten at some later clock, whatever it was built from. */
  lemma {:induction false} DeniedSlotWithFailedCleanupRestamps(
    prev: Status, o: Outcome, now: Time, cluster: string, namespace: string, name: string)
    requires o.states == CleanupFailsStates(cluster, namespace, name)
    ensures !OneReasonPerSlot(Listed(o.states))
    ensures exists later :: Built(Built(prev, o, now), o, later) != Built(prev, o, now)
  {
    var a, b := o.states[0], o.states[1];
    assert o.states == [a, b] && o.states[..1] == [a] && [a][..0] == [];
    assert NotReady([a]) == [a];
    assert NotReady(o.states) == [a, b];
    assert KeyOfState(Listed(o.states)[0]) == KeyOfState(Listed(o.states)[1]);
    StatusFixpointIff(prev, o, now);
  }
}
