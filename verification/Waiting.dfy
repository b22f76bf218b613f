/** A pass that cannot serve its Replication (internal/engine/reconciler.go, finishSimple): the kind fell off the
    allowlist, or the source is missing or another incarnation. The engine says so and touches nothing. */
module Waiting {
  import opened Protocol
  import opened Status
  import R = Refinement
  import Q = Requests
  import D = Verdicts

  function WaitSteps(id: SourceId, reason: Reason, now: Time): seq<Step> {
    [EngineRead(id), EngineGiveUp(id, reason)] + [EngineCommit(id, now)]
  }

  ghost function GivenUp(w: World, id: SourceId, reason: Reason): World {
    EngineGivesUp(EngineReads(w, id), id, reason)
  }

  lemma {:induction false} RunWait(w: World, id: SourceId, reason: Reason, now: Time)
    ensures Run(w, WaitSteps(id, reason, now)) == EngineCommits(GivenUp(w, id, reason), id, now)
  {
    Q.RunTwo(w, EngineRead(id), EngineGiveUp(id, reason));
    R.RunThenOne(w, [EngineRead(id), EngineGiveUp(id, reason)], EngineCommit(id, now));
  }

  /** The one state that stands for the whole Replication. */
  function Unserved(reason: Reason): TargetState { TargetState("", "", "", false, false, reason, "") }

  function WaitOutcome(rep: Replication, reason: Reason): Outcome {
    Outcome(rep.status.sourceHash, [Unserved(reason)], rep.status.inventory, false, rep.generation, rep.deleting)
  }

  lemma {:induction false} GivenUpIs(w: World, id: SourceId, reason: Reason)
    requires id in w.reps && id !in w.engines && !w.reps[id].deleting && w.reps[id].finalizer
    ensures var v := GivenUp(w, id, reason);
            && v == w.(engines := v.engines) && v.engines - {id} == w.engines && id in v.engines
            && v.engines[id].Collecting? && v.engines[id].snap == w.reps[id] && v.engines[id].todo == []
            && v.engines[id].gone == {}
            && forall now :: FinalStatus(v.engines[id], now)
                             == Built(w.reps[id].status, WaitOutcome(w.reps[id], reason), now)
  {
    assert (w.engines[id := Seen(w.reps[id])]) - {id} == w.engines;
  }

  lemma {:induction false} WaitStatus(rep: Replication, reason: Reason, now: Time)
    requires !reason.Unset? && !rep.deleting
    ensures SaysWhy(rep.status, Built(rep.status, WaitOutcome(rep, reason), now), reason)
  {
    var o := WaitOutcome(rep, reason);
    assert o.states[..0] == [] && Unserved(reason) in o.states;
    assert CountDesired([]) == 0 && CountReady([]) == 0 && NotReady([]) == [];
    ReadyVerdict(rep.status, o, now);
    D.ReadyReason(rep.status, o, now);
    assert forall i :: D.FirstToSay(o.states, i) ==> o.states[i] == Unserved(reason);
    D.FirstReasonIs(o.states);
  }

  lemma {:induction false} CommitStores(v: World, id: SourceId, now: Time)
    requires id in v.engines && v.engines[id].Collecting? && v.engines[id].todo == []
    requires id in v.reps && v.engines[id].snap == v.reps[id] && !v.reps[id].deleting
    ensures var w' := EngineCommits(v, id, now);
            && w'.spokes == v.spokes && w'.sources == v.sources && w'.requests == v.requests
            && w'.engines == v.engines - {id} && w'.reps - {id} == v.reps - {id} && id in w'.reps
            && w'.reps[id] == v.reps[id].(status := FinalStatus(v.engines[id], now), version := w'.reps[id].version)
  {
    var next := FinalStatus(v.engines[id], now);
    if next == v.reps[id].status {
      assert v.reps[id] == v.reps[id].(status := next, version := v.reps[id].version);
    }
  }

  /** Ready says False with the reason, and everything recorded stays. */
  ghost predicate SaysWhy(was: Status, s: Status, reason: Reason) {
    var ready := Find(s.conditions, Ready);
    && s.inventory == was.inventory && s.sourceHash == was.sourceHash && s.summary == Summary(0, 0, 1)
    && ready.Some? && !ready.value.status && ready.value.reason == reason
  }

  /** The worker alone: the spokes and the recorded inventory stay as they were, and Ready says False with the reason;
      nothing but the status of this Replication changes. */
  lemma {:induction false} UnservedWaits(w: World, id: SourceId, reason: Reason, now: Time)
    requires id in w.reps && id !in w.engines && !w.reps[id].deleting && w.reps[id].finalizer && !reason.Unset?
    ensures var w' := Run(w, WaitSteps(id, reason, now));
            && w'.spokes == w.spokes && w'.sources == w.sources && w'.engines == w.engines && w'.requests == w.requests
            && w'.reps - {id} == w.reps - {id} && id in w'.reps
            && w'.reps[id] == w.reps[id].(status := w'.reps[id].status, version := w'.reps[id].version)
            && SaysWhy(w.reps[id].status, w'.reps[id].status, reason)
  {
    RunWait(w, id, reason, now);
    GivenUpIs(w, id, reason);
    CommitStores(GivenUp(w, id, reason), id, now);
    WaitStatus(w.reps[id], reason, now);
  }

  lemma {:induction false} SaidIsKept(rep: Replication, reason: Reason, now: Time, later: Time)
    ensures var s := Built(rep.status, WaitOutcome(rep, reason), now);
            Built(s, WaitOutcome(rep.(status := s), reason), later) == s
  {
    var o := WaitOutcome(rep, reason);
    var s := Built(rep.status, o, now);
    assert WaitOutcome(rep.(status := s), reason) == o;
    assert OneReasonPerSlot(Listed(o.states)) by {
      assert o.states[..0] == [] && NotReady([]) == [];
      assert NotReady(o.states) == [Unserved(reason)];
    }
    StatusFixpointIff(rep.status, o, now);
  }

  lemma {:induction false} NothingToCommit(v: World, id: SourceId, now: Time)
    requires id in v.engines && v.engines[id].Collecting? && v.engines[id].todo == []
    requires !v.engines[id].snap.deleting && FinalStatus(v.engines[id], now) == v.engines[id].snap.status
    ensures EngineCommits(v, id, now) == v.(engines := v.engines - {id})
  {
  }

  lemma {:induction false} SaidIsSilent(
    w: World, id: SourceId, rep: Replication, reason: Reason, now: Time, later: Time)
    requires id in w.reps && id !in w.engines && !w.reps[id].deleting && w.reps[id].finalizer
    requires rep.generation == w.reps[id].generation && rep.deleting == w.reps[id].deleting
    requires w.reps[id].status == Built(rep.status, WaitOutcome(rep, reason), now)
    ensures Run(w, WaitSteps(id, reason, later)) == w
  {
    SaidIsKept(rep, reason, now, later);
    assert WaitOutcome(w.reps[id], reason) == WaitOutcome(rep.(status := w.reps[id].status), reason);
    RunWait(w, id, reason, later);
    GivenUpIs(w, id, reason);
    NothingToCommit(GivenUp(w, id, reason), id, later);
  }

  /** Having said it once, the worker writes nothing when it finds the same again: a second run changes nothing on the
      hub, no version either. */
  lemma {:induction false} UnservedIsSilentAgain(w: World, id: SourceId, reason: Reason, now: Time, later: Time)
    requires id in w.reps && id !in w.engines && !w.reps[id].deleting && w.reps[id].finalizer
    ensures var w' := Run(w, WaitSteps(id, reason, now)); Run(w', WaitSteps(id, reason, later)) == w'
  {
    RunWait(w, id, reason, now);
    GivenUpIs(w, id, reason);
    CommitStores(GivenUp(w, id, reason), id, now);
    SaidIsSilent(Run(w, WaitSteps(id, reason, now)), id, w.reps[id], reason, now, later);
  }
}
