# k8s-r8r: a verified model

k8s-r8r is a hub-and-spoke replication operator. A user annotates a Secret or ConfigMap on the hub; the *request
controller* resolves the request to target clusters and namespaces under `ReplicationPolicy` objects and stores the
result as a `Replication`; the *engine* fans the source out to the spokes, repairs drift, and cleans up through an
inventory kept in the Replication's status. This project models the decision code and the protocol between the two
controllers, in Dafny, and proves what they promise. `dafny verify dfyconfig.toml` checks everything.

## How it is organised

| file | models |
|---|---|
| `Labels`, `Policies`, `Options` | label selectors, policy evaluation, option resolution, revocation detection |
| `Targets`, `Resolution` | target resolution at request time and its expansion into slots by the engine; which pairs and slots come out |
| `Webhook`, `Comparisons`, `Admission` | the admission-time approximation, its selector satisfiability procedure, what numeric comparisons add, and what an admitted request can count on |
| `Render`, `Placement` | rendering, the canonical payload, the adopt patch, merging applies; what a replica says, field by field |
| `Conflict`, `Inventory`, `Status`, `Verdicts` | ownership and conflict decisions, the inventory and its plan, status assembly and what a reader may conclude from it |
| `Arbitration`, `Settling`, `Refusals`, `Examples` | the two writers of one status, when they fall silent, the slots that keep them from it, and concrete inputs |
| `FixedPoints`, `LongRun` | repeated passes under fixed inputs: three reach a state that no longer changes, and four decide about silence |
| `Revocations`, `Retention`, `Interruptions` | what happens to replicas whose permission is gone, in one pass and over runs; passes cut short |
| `Engine`, `Passes`, `Retries`, `Reconcilers` | one slot, one pass and its retry delays as functions, and the reconciler as an object that changes state in place, proved equal to them |
| `Outcomes`, `Denials`, `Failures` | what slots, entries and passes report, what is said of denied targets, and what failures count and when they are retried |
| `Convergence` | one pass converges, the next is silent |
| `Protocol`, `ProtocolInvariant`, `Ownership`, `Takeover`, `Refinement` | both controllers, crashes and the environment as a step machine; its invariant; what ownership means; takeover safety; a solo run of the machine is a pass |
| `Requests`, `Teardown`, `Waiting` | runs of the step machine left alone: a request served, a source let go, a pass without a usable source |
| `Durations`, `Backoff`, `Connectivity`, `Token` | saturating delays, the connectivity tracker, token rotation |
| `Basics` | sorting, multisets, options |

## Main results

1. **No created replica is ever lost** (`NoReplicaIsLost`, made precise by `OwnershipIsHonest` and
   `AppliedSlotsAreOwned`): an invariant over every run of any number of sources, with the two controllers
   interleaved step by step, crashes between any two steps, every transport call failing or taking effect while
   reporting an error, and anybody editing spokes, policies, discovery, namespace labels, annotations and hub
   objects in between.
2. **Takeover needs both keys** (`TakeoverNeedsBothKeys`): in every such run.
3. **Convergence** (`OnePassConverges`, `FanOutIsExactIff`, `UndesiredReplicasGo`, `SecondPassIsSilent`), for every
   hash function, which rests on **rendering preserving the hash** (`RenderPreservesPayload`, with the exact
   condition in `RenderPreservesPayloadIff`).
4. **Retain over runs and restarts** (`RetainedThroughout`), with the exact condition per pass (`RetainedIff`).
5. **Accounting**: garbage collection, deletion and status lose nothing (`CollectionAccounts`, `DeletionDrains`,
   `FinalizerGoesOnlyWhenDrained`, `StatusConserves`), and the two status writers fall silent under an exact
   condition (`OnceBothRanNobodyWrites`), which four passes decide whatever the transport answers
   (`FourPassesDecide`, `ThreePassesSuffice`, `RefusedSlotNeverSettles`).
6. **What a run amounts to**: left alone, the request controller stores and says exactly what the request resolves to
   (`RequestServes`, `RequestListsIff`, `VerdictMeans`), and the two controllers together let an unwanted source go
   exactly when nothing recorded is stuck (`GuardedTeardown`, `StuckTeardownHolds`, `UnguardedTeardown`).
7. **Decisions**: which pairs are resolved and under which names (`ResolvedIff`, `ResolvedSlotsIff`), union semantics of
   policies, request/engine agreement, webhook soundness and the exact condition of its converse (`DenialIsFinal`,
   `AdmittedIffServable`), and satisfiability as a decision procedure (`JointlySatisfiable`, `CompatibleIffWitness`).
8. **What is written and said**: a replica field by field (`RenderedPlacement`, `RenderedSays`, `AdoptPatchSays`), the
   reason of a slot and of a whole Replication (`SlotReasonMeans`, `DeniedSlotReports`, `ReadyReason`, `RowsReport`).
9. **Time**: streaks count failures and failures are retried (`StreakCountsFailures`, `FailedTryIsRetried`); backoff,
   requeue delays, connectivity and token rotation refine functions of their traces.

Where the code does not meet a stated property on all inputs, the exact condition is proved and a concrete failing
input is given: `OnceBothRanNobodyWrites` with `ConflictExample` and `RevokedExample`, `FanOutIsExactIff` with
`MaskedExample` (under a hash with a collision), `StatusFixpointIff` with
`DeniedSlotWithFailedCleanupRestamps` and `FailedCleanupExample`, `RenderPreservesPayloadIff` with
`MalformedLabelBreaksPayload`, `MergeRestoresIff` with `AddedKeyExample`, `CompatibleIffWitness` with
`NumericFailsOpen`, `DelayIsCappedDoublingIff` with `HugeBaseOverflows`, `RetryDelayIsCappedDoublingIff` with
`FirstDelayIsUncapped` and `HugeCapOverflows`.

## Hypotheses

They stand in the definitions and in `requires` clauses; without them the plain claims are false.

- A reconcile reads the latest hub objects. Updates and status updates of an object that was read are
  compare-and-swap on its resource version. Each controller handles one source with one worker at a time. A hub
  write that reports an error either did not happen or is followed by the end of that worker.
- A pass reads the source, the policies, the discovered clusters and the namespace labels at one instant. The
  in-memory previous evaluation is arbitrary in the protocol.
- Nothing foreign happens on a slot between the engine's read of it and the writes that follow.
- Source UIDs are non-empty and never reused. Spoke objects live in existing namespaces. Policy names and
  discovered cluster names are distinct. A request does not name a namespace twice (the parser rejects it); that
  slots are then distinct is proved (`ResolutionIsDistinct`).
- Applying to an absent or owned object leaves the applied marks and payload. Server-side apply keeps fields that
  other managers added; for its merge rule (objects merge field by field, other values are replaced, and what this
  manager no longer applies is gone) `MergeRestoresIff` says when that holds.
- The hash is any function of the canonical payload; nothing is assumed about collisions.
- Finalizers are removed only by the controllers, and hold the object alone.
- Hand-authored Replications are outside the model: every Replication is operator-owned.

Every failure of a transport call is explicit: a read works, is unavailable or fails; a write lands, is unavailable,
is rejected, is rejected as invalid, or takes effect and still reports an error.


## Model

| member | source | states |
|---|---|---|
| `ProtocolInvariant.NoReplicaIsLost` | internal/engine/reconciler.go:318-342 | over every run of both controllers, with crashes, failed and ambiguous writes and arbitrary foreign edits: a replica the engine left at a slot, still carrying its source UID and not released with its cluster, is in the stored inventory; a non-empty inventory means the engine finalizer is on; a Replication means its source exists, same UID, held by the request finalizer |
| `ProtocolInvariant.StepKeeps` | internal/engine/inventory.go:62-66 | every single step of either controller, of a crash and of the environment keeps the chain invariant |
| `ProtocolInvariant.RunKeeps` | internal/engine/reconciler.go:245-252 | the invariant holds after every finite run from an empty hub over any spokes |
| `ProtocolInvariant.EngineGuardsKeeps` | internal/engine/reconciler.go:245-252 | adding the engine finalizer under compare-and-swap keeps the invariant |
| `ProtocolInvariant.EnginePlansKeeps` | internal/engine/reconciler.go:318-342 | storing planned entries before anything is created keeps it; afterwards every slot still to be applied is in the stored inventory |
| `ProtocolInvariant.EngineAppliesKeeps` | internal/engine/reconciler.go:344-357 | applying one slot keeps it, whichever transport call fails or ambiguously succeeds |
| `ProtocolInvariant.EngineDeletesKeeps` | internal/engine/reconciler.go:767-846 | collecting one entry keeps it: an entry leaves memory only when the slot holds nothing of the source |
| `ProtocolInvariant.EngineCommitsKeeps` | internal/engine/reconciler.go:371-375 | storing the final status keeps it; released entries are the only slots given up |
| `ProtocolInvariant.EngineDropsFinalizerKeeps` | internal/engine/reconciler.go:853-872 | the engine finalizer goes only when the source owns no slot but released ones |
| `ProtocolInvariant.EngineGivesUpKeeps` | internal/engine/reconciler.go:887-894 | reporting a missing source or kind rewrites the status without losing an entry |
| `ProtocolInvariant.RequestGuardsKeeps` | internal/controller/request/controller.go:446-457 | the source finalizer is on before a Replication can exist |
| `ProtocolInvariant.RequestMaterializesKeeps` | internal/controller/request/controller.go:474-492 | creating the Replication keeps the chain: its source is held and has the recorded UID |
| `ProtocolInvariant.RequestUpdatesKeeps` | internal/controller/request/controller.go:499-508 | an update of the spec, landing or not, keeps the chain invariant; what a whole request run stores and says is in `Requests.RequestServes` |
| `ProtocolInvariant.RequestReportsKeeps` | internal/controller/request/controller.go:634-672 | writing TargetsResolved rewrites the whole status without losing inventory |
| `ProtocolInvariant.RequestReleasesKeeps` | internal/controller/request/controller.go:412-431 | deleting the Replication only marks it while the engine finalizer is on |
| `ProtocolInvariant.RequestUnguardsKeeps` | internal/controller/request/controller.go:433-443 | the source finalizer goes only while no Replication exists |
| `ProtocolInvariant.UpdateIsHarmless` | internal/controller/request/controller.go:677-688 | although ownership is matched by name, the Replication being updated always belongs to the same incarnation of the source |
| `Ownership.OwnershipIsHonest` | internal/engine/reconciler.go:760-846 | over every run, what the chain invariant calls owned ends only when the replica is gone, lost the UID, or its release is stored, and then its cluster was not discovered at an earlier moment of the run |
| `Ownership.AppliedSlotsAreOwned` | internal/engine/reconciler.go:580-591 | whatever an apply leaves at its slot with the source UID is owned, even if the write reported an error |
| `Ownership.ReleaseNeedsVanishedCluster` | internal/engine/inventory.go:67-82 | over every run, whatever a worker has released is on a cluster that was not discovered at one earlier moment of the run |
| `Ownership.ReleasedExactly` | internal/engine/inventory.go:67-82 | exactly the unkept entries of undiscovered clusters are released |
| `Takeover.TakeoverNeedsBothKeys` | internal/engine/conflict.go:85-175 | over every interleaving of any number of Replications: garbage collection never touches an object without its source UID; applying touches one only if it is unmanaged and annotation and a policy permitting that very target for the kind, namespace and namespace labels of the source both say Overwrite, or both at least Adopt with equal hashes and the payload left as it was, all as the hub had them when the worker planned; no other controller step touches any object |
| `Takeover.MarkedReplicasAreSafe` | internal/engine/drift.go:278-288 | a fully marked replica of another source survives every engine step |
| `Takeover.WorkersDecideByTheHub` | internal/engine/reconciler.go:262-292 | the source, its kind and namespace, the labels of that namespace (none when unreadable), the policies and the clusters a worker applies by are those of the hub at one earlier moment of the run |
| `Takeover.OptionsComeFromPermitting` | internal/engine/reconciler.go:350-351 | the conflict policies a slot is applied with are exactly those granted by policies permitting its target |
| `Takeover.DeletionIsFair` | internal/engine/reconciler.go:782-832 | a collection step leaves every object without the source UID untouched |
| `Refinement.SoloRunIsPass` | internal/engine/reconciler.go:301-375 | a worker nobody interferes with does to the spokes, and stores, exactly what the pass function says |
| `Refinement.SoloPassIsARun` | internal/engine/reconciler.go:301-375 | and that is a run of the step machine |
| `Engine.ApplyTargetIsSafe` | internal/engine/reconciler.go:543-709 | for every combination of call outcomes: no other object changes, a foreign object changes only with both keys, the entry is dropped only while the slot holds nothing of the source |
| `Engine.ReadyMeansInSync` | internal/engine/reconciler.go:580-708 | whatever fails, a slot reported ready holds both marks and content at the source hash, and its entry is at that hash |
| `Engine.ForeignSlotDecided` | internal/engine/reconciler.go:629-651 | what a slot held by somebody else comes to once read, whatever becomes of the writes: taken over, adopted with its content, or refused with its entry dropped; a failed write keeps the entry |
| `Engine.CollectEntryIsSafe` | internal/engine/reconciler.go:767-846 | collecting an entry drops it exactly when kind, check and delete allow it, leaves nothing of the source behind then, and never touches a foreign object |
| `Conflict.Classify` | internal/engine/drift.go:278-288 | an object is foreign exactly when there is no source UID or it carries another, managed exactly when it carries both marks |
| `Conflict.EffectiveConflictPolicy` | internal/engine/conflict.go:85-112 | the loop computes the weaker of request and strongest grant |
| `Conflict.WeakerOfIsMinimum` | internal/engine/conflict.go:59-112 | the effective policy reaches a strength exactly when the request and some grant both do; unknown values count as Fail |
| `Passes.CollectionAccounts` | internal/engine/reconciler.go:749-848 | after collection the inventory is exactly the kept entries and the stuck ones; what was removed is on a vanished cluster or left nothing of the source behind; kept and foreign objects are untouched |
| `Passes.DeletionDrains` | internal/engine/reconciler.go:853-872 | if every inventoried cluster answers or is gone and every kind is allowed, one deletion pass empties any inventory |
| `Passes.FinalizerGoesOnlyWhenDrained` | internal/engine/reconciler.go:853-872 | the inventory is empty after a deletion pass exactly when no entry on a discovered cluster is stuck, and then nothing of the source is left there |
| `Passes.PlanningAdds` | internal/engine/reconciler.go:320-336 | planning adds an entry for exactly the allowed slots that lack one, loses none and repeats none |
| `Reconcilers.Reconciler.Reconcile` | internal/engine/reconciler.go:291-388 | the whole reconcile, in place, equals the pass function and stores plan and status exactly when they differ; without its plan stored it touches nothing; a failed final write leaves the plan stored; the evaluation is remembered in every case; the backoff tracker is told exactly the events of the pass; the requeue delay is the soonest retry, or the resync period without one; what the events count and when a failure is retried is in `Failures` |
| `Reconcilers.Reconciler.Judge` | internal/engine/reconciler.go:291-316 | evaluation, revocations, jobs and what to keep |
| `Reconcilers.Reconciler.ApplySlots` | internal/engine/reconciler.go:344-357 | the apply loop equals the fold of its slots |
| `Reconcilers.Reconciler.ApplySlot` | internal/engine/reconciler.go:543-578 | namespace check and creation, then the slot, in place, equal to the slot function, with the events told to the backoff tracker; what those events count is in `Failures.StreakCountsFailures`, what the state means in `Outcomes.SlotReasonMeans` |
| `Reconcilers.Reconciler.WriteSlot` | internal/engine/reconciler.go:580-708 | read, classify, decide and write one slot, in place, equal to the slot function, with the events told to the backoff tracker |
| `Reconcilers.Reconciler.Rewrite` | internal/engine/reconciler.go:715-724 | apply, and on an immutable-field rejection delete and apply again |
| `Reconcilers.Reconciler.PlanEntries` | internal/engine/reconciler.go:320-336 | the planning loop, and whether it planned anything |
| `Reconcilers.Reconciler.CollectGarbage` | internal/engine/reconciler.go:749-848 | the collection loop equals the collection function |
| `Reconcilers.Reconciler.CollectSlot` | internal/engine/reconciler.go:767-846 | one entry of the collection loop, in place |
| `Reconcilers.Reconciler.ReconcileDeletion` | internal/engine/reconciler.go:853-883 | everything is collected; the finalizer goes exactly when nothing is left and its update is stored, and then streaks and remembered evaluation are forgotten; otherwise the status is stored when it differs and the soonest retry, or the longest backoff, sets the requeue; either write may fail |
| `Reconcilers.Reconciler.RequeueAfter` | internal/engine/reconciler.go:379-382 | the soonest positive delay of the events, or the default |
| `Retries.MinDelay` | internal/engine/reconciler.go:1085-1093 | the least positive delay, 0 exactly when there is none |
| `Retries.ClustersBackOffAlone` | internal/engine/backoff.go:26-43 | a pass leaves the streak of every other Replication, and of every cluster it does not deal with, as it was |
| `Retries.ConvergingPassSetsNoDelay` | internal/engine/reconciler.go:695-709 | a converging pass ends the streaks of all its clusters and sets no delay |
| `Convergence.OnePassConverges` | internal/engine/reconciler.go:344-375 | over reachable clusters, with every slot allowed and empty or ours (however edited), for every hash function: one pass leaves both marks, and annotation and content at the hash of the source, at every slot, and the inventory exactly the slots at that hash |
| `Convergence.FanOutIsExactIff` | internal/engine/reconciler.go:652-692 | and the payload of the source itself, exactly unless the slot held another payload of the same hash under intact marks and annotation |
| `Convergence.UndesiredReplicasGo` | internal/engine/reconciler.go:359-364 | whatever becomes of the slots, a recorded replica that is neither allowed nor retained is gone and forgotten where its cluster is discovered and cleaning up works |
| `Convergence.SecondPassIsSilent` | internal/engine/reconciler.go:898-904 | the next pass makes no transport write, plans nothing and stores no status, restarted or not, even where writes would fail |
| `Convergence.SlotConverges` | internal/engine/reconciler.go:592-691 | a slot of ours, stripped or drifted, ends as the desired replica, or as it was when marks, annotation and content hash already agree; its entry is refreshed |
| `Convergence.SlotIsExactIff` | internal/engine/reconciler.go:652-692 | one slot ends with the content of the source exactly unless it was masked by an equal hash |
| `Retention.RetainedThroughout` | internal/engine/reconciler.go:294-316 | no run of passes, complete or cut short after any slot or collected entry, and restarts writes, deletes or forgets a recorded replica of a target that stays requested and denied while some installed source-matching policy says Retain; only the first pass also needs the surviving granting policies to include one saying Retain |
| `Retention.RetainedIff` | internal/engine/reconciler.go:434-510 | a recorded replica is retained exactly when its target is still evaluated and denied and Retain governs: a surviving granting policy says so, or none survives and a source-matching policy does |
| `Retention.PassRetains` | internal/engine/reconciler.go:434-472 | a pass under which Retain governs keeps the entry and leaves the object as it was |
| `Retention.PartRetains` | internal/engine/reconciler.go:344-364 | and so wherever the pass is cut short |
| `Interruptions.StillThroughout` | internal/engine/reconciler.go:344-364 | a pass that would leave the spokes as they were has left them so at every point |
| `Retention.PassRevokes` | internal/engine/reconciler.go:463-470 | otherwise the entry survives exactly when it is stuck on a discovered cluster, and goes only with its replica or its cluster |
| `Retention.EveryEntryHasOneFate` | internal/engine/reconciler.go:313-364 | every entry is exactly one of desired, retained, deleted, released |
| `Retention.PassKeepsDistinct` | internal/engine/reconciler.go:320-364 | a pass never records one slot twice |
| `Revocations.AddInventoryRevocations` | internal/engine/reconciler.go:1026-1048 | the two loops compute the augmented revocations |
| `Revocations.DeniedTargetsRevokedOnce` | internal/engine/reconciler.go:1016-1048 | whatever was remembered, every denied target with recorded replicas has exactly one revocation, carrying its denial |
| `Revocations.EffectiveRevocationPolicy` | internal/engine/reconciler.go:485-510 | the preference order, including evaluating each policy alone to see whether it matches the source |
| `Revocations.RetainIff` | internal/engine/reconciler.go:474-510 | Retain results exactly when a surviving granting policy says so, or, when none survives, a source-matching one does |
| `Revocations.AloneRevealsSource` | internal/engine/reconciler.go:496-504 | evaluating one policy alone tells exactly whether its source dimensions match |
| `Revocations.ApplyRevocations` | internal/engine/reconciler.go:434-472 | the loop collects the retained slots and the namespaces being cleaned |
| `Inventory.PlanGC` | internal/engine/inventory.go:67-82 | every entry is kept, deleted or released, exactly one of these, in order |
| `Inventory.RemoveEntry` | internal/engine/inventory.go:97-108 | compacting the slice within its backing array removes exactly the key |
| `Inventory.RefreshEntry` | internal/engine/inventory.go:84-95 | refreshing in place changes only the entry with the key, else the caller appends |
| `Inventory.UpsertKeepsDistinct` | internal/engine/inventory.go:84-95 | upserting keeps one entry per slot |
| `Inventory.EntriesIn` | internal/engine/inventory.go:110-118 | exactly the entries of a cluster and namespace |
| `Status.BuildStatus` | internal/engine/status.go:97-197 | the imperative assembly equals its specification |
| `Status.Tally` | internal/engine/status.go:119-157 | the counting loop: counters, bounded detail, overflow, first reason |
| `Status.DominantReason` | internal/engine/status.go:201-217 | the most severe ranked reason present, else the fallback, else ApplyFailed |
| `Status.StatusConserves` | internal/engine/status.go:119-157 | ready plus failed is the number of states; listed detail is min(failed, 20); listed plus overflow is failed |
| `Status.ReadyVerdict` | internal/engine/status.go:159-217 | Ready is True exactly when nothing failed and something is desired or the object is being deleted; a False reason is the highest-priority one present |
| `Status.StatusFixpointIff` | internal/engine/status.go:97-197 | rebuilding from its own output at any later clock changes nothing exactly when listed states give one reason per slot name |
| `Status.SilentIff` | internal/engine/status.go:97-197 | a status that reports one outcome is left alone by another at any later clock exactly when both say the same and listed states give one reason per slot name |
| `Status.DeniedSlotWithFailedCleanupRestamps` | internal/engine/status.go:112-143 | a denied slot whose cleanup also fails breaks that condition, and the status does differ at some later clock |
| `Status.BuiltSays` | internal/engine/status.go:159-197 | the engine states Ready and the revocation condition and leaves every other condition alone |
| `Arbitration.NoStepLosesOthersWork` | internal/engine/reconciler.go:896-904 | over every run: request writes keep inventory and every engine field; engine writes, the plan write among them, keep every foreign condition; the plan write changes nothing but the inventory and loses no entry |
| `Arbitration.PlansKeeps` | internal/engine/reconciler.go:318-342 | the plan write, under compare-and-swap, keeps what both writers rely on and only adds entries |
| `Settling.OnceBothRanNobodyWrites` | internal/controller/request/controller.go:634-672 | from any status and spokes, over every interleaving of reads, plan writes, work on the spokes, result writes, crashes anywhere and lost memory, with fixed inputs: once each controller has completed a pass, neither ever writes again exactly when every allowed slot kept its entry, listed states give one reason per slot name, and the next pass, recomputed from what is stored, would report the same and leave the spokes alone |
| `Settling.NobodyWritesAgainIff` | internal/engine/reconciler.go:896-904 | the same for any hub between passes |
| `LongRun.FourPassesDecide` | internal/engine/reconciler.go:344-375 | after any run of the two controllers, four undisturbed passes under fixed inputs decide, whatever the transport answers: nobody ever writes again exactly when no allowed slot was refused before them and the listed states give one reason per slot name |
| `LongRun.RefusedAfterIff` | internal/engine/reconciler.go:555-572 | a pass leaves exactly those slots refused that it found refused |
| `LongRun.DroppedIffRefused` | internal/engine/reconciler.go:547-572 | a slot loses its entry exactly when an object that may not be touched, or a missing namespace, refuses it |
| `FixedPoints.ThreePassesSuffice` | internal/engine/reconciler.go:344-364 | whatever the transport answers on each slot and entry, three passes reach a state in which every slot is idle and recorded by its state and every unkept entry is stuck for good |
| `FixedPoints.StationaryStays` | internal/engine/reconciler.go:320-364 | over such a state a pass ends with the same spokes and the same inventory, entry by entry |
| `FixedPoints.TwoTrialsSettle` | internal/engine/reconciler.go:543-708 | trying a slot twice leaves nothing for a third try, for every combination of call outcomes |
| `FixedPoints.PassTriesSlot` | internal/engine/reconciler.go:344-357 | a pass does to each allowed slot what trying it alone does, and records it by the state of that try |
| `Refusals.RefusedSlotLosesEntry` | internal/engine/reconciler.go:555-572 | an allowed slot held by an object that may be neither adopted nor taken over, or without its namespace, ends every pass without an entry |
| `Refusals.RefusedSlotWritesTwice` | internal/engine/reconciler.go:320-342 | so a pass over such a slot stores its plan and then takes it back, and leaves the slot refused for the next pass |
| `Refusals.RefusedSlotWritesForever` | internal/engine/reconciler.go:320-342 | any number of passes in a row writes the status twice each |
| `Refusals.RefusedSlotNeverSettles` | internal/engine/reconciler.go:555-572 | over every interleaving of the two controllers, crashes included, a slot that was refused at the start keeps the writers from ever falling silent |
| `Refusals.RevokedSlotReportsRevocation` | internal/engine/reconciler.go:514-537 | for a request with one slot, denied and under Delete: the pass that cleans it up reports the revocation and records nothing |
| `Refusals.RevokedSlotWritesAgain` | internal/engine/reconciler.go:525-533 | and the next pass, under unchanged inputs, reports a plain denial, which is one more write |
| `Settling.ConvergedIsSettled` | internal/engine/reconciler.go:898-904 | a converged fan-out whose status reports it is settled |
| `Settling.MemoryDoesNotMatter` | internal/engine/reconciler.go:294-303 | under unchanged policies a pass decides the same whether the last evaluation is remembered or lost |
| `Examples.ConflictExample` | internal/engine/reconciler.go:632-636 | a concrete request whose slot holds another replica: two writes on each of any number of passes, and no interleaving ends the writing |
| `Examples.RevokedExample` | internal/engine/reconciler.go:525-533 | a concrete request whose last policy is gone: revocation on the first pass, denial on the second |
| `Examples.FailedCleanupExample` | internal/engine/reconciler.go:832-841 | a concrete request whose cleanup cannot reach the cluster: the two states that are stamped anew forever |
| `Examples.MaskedExample` | internal/engine/reconciler.go:652-692 | a replica edited into another payload of the same hash counts as converged and is not restored |
| `Render.RenderPreservesPayload` | internal/engine/render.go:184-219 | for every well-formed source, target, hub name and denylist the replica has the source payload, and rendering it again keeps it |
| `Render.RenderPreservesPayloadIff` | internal/engine/render.go:184-320 | for any object with metadata, payloads agree exactly when labels and annotations outside the denylist are strings |
| `Render.MalformedLabelBreaksPayload` | internal/engine/render.go:273-293 | a non-string label is a concrete object whose replica never hashes equal |
| `Render.RenderedView` | internal/engine/render.go:184-219 | read back, a replica carries managed-by, the source UID, the source hash and the source payload; field by field in `Placement` |
| `Render.AdoptKeepsPayload` | internal/engine/render.go:221-236 | merging the adopt patch adds the marks and leaves the payload unchanged |
| `Render.MergeRestoresIff` | internal/engine/transport.go:96-104 | an apply that merges objects field by field at every depth, keeping fields of others, restores the payload exactly when the object holds no field that is not applied |
| `Render.AddedKeySurvives` | internal/engine/transport.go:96-104 | any key somebody added inside a field, such as data, is never removed by a re-apply |
| `Render.AddedKeyExample` | internal/engine/transport.go:96-104 | a concrete Secret with an added key |
| `Render.CanonicalPayload` | internal/engine/render.go:273-293 | the copy-and-delete procedure equals the payload function |
| `Render.SamePayloadIff` | internal/engine/render.go:259-293 | payloads agree exactly when body, cleaned labels and cleaned annotations do |
| `Render.IsStrippedKey` | internal/engine/render.go:321-341 | exact keys, prefixes and the extra denylist |
| `Render.CleanStrippedKeys` | internal/engine/render.go:343-370 | exactly the keys off the denylist remain |
| `Render.MarksAreStripped` | internal/engine/render.go:316-341 | all keys the engine adds are on the denylist |
| `Policies.Evaluate` | internal/policy/policy.go:179-186 | one decision per target, in order |
| `Policies.Decide` | internal/policy/policy.go:188-236 | the loop over policies equals the decision function |
| `Policies.FailedDimension` | internal/policy/policy.go:238-284 | each dimension exactly when its test fails and those before it hold; none exactly when all four match |
| `Policies.AllowedIffOnePermits` | internal/policy/policy.go:188-236 | allowed exactly when one single policy matches all four dimensions; the matched names are exactly the permitting policies, sorted |
| `Policies.DeniedDimensionIsFurthest` | internal/policy/policy.go:204-236 | the denied dimension is reached by some policy and passed by none; NoPolicies exactly for the empty list |
| `Policies.DecisionIgnoresPolicyOrder` | internal/policy/policy.go:188-236 | permuting policies changes nothing in a decision |
| `Policies.AddingPoliciesKeepsAllowed` | internal/policy/policy.go:188-236 | adding policies never denies an allowed target |
| `Policies.MatchedLookupIsPermitting` | internal/engine/reconciler.go:1052-1064 | looking matched names up again yields exactly the permitting policies |
| `Options.ResolveOptions` | internal/policy/options.go:69-96 | the loop equals the resolution function |
| `Options.ResolvedConflictPolicies` | internal/policy/options.go:69-96 | the union of grants plus Fail, each once, in canonical order |
| `Options.ResolvedIgnoresOrder` | internal/policy/options.go:69-96 | for enumerated values the result does not depend on policy order or repetition |
| `Options.DetectRevocations` | internal/policy/options.go:118-143 | the map-building loops compute the withdrawn permissions |
| `Options.WithdrawnExactly` | internal/policy/options.go:118-143 | a revocation for exactly the targets allowed before and not now, once each |
| `Targets.ResolveTargets` | internal/controller/request/controller.go:517-578 | sort, select, evaluate and group, as loops, with one entry per cluster; which pairs are in the result is in `Resolution.ResolvedIff`, which are denied in `Resolution.DeniedIff` |
| `Targets.ResolutionIgnoresListOrder` | internal/controller/request/controller.go:517-537 | the resolution does not depend on the order discovery lists clusters in |
| `Targets.ResolutionFlattens` | internal/controller/request/controller.go:560-578 | flattened, it is exactly the allowed decisions in order, each cluster once |
| `Targets.ResolutionIsDistinct` | internal/controller/request/controller.go:517-578 | a request naming no namespace twice never resolves to one pair twice |
| `Targets.EngineAgreesWithRequest` | internal/engine/reconciler.go:400-424 | under the same policies, labels and discovery the engine denies no resolved target |
| `Targets.FlattenTargets` | internal/engine/reconciler.go:400-424 | slots and policy targets in step, names defaulted |
| `Webhook.CheckPolicies` | internal/webhook/check.go:59-136 | the admission check as loops equals its specification |
| `Webhook.DenialIsFinal` | internal/webhook/check.go:59-136 | a denied request has one requested namespace that gets no target for every cluster inventory and every source-namespace labels; after the source denials no requested namespace ever gets one |
| `Webhook.PermittedIsPossible` | internal/webhook/check.go:138-158 | whatever a policy permits, the approximation finds possible |
| `Webhook.PoliciesForSourceNamespace` | internal/webhook/check.go:138-148 | exactly the policies that may match the namespace |
| `Webhook.PoliciesForKind` | internal/webhook/check.go:150-158 | exactly the policies listing the kind |
| `Webhook.JointlySatisfiable` | internal/webhook/check.go:186-264 | the map-shrinking procedure returns true exactly when the selectors, with numeric operators relaxed, share a label set |
| `Webhook.IncompatibleNeverMatch` | internal/webhook/check.go:186-264 | false means no label set matches both, absent keys included |
| `Comparisons.CompatibleIffWitness` | internal/webhook/check.go:186-264 | for all selectors: they share a label set exactly when the check accepts them and, for every key compared with Gt or Lt, the bounds are numbers and a value still allowed lies between them, or, with no values listed, some int64 does |
| `Comparisons.NumericFailsOpen` | internal/webhook/check.go:233-235 | one annotation, key above 5 and below 3, is accepted against a policy for all clusters and matches nothing |
| `Token.Rotator.Config` | internal/cluster/token.go:116-127 | state and credential per call; it mints exactly when nothing is held or the refresh fraction of the lifetime is over; a config returned without minting carries a token unexpired at the checked instant |
| `Token.Rotator.RefreshLocked` | internal/cluster/token.go:172-194 | which credential mints, when it fails, and what is then held |
| `Token.DeadlineWithinLifetime` | internal/cluster/token.go:157-163 | for a fraction in [0,1] the refresh deadline is the last nanosecond at which no more than that fraction of the lifetime has passed, and lies within the lifetime |
| `Token.UnmintedTokenIsUnexpired` | internal/cluster/token.go:116-127 | over every run in which no mint yields an already expired token, mints failing or not, with or without a bootstrap credential: a call that does not mint hands out a token valid when checked |
| `Token.BootstrapOnlyWithoutValidToken` | internal/cluster/token.go:172-183 | over every run, the bootstrap credential is used only if the token minted last is empty or expired by then, or none was minted |
| `Token.BootstrapWheneverNeeded` | internal/cluster/token.go:172-183 | and conversely it is used then, if there is one |
| `Token.HeldIsLastReplacement` | internal/cluster/token.go:184-193 | what is held is what the last successful mint yielded |
| `Token.BootstrapUsedExactlyOnce` | internal/cluster/token.go:81-83 | with successful mints and a check in every refresh window, the first call and no other uses it |
| `Connectivity.Tracker.Observe` | internal/cluster/manager.go:117-145 | for all intervals: state, delay and since are functions of the trailing streak of failures and its first timestamp |
| `Connectivity.RetryDelayIsCappedDoublingIff` | internal/cluster/manager.go:129-138 | the n-th delay is min(base·2^(n-1), max) for every n exactly when base is at most max and max is below 2^62 |
| `Connectivity.FirstDelayIsUncapped` | internal/cluster/manager.go:117-145 | for a base above max the first delay exceeds the cap |
| `Connectivity.HugeCapOverflows` | internal/cluster/manager.go:129-138 | a cap of 2^62 yields a negative delay |
| `Backoff.BackoffTracker.Failure` | internal/engine/backoff.go:53-60 | the delay is a function of the failures of that pair since its last success or forgetting |
| `Backoff.BackoffTracker.Success` | internal/engine/backoff.go:62-67 | a success ends the streak of that pair only |
| `Backoff.BackoffTracker.Forget` | internal/engine/backoff.go:69-79 | forgetting a Replication ends the streaks of all its pairs |
| `Backoff.BackoffTracker.DelayLocked` | internal/engine/backoff.go:81-93 | the doubling loop with 64-bit wrap-around and early return |
| `Backoff.DelayIsCappedDoublingIff` | internal/engine/backoff.go:81-93 | the delay is min(base·2^(n-1), max) for every n exactly when base is below 2^62 and max does not exceed the first doubling of base to reach 2^62 |
| `Backoff.HugeBaseOverflows` | internal/engine/backoff.go:81-93 | a base of 2^62 yields a negative delay |
| `Requests.RequestServes` | internal/controller/request/controller.go:446-513 | a request run left alone, whatever was stored before: the source is guarded, its one Replication names the source UID and lists what the request resolves to now, keeps its inventory and every other part of the status, has a new generation exactly when the spec changed, and TargetsResolved says what was found; nothing else changes |
| `Requests.RequestIsSilentAgain` | internal/controller/request/controller.go:494-513 | a second such run changes nothing |
| `Requests.VerdictMeans` | internal/controller/request/controller.go:612-672 | TargetsResolved is true exactly when a target was resolved; NoTargets exactly when no ready cluster matches; PolicyDenied otherwise |
| `Requests.RequestListsIff` | internal/controller/request/controller.go:517-578 | the stored Replication lists a pair exactly when its namespace is asked for and some policy permits it on a ready cluster the selector matches |
| `Teardown.GuardedTeardown` | internal/controller/request/controller.go:408-442 | an unwanted source, both controllers left alone, everything recorded collectable: the Replication goes, nothing of the source is left at a recorded slot of a discovered cluster, and then the source is gone or loses its finalizer |
| `Teardown.StuckTeardownHolds` | internal/controller/request/controller.go:426-429 | one stuck replica keeps the Replication, the source and its finalizer |
| `Teardown.UnguardedTeardown` | internal/controller/request/controller.go:421-442 | without an engine finalizer or without a Replication the request controller alone lets the source go |
| `Teardown.DrainedIff` | internal/engine/reconciler.go:853-885 | the worker of a deleted Replication, left alone, removes it exactly when no recorded replica of a discovered cluster is stuck, and then nothing of the source is left at one |
| `Teardown.DrainEnds` | internal/engine/reconciler.go:853-885 | its steps do to the spokes what the drain function says, and touch no other Replication, source or request |
| `Teardown.ReleaseAsksForDeletion` | internal/controller/request/controller.go:412-429 | a release with a Replication present deletes or marks it and leaves the source held |
| `Teardown.VacantIsLetGo` | internal/controller/request/controller.go:434-442 | a release without one frees the source |
| `Waiting.UnservedWaits` | internal/engine/reconciler.go:887-894 | a pass without a usable source or kind, left alone, leaves the spokes, the inventory and the recorded hash as they were and says Ready False with the reason |
| `Placement.RenderedPlacement` | internal/engine/render.go:184-194 | a replica lies in the target namespace under the target name, or else the source name, without status and without the ten server-managed fields, and is otherwise the source: its other metadata fields and everything outside metadata |
| `Placement.RenderedSays` | internal/engine/render.go:196-216 | its labels name the hub, the namespace, the name, the kind and the UID of the source, its annotation the hash; every other label and annotation off the denylist is the source's, and none on it remains |
| `Placement.AdoptPatchSays` | internal/engine/render.go:221-236 | the adopt patch carries the identity labels, the hash and the place, and nothing of the payload |
| `Placement.StrippedIff` | internal/engine/render.go:321-341 | which keys are on the denylist, as literals |
| `Placement.PayloadCovers` | internal/engine/render.go:273-293 | two objects have the same canonical payload exactly when they agree outside metadata and status and on the labels and annotations off the denylist |
| `Resolution.ResolvedIff` | internal/controller/request/controller.go:517-578 | a (cluster, namespace) pair is resolved exactly when its namespace is asked for and some policy permits it on a ready cluster of that name whose labels the selector matches |
| `Resolution.DeniedIff` | internal/controller/request/controller.go:517-578 | a candidate is reported as denied exactly when it is asked for, ready and selected, and no policy permits it |
| `Resolution.SlotsIff` | internal/engine/reconciler.go:400-424 | the slots of a Replication: one per listed namespace, named by its target, or else like the source |
| `Resolution.ResolvedSlotsIff` | internal/engine/reconciler.go:400-424 | the slots of a resolution: one at every resolved pair, under the requested name, or else the source name |
| `Failures.StreakCountsFailures` | internal/engine/reconciler.go:543-713 | after a pass, the streak of a cluster is the number of its failed tries since the last that worked, added to the old streak when none worked; which tries fail or work is said by states and faults |
| `Failures.FailedTryIsRetried` | internal/engine/reconciler.go:377-388 | a cluster that ends a pass failing has a streak of at least one, and the pass is requeued no later than the delay of that streak |
| `Failures.QuietPassWaits` | internal/engine/reconciler.go:377-388 | a pass without a failed try waits for the resync period |
| `Failures.ConflictKeepsStreak` | internal/engine/reconciler.go:632-636 | a refused slot neither counts as a failure nor ends a streak |
| `Failures.FailedCleanupIsRetried` | internal/engine/reconciler.go:853-885 | the same for the deletion path: a failed cleanup is retried after its streak's delay at the latest |
| `Outcomes.SlotReasonMeans` | internal/engine/reconciler.go:543-713 | what the reason of a slot means: unreachable only after an unavailable call, failed only after another failure, NamespaceMissing exactly when the namespace is seen missing and may not be made, Conflict exactly when an object is found in the way, ready otherwise |
| `Outcomes.EntryReasonMeans` | internal/engine/reconciler.go:767-846 | an entry is reported exactly when it is stuck, as not desired, and as unreachable exactly when its check or delete found the cluster unavailable |
| `Outcomes.SlotAllowedIff` | internal/engine/reconciler.go:400-424 | a slot is served exactly when one policy permits it on the cluster as discovery lists it now, without labels when it no longer does |
| `Outcomes.PlaceholdersAre` | internal/engine/reconciler.go:318-342 | a planned entry stands for an allowed slot without one and has no hash yet |
| `Outcomes.PassStatusSays` | internal/engine/reconciler.go:371-375 | the status of a pass carries the hash of the source it rendered and what is then recorded, and counts as desired exactly the slots asked for |
| `Denials.DeniedSlotReports` | internal/engine/reconciler.go:512-538 | a denied slot reports PolicyRevoked exactly when a replica is recorded there, retained or not, and PolicyDenied otherwise |
| `Denials.RevokedStandsIff` | internal/engine/status.go:183-193 | after a pass the Revoked condition stands exactly when some recorded replica is of a denied target under which Retain governs |
| `Denials.NamespaceMadeIff` | internal/engine/reconciler.go:729-745 | a missing namespace is made exactly when it is seen missing, some policy that permits this target allows it, and the write takes effect |
| `Verdicts.ReadyReason` | internal/engine/status.go:159-217 | Ready carries a reason that some failed state gives and none outranks, pair by pair; without a ranked reason the first one given; without any, ApplyFailed; with no failure AllTargetsReady or NoTargets |
| `Verdicts.SummaryCounts` | internal/engine/status.go:119-157 | the summary counts the desired, the ready and the failed states |
| `Verdicts.ListedInOrder` | internal/engine/status.go:119-152 | failed states are listed in their order |
| `Verdicts.RowsReport` | internal/engine/status.go:112-152 | the first 20 failed states are listed, the others counted; a row keeps its time exactly when the row recorded last for that slot has the same reason |
| `Verdicts.ConditionTimes` | internal/engine/status.go:159-195 | Ready and Revoked keep their time exactly while their status stays; conditions of other writers are carried over |
| `Admission.ServableIff` | internal/controller/request/controller.go:517-578 | a requested namespace resolves under some cluster records and some source-namespace labels exactly when one policy can match the source, lists the namespace and shares a label set with the request |
| `Admission.AdmittedIffServable` | internal/webhook/check.go:59-136 | where every compared key leaves room and every needed namespace selector can match, a request with a selector is admitted exactly when each of its namespaces can be served |
| `Admission.AdmittedWithoutComparisons` | internal/webhook/check.go:59-136 | in particular for selectors without numeric operators |
| `Token.RefreshIff` | internal/cluster/token.go:157-170 | a token is refreshed exactly when there is none or the refresh fraction of its lifetime is over, to the nanosecond |
| `Token.MintsIff` | internal/cluster/token.go:116-127 | over every run, a call mints exactly then |
| `Token.MintsOnceTheFractionIsOver` | internal/cluster/token.go:157-170 | with a fraction in [0,1] and a token not born expired: exactly when more than the fraction of the lifetime has passed by the next nanosecond |
| `Connectivity.StateMeans` | internal/cluster/manager.go:117-145 | reachable exactly after a probe that worked, unreachable exactly after threshold failed probes in a row and at least one, unknown before the first |
| `Connectivity.SinceIsTheFirstOfItsRun` | internal/cluster/manager.go:117-145 | the reported time is that of the first probe of the current run of equal results |
| `Backoff.StreakCounts` | internal/engine/backoff.go:51-77 | the streak of a pair is the number of its failures since its last success and since its replication was last forgotten |
| `Admission.DenialSays` | internal/webhook/check.go:59-136 | each dimension of a denial by what it says about the policies, and of the namespace it names |
| `Waiting.UnservedIsSilentAgain` | internal/engine/reconciler.go:887-904 | a second such pass writes nothing, no version either |
| `Outcomes.SlotKeysAre` | internal/engine/reconciler.go:400-424 | the slots of a pass: one per target namespace, named by the target or else the source, of the source's group and kind |

## Left out

- Real Kubernetes clients, informers, caches and watches, server-side-apply field ownership, the push transport and controller wiring: abstract calls with explicit outcomes stand for them.
- SHA-256 and JSON encoding: the hash is a function parameter over canonical payloads.
- The cluster manager's goroutine lifecycle, drift-detector informers, spoke bootstrap and RBAC, the Cluster API provider, kubeconfig loading: plumbing around the modelled logic.
- NotAuthoritative marking of hand-authored Replications, and the engine's defensive re-check of it.
- Annotation parsing, label-key syntax validation, conversion of label selectors, parsing of the extra denylist: requests, selectors and the denylist are given in parsed form, with malformed ones as an explicit case.
- Events, metrics, log and condition message texts, the event limiter, and the reason text of a denial, which does depend on policy order.
- The conflict-policy warning of the webhook: advisory output only.
- Aliasing of the inventory slice: removal and refresh are proved in place on an array; in the reconciler the inventory is a field holding a sequence.
- Scheduling and fairness: when controllers run is left open; what eventually happens is stated as what a worker's run does when nobody is in between.
- Widths of counters: status counters are unbounded instead of 32-bit.
- Token.Rotator.Config: lifetimes and the refresh fraction are reals, so float64 rounding of the deadline is not modelled.
- Convergence.SecondPassIsSilent: slots ending in Conflict or NamespaceMissing plan and drop their placeholder on every pass, so silence is claimed for fan-outs where every slot converges; `FourPassesDecide` covers the rest.
- Reconcilers.Reconciler.Reconcile: reads of hub objects that fail end the source's reconcile before anything happens and are not modelled; the finalizer, allowlist and missing-source steps before the evaluation are modelled in Protocol.
- Comparisons.CompatibleIffWitness: label sets are arbitrary maps of strings, as the selector library takes them; the API's syntax and length limits on label values are not modelled.
- Options.ResolvedIgnoresOrder: for the conflict policies the API admits (api/v1alpha1/replicationpolicy_types.go restricts them to an enumeration); for other values the source's sort, which is not stable, leaves the order open.
