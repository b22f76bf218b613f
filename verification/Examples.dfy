/** Concrete inputs on which a plain claim about silence fails: one source, one cluster, one namespace. */
module Examples {
  import opened Basics
  import opened Labels
  import opened Policies
  import opened Options
  import opened Inventory
  import opened Engine
  import opened Passes
  import opened Status
  import opened Arbitration
  import opened Settling
  import opened Refusals
  import C = Convergence
  import R = Render
  import Ret = Retention
  import T = Targets

  const SECRET := GroupKind("", "Secret")
  const KEY := SlotKey("c", "n", "s", "", "Secret")
  const META := Source("Secret", "src", map[])
  const TARGET := Target("c", map[], "n")

  /** Permits the one target there is. */
  const GRANT := ReplicationPolicy(
    "grant", ["src"], None, ["Secret"], Valid(Requirements([])), ["n"], PolicyOptions(false, [Fail], Delete))

  const WORKING := SlotFaults(ReadOk, Lands, ReadOk, Lands, Lands, Lands)

  function Surroundings(del: WriteOutcome): Context {
    Context(SourceView("uid", map[], Fail), (p: R.Payload) => "hash", {SECRET}, {"c"},
            (k: SlotKey) => WORKING, (k: SlotKey) => CollectFaults(ReadOk, del))
  }

  function StatusWith(inv: seq<InventoryEntry>): Status { Status(Summary(0, 0, 0), "", [], [], 0, inv) }

  function RequestUnder(policies: seq<ReplicationPolicy>, inv: seq<InventoryEntry>, del: WriteOutcome): Input {
    Input([T.ResolvedTarget("c", "", ["n"])], StatusWith(inv), 1, "s", SECRET, META, policies,
          [T.ClusterRecord("c", map[], true)], Surroundings(del), 0)
  }

  function SpokesWith(r: R.Replica): Spokes { Spokes(map[KEY := r], {NsKey("c", "n")}) }

  lemma {:induction false} OneSlot(policies: seq<ReplicationPolicy>, inv: seq<InventoryEntry>, del: WriteOutcome)
    ensures SlotKeys(RequestUnder(policies, inv, del)) == [KEY]
    ensures Decisions(RequestUnder(policies, inv, del)) == [Decided(META, TARGET, policies)]
  {
    var i, t := RequestUnder(policies, inv, del), T.ResolvedTarget("c", "", ["n"]);
    assert [t][..0] == [];
    assert T.PairsOf(t) == [NsKey("c", "n")] && T.Pairs([t]) == [NsKey("c", "n")];
    assert T.SlotsFor(t, "s") == [T.Slot("c", "n", "s")] && T.SlotsOf([t], "s") == [T.Slot("c", "n", "s")];
    assert T.LabelsOf(i.clusters, "c") == map[];
    assert T.EngineTargets([NsKey("c", "n")], i.clusters) == [TARGET];
  }

  lemma {:induction false} Granted()
    ensures Decided(META, TARGET, [GRANT]).allowed
  {
    AllowedIffOnePermits(META, TARGET, [GRANT]);
    assert GRANT in [GRANT] && Permits(GRANT, META, TARGET);
  }

  /** Nobody has run yet. */
  function Fresh(r: R.Replica): Hub { Hub(StatusWith([]), 0, SpokesWith(r), [], Idle, Resting, false, None) }

  /** Another source's replica sits on the one slot: under fixed inputs every one of any number of passes writes the
      status twice, and no interleaving of the two controllers ever ends the writing. */
  lemma {:induction false} ConflictExample(resolved: Condition, clocks: seq<Time>, steps: seq<Step>)
    requires resolved.kind.TargetsResolved?
    ensures var x := Fixed(resolved, RequestUnder([GRANT], [], Lands));
            var h := Fresh(R.Replica(R.MANAGED_BY, "another", "", map[]));
            && Run(h, WholePasses(clocks), x).version == 2 * |clocks|
            && !SilentForever(Run(h, steps, x), x)
  {
    var x := Fixed(resolved, RequestUnder([GRANT], [], Lands));
    var h := Fresh(R.Replica(R.MANAGED_BY, "another", "", map[]));
    OneSlot([GRANT], [], Lands);
    Granted();
    assert Decisions(x.i)[0].allowed;
    RefusedSlotWritesForever(h, 0, clocks, x);
    RefusedSlotNeverSettles(h, steps, 0, x);
  }

  lemma {:induction false} OwnIsReachable(r: R.Replica)
    requires r.sourceUid == "uid"
    ensures C.Reachable(SpokesWith(r), RequestUnder([GRANT], [], Lands))
    ensures KEY in C.SlotSet(RequestUnder([GRANT], [], Lands))
  {
    var i := RequestUnder([GRANT], [], Lands);
    OneSlot([GRANT], [], Lands);
    Granted();
    assert KEY in SlotKeys(i) && Decisions(i)[0].allowed;
    assert C.Eligible(SpokesWith(r), KEY, C.OptionsAt(i, 0), i.cx);
  }

  /** What the source's replica was edited into: another payload, its marks intact. */
  const EDITED := R.Replica(R.MANAGED_BY, "uid", "hash", map["data" := R.Text("edited")])

  lemma {:induction false} EditedIsMasked(cx: Context)
    requires cx == Surroundings(Lands)
    ensures C.Masked(SpokesWith(EDITED), KEY, cx)
  {
    assert "data" in EDITED.payload && "data" !in cx.src.payload;
  }

  /** Two payloads of one hash: a replica edited from one into the other counts as converged and is not restored. */
  lemma {:induction false} MaskedExample(prev: seq<Decision>)
    ensures var i := RequestUnder([GRANT], [], Lands);
            var w := PassWork(SpokesWith(EDITED), prev, i);
            C.Converged(w, i) && !C.Exact(w.spokes, KEY, i.cx)
  {
    var i := RequestUnder([GRANT], [], Lands);
    OwnIsReachable(EDITED);
    C.OnePassConverges(SpokesWith(EDITED), prev, i);
    C.FanOutIsExactIff(SpokesWith(EDITED), prev, i, KEY);
    EditedIsMasked(i.cx);
  }

  lemma {:induction false} NothingGoverns(prev: seq<Decision>, i: Input, t: NsKey)
    requires i.policies == []
    ensures !Ret.RetainGoverns(prev, i, t)
  {}

  /** The last policy is gone while a replica is recorded: the pass that cleans it up reports the revocation, and
      the next one, under the same inputs, a plain denial. */
  lemma {:induction false} RevokedExample()
    ensures var i := RequestUnder([], [InventoryEntry(KEY, "hash")], Lands);
            var sp := SpokesWith(R.Replica(R.MANAGED_BY, "uid", "hash", map[]));
            && PassWork(sp, [], i).states == [StateAt(KEY, true, PolicyRevoked)] && PassWork(sp, [], i).inv == []
            && PassWork(PassWork(sp, [], i).spokes, [], RequestUnder([], [], Lands)).states
               == [StateAt(KEY, true, PolicyDenied)]
  {
    var e := InventoryEntry(KEY, "hash");
    var i := RequestUnder([], [e], Lands);
    var sp := SpokesWith(R.Replica(R.MANAGED_BY, "uid", "hash", map[]));
    OneSlot([], [e], Lands);
    OneSlot([], [], Lands);
    NothingGoverns([], i, NsOf(KEY));
    RevokedSlotReportsRevocation(sp, [], i, e);
    NothingRecordedIsPlainDenial(PassWork(sp, [], i).spokes, [], RequestUnder([], [], Lands));
  }

  lemma {:induction false} OneUnreachable(q: Progress, e: InventoryEntry, keep: set<SlotKey>, cx: Context)
    requires cx.src.uid != "" && q.inv == [e] && e.key !in keep && e.key.cluster in cx.discovered
    requires KindOf(e.key) in cx.kinds
    requires cx.collectFaults(e.key) == CollectFaults(ReadOk, Unavailable) && Carries(q.spokes, e.key, cx.src.uid)
    ensures Collected(q, keep, cx).states == q.states + [StateAt(e.key, false, ClusterUnreachable)]
  {
    assert [e][..0] == [];
    assert Uncovered([e], keep, cx.discovered, true) == [e] && Uncovered([e], keep, cx.discovered, false) == [];
    assert CollectEach(q, [e], cx) == CollectOne(CollectEach(q, [e][..0], cx), e.key, cx);
  }

  /** A denied slot whose clean-up cannot reach the cluster yields exactly the two states that are stamped anew on
      every pass. */
  lemma {:induction false} FailedCleanupExample()
    ensures var i := RequestUnder([], [InventoryEntry(KEY, "hash")], Unavailable);
            var sp := SpokesWith(R.Replica(R.MANAGED_BY, "uid", "hash", map[]));
            PassWork(sp, [], i).states == CleanupFailsStates("c", "n", "s")
  {
    var e := InventoryEntry(KEY, "hash");
    var i := RequestUnder([], [e], Unavailable);
    var sp := SpokesWith(R.Replica(R.MANAGED_BY, "uid", "hash", map[]));
    OneSlot([], [e], Unavailable);
    assert Decisions(i)[0] in Decisions(i) && e in i.status.inventory && TargetKey(TARGET) == NsOf(KEY);
    NothingGoverns([], i, NsOf(KEY));
    RevocationNamesNamespace([], i, e);
    OneDenyJob([], i);
    OneJobDone(Progress(sp, [e], [], 0), PassJobs([], i)[0], i.cx);
    KeysOne(e);
    OneUnreachable(DoJobs(Progress(sp, [e], [], 0), PassJobs([], i), i.cx), e, PassKeep([], i), i.cx);
  }
}
