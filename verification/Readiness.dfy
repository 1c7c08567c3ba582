/** What holds at every moment of a planned run, and the readiness the executor reports. */
module Readiness {
  import opened Ordering
  import opened Types
  import opened Scheduler
  import opened Lowering
  import opened PlannedRun

  // ---------------------------------------------------------------------------
  // Reachable states

  /** Everything in the first `k` batches. */
  ghost function Before(batches: seq<seq<Handle>>, k: int): set<Handle>
    requires k <= |batches|
  {
    set j, n | 0 <= j < k && n in batches[j] :: n
  }

  /** While batch `k` runs, the earlier batches are complete and any part of it may be:
      batches of a parallel wave finish their nodes in any order. */
  ghost predicate DuringBatch(batches: seq<seq<Handle>>, k: int, done: set<Handle>) {
    0 <= k < |batches| && Before(batches, k) <= done <= Before(batches, k + 1)
  }

  ghost predicate Reachable(batches: seq<seq<Handle>>, done: set<Handle>) {
    done == {} || exists k :: DuringBatch(batches, k, done)
  }

  lemma {:induction false} BeforeIsFlat(batches: seq<seq<Handle>>, k: nat)
    requires k <= |batches|
    ensures Names(Flatten(batches[..k])) == Before(batches, k)
  {
    if k > 0 {
      BeforeIsFlat(batches, k - 1);
      assert batches[..k] == batches[..k - 1] + [batches[k - 1]];
      FlattenSplit(batches[..k - 1], [batches[k - 1]]);
      assert Flatten([batches[k - 1]]) == batches[k - 1];
      NamesSplit(Flatten(batches[..k - 1]), batches[k - 1]);
    }
  }

  /** At every moment, a completed node has all its dependencies complete. */
  lemma DoneNodesAreSupported(index: NodeIndex, batches: seq<seq<Handle>>, done: set<Handle>, n: Handle)
    requires DependenciesFirst(index, batches, {}) && Reachable(batches, done) && n in done
    ensures n in index && forall d :: d in index[n].dependencies ==> d in done
  {
    var k :| DuringBatch(batches, k, done);
    var j :| 0 <= j < k + 1 && n in batches[j];
    assert Ready(index, n, {} + Names(Flatten(batches[..j])));
    BeforeIsFlat(batches, j);
    assert Before(batches, j) <= Before(batches, k);
  }

  // ---------------------------------------------------------------------------
  // Warmups run only on delivered artifacts

  lemma UniqueIndex(nodes: seq<Node>, n: Node)
    requires UniqueNames(nodes) && n in nodes
    ensures n.name in IndexOf(nodes) && IndexOf(nodes)[n.name] == n
  {
    IndexIsNode(nodes, n.name);
  }

  /** At every reachable state a warmup has run only if every artifact of its scopes is
      materialized and, where artifacts are shared by several ranks, the broadcast to
      every rank of the warmup has completed. */
  lemma WarmupRunsOnDeliveredArtifacts(
      t: Topology, requirements: seq<Requirement>, obligations: seq<Obligation>,
      done: set<Handle>, o: Obligation, r: Requirement)
    requires UniqueNames(NodesOf(t, requirements, obligations))
    requires Reachable(RunOf(NodesOf(t, requirements, obligations)).batches, done)
    requires o in obligations && Warmup(WarmupLabel(o)) in done && o.rankScope == TotalRanks(t)
    requires r in requirements && r.scope in o.requiredArtifacts
    ensures Artifact(r) in done
    ensures TotalRankCount(t) > 1 && r.rankDisposition == Shared ==>
              && Fanout(r) in done && Fanout(r) in IndexOf(NodesOf(t, requirements, obligations))
              && forall rank :: rank in o.rankScope ==>
                                  rank in IndexOf(NodesOf(t, requirements, obligations))[Fanout(r)].rankScope
  {
    var nodes := NodesOf(t, requirements, obligations);
    var batches := RunOf(nodes).batches;
    PlannedRunCompletes(t, requirements, obligations);
    var w := WarmupNodeOf(t, requirements, o);
    NodesAre(t, requirements, obligations, w);
    UniqueIndex(nodes, w);
    DoneNodesAreSupported(IndexOf(nodes), batches, done, w.name);
    DependenciesAre(t, requirements, o.requiredArtifacts, DeliveryOf(t, r));
    assert DeliveryOf(t, r) in done;
    if FansOut(t, r) {
      DeliveryNode(t, requirements, obligations, r);
      UniqueIndex(nodes, FanoutNode(t, r));
      DoneNodesAreSupported(IndexOf(nodes), batches, done, Fanout(r));
    }
  }

  // ---------------------------------------------------------------------------
  // Batches follow the wave order

  ghost predicate NotAfter(index: NodeIndex, u: seq<Handle>, v: seq<Handle>) {
    forall x, y :: x in u && y in v && x in index && y in index ==> KeyLe(KeyOf(index[x]), KeyOf(index[y]))
  }

  ghost predicate Ascending(index: NodeIndex, batches: seq<seq<Handle>>) {
    forall a, b :: 0 <= a <= b < |batches| ==> NotAfter(index, batches[a], batches[b])
  }

  ghost predicate KeysAmong(index: NodeIndex, batches: seq<seq<Handle>>, ks: seq<WaveKey>) {
    forall a, x :: 0 <= a < |batches| && x in batches[a] ==> x in index && KeyOf(index[x]) in ks
  }

  /** Batches in wave order, with all their keys among `ks`. */
  ghost predicate InOrder(index: NodeIndex, batches: seq<seq<Handle>>, ks: seq<WaveKey>) {
    Ascending(index, batches) && KeysAmong(index, batches, ks)
  }

  lemma InSomeBatch(batches: seq<seq<Handle>>, a: nat, x: Handle)
    requires a < |batches| && x in batches[a]
    ensures x in Flatten(batches)
  {
    BeforeIsFlat(batches, |batches|);
    assert batches[..|batches|] == batches;
    assert x in Names(Flatten(batches));
  }

  lemma WaveKeys(nodes: seq<Node>, i: nat, batches: seq<seq<Handle>>)
    requires UniqueNames(nodes) && i < |SortedKeys(nodes)|
    requires multiset(Flatten(batches)) == multiset(NodeNames(MembersOf(nodes, SortedKeys(nodes)[i])))
    ensures KeysAmong(IndexOf(nodes), batches, [SortedKeys(nodes)[i]])
  {
    var k := SortedKeys(nodes)[i];
    SameMembers(Flatten(batches), NodeNames(MembersOf(nodes, k)));
    forall a, x | 0 <= a < |batches| && x in batches[a]
      ensures x in IndexOf(nodes) && KeyOf(IndexOf(nodes)[x]) in [k]
    {
      InSomeBatch(batches, a, x);
      WaveNamesAre(nodes, k, x);
      var n :| n in nodes && KeyOf(n) == k && n.name == x;
      UniqueIndex(nodes, n);
    }
  }

  lemma AscendingAppend(index: NodeIndex, a: seq<seq<Handle>>, b: seq<seq<Handle>>, k: WaveKey, ks: seq<WaveKey>)
    requires KeysAmong(index, a, [k]) && InOrder(index, b, ks)
    requires forall j :: j in ks ==> KeyLt(k, j)
    ensures InOrder(index, a + b, [k] + ks)
  {
    var all := a + b;
    forall i, x | 0 <= i < |all| && x in all[i] ensures x in index && KeyOf(index[x]) in [k] + ks {
      if i < |a| {
        assert KeyOf(index[x]) in [k];
      } else {
        assert all[i] == b[i - |a|];
      }
    }
    forall i, j | 0 <= i <= j < |all| ensures NotAfter(index, all[i], all[j]) {
      if i >= |a| {
        assert all[i] == b[i - |a|] && all[j] == b[j - |a|];
      } else {
        forall x, y | x in all[i] && y in all[j] && x in index && y in index
          ensures KeyLe(KeyOf(index[x]), KeyOf(index[y]))
        {
          assert KeyOf(index[x]) in [k];
          assert KeyOf(index[y]) in [k] + ks;
        }
      }
    }
  }

  lemma LaterKeys(nodes: seq<Node>, i: nat)
    requires i < |SortedKeys(nodes)|
    ensures forall k :: k in SortedKeys(nodes)[i + 1..] ==> KeyLt(SortedKeys(nodes)[i], k)
  {
    SortedKeysChain(nodes);
  }

  lemma {:induction false} RunAscendsFrom(nodes: seq<Node>, i: nat)
    requires Stratified(nodes) && UniqueNames(nodes) && i <= |SortedKeys(nodes)|
    ensures InOrder(IndexOf(nodes), TailRun(nodes, i).batches, SortedKeys(nodes)[i..])
    decreases |SortedKeys(nodes)| - i
  {
    if i < |SortedKeys(nodes)| {
      RunAscendsFrom(nodes, i + 1);
      RunAscendsStep(nodes, i);
    }
  }

  lemma RunAscendsStep(nodes: seq<Node>, i: nat)
    requires Stratified(nodes) && UniqueNames(nodes) && i < |SortedKeys(nodes)|
    requires InOrder(IndexOf(nodes), TailRun(nodes, i + 1).batches, SortedKeys(nodes)[i + 1..])
    ensures InOrder(IndexOf(nodes), TailRun(nodes, i).batches, SortedKeys(nodes)[i..])
  {
    var ks := SortedKeys(nodes);
    TailRunStep(nodes, i);
    WaveKeys(nodes, i, WaveRun(nodes, i).batches);
    LaterKeys(nodes, i);
    DropOne(ks, i);
    AscendingAppend(IndexOf(nodes), WaveRun(nodes, i).batches, TailRun(nodes, i + 1).batches, ks[i], ks[i + 1..]);
  }

  lemma RunAscends(nodes: seq<Node>)
    requires Stratified(nodes) && UniqueNames(nodes)
    ensures Ascending(IndexOf(nodes), RunOf(nodes).batches)
  {
    WholeRun(nodes);
    RunAscendsFrom(nodes, 0);
  }

  lemma StrictlyEarlier(index: NodeIndex, batches: seq<seq<Handle>>, a: nat, b: nat, early: Handle, late: Handle)
    requires Ascending(index, batches) && a < |batches| && b < |batches|
    requires early in batches[a] && late in batches[b] && early in index && late in index
    requires KeyLt(KeyOf(index[early]), KeyOf(index[late]))
    ensures a < b
  {
  }

  lemma AscendingDone(index: NodeIndex, batches: seq<seq<Handle>>, done: set<Handle>, late: Handle, early: Handle)
    requires Ascending(index, batches) && Reachable(batches, done)
    requires late in index && early in index && KeyLt(KeyOf(index[early]), KeyOf(index[late]))
    requires late in done && early in Before(batches, |batches|)
    ensures early in done
  {
    var k :| DuringBatch(batches, k, done);
    var b :| 0 <= b < k + 1 && late in batches[b];
    var a :| 0 <= a < |batches| && early in batches[a];
    StrictlyEarlier(index, batches, a, b, early, late);
    assert early in Before(batches, k);
  }

  lemma NodeRuns(nodes: seq<Node>, n: Node)
    requires Stratified(nodes) && n in nodes
    ensures n.name in Before(RunOf(nodes).batches, |RunOf(nodes).batches|)
  {
    var batches := RunOf(nodes).batches;
    StratifiedRunCompletes(nodes);
    SameMembers(Flatten(batches), NodeNames(nodes));
    BeforeIsFlat(batches, |batches|);
    assert batches[..|batches|] == batches;
    var i :| 0 <= i < |nodes| && nodes[i] == n;
    assert NodeNames(nodes)[i] == n.name;
  }

  /** When a node is complete, so is every node of a smaller wave key. */
  lemma EarlierWavesDone(nodes: seq<Node>, done: set<Handle>, late: Node, early: Node)
    requires Stratified(nodes) && UniqueNames(nodes) && Reachable(RunOf(nodes).batches, done)
    requires late in nodes && early in nodes && late.name in done && KeyLt(KeyOf(early), KeyOf(late))
    ensures early.name in done
  {
    RunAscends(nodes);
    NodeRuns(nodes, early);
    UniqueIndex(nodes, late);
    UniqueIndex(nodes, early);
    AscendingDone(IndexOf(nodes), RunOf(nodes).batches, done, late.name, early.name);
  }

  // ---------------------------------------------------------------------------
  // Observed readiness

  datatype ReadinessLevel = EarlyServe | CorrectnessReady | PerformanceReady

  datatype Observation = Observation(
    achieved: ReadinessLevel, blockingComplete: bool, earlyServeComplete: bool, deferredComplete: bool)

  predicate PhaseComplete(nodes: seq<Node>, phase: ServePhase, completed: set<Handle>) {
    forall n | n in nodes :: n.servePhase == phase ==> n.name in completed
  }

  predicate HasPhase(nodes: seq<Node>, phase: ServePhase) {
    exists n | n in nodes :: n.servePhase == phase
  }

  function ObservedReadiness(nodes: seq<Node>, completed: set<Handle>): Observation {
    var blocking := PhaseComplete(nodes, PreServeBlocking, completed);
    var early := PhaseComplete(nodes, EarlyServeReady, completed);
    var deferred := PhaseComplete(nodes, DeferredPerformance, completed);
    Observation(
      if HasPhase(nodes, DeferredPerformance) && deferred then PerformanceReady
      else if HasPhase(nodes, PreServeBlocking) && blocking then CorrectnessReady
      else EarlyServe,
      blocking, early, deferred)
  }

  lemma PhaseKey(t: Topology, requirements: seq<Requirement>, obligations: seq<Obligation>, n: Node)
    requires n in NodesOf(t, requirements, obligations)
    ensures n.servePhase == DeferredPerformance ==> KeyOf(n) == (4, WarmupQueue)
    ensures n.servePhase == PreServeBlocking ==> KeyOf(n) == (3, WarmupQueue)
    ensures n.servePhase == EarlyServeReady ==> n.wave <= 2
  {
    NodesAre(t, requirements, obligations, n);
  }

  /** Reporting performance readiness inspects only the deferred warmups, yet at every
      reachable state of a planned run it implies that all blocking warmups and all
      early-serve nodes are complete; reporting correctness implies the latter. */
  lemma ReadinessIsCumulative(
      t: Topology, requirements: seq<Requirement>, obligations: seq<Obligation>, done: set<Handle>)
    requires UniqueNames(NodesOf(t, requirements, obligations))
    requires Reachable(RunOf(NodesOf(t, requirements, obligations)).batches, done)
    ensures var nodes := NodesOf(t, requirements, obligations);
            var seen := ObservedReadiness(nodes, done);
            && (seen.achieved == PerformanceReady ==> seen.blockingComplete && seen.earlyServeComplete)
            && (seen.achieved == CorrectnessReady ==> seen.earlyServeComplete)
  {
    var nodes := NodesOf(t, requirements, obligations);
    var seen := ObservedReadiness(nodes, done);
    PlannerGraphStratified(t, requirements, obligations);
    if seen.achieved == PerformanceReady {
      var late :| late in nodes && late.servePhase == DeferredPerformance;
      forall early | early in nodes && early.servePhase != DeferredPerformance ensures early.name in done {
        PhaseKey(t, requirements, obligations, late);
        PhaseKey(t, requirements, obligations, early);
        EarlierWavesDone(nodes, done, late, early);
      }
    } else if seen.achieved == CorrectnessReady {
      var late :| late in nodes && late.servePhase == PreServeBlocking;
      forall early | early in nodes && early.servePhase == EarlyServeReady ensures early.name in done {
        PhaseKey(t, requirements, obligations, late);
        PhaseKey(t, requirements, obligations, early);
        EarlierWavesDone(nodes, done, late, early);
      }
    }
  }
}
