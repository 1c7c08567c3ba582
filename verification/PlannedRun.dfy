/** What the executor's scheduler does on the graphs the planner lowers. The executor
    sorts nothing globally: it is right because of the wave numbers and the queue order
    that the planner picks, so these results span both files. */
module PlannedRun {
  import opened Ordering
  import opened Types
  import opened Scheduler
  import opened Lowering

  // ---------------------------------------------------------------------------
  // Any graph whose waves are stratified

  lemma {:induction false} IndexIsNode(nodes: seq<Node>, name: Handle)
    ensures name in IndexOf(nodes) <==> exists n :: n in nodes && n.name == name
    ensures name in IndexOf(nodes) ==> IndexOf(nodes)[name] in nodes && IndexOf(nodes)[name].name == name
  {
    if nodes != [] {
      var m := |nodes| - 1;
      IndexIsNode(nodes[..m], name);
      assert nodes == nodes[..m] + [nodes[m]];
    }
  }

  /** A dependency lies in an earlier wave, or in the same wave without dependencies of its own. */
  ghost predicate Supports(nodes: seq<Node>, d: Handle, k: WaveKey) {
    exists p :: p in nodes && p.name == d
                && (KeyLt(KeyOf(p), k)
                    || (KeyOf(p) == k && d in IndexOf(nodes) && IndexOf(nodes)[d].dependencies == []))
  }

  ghost predicate Stratified(nodes: seq<Node>) {
    forall m, d :: m in nodes && m.name in IndexOf(nodes) && d in IndexOf(nodes)[m.name].dependencies ==>
                     Supports(nodes, d, KeyOf(m))
  }

  ghost predicate Layered(index: NodeIndex, wave: seq<Handle>, completed: set<Handle>) {
    forall n, d :: n in wave && n in index && d in index[n].dependencies ==>
                     d in completed || (d in wave && d in index && index[d].dependencies == [])
  }

  lemma LayeredWaveCompletes(index: NodeIndex, wave: seq<Handle>, completed: set<Handle>)
    requires Known(index, wave) && Layered(index, wave, completed)
    ensures ScheduleWave(index, wave, completed).pending == []
  {
    forall b | Blocked(index, Names(wave), completed, b) ensures b == {} {
      NothingBlocked(index, wave, completed, b);
    }
    WaveCompletesIffUnblocked(index, wave, completed);
  }

  lemma NothingBlocked(index: NodeIndex, wave: seq<Handle>, completed: set<Handle>, b: set<Handle>)
    requires Layered(index, wave, completed) && Blocked(index, Names(wave), completed, b)
    ensures b == {}
  {
    if n :| n in b {
      assert false;
    }
  }

  ghost function DoneBefore(nodes: seq<Node>, ks: seq<WaveKey>): set<Handle> {
    set n | n in nodes && KeyOf(n) in ks :: n.name
  }

  function NamesFrom(nodes: seq<Node>, ks: seq<WaveKey>): multiset<Handle> {
    if ks == [] then multiset{}
    else multiset(NodeNames(MembersOf(nodes, ks[0]))) + NamesFrom(nodes, ks[1..])
  }

  lemma WavesKnown(nodes: seq<Node>)
    ensures forall w :: w in WavesOf(nodes) ==> Known(IndexOf(nodes), w.nodeNames)
  {
    var ks := SortedKeys(nodes);
    forall w | w in WavesOf(nodes) ensures Known(IndexOf(nodes), w.nodeNames) {
      var i :| 0 <= i < |ks| && w == WaveFor(ks[i], MembersOf(nodes, ks[i]));
      forall n | n in w.nodeNames ensures n in IndexOf(nodes) {
        WaveNamesAre(nodes, ks[i], n);
        IndexIsNode(nodes, n);
      }
    }
  }

  /** Each wave finds its dependencies among the earlier waves or the roots of its own. */
  lemma WaveIsLayered(nodes: seq<Node>, i: nat)
    requires Stratified(nodes) && i < |SortedKeys(nodes)|
    ensures var ks := SortedKeys(nodes);
            Layered(IndexOf(nodes), NodeNames(MembersOf(nodes, ks[i])), DoneBefore(nodes, ks[..i]))
  {
    var ks := SortedKeys(nodes);
    var wave, completed := NodeNames(MembersOf(nodes, ks[i])), DoneBefore(nodes, ks[..i]);
    var index := IndexOf(nodes);
    forall n, d | n in wave && n in index && d in index[n].dependencies
      ensures d in completed || (d in wave && d in index && index[d].dependencies == [])
    {
      WaveNamesAre(nodes, ks[i], n);
      var m :| m in nodes && KeyOf(m) == ks[i] && m.name == n;
      assert Supports(nodes, d, KeyOf(m));
      var p :| p in nodes && p.name == d
               && (KeyLt(KeyOf(p), ks[i])
                   || (KeyOf(p) == ks[i] && d in index && index[d].dependencies == []));
      if KeyLt(KeyOf(p), ks[i]) {
        EarlierKey(nodes, p, i);
      } else {
        WaveNamesAre(nodes, ks[i], d);
      }
    }
  }

  lemma EarlierKey(nodes: seq<Node>, p: Node, i: nat)
    requires p in nodes && i < |SortedKeys(nodes)| && KeyLt(KeyOf(p), SortedKeys(nodes)[i])
    ensures KeyOf(p) in SortedKeys(nodes)[..i]
  {
    var ks := SortedKeys(nodes);
    SortedKeysChain(nodes);
    assert KeyOf(p) in Elements(Keys(nodes)) by {
      var x :| 0 <= x < |nodes| && nodes[x] == p;
      assert Keys(nodes)[x] == KeyOf(p);
    }
    assert KeyOf(p) in Elements(ks);
    var j :| 0 <= j < |ks| && ks[j] == KeyOf(p);
    KeyOrder();
    assert j < i;
    assert ks[..i][j] == KeyOf(p);
  }

  lemma DoneGrows(nodes: seq<Node>, i: nat)
    requires i < |SortedKeys(nodes)|
    ensures var ks := SortedKeys(nodes);
            DoneBefore(nodes, ks[..i + 1]) == DoneBefore(nodes, ks[..i]) + Names(NodeNames(MembersOf(nodes, ks[i])))
  {
    var ks := SortedKeys(nodes);
    assert ks[..i + 1] == ks[..i] + [ks[i]];
    forall name ensures name in NodeNames(MembersOf(nodes, ks[i]))
                        <==> exists n :: n in nodes && KeyOf(n) == ks[i] && n.name == name
    {
      WaveNamesAre(nodes, ks[i], name);
    }
  }

  /** One wave: nothing is left, and the names below the next key are then complete. */
  lemma WaveStep(nodes: seq<Node>, i: nat)
    requires Stratified(nodes) && i < |SortedKeys(nodes)|
    requires Known(IndexOf(nodes), NodeNames(MembersOf(nodes, SortedKeys(nodes)[i])))
    ensures var ks := SortedKeys(nodes);
            var names := NodeNames(MembersOf(nodes, ks[i]));
            var s := ScheduleWave(IndexOf(nodes), names, DoneBefore(nodes, ks[..i]));
            && s.pending == []
            && multiset(Flatten(s.batches)) == multiset(names)
            && DoneBefore(nodes, ks[..i]) + Names(Flatten(s.batches)) == DoneBefore(nodes, ks[..i + 1])
  {
    var ks, index := SortedKeys(nodes), IndexOf(nodes);
    var names, completed := NodeNames(MembersOf(nodes, ks[i])), DoneBefore(nodes, ks[..i]);
    WaveIsLayered(nodes, i);
    LayeredWaveCompletes(index, names, completed);
    ScheduleConserves(index, names, completed);
    var s := ScheduleWave(index, names, completed);
    SameMembers(Flatten(s.batches), names);
    assert Names(Flatten(s.batches)) == Names(names);
    DoneGrows(nodes, i);
  }

  /** The run from wave `i` on, once the smaller keys are complete. */
  ghost function TailRun(nodes: seq<Node>, i: nat): Schedule
    requires i <= |SortedKeys(nodes)|
  {
    WavesKnown(nodes);
    ScheduleAll(IndexOf(nodes), WavesOf(nodes)[i..], DoneBefore(nodes, SortedKeys(nodes)[..i]))
  }

  ghost function WaveRun(nodes: seq<Node>, i: nat): Schedule
    requires i < |SortedKeys(nodes)|
  {
    WavesKnown(nodes);
    assert WavesOf(nodes)[i] in WavesOf(nodes);
    ScheduleWave(IndexOf(nodes), NodeNames(MembersOf(nodes, SortedKeys(nodes)[i])),
                 DoneBefore(nodes, SortedKeys(nodes)[..i]))
  }

  lemma TailRunStep(nodes: seq<Node>, i: nat)
    requires Stratified(nodes) && i < |SortedKeys(nodes)|
    ensures WaveRun(nodes, i).pending == []
    ensures multiset(Flatten(WaveRun(nodes, i).batches)) == multiset(NodeNames(MembersOf(nodes, SortedKeys(nodes)[i])))
    ensures TailRun(nodes, i).batches == WaveRun(nodes, i).batches + TailRun(nodes, i + 1).batches
    ensures TailRun(nodes, i).pending == TailRun(nodes, i + 1).pending
  {
    var waves := WavesOf(nodes);
    WavesKnown(nodes);
    assert waves[i] in waves;
    assert waves[i..][0] == waves[i] && waves[i..][1..] == waves[i + 1..];
    WaveStep(nodes, i);
  }

  lemma {:induction false} RunFrom(nodes: seq<Node>, i: nat)
    requires Stratified(nodes) && i <= |SortedKeys(nodes)|
    ensures TailRun(nodes, i).pending == []
    ensures multiset(Flatten(TailRun(nodes, i).batches)) == NamesFrom(nodes, SortedKeys(nodes)[i..])
    decreases |SortedKeys(nodes)| - i
  {
    var ks := SortedKeys(nodes);
    if i < |ks| {
      TailRunStep(nodes, i);
      RunFrom(nodes, i + 1);
      FlattenSplit(WaveRun(nodes, i).batches, TailRun(nodes, i + 1).batches);
      assert ks[i..][0] == ks[i] && ks[i..][1..] == ks[i + 1..];
    }
  }

  // The waves partition the nodes.

  function MembersIn(nodes: seq<Node>, ks: seq<WaveKey>): seq<Node> {
    if nodes == [] then []
    else MembersIn(nodes[..|nodes| - 1], ks)
         + if KeyOf(nodes[|nodes| - 1]) in ks then [nodes[|nodes| - 1]] else []
  }

  lemma NodeNamesSplit(a: seq<Node>, b: seq<Node>)
    ensures NodeNames(a + b) == NodeNames(a) + NodeNames(b)
  {
  }

  lemma {:induction false} MembersSplit(nodes: seq<Node>, ks: seq<WaveKey>)
    requires ks != [] && ks[0] !in ks[1..]
    ensures multiset(NodeNames(MembersIn(nodes, ks)))
            == multiset(NodeNames(MembersOf(nodes, ks[0]))) + multiset(NodeNames(MembersIn(nodes, ks[1..])))
  {
    if nodes != [] {
      var m := |nodes| - 1;
      var n := nodes[m];
      MembersSplit(nodes[..m], ks);
      assert ks == [ks[0]] + ks[1..];
      NodeNamesSplit(MembersIn(nodes[..m], ks), [n]);
      NodeNamesSplit(MembersOf(nodes[..m], ks[0]), [n]);
      NodeNamesSplit(MembersIn(nodes[..m], ks[1..]), [n]);
      assert MembersIn(nodes, ks) ==
             if KeyOf(n) in ks then MembersIn(nodes[..m], ks) + [n] else MembersIn(nodes[..m], ks);
      assert MembersOf(nodes, ks[0])
             == if KeyOf(n) == ks[0] then MembersOf(nodes[..m], ks[0]) + [n] else MembersOf(nodes[..m], ks[0]);
      assert MembersIn(nodes, ks[1..])
             == if KeyOf(n) in ks[1..] then MembersIn(nodes[..m], ks[1..]) + [n] else MembersIn(nodes[..m], ks[1..]);
    }
  }

  lemma {:induction false} MembersInNone(nodes: seq<Node>)
    ensures MembersIn(nodes, []) == []
  {
    if nodes != [] { MembersInNone(nodes[..|nodes| - 1]); }
  }

  lemma {:induction false} MembersInAll(nodes: seq<Node>, ks: seq<WaveKey>)
    requires forall n :: n in nodes ==> KeyOf(n) in ks
    ensures MembersIn(nodes, ks) == nodes
  {
    if nodes != [] {
      var m := |nodes| - 1;
      assert nodes == nodes[..m] + [nodes[m]];
      MembersInAll(nodes[..m], ks);
    }
  }

  lemma {:induction false} NamesFromAre(nodes: seq<Node>, ks: seq<WaveKey>)
    requires Ordering.Sorted(ks, KeyLt)
    ensures NamesFrom(nodes, ks) == multiset(NodeNames(MembersIn(nodes, ks)))
  {
    if ks == [] {
      MembersInNone(nodes);
    } else {
      NamesFromAre(nodes, ks[1..]);
      MembersSplit(nodes, ks);
    }
  }

  lemma WavesPartition(nodes: seq<Node>)
    ensures NamesFrom(nodes, SortedKeys(nodes)) == multiset(NodeNames(nodes))
  {
    var ks := SortedKeys(nodes);
    SortedKeysChain(nodes);
    NamesFromAre(nodes, ks);
    forall n | n in nodes ensures KeyOf(n) in ks {
      var i :| 0 <= i < |nodes| && nodes[i] == n;
      assert Keys(nodes)[i] == KeyOf(n);
      assert KeyOf(n) in Elements(ks);
    }
    MembersInAll(nodes, ks);
  }

  /** Running a graph's waves in order. */
  ghost function RunOf(nodes: seq<Node>): Schedule {
    WavesKnown(nodes);
    ScheduleAll(IndexOf(nodes), WavesOf(nodes), {})
  }

  /** A stratified graph runs to the end, every node as often as it occurs, and every
      node after all its dependencies. */
  lemma StratifiedRunCompletes(nodes: seq<Node>)
    requires Stratified(nodes)
    ensures RunOf(nodes).pending == []
    ensures multiset(Flatten(RunOf(nodes).batches)) == multiset(NodeNames(nodes))
    ensures DependenciesFirst(IndexOf(nodes), RunOf(nodes).batches, {})
  {
    WholeRun(nodes);
    RunFrom(nodes, 0);
    WavesPartition(nodes);
    assert SortedKeys(nodes)[0..] == SortedKeys(nodes);
    WavesKnown(nodes);
    ScheduleAllOrders(IndexOf(nodes), WavesOf(nodes), {});
  }

  lemma WholeRun(nodes: seq<Node>)
    ensures RunOf(nodes) == TailRun(nodes, 0)
  {
    assert WavesOf(nodes)[0..] == WavesOf(nodes);
    assert DoneBefore(nodes, SortedKeys(nodes)[..0]) == {};
  }

  // ---------------------------------------------------------------------------
  // The planner's graphs are stratified

  /** The node an artifact or broadcast name denotes does not depend on the rest of the graph. */
  lemma NamedNode(t: Topology, requirements: seq<Requirement>, obligations: seq<Obligation>, n: Node)
    requires n in NodesOf(t, requirements, obligations)
    ensures n.name.Artifact? ==> n.name.requirement in requirements && n == ArtifactNode(n.name.requirement)
    ensures n.name.Fanout? ==> n.name.requirement in requirements && FansOut(t, n.name.requirement)
                               && n == FanoutNode(t, n.name.requirement)
    ensures n.name.Warmup? ==> exists o :: o in obligations && n == WarmupNodeOf(t, requirements, o)
  {
    NodesAre(t, requirements, obligations, n);
  }

  lemma DeliveryNode(t: Topology, requirements: seq<Requirement>, obligations: seq<Obligation>, r: Requirement)
    requires r in requirements
    ensures ArtifactNode(r) in NodesOf(t, requirements, obligations)
    ensures FansOut(t, r) ==> FanoutNode(t, r) in NodesOf(t, requirements, obligations)
  {
    NodesAre(t, requirements, obligations, ArtifactNode(r));
    NodesAre(t, requirements, obligations, FanoutNode(t, r));
  }

  lemma PlannerGraphStratified(t: Topology, requirements: seq<Requirement>, obligations: seq<Obligation>)
    ensures Stratified(NodesOf(t, requirements, obligations))
  {
    var nodes := NodesOf(t, requirements, obligations);
    var index := IndexOf(nodes);
    forall m, d | m in nodes && m.name in index && d in index[m.name].dependencies
      ensures Supports(nodes, d, KeyOf(m))
    {
      IndexIsNode(nodes, m.name);
      NamedNode(t, requirements, obligations, m);
      NamedNode(t, requirements, obligations, index[m.name]);
      if m.name.Fanout? {
        var r := m.name.requirement;
        DeliveryNode(t, requirements, obligations, r);
        assert d == Artifact(r) && ArtifactNode(r).name == d;
        IndexIsNode(nodes, d);
        NamedNode(t, requirements, obligations, index[d]);
      } else {
        var o :| o in obligations && index[m.name] == WarmupNodeOf(t, requirements, o);
        DependenciesAre(t, requirements, o.requiredArtifacts, d);
        var r :| r in requirements && r.scope in o.requiredArtifacts && d == DeliveryOf(t, r);
        DeliveryNode(t, requirements, obligations, r);
        var p := if FansOut(t, r) then FanoutNode(t, r) else ArtifactNode(r);
        assert p in nodes && p.name == d && KeyLt(KeyOf(p), KeyOf(m));
      }
    }
  }

  /** For every topology, requirement list and obligation list, the planner's waves run
      to the end without a missing dependency; every node name runs exactly as often as
      the graph has nodes of that name, and after all its dependencies. */
  lemma PlannedRunCompletes(t: Topology, requirements: seq<Requirement>, obligations: seq<Obligation>)
    ensures var nodes := NodesOf(t, requirements, obligations);
            && RunOf(nodes).pending == []
            && multiset(Flatten(RunOf(nodes).batches)) == multiset(NodeNames(nodes))
            && DependenciesFirst(IndexOf(nodes), RunOf(nodes).batches, {})
  {
    PlannerGraphStratified(t, requirements, obligations);
    StratifiedRunCompletes(NodesOf(t, requirements, obligations));
  }

  /** A node that materializes an artifact names one of the requirements, so its lookup
      never fails. */
  lemma ArtifactNodesAreRequired(t: Topology, requirements: seq<Requirement>, obligations: seq<Obligation>, n: Node)
    requires n in NodesOf(t, requirements, obligations)
    ensures n.kind == CompileNode || n.kind == MaterializeNode <==> n.name.Artifact?
    ensures n.name.Artifact? ==> n.name.requirement in requirements && n == ArtifactNode(n.name.requirement)
  {
    NodesAre(t, requirements, obligations, n);
  }

  /** With unique names, exactly once. */
  lemma PlannedRunOnce(t: Topology, requirements: seq<Requirement>, obligations: seq<Obligation>)
    ensures var nodes := NodesOf(t, requirements, obligations);
            UniqueNames(nodes) <==> DistinctBy(Flatten(RunOf(nodes).batches), Itself)
  {
    var nodes := NodesOf(t, requirements, obligations);
    hide NodesOf, RunOf, Flatten;
    var names, run := NodeNames(nodes), Flatten(RunOf(nodes).batches);
    PlannedRunCompletes(t, requirements, obligations);
    assert UniqueNames(nodes) <==> DistinctBy(names, Itself) by {
      assert forall i :: 0 <= i < |nodes| ==> Itself(names[i]) == NameOf(nodes[i]);
    }
    if UniqueNames(nodes) { PermutedDistinct(names, run, Itself); }
    if DistinctBy(run, Itself) { PermutedDistinct(run, names, Itself); }
  }
}
