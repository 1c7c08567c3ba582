/** Lowering of artifact requirements and warmup obligations to a dependency graph,
    and the cut of that graph into waves. */
module Lowering {
  import opened Ordering
  import opened Types

  // ---------------------------------------------------------------------------
  // Nodes

  predicate IsTransferred(a: Acquisition) { a == VendorPrebuilt || a == UpstreamCacheBundle }

  /** Shared artifacts on more than one rank are broadcast from the leader. */
  predicate FansOut(t: Topology, r: Requirement) {
    TotalRankCount(t) > 1 && r.rankDisposition == Shared
  }

  function NodeDiscipline(d: RankDisposition, q: QueueKind): QueueDiscipline {
    if d == RankLocal then ParallelPerRank
    else if q == ArtifactIoQueue then LeaderThenBroadcast
    else Serial
  }

  function ArtifactPlane(r: Requirement): CoveragePlane {
    if r.artifactClass == CudaGraphCapture then CudaGraph else Performance
  }

  function ArtifactQueue(r: Requirement): QueueKind {
    if IsTransferred(r.acquisition) then ArtifactIoQueue else CompileQueue
  }

  function ArtifactNode(r: Requirement): Node {
    Node(Artifact(r), if r.artifactClass == CudaGraphCapture then 2 else 1,
         if IsTransferred(r.acquisition) then MaterializeNode else CompileNode,
         ArtifactQueue(r), ArtifactPlane(r), [], [0], r.scope,
         NodeDiscipline(r.rankDisposition, ArtifactQueue(r)), EarlyServeReady,
         if r.rankDisposition == Shared then BroadcastFromLeader else RebuildPerRank)
  }

  function FanoutNode(t: Topology, r: Requirement): Node {
    Node(Fanout(r), 2, TransferNode, ArtifactIoQueue, ArtifactPlane(r), [Artifact(r)], TotalRanks(t), r.scope,
         LeaderThenBroadcast, EarlyServeReady, BroadcastFromLeader)
  }

  /** The node a warmup waits for: the broadcast where there is one, else the artifact. */
  function DeliveryOf(t: Topology, r: Requirement): Handle {
    if FansOut(t, r) then Fanout(r) else Artifact(r)
  }

  function DeliveriesFor(t: Topology, requirements: seq<Requirement>, scope: string): seq<Handle> {
    if requirements == [] then []
    else (if requirements[0].scope == scope then [DeliveryOf(t, requirements[0])] else [])
         + DeliveriesFor(t, requirements[1..], scope)
  }

  function WarmupDependencies(t: Topology, requirements: seq<Requirement>, scopes: seq<string>): seq<Handle> {
    if scopes == [] then []
    else DeliveriesFor(t, requirements, scopes[0]) + WarmupDependencies(t, requirements, scopes[1..])
  }

  function WarmupNodeOf(t: Topology, requirements: seq<Requirement>, o: Obligation): Node {
    Node(Warmup(WarmupLabel(o)), if o.blocking then 3 else 4, NodeKind.WarmupNode, WarmupQueue, o.plane,
         WarmupDependencies(t, requirements, o.requiredArtifacts), o.rankScope, o.nodeName,
         ParallelPerRank, if o.blocking then PreServeBlocking else DeferredPerformance, NoFanout)
  }

  function RequirementNodes(t: Topology, r: Requirement): seq<Node> {
    [ArtifactNode(r)] + if FansOut(t, r) then [FanoutNode(t, r)] else []
  }

  function ArtifactNodes(t: Topology, requirements: seq<Requirement>): seq<Node> {
    if requirements == [] then []
    else ArtifactNodes(t, requirements[..|requirements| - 1]) + RequirementNodes(t, requirements[|requirements| - 1])
  }

  function WarmupNodes(t: Topology, requirements: seq<Requirement>, obligations: seq<Obligation>): seq<Node> {
    seq(|obligations|, i requires 0 <= i < |obligations| => WarmupNodeOf(t, requirements, obligations[i]))
  }

  function NodesOf(t: Topology, requirements: seq<Requirement>, obligations: seq<Obligation>): seq<Node> {
    ArtifactNodes(t, requirements) + WarmupNodes(t, requirements, obligations)
  }

  function FrontierOf(obligations: seq<Obligation>): seq<Handle> {
    if obligations == [] then []
    else FrontierOf(obligations[..|obligations| - 1])
         + if obligations[|obligations| - 1].blocking then [Warmup(WarmupLabel(obligations[|obligations| - 1]))] else []
  }

  function GraphOf(t: Topology, requirements: seq<Requirement>, obligations: seq<Obligation>): Graph {
    var nodes := NodesOf(t, requirements, obligations);
    Graph(nodes, WavesOf(nodes), FrontierOf(obligations))
  }

  /** The source pushes nodes one by one. */
  method MaterializationGraph(t: Topology, requirements: seq<Requirement>, obligations: seq<Obligation>)
    returns (g: Graph)
    ensures g == GraphOf(t, requirements, obligations)
  {
    var nodes := [];
    for i := 0 to |requirements|
      invariant nodes == ArtifactNodes(t, requirements[..i])
    {
      assert requirements[..i + 1][..i] == requirements[..i];
      nodes := nodes + [ArtifactNode(requirements[i])];
      if FansOut(t, requirements[i]) {
        nodes := nodes + [FanoutNode(t, requirements[i])];
      }
    }
    assert requirements[..|requirements|] == requirements;
    ghost var artifacts := nodes;
    var frontier := [];
    for i := 0 to |obligations|
      invariant nodes == artifacts + WarmupNodes(t, requirements, obligations[..i])
      invariant frontier == FrontierOf(obligations[..i])
    {
      assert obligations[..i + 1][..i] == obligations[..i];
      assert WarmupNodes(t, requirements, obligations[..i + 1])
             == WarmupNodes(t, requirements, obligations[..i]) + [WarmupNodeOf(t, requirements, obligations[i])];
      nodes := nodes + [WarmupNodeOf(t, requirements, obligations[i])];
      if obligations[i].blocking {
        frontier := frontier + [Warmup(WarmupLabel(obligations[i]))];
      }
    }
    assert obligations[..|obligations|] == obligations;
    var waves := BuildWaves(nodes);
    g := Graph(nodes, waves, frontier);
  }

  // ---------------------------------------------------------------------------
  // Waves

  type WaveKey = (nat, QueueKind)

  function KeyOf(n: Node): WaveKey { (n.wave, n.queue) }

  /** Wave number first, then queue order. */
  predicate KeyLe(a: WaveKey, b: WaveKey) {
    a.0 < b.0 || (a.0 == b.0 && QueueRank(a.1) <= QueueRank(b.1))
  }

  predicate KeyLt(a: WaveKey, b: WaveKey) { KeyLe(a, b) && a != b }

  function Keys(nodes: seq<Node>): seq<WaveKey> {
    seq(|nodes|, i requires 0 <= i < |nodes| => KeyOf(nodes[i]))
  }

  function MembersOf(nodes: seq<Node>, k: WaveKey): seq<Node> {
    if nodes == [] then []
    else MembersOf(nodes[..|nodes| - 1], k)
         + if KeyOf(nodes[|nodes| - 1]) == k then [nodes[|nodes| - 1]] else []
  }

  function NodeNames(nodes: seq<Node>): seq<Handle> {
    seq(|nodes|, i requires 0 <= i < |nodes| => nodes[i].name)
  }

  function WaveDiscipline(members: seq<Node>): QueueDiscipline {
    if exists n | n in members :: n.discipline == LeaderThenBroadcast then LeaderThenBroadcast
    else if forall n | n in members :: n.discipline == ParallelPerRank then ParallelPerRank
    else Serial
  }

  function WaveServePhase(members: seq<Node>): ServePhase {
    if exists n | n in members :: n.servePhase == PreServeBlocking then PreServeBlocking
    else if exists n | n in members :: n.servePhase == EarlyServeReady then EarlyServeReady
    else DeferredPerformance
  }

  function WaveFor(k: WaveKey, members: seq<Node>): Wave {
    Wave(k.0, k.1, NodeNames(members), WaveDiscipline(members), WaveServePhase(members))
  }

  function SortedKeys(nodes: seq<Node>): seq<WaveKey> { SortDedup(Keys(nodes), KeyLe) }

  /** One wave per key that occurs, in key order, with its members in node order. */
  function WavesOf(nodes: seq<Node>): seq<Wave> {
    var ks := SortedKeys(nodes);
    seq(|ks|, i requires 0 <= i < |ks| => WaveFor(ks[i], MembersOf(nodes, ks[i])))
  }

  lemma KeyOrder()
    ensures TotalOrder(KeyLe) && StrictOrder(KeyLt)
  {
  }

  lemma SortedKeysChain(nodes: seq<Node>)
    ensures Ordering.Sorted(SortedKeys(nodes), KeyLt)
    ensures Elements(SortedKeys(nodes)) == Elements(Keys(nodes))
  {
    KeyOrder();
    SortDedupMembers(Keys(nodes), KeyLe);
  }

  lemma {:induction false} LeastKey(s: set<WaveKey>) returns (k: WaveKey)
    requires s != {}
    ensures k in s && forall j :: j in s ==> KeyLe(k, j)
  {
    var x :| x in s;
    if s == {x} {
      k := x;
    } else {
      var y := LeastKey(s - {x});
      KeyOrder();
      k := if KeyLe(x, y) then x else y;
    }
  }

  ghost predicate AreBuckets(buckets: map<WaveKey, seq<Node>>, nodes: seq<Node>) {
    && buckets.Keys == Elements(Keys(nodes))
    && forall k :: k in buckets ==> buckets[k] == MembersOf(nodes, k)
  }

  lemma {:induction false} NoMembers(nodes: seq<Node>, k: WaveKey)
    requires k !in Keys(nodes)
    ensures MembersOf(nodes, k) == []
  {
    if nodes != [] {
      var m := |nodes| - 1;
      assert Keys(nodes) == Keys(nodes[..m]) + [KeyOf(nodes[m])];
      NoMembers(nodes[..m], k);
    }
  }

  lemma BucketsGrow(buckets: map<WaveKey, seq<Node>>, nodes: seq<Node>, n: Node)
    requires AreBuckets(buckets, nodes)
    ensures var k := KeyOf(n);
            AreBuckets(buckets[k := (if k in buckets then buckets[k] else []) + [n]], nodes + [n])
  {
    var k := KeyOf(n);
    var all := nodes + [n];
    assert all[..|all| - 1] == nodes;
    assert Keys(all) == Keys(nodes) + [k];
    if k !in buckets { NoMembers(nodes, k); }
  }

  /** The source fills a `BTreeMap` keyed by (wave, queue) and reads it in key order. */
  method BuildWaves(nodes: seq<Node>) returns (waves: seq<Wave>)
    ensures waves == WavesOf(nodes)
  {
    var buckets: map<WaveKey, seq<Node>> := map[];
    for i := 0 to |nodes|
      invariant AreBuckets(buckets, nodes[..i])
    {
      var k := KeyOf(nodes[i]);
      BucketsGrow(buckets, nodes[..i], nodes[i]);
      assert nodes[..i + 1] == nodes[..i] + [nodes[i]];
      buckets := buckets[k := (if k in buckets then buckets[k] else []) + [nodes[i]]];
    }
    assert nodes[..|nodes|] == nodes;
    waves := WavesInKeyOrder(buckets, nodes);
  }

  method WavesInKeyOrder(buckets: map<WaveKey, seq<Node>>, ghost nodes: seq<Node>) returns (waves: seq<Wave>)
    requires AreBuckets(buckets, nodes)
    ensures waves == WavesOf(nodes)
  {
    waves := [];
    ghost var done: seq<WaveKey> := [];
    var remaining := buckets.Keys;
    while remaining != {}
      invariant remaining <= buckets.Keys && Elements(done) == buckets.Keys - remaining
      invariant Ordering.Sorted(done, KeyLt)
      invariant forall j, k :: j in done && k in remaining ==> KeyLt(j, k)
      invariant |waves| == |done|
      invariant forall i :: 0 <= i < |done| ==> waves[i] == WaveFor(done[i], MembersOf(nodes, done[i]))
      decreases remaining
    {
      ghost var least := LeastKey(remaining);
      var k :| k in remaining && forall j :: j in remaining ==> KeyLe(k, j);
      waves := waves + [WaveFor(k, buckets[k])];
      LeastRemoved(done, remaining, k);
      remaining := remaining - {k};
      done := done + [k];
    }
    SortedKeysChain(nodes);
    KeyOrder();
    ChainUnique(done, SortedKeys(nodes), KeyLt);
  }

  lemma LeastRemoved(done: seq<WaveKey>, remaining: set<WaveKey>, k: WaveKey)
    requires Ordering.Sorted(done, KeyLt) && forall i, j :: i in done && j in remaining ==> KeyLt(i, j)
    requires k in remaining && forall j :: j in remaining ==> KeyLe(k, j)
    ensures Ordering.Sorted(done + [k], KeyLt)
    ensures forall i, j :: i in done + [k] && j in remaining - {k} ==> KeyLt(i, j)
    ensures Elements(done + [k]) == Elements(done) + {k}
  {
    forall i, j | i in done + [k] && j in remaining - {k} ensures KeyLt(i, j) {
      assert i in done || i == k;
    }
  }

  // ---------------------------------------------------------------------------
  // Membership facts

  lemma {:induction false} ArtifactNodesAre(t: Topology, requirements: seq<Requirement>, n: Node)
    ensures n in ArtifactNodes(t, requirements) <==>
              exists r :: r in requirements && (n == ArtifactNode(r) || (FansOut(t, r) && n == FanoutNode(t, r)))
  {
    if requirements != [] {
      var m := |requirements| - 1;
      ArtifactNodesAre(t, requirements[..m], n);
      assert requirements == requirements[..m] + [requirements[m]];
    }
  }

  lemma {:induction false} DeliveriesAre(t: Topology, requirements: seq<Requirement>, scope: string, d: Handle)
    ensures d in DeliveriesFor(t, requirements, scope) <==>
              exists r :: r in requirements && r.scope == scope && d == DeliveryOf(t, r)
  {
    if requirements != [] {
      DeliveriesAre(t, requirements[1..], scope, d);
      assert requirements == [requirements[0]] + requirements[1..];
    }
  }

  lemma {:induction false} DependenciesAre(t: Topology, requirements: seq<Requirement>, scopes: seq<string>, d: Handle)
    ensures d in WarmupDependencies(t, requirements, scopes) <==>
              exists r :: r in requirements && r.scope in scopes && d == DeliveryOf(t, r)
  {
    if scopes != [] {
      DependenciesAre(t, requirements, scopes[1..], d);
      DeliveriesAre(t, requirements, scopes[0], d);
      assert scopes == [scopes[0]] + scopes[1..];
    }
  }

  lemma NodesAre(t: Topology, requirements: seq<Requirement>, obligations: seq<Obligation>, n: Node)
    ensures n in NodesOf(t, requirements, obligations) <==>
              || (exists r :: r in requirements && n == ArtifactNode(r))
              || (exists r :: r in requirements && FansOut(t, r) && n == FanoutNode(t, r))
              || (exists o :: o in obligations && n == WarmupNodeOf(t, requirements, o))
  {
    ArtifactNodesAre(t, requirements, n);
    var w := WarmupNodes(t, requirements, obligations);
    assert forall i :: 0 <= i < |w| ==> w[i] == WarmupNodeOf(t, requirements, obligations[i]);
    if o :| o in obligations && n == WarmupNodeOf(t, requirements, o) {
      var i :| 0 <= i < |obligations| && obligations[i] == o;
      assert w[i] == n;
    }
  }

  lemma {:induction false} MembersAre(nodes: seq<Node>, k: WaveKey, n: Node)
    ensures n in MembersOf(nodes, k) <==> n in nodes && KeyOf(n) == k
  {
    if nodes != [] {
      var m := |nodes| - 1;
      MembersAre(nodes[..m], k, n);
      assert nodes == nodes[..m] + [nodes[m]];
    }
  }

  /** A name occurs in a wave exactly when a node with that key carries it. */
  lemma WaveNamesAre(nodes: seq<Node>, k: WaveKey, name: Handle)
    ensures name in NodeNames(MembersOf(nodes, k)) <==> exists n :: n in nodes && KeyOf(n) == k && n.name == name
  {
    var members := MembersOf(nodes, k);
    forall n ensures n in members <==> n in nodes && KeyOf(n) == k { MembersAre(nodes, k, n); }
    if name in NodeNames(members) {
      var i :| 0 <= i < |members| && NodeNames(members)[i] == name;
      assert members[i] in members;
    }
    if n :| n in nodes && KeyOf(n) == k && n.name == name {
      var i :| 0 <= i < |members| && members[i] == n;
      assert NodeNames(members)[i] == name;
    }
  }
}
