/** When two nodes of a planned graph share a name. */
module NodeNames {
  import opened Ordering
  import opened Collections
  import opened Decimal
  import opened Types
  import opened Scope
  import opened Planner
  import opened Plan
  import opened Resolution
  import opened PlannerFacts
  import opened WarmupCoverage
  import opened RequestNormalization
  import opened Scoping
  import Lowering

  // ---------------------------------------------------------------------------
  // Distinctness of composed lists

  lemma DistinctAppend<T, K>(a: seq<T>, b: seq<T>, key: T -> K)
    ensures DistinctBy(a + b, key) <==>
              DistinctBy(a, key) && DistinctBy(b, key) && forall x, y :: x in a && y in b ==> key(x) != key(y)
  {
    if DistinctBy(a + b, key) {
      forall i, j | 0 <= i < j < |a| ensures key(a[i]) != key(a[j]) {
        assert key((a + b)[i]) != key((a + b)[j]);
      }
      forall i, j | 0 <= i < j < |b| ensures key(b[i]) != key(b[j]) {
        assert key((a + b)[|a| + i]) != key((a + b)[|a| + j]);
      }
      forall x, y | x in a && y in b ensures key(x) != key(y) {
        var i :| 0 <= i < |a| && a[i] == x;
        var j :| 0 <= j < |b| && b[j] == y;
        assert key((a + b)[i]) != key((a + b)[|a| + j]);
      }
    }
  }

  lemma {:induction false} DistinctFilter<T(!new), K>(s: seq<T>, keep: T -> bool, key: T -> K)
    requires DistinctBy(s, key)
    ensures DistinctBy(Filter(s, keep), key)
  {
    if s != [] {
      var front, last := s[..|s| - 1], s[|s| - 1];
      assert s == front + [last];
      DistinctAppend(front, [last], key);
      DistinctFilter(front, keep, key);
      DistinctAppend(Filter(front, keep), [last], key);
    }
  }

  /** The parts that two entries contribute have no key in common. */
  ghost predicate Apart<T, R, K>(f: T -> seq<R>, key: R -> K, x: T, y: T) {
    forall u, v :: u in f(x) && v in f(y) ==> key(u) != key(v)
  }

  ghost predicate AllApart<T, R, K>(s: seq<T>, f: T -> seq<R>, key: R -> K) {
    forall i, j :: 0 <= i < j < |s| ==> Apart(f, key, s[i], s[j])
  }

  ghost predicate EachDistinct<T, R, K>(s: seq<T>, f: T -> seq<R>, key: R -> K) {
    forall i :: 0 <= i < |s| ==> DistinctBy(f(s[i]), key)
  }

  lemma SnocApart<T, R, K>(front: seq<T>, last: T, f: T -> seq<R>, key: R -> K)
    ensures AllApart(front + [last], f, key) <==>
              AllApart(front, f, key) && forall i :: 0 <= i < |front| ==> Apart(f, key, front[i], last)
    ensures EachDistinct(front + [last], f, key) <==> EachDistinct(front, f, key) && DistinctBy(f(last), key)
  {
    hide Apart, DistinctBy;
    var s := front + [last];
    assert forall i :: 0 <= i < |front| ==> s[i] == front[i];
    assert s[|front|] == last;
    if AllApart(s, f, key) {
      forall i, j | 0 <= i < j < |front| ensures Apart(f, key, front[i], front[j]) {
        assert Apart(f, key, s[i], s[j]);
      }
      forall i | 0 <= i < |front| ensures Apart(f, key, front[i], last) {
        assert Apart(f, key, s[i], s[|front|]);
      }
    }
    if EachDistinct(s, f, key) {
      forall i | 0 <= i < |front| ensures DistinctBy(f(front[i]), key) {
        assert DistinctBy(f(s[i]), key);
      }
      assert DistinctBy(f(s[|front|]), key);
    }
  }

  lemma {:induction false} DistinctFlatMap<T, R, K>(s: seq<T>, f: T -> seq<R>, key: R -> K)
    ensures DistinctBy(FlatMap(s, f), key) <==> EachDistinct(s, f, key) && AllApart(s, f, key)
  {
    if s != [] {
      var m := |s| - 1;
      DistinctFlatMap(s[..m], f, key);
      FlatMapStep(s[..m], s[m], f, key);
      assert s == s[..m] + [s[m]];
    }
  }

  lemma FlatMapStep<T, R, K>(front: seq<T>, last: T, f: T -> seq<R>, key: R -> K)
    requires DistinctBy(FlatMap(front, f), key) <==> EachDistinct(front, f, key) && AllApart(front, f, key)
    ensures DistinctBy(FlatMap(front, f) + f(last), key) <==>
              EachDistinct(front + [last], f, key) && AllApart(front + [last], f, key)
  {
    hide AllApart, EachDistinct, DistinctBy, FlatMap, Apart;
    DistinctAppend(FlatMap(front, f), f(last), key);
    FrontApart(front, f, key, last);
    SnocApart(front, last, f, key);
  }

  lemma FrontApart<T, R, K>(front: seq<T>, f: T -> seq<R>, key: R -> K, last: T)
    ensures (forall x, y :: x in FlatMap(front, f) && y in f(last) ==> key(x) != key(y)) <==>
              forall i :: 0 <= i < |front| ==> Apart(f, key, front[i], last)
  {
    if forall i :: 0 <= i < |front| ==> Apart(f, key, front[i], last) {
      forall x, y | x in FlatMap(front, f) && y in f(last) ensures key(x) != key(y) {
        FlatMapContains(front, f, x);
        var t :| t in front && x in f(t);
        var i :| 0 <= i < |front| && front[i] == t;
        assert Apart(f, key, front[i], last);
      }
    }
    if forall x, y :: x in FlatMap(front, f) && y in f(last) ==> key(x) != key(y) {
      forall i | 0 <= i < |front| ensures Apart(f, key, front[i], last) {
        forall u, v | u in f(front[i]) && v in f(last) ensures key(u) != key(v) {
          FlatMapContains(front, f, u);
        }
      }
    }
  }

  // ---------------------------------------------------------------------------
  // Regions and requirements

  function PlannedName(region: CompileRegion): string { region.name }

  lemma RegionNamesDistinct(s: Selection, survey: Survey, scope: BuildScope)
    requires SurveyHolds(survey)
    ensures DistinctBy(CompileRegions(s, survey, scope), PlannedName)
  {
    hide Sort, Filter, KeepsRegion;
    var kept := Filter(survey.regions, (region: SurveyRegion) => KeepsRegion(region, s, scope));
    var planned := Map(kept, (region: SurveyRegion) => CompileRegionOf(region, s));
    DistinctFilter(survey.regions, (region: SurveyRegion) => KeepsRegion(region, s, scope), RegionName);
    forall i, j | 0 <= i < j < |planned| ensures PlannedName(planned[i]) != PlannedName(planned[j]) {
      assert RegionName(kept[i]) != RegionName(kept[j]);
    }
    SortPermutes(planned, RegionLe);
    PermutedDistinct(planned, Sort(planned, RegionLe), PlannedName);
  }

  function Pair(q: Requirement): (ArtifactClass, string) { (q.artifactClass, q.scope) }

  lemma RequirementsDistinct(r: Request, ws: seq<Witness>, shapes: seq<ShapeNode>, s: Selection,
                             regions: seq<CompileRegion>,
                             env: OptimizationEnvelope, scope: BuildScope)
    requires DistinctBy(regions, PlannedName)
    ensures DistinctBy(ArtifactRequirements(r, ws, shapes, s, regions, env, scope), Pair)
  {
    hide Sort, Filter, CapturesGraphs, GraphRequirement, BinaryRequirement, CaptureRequirement;
    var allowed := Filter(regions, (region: CompileRegion) => scope.AllowsArtifactScope(region.name));
    var pair := (region: CompileRegion) => [GraphRequirement(r, ws, shapes, s, region),
                                            BinaryRequirement(r, ws, shapes, s, region)];
    var capture := if CapturesGraphs(regions, env, scope) then [CaptureRequirement(r, ws, shapes)] else [];
    DistinctFilter(regions, (region: CompileRegion) => scope.AllowsArtifactScope(region.name), PlannedName);
    forall region: CompileRegion ensures Labelled(pair(region), region.name) {
      RequirementLabels(r, ws, shapes, s, region);
    }
    PairsDistinct(allowed, pair);
    CaptureClass(r, ws, shapes);
    forall x: Requirement | x in FlatMap(allowed, pair) ensures x.artifactClass != CudaGraphCapture {
      FlatMapContains(allowed, pair, x);
    }
    DistinctAppend(FlatMap(allowed, pair), capture, Pair);
    SortPermutes(FlatMap(allowed, pair) + capture, RequirementLe);
    PermutedDistinct(FlatMap(allowed, pair) + capture, Sort(FlatMap(allowed, pair) + capture, RequirementLe), Pair);
  }

  lemma CaptureClass(r: Request, ws: seq<Witness>, shapes: seq<ShapeNode>)
    ensures CaptureRequirement(r, ws, shapes).artifactClass == CudaGraphCapture
  {
  }

  ghost predicate Labelled(pair: seq<Requirement>, name: string) {
    |pair| == 2 && Pair(pair[0]) == (CompiledGraph, name) && Pair(pair[1]) == (TritonBinary, name)
  }

  lemma PairsDistinct(regions: seq<CompileRegion>, pair: CompileRegion -> seq<Requirement>)
    requires DistinctBy(regions, PlannedName)
    requires forall region :: region in regions ==> Labelled(pair(region), region.name)
    ensures DistinctBy(FlatMap(regions, pair), Pair)
  {
    forall i, j | 0 <= i < j < |regions| ensures Apart(pair, Pair, regions[i], regions[j]) {
      assert PlannedName(regions[i]) != PlannedName(regions[j]);
      assert Labelled(pair(regions[i]), regions[i].name) && Labelled(pair(regions[j]), regions[j].name);
    }
    forall i | 0 <= i < |regions| ensures DistinctBy(pair(regions[i]), Pair) {
      assert Labelled(pair(regions[i]), regions[i].name);
    }
    DistinctFlatMap(regions, pair, Pair);
  }

  // ---------------------------------------------------------------------------
  // Nodes

  lemma {:induction false} ArtifactNodesDistinct(t: Topology, requirements: seq<Requirement>)
    requires DistinctBy(requirements, Pair)
    ensures DistinctBy(Lowering.ArtifactNodes(t, requirements), NameOf)
  {
    if requirements != [] {
      var front, last := requirements[..|requirements| - 1], requirements[|requirements| - 1];
      assert requirements == front + [last];
      DistinctAppend(front, [last], Pair);
      ArtifactNodesDistinct(t, front);
      forall x | x in Lowering.ArtifactNodes(t, front) ensures x.name != Artifact(last) && x.name != Fanout(last) {
        Lowering.ArtifactNodesAre(t, front, x);
      }
      DistinctAppend(Lowering.ArtifactNodes(t, front), Lowering.RequirementNodes(t, last), NameOf);
    }
  }

  /** With distinct requirements, only warmups can share a name. */
  lemma OnlyWarmupsShare(t: Topology, requirements: seq<Requirement>, obligations: seq<Obligation>)
    requires DistinctBy(requirements, Pair)
    ensures DuplicateNames(Lowering.NodesOf(t, requirements, obligations)) <==> !DistinctBy(obligations, WarmupLabel)
  {
    var artifacts := Lowering.ArtifactNodes(t, requirements);
    var warmups := Lowering.WarmupNodes(t, requirements, obligations);
    ArtifactNodesDistinct(t, requirements);
    forall x, y | x in artifacts && y in warmups ensures NameOf(x) != NameOf(y) {
      Lowering.ArtifactNodesAre(t, requirements, x);
    }
    DistinctAppend(artifacts, warmups, NameOf);
    assert forall i :: 0 <= i < |obligations| ==> NameOf(warmups[i]) == Warmup(WarmupLabel(obligations[i]));
    assert DistinctBy(warmups, NameOf) <==> DistinctBy(obligations, WarmupLabel);
  }

  // ---------------------------------------------------------------------------
  // Obligations

  lemma LabelTells(o: Obligation, o': Obligation)
    requires ':' !in o.nodeName && ':' !in o'.nodeName && WarmupLabel(o) == WarmupLabel(o')
    ensures o.nodeName == o'.nodeName && o.regionName == o'.regionName
  {
    assert WarmupLabel(o) == o.nodeName + [':'] + o.regionName
           && WarmupLabel(o') == o'.nodeName + [':'] + o'.regionName;
    SplitUnique(o.nodeName, o.regionName, o'.nodeName, o'.regionName, ':');
  }

  /** The obligations of one shape that the readiness keeps. */
  function KeptObligations(t: Topology, env: OptimizationEnvelope, regions: seq<CompileRegion>,
                           readiness: Option<BuildReadiness>,
                           n: ShapeNode): seq<Obligation> {
    Filter(ShapeObligations(t, env, n, regions), (o: Obligation) => KeepsObligation(o, readiness))
  }

  predicate Owed(env: OptimizationEnvelope, readiness: Option<BuildReadiness>, n: ShapeNode, region: CompileRegion) {
    && n.intent != UncoveredResidual && Warms(n, region, env)
    && match readiness
       case None => true
       case Some(EarlyServeBuild) => false
       case Some(CorrectnessBuild) => n.plane == Correctness
       case Some(PerformanceBuild) => true
  }

  lemma KeptAre(t: Topology, env: OptimizationEnvelope, regions: seq<CompileRegion>, readiness: Option<BuildReadiness>,
                n: ShapeNode, o: Obligation)
    ensures o in KeptObligations(t, env, regions, readiness, n) <==>
              exists region :: region in regions && Owed(env, readiness, n, region)
                               && o == ObligationOf(t, env, n, region)
  {
    ShapeObligationsAre(t, env, n, regions, o);
  }

  lemma OneShapeDistinct(t: Topology, env: OptimizationEnvelope, regions: seq<CompileRegion>,
                         readiness: Option<BuildReadiness>, n: ShapeNode)
    requires DistinctBy(regions, PlannedName) && ':' !in n.name
    ensures DistinctBy(KeptObligations(t, env, regions, readiness, n), WarmupLabel)
  {
    var perRegion := (region: CompileRegion) => if Warms(n, region, env) then [ObligationOf(t, env, n, region)] else [];
    if n.intent != UncoveredResidual {
      forall i, j | 0 <= i < j < |regions| ensures Apart(perRegion, WarmupLabel, regions[i], regions[j]) {
        assert PlannedName(regions[i]) != PlannedName(regions[j]);
        forall u, v | u in perRegion(regions[i]) && v in perRegion(regions[j])
          ensures WarmupLabel(u) != WarmupLabel(v)
        {
          if WarmupLabel(u) == WarmupLabel(v) {
            LabelTells(u, v);
          }
        }
      }
      DistinctFlatMap(regions, perRegion, WarmupLabel);
    }
    DistinctFilter(ShapeObligations(t, env, n, regions), (o: Obligation) => KeepsObligation(o, readiness), WarmupLabel);
  }

  /** Two shapes of one name that warm the same region. */
  ghost predicate Clash(env: OptimizationEnvelope, readiness: Option<BuildReadiness>, regions: seq<CompileRegion>,
                        n: ShapeNode, n': ShapeNode) {
    && n.name == n'.name
    && exists region :: region in regions && Owed(env, readiness, n, region) && Owed(env, readiness, n', region)
  }

  lemma ApartUnlessClash(t: Topology, env: OptimizationEnvelope, regions: seq<CompileRegion>,
                         readiness: Option<BuildReadiness>,
                         n: ShapeNode, n': ShapeNode)
    requires DistinctBy(regions, PlannedName) && ':' !in n.name && ':' !in n'.name
    ensures var kept := (x: ShapeNode) => KeptObligations(t, env, regions, readiness, x);
            Apart(kept, WarmupLabel, n, n') <==> !Clash(env, readiness, regions, n, n')
  {
    hide KeptObligations, Warms;
    var kept := (x: ShapeNode) => KeptObligations(t, env, regions, readiness, x);
    if Clash(env, readiness, regions, n, n') {
      var region :| region in regions && Owed(env, readiness, n, region) && Owed(env, readiness, n', region);
      var (u, v) := (ObligationOf(t, env, n, region), ObligationOf(t, env, n', region));
      KeptAre(t, env, regions, readiness, n, u);
      KeptAre(t, env, regions, readiness, n', v);
      assert u in kept(n) && v in kept(n') && WarmupLabel(u) == WarmupLabel(v);
    }
    if u, v :| u in kept(n) && v in kept(n') && WarmupLabel(u) == WarmupLabel(v) {
      KeptAre(t, env, regions, readiness, n, u);
      KeptAre(t, env, regions, readiness, n', v);
      var a :| a in regions && Owed(env, readiness, n, a) && u == ObligationOf(t, env, n, a);
      var b :| b in regions && Owed(env, readiness, n', b) && v == ObligationOf(t, env, n', b);
      LabelTells(u, v);
      SameNamed(regions, a, b);
    }
  }

  lemma SameNamed(regions: seq<CompileRegion>, a: CompileRegion, b: CompileRegion)
    requires DistinctBy(regions, PlannedName) && a in regions && b in regions && a.name == b.name
    ensures a == b
  {
    var i :| 0 <= i < |regions| && regions[i] == a;
    var j :| 0 <= j < |regions| && regions[j] == b;
    assert PlannedName(regions[i]) == PlannedName(regions[j]);
  }

  /** The fields that obligations are sorted by tell the obligations of one plan apart. */
  lemma SortKeysTell(t: Topology, shapes: seq<ShapeNode>, regions: seq<CompileRegion>, env: OptimizationEnvelope,
                     scope: BuildScope, o: Obligation, o': Obligation)
    requires DistinctBy(regions, PlannedName)
    requires o in Obligations(t, shapes, regions, env, scope) && o' in Obligations(t, shapes, regions, env, scope)
    requires ObligationLe(o, o') && ObligationLe(o', o)
    ensures o == o'
  {
    hide Obligations, StringLe, StepsFor;
    StringLeTotal(o.nodeName, o'.nodeName);
    StringLeTotal(o.regionName, o'.regionName);
    ObligationsAre(t, shapes, regions, env, scope, o);
    ObligationsAre(t, shapes, regions, env, scope, o');
    var n, region :| Owes(t, shapes, regions, env, n, region, o);
    var n', region' :| Owes(t, shapes, regions, env, n', region', o');
    SameNamed(regions, region, region');
  }

  lemma UnsortedLabels(t: Topology, shapes: seq<ShapeNode>, regions: seq<CompileRegion>, env: OptimizationEnvelope,
                       scope: BuildScope,
                       kept: ShapeNode -> seq<Obligation>)
    requires forall n :: n in shapes ==> kept(n) == KeptObligations(t, env, regions, scope.readiness, n)
    ensures DistinctBy(Obligations(t, shapes, regions, env, scope), WarmupLabel) <==>
              DistinctBy(FlatMap(shapes, kept), WarmupLabel)
  {
    hide Sort, ShapeObligations, DistinctBy;
    var perShape := (n: ShapeNode) => ShapeObligations(t, env, n, regions);
    var keep := (o: Obligation) => KeepsObligation(o, scope.readiness);
    var unsorted := Filter(FlatMap(shapes, perShape), keep);
    FilterFlatMap(shapes, perShape, keep, kept);
    SortPermutes(unsorted, ObligationLe);
    assert Obligations(t, shapes, regions, env, scope) == Sort(unsorted, ObligationLe);
    if DistinctBy(unsorted, WarmupLabel) { PermutedDistinct(unsorted, Sort(unsorted, ObligationLe), WarmupLabel); }
    if DistinctBy(Sort(unsorted, ObligationLe), WarmupLabel) {
      PermutedDistinct(Sort(unsorted, ObligationLe), unsorted, WarmupLabel);
    }
  }

  ghost predicate NoClash(shapes: seq<ShapeNode>, regions: seq<CompileRegion>, env: OptimizationEnvelope,
                          readiness: Option<BuildReadiness>) {
    forall i, j :: 0 <= i < j < |shapes| ==> !Clash(env, readiness, regions, shapes[i], shapes[j])
  }

  /** Labels are distinct exactly when no two listed shapes clash. */
  lemma LabelsDistinctExactly(t: Topology, shapes: seq<ShapeNode>, regions: seq<CompileRegion>,
                              env: OptimizationEnvelope, scope: BuildScope)
    requires DistinctBy(regions, PlannedName) && forall n :: n in shapes ==> ':' !in n.name
    ensures DistinctBy(Obligations(t, shapes, regions, env, scope), WarmupLabel) <==>
              NoClash(shapes, regions, env, scope.readiness)
  {
    hide Obligations, KeptObligations, Clash, Apart, FlatMap, DistinctBy;
    var kept := (n: ShapeNode) => KeptObligations(t, env, regions, scope.readiness, n);
    UnsortedLabels(t, shapes, regions, env, scope, kept);
    DistinctFlatMap(shapes, kept, WarmupLabel);
    forall i | 0 <= i < |shapes| ensures DistinctBy(kept(shapes[i]), WarmupLabel) {
      OneShapeDistinct(t, env, regions, scope.readiness, shapes[i]);
    }
    forall i, j | 0 <= i < j < |shapes|
      ensures Apart(kept, WarmupLabel, shapes[i], shapes[j]) <==>
                !Clash(env, scope.readiness, regions, shapes[i], shapes[j])
    {
      ApartUnlessClash(t, env, regions, scope.readiness, shapes[i], shapes[j]);
    }
  }

  // ---------------------------------------------------------------------------
  // The planner's shapes

  function PointId(p: ShapePoint): ShapePoint { p }
  function ShapeId(n: ShapeNode): ShapeNode { n }

  ghost predicate Deduped(r: Request) {
    DistinctBy(r.shapePolicy.hotShapes, PointId) && DistinctBy(r.shapePolicy.cudaGraphShapes, PointId)
  }

  lemma CanonicalIsDeduped(raw: Request)
    ensures Deduped(CanonicalBody(raw))
  {
    hide SortDedup;
    ShapeOrder();
    SortDedupMembers(raw.shapePolicy.hotShapes, ShapeLe);
    SortDedupMembers(raw.shapePolicy.cudaGraphShapes, ShapeLe);
  }

  /** Shape names tell which part of the envelope a shape is from. */
  function Kind(n: ShapeNode): nat {
    if |n.name| < 2 then 0
    else if n.name[0] == 'h' then 3
    else if n.name[0] == 'p' then 2
    else if n.name[0] == 'r' then 5
    else if n.name[1] == 'u' then 4
    else 1
  }

  lemma FixedKinds(r: Request, primary: BackendFamily)
    ensures Kind(CorrectnessNode(r, primary)) == 1 && Kind(PerformanceNode(r, primary)) == 2
    ensures Kind(ResidualNode(r, primary)) == 5
    ensures ':' !in CorrectnessNode(r, primary).name && ':' !in PerformanceNode(r, primary).name
    ensures ':' !in ResidualNode(r, primary).name
  {
    hide CorrectnessNode, PerformanceNode, ResidualNode, Kind;
    CorrectnessKind(r, primary);
    PerformanceKind(r, primary);
    ResidualKind(r, primary);
  }

  lemma CorrectnessKind(r: Request, primary: BackendFamily)
    ensures Kind(CorrectnessNode(r, primary)) == 1 && ':' !in CorrectnessNode(r, primary).name
  {
  }

  lemma PerformanceKind(r: Request, primary: BackendFamily)
    ensures Kind(PerformanceNode(r, primary)) == 2 && ':' !in PerformanceNode(r, primary).name
  {
  }

  lemma ResidualKind(r: Request, primary: BackendFamily)
    ensures Kind(ResidualNode(r, primary)) == 5 && ':' !in ResidualNode(r, primary).name
  {
  }

  lemma PointName(prefix: string, p: ShapePoint)
    requires ':' !in prefix
    ensures ':' !in ShapeName(prefix, p)
  {
    NatTextReads(p.batch);
    NatTextReads(p.sequence);
  }

  lemma PointKinds(p: ShapePoint, backend: BackendFamily)
    ensures Kind(HotShapeNode("hot", p, backend)) == 3 && ':' !in HotShapeNode("hot", p, backend).name
    ensures Kind(HotShapeNode("cuda-graph", p, backend)) == 4 && ':' !in HotShapeNode("cuda-graph", p, backend).name
  {
    PointName("hot", p);
    PointName("cuda-graph", p);
    assert ShapeName("hot", p)[0] == 'h';
    assert ShapeName("cuda-graph", p)[0] == 'c' && ShapeName("cuda-graph", p)[1] == 'u';
  }

  lemma EnvelopeKinds(r: Request, s: Selection, env: OptimizationEnvelope, n: ShapeNode)
    requires n in ShapeEnvelope(r, s, env)
    ensures ':' !in n.name
    ensures match Kind(n)
            case 1 => n == CorrectnessNode(r, s.primary.family)
            case 2 => n == PerformanceNode(r, s.primary.family)
            case 3 => env.performanceWarmup && n in HotNodes(r, s.primary.family)
            case 4 => env.cudaGraphs && n in GraphNodes(r)
            case 5 => n == ResidualNode(r, s.primary.family)
            case _ => false
  {
    hide ShapeEnvelope, Kind;
    EnvelopeIs(r, s, env, n);
    FixedKinds(r, s.primary.family);
    if n in HotNodes(r, s.primary.family) {
      HotNodesAre(r, s.primary.family, n);
      var p :| p in r.shapePolicy.hotShapes && n == HotShapeNode("hot", p, s.primary.family);
      PointKinds(p, s.primary.family);
    } else if n in GraphNodes(r) {
      GraphNodesAre(r, n);
      var p :| p in r.shapePolicy.cudaGraphShapes && n == HotShapeNode("cuda-graph", p, CudaGraphs);
      PointKinds(p, CudaGraphs);
    }
  }

  lemma PointNodesDistinct(points: seq<ShapePoint>, prefix: string, backend: BackendFamily)
    requires DistinctBy(points, PointId)
    ensures DistinctBy(Map(points, (p: ShapePoint) => HotShapeNode(prefix, p, backend)), ShapeId)
  {
    var nodes := Map(points, (p: ShapePoint) => HotShapeNode(prefix, p, backend));
    forall i, j | 0 <= i < j < |nodes| ensures ShapeId(nodes[i]) != ShapeId(nodes[j]) {
      assert PointId(points[i]) != PointId(points[j]);
      assert nodes[i].exactShape == Some(points[i]) && nodes[j].exactShape == Some(points[j]);
    }
  }

  lemma HotKinds(r: Request, primary: BackendFamily)
    ensures forall n :: n in HotNodes(r, primary) ==> Kind(n) == 3
    ensures forall n :: n in GraphNodes(r) ==> Kind(n) == 4
  {
    hide Kind;
    forall n | n in HotNodes(r, primary) ensures Kind(n) == 3 {
      HotNodesAre(r, primary, n);
      var p :| p in r.shapePolicy.hotShapes && n == HotShapeNode("hot", p, primary);
      PointKinds(p, primary);
    }
    forall n | n in GraphNodes(r) ensures Kind(n) == 4 {
      GraphNodesAre(r, n);
      var p :| p in r.shapePolicy.cudaGraphShapes && n == HotShapeNode("cuda-graph", p, CudaGraphs);
      PointKinds(p, CudaGraphs);
    }
  }

  /** Parts of different kinds have nothing in common. */
  lemma KindsApart(a: seq<ShapeNode>, b: seq<ShapeNode>, k: nat)
    requires DistinctBy(a, ShapeId) && DistinctBy(b, ShapeId)
    requires (forall n :: n in a ==> Kind(n) < k) && forall n :: n in b ==> Kind(n) >= k
    ensures DistinctBy(a + b, ShapeId)
  {
    hide Kind;
    DistinctAppend(a, b, ShapeId);
  }

  lemma EnvelopeDistinct(r: Request, primary: BackendFamily, env: OptimizationEnvelope)
    requires Deduped(r)
    ensures DistinctBy(EnvelopeNodes(r, primary, env), ShapeId)
  {
    hide Kind, CorrectnessNode, PerformanceNode, ResidualNode, HotShapeNode;
    FixedKinds(r, primary);
    HotKinds(r, primary);
    PointNodesDistinct(r.shapePolicy.hotShapes, "hot", primary);
    PointNodesDistinct(r.shapePolicy.cudaGraphShapes, "cuda-graph", CudaGraphs);
    var one := [CorrectnessNode(r, primary)];
    var two := if env.performanceWarmup then [PerformanceNode(r, primary)] + HotNodes(r, primary) else [];
    var three := if env.cudaGraphs then GraphNodes(r) else [];
    var four := if r.backendPolicy.jitDisposition == ShapeBounded then [ResidualNode(r, primary)] else [];
    KindsApart([PerformanceNode(r, primary)], HotNodes(r, primary), 3);
    KindsApart(one, two, 2);
    KindsApart(one + two, three, 4);
    KindsApart(one + two + three, four, 5);
  }

  lemma ShapesDistinct(r: Request, s: Selection, env: OptimizationEnvelope, regions: seq<CompileRegion>,
                       scope: BuildScope)
    requires Deduped(r)
    ensures DistinctBy(ScopedShapes(ShapeEnvelope(r, s, env), regions, scope), ShapeId)
  {
    hide Sort, Filter, EnvelopeNodes, KeepsShape, DistinctBy;
    var nodes := EnvelopeNodes(r, s.primary.family, env);
    var keeps := (n: ShapeNode) => KeepsShape(n, regions, scope);
    EnvelopeDistinct(r, s.primary.family, env);
    SortPermutes(nodes, ShapeNodeLe);
    PermutedDistinct(nodes, Sort(nodes, ShapeNodeLe), ShapeId);
    DistinctFilter(Sort(nodes, ShapeNodeLe), keeps, ShapeId);
    SortPermutes(Filter(Sort(nodes, ShapeNodeLe), keeps), ShapeNodeLe);
    PermutedDistinct(Filter(Sort(nodes, ShapeNodeLe), keeps),
                     Sort(Filter(Sort(nodes, ShapeNodeLe), keeps), ShapeNodeLe), ShapeId);
  }

  // ---------------------------------------------------------------------------
  // What a caller can read off the request

  /** Does this shape point exercise this region under these settings? */
  predicate WarmsPoint(env: OptimizationEnvelope, regions: seq<CompileRegion>, region: CompileRegion, p: ShapePoint) {
    && Reaches(regions, p.plane)
    && (p.plane == Performance ==> env.performanceWarmup) && (p.plane == CudaGraph ==> env.cudaGraphs)
    && (p.plane in region.planes || p.plane == Correctness)
  }

  ghost predicate Collide(env: OptimizationEnvelope, regions: seq<CompileRegion>, points: seq<ShapePoint>,
                          p: ShapePoint, q: ShapePoint) {
    && p in points && q in points && p != q && p.batch == q.batch && p.sequence == q.sequence
    && exists region :: region in regions && WarmsPoint(env, regions, region, p) && WarmsPoint(env, regions, region, q)
  }

  /** Two points of one list have the same size, lie on different planes and warm a common
      region, and deferred warmups are asked for. */
  ghost predicate Clashes(r: Request, regions: seq<CompileRegion>, readiness: Option<BuildReadiness>) {
    var env := EnvelopeOf(r.level);
    && readiness != Some(EarlyServeBuild) && readiness != Some(CorrectnessBuild)
    && ((env.performanceWarmup && exists p, q :: Collide(env, regions, r.shapePolicy.hotShapes, p, q))
        || (env.cudaGraphs && exists p, q :: Collide(env, regions, r.shapePolicy.cudaGraphShapes, p, q)))
  }

  lemma PointsOfClash(prefix: string, p: ShapePoint, q: ShapePoint, backend: BackendFamily, env: OptimizationEnvelope,
                      regions: seq<CompileRegion>, scope: BuildScope, points: seq<ShapePoint>)
    requires p in points && q in points && p != q
    requires var (n, n') := (HotShapeNode(prefix, p, backend), HotShapeNode(prefix, q, backend));
             && KeepsShape(n, regions, scope) && KeepsShape(n', regions, scope)
             && Clash(env, scope.readiness, regions, n, n')
    ensures Collide(env, regions, points, p, q)
    ensures scope.readiness != Some(EarlyServeBuild) && scope.readiness != Some(CorrectnessBuild)
  {
    ShapeNameInjective(prefix, p, q);
    var (n, n') := (HotShapeNode(prefix, p, backend), HotShapeNode(prefix, q, backend));
    var region :| region in regions && Owed(env, scope.readiness, n, region) && Owed(env, scope.readiness, n', region);
    assert WarmsPoint(env, regions, region, p) && WarmsPoint(env, regions, region, q);
  }

  lemma ClashIsVisible(r: Request, s: Selection, regions: seq<CompileRegion>, scope: BuildScope, n: ShapeNode,
                       n': ShapeNode)
    requires var nodes := ShapeEnvelope(r, s, EnvelopeOf(r.level));
             n in ScopedShapes(nodes, regions, scope) && n' in ScopedShapes(nodes, regions, scope)
    requires n != n' && Clash(EnvelopeOf(r.level), scope.readiness, regions, n, n')
    ensures Clashes(r, regions, scope.readiness)
  {
    hide ShapeEnvelope, ScopedShapes, Clash, KeepsShape, HotShapeNode, HotNodes, GraphNodes, EnvelopeOf, Collide;
    var (env, nodes) := (EnvelopeOf(r.level), ShapeEnvelope(r, s, EnvelopeOf(r.level)));
    ScopedShapesAre(nodes, regions, scope, n);
    ScopedShapesAre(nodes, regions, scope, n');
    EnvelopeKinds(r, s, env, n);
    EnvelopeKinds(r, s, env, n');
    ClashSharesKind(env, scope.readiness, regions, n, n');
    if Kind(n) == 3 {
      HotNodesAre(r, s.primary.family, n);
      HotNodesAre(r, s.primary.family, n');
      var p :| p in r.shapePolicy.hotShapes && n == HotShapeNode("hot", p, s.primary.family);
      var q :| q in r.shapePolicy.hotShapes && n' == HotShapeNode("hot", q, s.primary.family);
      PointsOfClash("hot", p, q, s.primary.family, env, regions, scope, r.shapePolicy.hotShapes);
    } else {
      GraphNodesAre(r, n);
      GraphNodesAre(r, n');
      var p :| p in r.shapePolicy.cudaGraphShapes && n == HotShapeNode("cuda-graph", p, CudaGraphs);
      var q :| q in r.shapePolicy.cudaGraphShapes && n' == HotShapeNode("cuda-graph", q, CudaGraphs);
      PointsOfClash("cuda-graph", p, q, CudaGraphs, env, regions, scope, r.shapePolicy.cudaGraphShapes);
    }
  }

  lemma ClashSharesKind(env: OptimizationEnvelope, readiness: Option<BuildReadiness>, regions: seq<CompileRegion>,
                        n: ShapeNode, n': ShapeNode)
    requires Clash(env, readiness, regions, n, n')
    ensures Kind(n) == Kind(n') && n.intent != UncoveredResidual
  {
  }

  lemma CollisionClashes(prefix: string, p: ShapePoint, q: ShapePoint, backend: BackendFamily,
                         env: OptimizationEnvelope,
                         regions: seq<CompileRegion>, readiness: Option<BuildReadiness>, points: seq<ShapePoint>)
    requires Collide(env, regions, points, p, q)
    requires readiness != Some(EarlyServeBuild) && readiness != Some(CorrectnessBuild)
    ensures var (n, n') := (HotShapeNode(prefix, p, backend), HotShapeNode(prefix, q, backend));
            n != n' && Clash(env, readiness, regions, n, n') && Reaches(regions, p.plane) && Reaches(regions, q.plane)
  {
    var (n, n') := (HotShapeNode(prefix, p, backend), HotShapeNode(prefix, q, backend));
    var region :| region in regions && WarmsPoint(env, regions, region, p) && WarmsPoint(env, regions, region, q);
    assert n.exactShape == Some(p) && n'.exactShape == Some(q);
    assert Owed(env, readiness, n, region) && Owed(env, readiness, n', region);
  }

  lemma GraphIsPlanned(r: Request, s: Selection, regions: seq<CompileRegion>, scope: BuildScope, p: ShapePoint)
    requires p in r.shapePolicy.cudaGraphShapes && EnvelopeOf(r.level).cudaGraphs
    requires Reaches(regions, p.plane) && scope.readiness != Some(CorrectnessBuild)
    ensures HotShapeNode("cuda-graph", p, CudaGraphs) in
              ScopedShapes(ShapeEnvelope(r, s, EnvelopeOf(r.level)), regions, scope)
  {
    hide ShapeEnvelope, ScopedShapes;
    var n := HotShapeNode("cuda-graph", p, CudaGraphs);
    GraphNodesAre(r, n);
    EnvelopeIs(r, s, EnvelopeOf(r.level), n);
    ScopedShapesAre(ShapeEnvelope(r, s, EnvelopeOf(r.level)), regions, scope, n);
  }

  lemma Positions(shapes: seq<ShapeNode>, regions: seq<CompileRegion>, env: OptimizationEnvelope,
                  readiness: Option<BuildReadiness>,
                  n: ShapeNode, n': ShapeNode)
    requires n in shapes && n' in shapes && n != n' && Clash(env, readiness, regions, n, n')
    ensures !NoClash(shapes, regions, env, readiness)
  {
    var i :| 0 <= i < |shapes| && shapes[i] == n;
    var j :| 0 <= j < |shapes| && shapes[j] == n';
    assert Clash(env, readiness, regions, n', n);
    assert if i < j then Clash(env, readiness, regions, shapes[i], shapes[j])
           else Clash(env, readiness, regions, shapes[j], shapes[i]);
  }

  lemma VisibleIsClash(r: Request, s: Selection, regions: seq<CompileRegion>, scope: BuildScope, shapes: seq<ShapeNode>)
    requires shapes == ScopedShapes(ShapeEnvelope(r, s, EnvelopeOf(r.level)), regions, scope)
    requires Clashes(r, regions, scope.readiness)
    ensures !NoClash(shapes, regions, EnvelopeOf(r.level), scope.readiness)
  {
    hide ShapeEnvelope, ScopedShapes, Clash, NoClash, HotShapeNode, EnvelopeOf;
    var env := EnvelopeOf(r.level);
    if env.performanceWarmup && exists p, q :: Collide(env, regions, r.shapePolicy.hotShapes, p, q) {
      var p, q :| Collide(env, regions, r.shapePolicy.hotShapes, p, q);
      CollisionClashes("hot", p, q, s.primary.family, env, regions, scope.readiness, r.shapePolicy.hotShapes);
      HotIsPlanned(r, s, regions, scope, p);
      HotIsPlanned(r, s, regions, scope, q);
      Positions(shapes, regions, env, scope.readiness, HotShapeNode("hot", p, s.primary.family),
                HotShapeNode("hot", q, s.primary.family));
    } else {
      var p, q :| Collide(env, regions, r.shapePolicy.cudaGraphShapes, p, q);
      CollisionClashes("cuda-graph", p, q, CudaGraphs, env, regions, scope.readiness, r.shapePolicy.cudaGraphShapes);
      GraphIsPlanned(r, s, regions, scope, p);
      GraphIsPlanned(r, s, regions, scope, q);
      Positions(shapes, regions, env, scope.readiness, HotShapeNode("cuda-graph", p, CudaGraphs),
                HotShapeNode("cuda-graph", q, CudaGraphs));
    }
  }

  lemma NoClashExactly(r: Request, s: Selection, regions: seq<CompileRegion>, scope: BuildScope, shapes: seq<ShapeNode>)
    requires Deduped(r) && shapes == ScopedShapes(ShapeEnvelope(r, s, EnvelopeOf(r.level)), regions, scope)
    ensures NoClash(shapes, regions, EnvelopeOf(r.level), scope.readiness) <==> !Clashes(r, regions, scope.readiness)
  {
    hide ShapeEnvelope, ScopedShapes, Clash, Clashes, EnvelopeOf;
    if Clashes(r, regions, scope.readiness) {
      VisibleIsClash(r, s, regions, scope, shapes);
    } else {
      ShapesDistinct(r, s, EnvelopeOf(r.level), regions, scope);
      forall i, j | 0 <= i < j < |shapes|
        ensures !Clash(EnvelopeOf(r.level), scope.readiness, regions, shapes[i], shapes[j])
      {
        if Clash(EnvelopeOf(r.level), scope.readiness, regions, shapes[i], shapes[j]) {
          assert ShapeId(shapes[i]) != ShapeId(shapes[j]);
          ClashIsVisible(r, s, regions, scope, shapes[i], shapes[j]);
          assert false;
        }
      }
    }
  }

  /** Two nodes of a planned graph share a name exactly when the request lists two shapes of
      one size whose warmups meet in a region. */
  lemma DuplicateNamesExactly(host: Host, r: Request, survey: Survey, scope: BuildScope, ids: Digests, p: BuildPlan)
    requires SurveyHolds(survey) && Deduped(r) && MadeFrom(host, r, survey, scope, ids, p)
    ensures DuplicateNames(p.graph.nodes) <==> Clashes(r, p.regions, scope.readiness)
  {
    hide CapabilityWitnesses, Selected, CompileRegions, ScopedShapes, ShapeEnvelope, ArtifactRequirements,
         Obligations, ManifestOf, Evidence, RewriteTrace, Registry, Lowering.NodesOf, Lowering.WavesOf, EnvelopeOf,
         Clashes, DuplicateNames, DistinctBy, NoClash, KeepsShape;
    RegionNamesDistinct(p.selection, survey, scope);
    RequirementsDistinct(r, p.witnesses, p.shapes, p.selection, p.regions, p.envelope, scope);
    OnlyWarmupsShare(r.topology, p.requirements, p.obligations);
    forall n | n in p.shapes ensures ':' !in n.name {
      ScopedShapesAre(ShapeEnvelope(r, p.selection, p.envelope), p.regions, scope, n);
      EnvelopeKinds(r, p.selection, p.envelope, n);
    }
    LabelsDistinctExactly(r.topology, p.shapes, p.regions, p.envelope, scope);
    NoClashExactly(r, p.selection, p.regions, scope, p.shapes);
  }
}
