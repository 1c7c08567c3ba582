/** How many warmup steps a plan asks for, read off the request and the planned regions. */
module WarmupSteps {
  import opened Ordering
  import opened Collections
  import opened Types
  import opened Scope
  import opened Planner
  import opened Plan
  import opened NodeNames

  function StepsAt(o: Obligation): nat { o.stepCount }

  lemma {:induction false} StepsAreSummed(obligations: seq<Obligation>)
    ensures TotalSteps(obligations) == Sum(obligations, StepsAt)
  {
    if obligations != [] {
      StepsAreSummed(obligations[..|obligations| - 1]);
    }
  }

  /** The steps of one shape: so many for each region it warms. */
  function ShapeSteps(env: OptimizationEnvelope, readiness: Option<BuildReadiness>, regions: seq<CompileRegion>,
                      n: ShapeNode): nat {
    Scaled(StepsFor(n.intent, env), |Filter(regions, (region: CompileRegion) => Owed(env, readiness, n, region))|)
  }

  lemma OneShapeSteps(t: Topology, env: OptimizationEnvelope, regions: seq<CompileRegion>,
                      readiness: Option<BuildReadiness>, n: ShapeNode)
    ensures Sum(KeptObligations(t, env, regions, readiness, n), StepsAt) == ShapeSteps(env, readiness, regions, n)
  {
    hide Warms, StepsFor, ObligationOf, Owed, Filter;
    var owed := (region: CompileRegion) => Owed(env, readiness, n, region);
    if n.intent == UncoveredResidual {
      ResidualOwesNothing(t, env, regions, readiness, n);
    } else {
      hide Scaled;
      var k := StepsFor(n.intent, env);
      var keep := (o: Obligation) => KeepsObligation(o, readiness);
      var perRegion :=
        (region: CompileRegion) => if Warms(n, region, env) then [ObligationOf(t, env, n, region)] else [];
      var kept := (region: CompileRegion) => if owed(region) then [ObligationOf(t, env, n, region)] else [];
      var steps := (region: CompileRegion) => if owed(region) then k else 0;
      forall region | region in regions ensures kept(region) == Filter(perRegion(region), keep) {
        OneKept(t, env, readiness, n, region);
      }
      forall region | region in regions ensures steps(region) == Sum(kept(region), StepsAt) {
        OneStepCount(t, env, n, region);
      }
      FilterFlatMap(regions, perRegion, keep, kept);
      SumFlatMap(regions, kept, StepsAt, steps);
      SumConstant(regions, owed, k, steps);
    }
  }

  lemma OneStepCount(t: Topology, env: OptimizationEnvelope, n: ShapeNode, region: CompileRegion)
    ensures Sum([ObligationOf(t, env, n, region)], StepsAt) == StepsFor(n.intent, env) && Sum([], StepsAt) == 0
  {
    hide StepsFor;
    assert [ObligationOf(t, env, n, region)][..0] == [];
  }

  lemma ResidualOwesNothing(t: Topology, env: OptimizationEnvelope, regions: seq<CompileRegion>,
                            readiness: Option<BuildReadiness>, n: ShapeNode)
    requires n.intent == UncoveredResidual
    ensures KeptObligations(t, env, regions, readiness, n) == [] && ShapeSteps(env, readiness, regions, n) == 0
  {
    FilterNone(regions, (region: CompileRegion) => Owed(env, readiness, n, region));
  }

  lemma OneKept(t: Topology, env: OptimizationEnvelope, readiness: Option<BuildReadiness>, n: ShapeNode,
                region: CompileRegion)
    requires n.intent != UncoveredResidual
    ensures Filter(if Warms(n, region, env) then [ObligationOf(t, env, n, region)] else [],
                   (o: Obligation) => KeepsObligation(o, readiness)) ==
              if Owed(env, readiness, n, region) then [ObligationOf(t, env, n, region)] else []
  {
    hide Warms;
    var o := ObligationOf(t, env, n, region);
    assert [o][..0] == [];
    assert Filter([o], (x: Obligation) => KeepsObligation(x, readiness)) ==
           if KeepsObligation(o, readiness) then [o] else [];
  }

  lemma ObligationSteps(t: Topology, shapes: seq<ShapeNode>, regions: seq<CompileRegion>, env: OptimizationEnvelope,
                        scope: BuildScope, steps: ShapeNode -> nat)
    requires forall n :: n in shapes ==> steps(n) == ShapeSteps(env, scope.readiness, regions, n)
    ensures TotalSteps(Obligations(t, shapes, regions, env, scope)) == Sum(shapes, steps)
  {
    hide Sort, ShapeObligations, ShapeSteps, TotalSteps;
    var perShape := (n: ShapeNode) => ShapeObligations(t, env, n, regions);
    var keep := (o: Obligation) => KeepsObligation(o, scope.readiness);
    var kept := (n: ShapeNode) => KeptObligations(t, env, regions, scope.readiness, n);
    var unsorted := Filter(FlatMap(shapes, perShape), keep);
    FilterFlatMap(shapes, perShape, keep, kept);
    SortPermutes(unsorted, ObligationLe);
    SumPermuted(Sort(unsorted, ObligationLe), unsorted, StepsAt);
    StepsAreSummed(Sort(unsorted, ObligationLe));
    forall n | n in shapes ensures steps(n) == Sum(kept(n), StepsAt) {
      OneShapeSteps(t, env, regions, scope.readiness, n);
    }
    SumFlatMap(shapes, kept, StepsAt, steps);
  }

  /** Only what scoping keeps counts. */
  lemma ScopedSum(nodes: seq<ShapeNode>, regions: seq<CompileRegion>, scope: BuildScope, steps: ShapeNode -> nat,
                  kept: ShapeNode -> nat)
    requires forall n :: n in nodes ==> kept(n) == if KeepsShape(n, regions, scope) then steps(n) else 0
    ensures Sum(ScopedShapes(Sort(nodes, ShapeNodeLe), regions, scope), steps) == Sum(nodes, kept)
  {
    hide Sort, KeepsShape, Filter;
    var keeps := (n: ShapeNode) => KeepsShape(n, regions, scope);
    var sorted := Sort(nodes, ShapeNodeLe);
    SortPermutes(nodes, ShapeNodeLe);
    SameMembers(sorted, nodes);
    SortPermutes(Filter(sorted, keeps), ShapeNodeLe);
    SumPermuted(Sort(Filter(sorted, keeps), ShapeNodeLe), Filter(sorted, keeps), steps);
    SumFilter(sorted, keeps, steps, kept);
    SumPermuted(sorted, nodes, kept);
  }

  // ---------------------------------------------------------------------------
  // The closed form

  predicate Deferred(readiness: Option<BuildReadiness>) {
    readiness != Some(EarlyServeBuild) && readiness != Some(CorrectnessBuild)
  }

  function OnPlane(regions: seq<CompileRegion>, plane: CoveragePlane): nat {
    |Filter(regions, (region: CompileRegion) => plane in region.planes)|
  }

  /** One step for each region a shape point warms; before serving, only correctness points. */
  function PointSteps(env: OptimizationEnvelope, readiness: Option<BuildReadiness>, regions: seq<CompileRegion>,
                      p: ShapePoint): nat {
    if readiness == Some(EarlyServeBuild) || (readiness == Some(CorrectnessBuild) && p.plane != Correctness) then 0
    else |Filter(regions, (region: CompileRegion) => WarmsPoint(env, regions, region, p))|
  }

  /** Three steps per region for the correctness range if some region has that plane, two per
      performance region for the performance range, and one per region for each shape point
      that warms it. */
  function StepsOwed(r: Request, regions: seq<CompileRegion>, readiness: Option<BuildReadiness>): nat {
    var env := EnvelopeOf(r.level);
    var points := (p: ShapePoint) => PointSteps(env, readiness, regions, p);
    (if Reaches(regions, Correctness) && readiness != Some(EarlyServeBuild) then 3 * |regions| else 0)
    + (if env.performanceWarmup && Deferred(readiness) then 2 * OnPlane(regions, Performance) else 0)
    + (if env.performanceWarmup then Sum(r.shapePolicy.hotShapes, points) else 0)
    + (if env.cudaGraphs then Sum(r.shapePolicy.cudaGraphShapes, points) else 0)
  }

  function KeptSteps(env: OptimizationEnvelope, scope: BuildScope, regions: seq<CompileRegion>, n: ShapeNode): nat {
    if KeepsShape(n, regions, scope) then ShapeSteps(env, scope.readiness, regions, n) else 0
  }

  lemma SameCount<T(!new)>(s: seq<T>, a: T -> bool, b: T -> bool)
    requires forall x :: x in s ==> (a(x) <==> b(x))
    ensures |Filter(s, a)| == |Filter(s, b)|
  {
    if s != [] {
      assert s[|s| - 1] in s;
      SameCount(s[..|s| - 1], a, b);
    }
  }

  lemma Thrice(n: nat)
    ensures Scaled(3, n) == 3 * n && Scaled(3, 0) == 0
  {
  }

  lemma Once(n: nat)
    ensures Scaled(1, n) == n
  {
  }

  lemma CorrectnessSteps(r: Request, primary: BackendFamily, regions: seq<CompileRegion>, scope: BuildScope)
    ensures KeptSteps(EnvelopeOf(r.level), scope, regions, CorrectnessNode(r, primary)) ==
              if Reaches(regions, Correctness) && scope.readiness != Some(EarlyServeBuild) then 3 * |regions| else 0
  {
    hide Filter, Scaled;
    var (env, n) := (EnvelopeOf(r.level), CorrectnessNode(r, primary));
    assert StepsFor(n.intent, env) == 3;
    Thrice(|regions|);
    var owed := (region: CompileRegion) => Owed(env, scope.readiness, n, region);
    if scope.readiness == Some(EarlyServeBuild) {
      FilterNone(regions, owed);
    } else {
      KeepEvery(regions, owed);
      assert Filter(regions, owed) == regions;
    }
  }

  lemma PerformanceSteps(r: Request, primary: BackendFamily, regions: seq<CompileRegion>, scope: BuildScope)
    requires EnvelopeOf(r.level).performanceWarmup
    ensures KeptSteps(EnvelopeOf(r.level), scope, regions, PerformanceNode(r, primary)) ==
              if Deferred(scope.readiness) then 2 * OnPlane(regions, Performance) else 0
  {
    var (env, n) := (EnvelopeOf(r.level), PerformanceNode(r, primary));
    var owed := (region: CompileRegion) => Owed(env, scope.readiness, n, region);
    if Deferred(scope.readiness) {
      SameCount(regions, owed, (region: CompileRegion) => Performance in region.planes);
      if !Reaches(regions, Performance) {
        FilterNone(regions, (region: CompileRegion) => Performance in region.planes);
      }
    } else {
      FilterNone(regions, owed);
    }
  }

  lemma OnePointSteps(env: OptimizationEnvelope, prefix: string, p: ShapePoint, backend: BackendFamily,
                      regions: seq<CompileRegion>, scope: BuildScope)
    requires env.maxWarmupSteps >= 1
    ensures KeptSteps(env, scope, regions, HotShapeNode(prefix, p, backend)) ==
              PointSteps(env, scope.readiness, regions, p)
  {
    hide ShapeName, Filter, Scaled;
    var n := HotShapeNode(prefix, p, backend);
    assert StepsFor(n.intent, env) == 1;
    Once(|Filter(regions, (region: CompileRegion) => Owed(env, scope.readiness, n, region))|);
    var owed := (region: CompileRegion) => Owed(env, scope.readiness, n, region);
    var warms := (region: CompileRegion) => WarmsPoint(env, regions, region, p);
    if || scope.readiness == Some(EarlyServeBuild)
       || (scope.readiness == Some(CorrectnessBuild) && p.plane != Correctness) {
      FilterNone(regions, owed);
    } else if Reaches(regions, p.plane) {
      SameCount(regions, owed, warms);
    } else {
      FilterNone(regions, warms);
    }
  }

  lemma PointsSum(env: OptimizationEnvelope, prefix: string, points: seq<ShapePoint>, backend: BackendFamily,
                  regions: seq<CompileRegion>, scope: BuildScope, kept: ShapeNode -> nat, steps: ShapePoint -> nat)
    requires env.maxWarmupSteps >= 1
    requires forall n :: kept(n) == KeptSteps(env, scope, regions, n)
    requires forall p :: steps(p) == PointSteps(env, scope.readiness, regions, p)
    ensures Sum(Map(points, (p: ShapePoint) => HotShapeNode(prefix, p, backend)), kept) == Sum(points, steps)
  {
    hide KeptSteps, PointSteps, HotShapeNode;
    forall p | p in points ensures steps(p) == kept(HotShapeNode(prefix, p, backend)) {
      OnePointSteps(env, prefix, p, backend, regions, scope);
    }
    SumMap(points, (p: ShapePoint) => HotShapeNode(prefix, p, backend), kept, steps);
  }

  lemma SumOne<T>(x: T, f: T -> nat)
    ensures Sum([x], f) == f(x) && Sum([], f) == 0
  {
    assert [x][..0] == [];
  }

  lemma SumFour<T>(a: seq<T>, b: seq<T>, c: seq<T>, d: seq<T>, f: T -> nat)
    ensures Sum(a + b + c + d, f) == Sum(a, f) + Sum(b, f) + Sum(c, f) + Sum(d, f)
  {
    SumAppend(a + b + c, d, f);
    SumAppend(a + b, c, f);
    SumAppend(a, b, f);
  }

  lemma ResidualSteps(r: Request, primary: BackendFamily, regions: seq<CompileRegion>, scope: BuildScope)
    ensures KeptSteps(EnvelopeOf(r.level), scope, regions, ResidualNode(r, primary)) == 0
  {
  }

  lemma EnvelopeSteps(r: Request, primary: BackendFamily, regions: seq<CompileRegion>, scope: BuildScope,
                      kept: ShapeNode -> nat)
    requires forall n :: kept(n) == KeptSteps(EnvelopeOf(r.level), scope, regions, n)
    ensures Sum(EnvelopeNodes(r, primary, EnvelopeOf(r.level)), kept) == StepsOwed(r, regions, scope.readiness)
  {
    hide KeptSteps, PointSteps, CorrectnessNode, PerformanceNode, ResidualNode, HotShapeNode, Reaches, Sum, OnPlane,
         Deferred, HotNodes;
    var env := EnvelopeOf(r.level);
    var steps := (p: ShapePoint) => PointSteps(env, scope.readiness, regions, p);
    var first := [CorrectnessNode(r, primary)];
    var warm := if env.performanceWarmup then [PerformanceNode(r, primary)] + HotNodes(r, primary) else [];
    var graphs := if env.cudaGraphs then GraphNodes(r) else [];
    var tail := if r.backendPolicy.jitDisposition == ShapeBounded then [ResidualNode(r, primary)] else [];
    SumFour(first, warm, graphs, tail, kept);
    SumOne(CorrectnessNode(r, primary), kept);
    CorrectnessSteps(r, primary, regions, scope);
    SumOne(ResidualNode(r, primary), kept);
    ResidualSteps(r, primary, regions, scope);
    if env.performanceWarmup {
      WarmSteps(r, primary, regions, scope, kept, steps);
    }
    PointsSum(env, "cuda-graph", r.shapePolicy.cudaGraphShapes, CudaGraphs, regions, scope, kept, steps);
  }

  lemma WarmSteps(r: Request, primary: BackendFamily, regions: seq<CompileRegion>, scope: BuildScope,
                  kept: ShapeNode -> nat, steps: ShapePoint -> nat)
    requires EnvelopeOf(r.level).performanceWarmup
    requires forall n :: kept(n) == KeptSteps(EnvelopeOf(r.level), scope, regions, n)
    requires forall p :: steps(p) == PointSteps(EnvelopeOf(r.level), scope.readiness, regions, p)
    ensures Sum([PerformanceNode(r, primary)] + HotNodes(r, primary), kept) ==
              (if Deferred(scope.readiness) then 2 * OnPlane(regions, Performance) else 0)
              + Sum(r.shapePolicy.hotShapes, steps)
  {
    hide KeptSteps, PointSteps, PerformanceNode, HotShapeNode, OnPlane, Deferred, Sum;
    SumAppend([PerformanceNode(r, primary)], HotNodes(r, primary), kept);
    SumOne(PerformanceNode(r, primary), kept);
    PerformanceSteps(r, primary, regions, scope);
    PointsSum(EnvelopeOf(r.level), "hot", r.shapePolicy.hotShapes, primary, regions, scope, kept, steps);
  }

  /** The warmup steps a plan asks for are those the request and its regions owe. */
  lemma StepsExactly(r: Request, s: Selection, regions: seq<CompileRegion>, scope: BuildScope)
    ensures var env := EnvelopeOf(r.level);
            var shapes := ScopedShapes(ShapeEnvelope(r, s, env), regions, scope);
            TotalSteps(Obligations(r.topology, shapes, regions, env, scope)) ==
              StepsOwed(r, regions, scope.readiness)
  {
    hide Sort, KeepsShape, ShapeSteps, StepsOwed, TotalSteps, Obligations, EnvelopeNodes;
    var env := EnvelopeOf(r.level);
    var steps := (n: ShapeNode) => ShapeSteps(env, scope.readiness, regions, n);
    var kept := (n: ShapeNode) => KeptSteps(env, scope, regions, n);
    var nodes := EnvelopeNodes(r, s.primary.family, env);
    ScopedSum(nodes, regions, scope, steps, kept);
    EnvelopeSteps(r, s.primary.family, regions, scope, kept);
    ObligationSteps(r.topology, ScopedShapes(ShapeEnvelope(r, s, env), regions, scope), regions, env, scope, steps);
  }
}
