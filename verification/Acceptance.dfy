/** When the planner accepts a request, read off the request and the planned regions. */
module Acceptance {
  import opened Ordering
  import opened Collections
  import opened Types
  import opened Scope
  import opened Planner
  import opened Plan
  import opened PlannerFacts
  import opened RequestNormalization
  import opened PlannerValidation
  import opened WarmupCoverage
  import opened Resolution
  import opened NodeNames
  import opened WarmupSteps
  import Lowering

  // ---------------------------------------------------------------------------
  // Residual shapes

  /** The residual tail survives scoping. */
  predicate ResidualKept(r: Request, regions: seq<CompileRegion>, readiness: Option<BuildReadiness>) {
    && r.backendPolicy.jitDisposition == ShapeBounded
    && Reaches(regions, Performance) && readiness != Some(CorrectnessBuild)
  }

  function CoveredNodes(r: Request, primary: BackendFamily, env: OptimizationEnvelope): seq<ShapeNode> {
    [CorrectnessNode(r, primary)]
    + (if env.performanceWarmup then [PerformanceNode(r, primary)] + HotNodes(r, primary) else [])
    + (if env.cudaGraphs then GraphNodes(r) else [])
  }

  lemma CoveredIsNotResidual(r: Request, primary: BackendFamily, env: OptimizationEnvelope, n: ShapeNode)
    requires n in CoveredNodes(r, primary, env)
    ensures n.intent != UncoveredResidual
  {
    HotNodesAre(r, primary, n);
    GraphNodesAre(r, n);
  }

  lemma CountAfterSorting(covered: seq<ShapeNode>, tail: seq<ShapeNode>, keeps: ShapeNode -> bool,
                          residual: ShapeNode -> bool)
    requires |tail| <= 1 && (forall n :: n in tail ==> residual(n)) && forall n :: n in covered ==> !residual(n)
    ensures |Filter(Sort(Filter(Sort(covered + tail, ShapeNodeLe), keeps), ShapeNodeLe), residual)| ==
              if tail != [] && keeps(tail[0]) then 1 else 0
  {
    hide Sort;
    var nodes := covered + tail;
    var kept := Filter(Sort(nodes, ShapeNodeLe), keeps);
    SortPermutes(nodes, ShapeNodeLe);
    PermutedFilter(Sort(nodes, ShapeNodeLe), nodes, keeps);
    SortPermutes(kept, ShapeNodeLe);
    PermutedFilter(Sort(kept, ShapeNodeLe), Filter(nodes, keeps), residual);
    FilterAppend(covered, tail, keeps);
    FilterAppend(Filter(covered, keeps), Filter(tail, keeps), residual);
    FilterNone(Filter(covered, keeps), residual);
    TailCount(tail, keeps, residual);
  }

  lemma ResidualCount(r: Request, s: Selection, env: OptimizationEnvelope, regions: seq<CompileRegion>,
                      scope: BuildScope)
    ensures CountResidual(ScopedShapes(ShapeEnvelope(r, s, env), regions, scope)) ==
              if ResidualKept(r, regions, scope.readiness) then 1 else 0
  {
    hide Sort, Filter, HotNodes, GraphNodes, Reaches;
    var covered := CoveredNodes(r, s.primary.family, env);
    var tail := if r.backendPolicy.jitDisposition == ShapeBounded then [ResidualNode(r, s.primary.family)] else [];
    assert EnvelopeNodes(r, s.primary.family, env) == covered + tail;
    forall n | n in covered ensures n.intent != UncoveredResidual {
      CoveredIsNotResidual(r, s.primary.family, env, n);
    }
    CountAfterSorting(covered, tail, (n: ShapeNode) => KeepsShape(n, regions, scope),
                      (n: ShapeNode) => n.intent == UncoveredResidual);
  }

  lemma TailCount(tail: seq<ShapeNode>, keeps: ShapeNode -> bool, residual: ShapeNode -> bool)
    requires |tail| <= 1 && forall n :: n in tail ==> residual(n)
    ensures |Filter(Filter(tail, keeps), residual)| == if tail != [] && keeps(tail[0]) then 1 else 0
  {
    if tail != [] {
      assert tail == [tail[0]] && tail[..0] == [];
      assert Filter(tail, keeps) == if keeps(tail[0]) then [tail[0]] else [];
    }
  }

  // ---------------------------------------------------------------------------
  // Artifact counts

  function AllowedRegions(regions: seq<CompileRegion>, scope: BuildScope): seq<CompileRegion> {
    Filter(regions, (region: CompileRegion) => scope.AllowsArtifactScope(region.name))
  }

  lemma {:induction false} PairsCount<T>(s: seq<T>, f: T -> seq<Requirement>)
    requires forall x :: x in s ==> |f(x)| == 2
    ensures |FlatMap(s, f)| == 2 * |s|
  {
    if s != [] {
      assert s[|s| - 1] in s;
      PairsCount(s[..|s| - 1], f);
    }
  }

  lemma {:induction false} RankLocalPairs(s: seq<CompileRegion>, f: CompileRegion -> seq<Requirement>)
    requires forall x :: x in s ==>
              |f(x)| == 2 && f(x)[0].rankDisposition == f(x)[1].rankDisposition == x.rankDisposition
    ensures CountRankLocal(FlatMap(s, f)) == 2 * |Filter(s, (x: CompileRegion) => x.rankDisposition == RankLocal)|
  {
    if s != [] {
      var last := s[|s| - 1];
      var local := (q: Requirement) => q.rankDisposition == RankLocal;
      assert last in s;
      RankLocalPairs(s[..|s| - 1], f);
      FilterAppend(FlatMap(s[..|s| - 1], f), f(last), local);
      PairFilter(f(last), local);
    }
  }

  lemma PairFilter(pair: seq<Requirement>, local: Requirement -> bool)
    requires |pair| == 2 && (local(pair[0]) <==> local(pair[1]))
    ensures |Filter(pair, local)| == if local(pair[0]) then 2 else 0
  {
    assert pair == [pair[0]] + [pair[1]] && pair[..1] == [pair[0]] && pair[..1][..0] == [];
    assert Filter(pair[..1], local) == if local(pair[0]) then [pair[0]] else [];
  }

  function CaptureCount(regions: seq<CompileRegion>, env: OptimizationEnvelope, scope: BuildScope): nat {
    if CapturesGraphs(regions, env, scope) then 1 else 0
  }

  lemma ArtifactCounts(r: Request, ws: seq<Witness>, shapes: seq<ShapeNode>, s: Selection, regions: seq<CompileRegion>,
                       env: OptimizationEnvelope, scope: BuildScope)
    ensures var requirements := ArtifactRequirements(r, ws, shapes, s, regions, env, scope);
            var allowed := AllowedRegions(regions, scope);
            && |requirements| == 2 * |allowed| + CaptureCount(regions, env, scope)
            && CountRankLocal(requirements) ==
                 2 * |Filter(allowed, (x: CompileRegion) => x.rankDisposition == RankLocal)|
                 + CaptureCount(regions, env, scope)
  {
    var pair := (region: CompileRegion) => [GraphRequirement(r, ws, shapes, s, region),
                                            BinaryRequirement(r, ws, shapes, s, region)];
    var local := (q: Requirement) => q.rankDisposition == RankLocal;
    var allowed := AllowedRegions(regions, scope);
    var capture := if CapturesGraphs(regions, env, scope) then [CaptureRequirement(r, ws, shapes)] else [];
    var unsorted := FlatMap(allowed, pair) + capture;
    PairsCount(allowed, pair);
    RankLocalPairs(allowed, pair);
    FilterAppend(FlatMap(allowed, pair), capture, local);
    assert capture != [] ==> capture[..0] == [] && local(capture[0]);
    assert Filter(capture, local) == capture;
    SortPermutes(unsorted, RequirementLe);
    SameMembers(Sort(unsorted, RequirementLe), unsorted);
    PermutedFilter(Sort(unsorted, RequirementLe), unsorted, local);
  }

  // ---------------------------------------------------------------------------
  // The nine conditions

  predicate Meets(achieved: GuaranteeLevel, target: GuaranteeTarget) {
    target.failureMode == FailClosed ==> LevelRank(target.level) <= LevelRank(achieved)
  }

  /** Nothing here needs the plan but its regions. */
  ghost predicate Acceptable(r: Request, scope: BuildScope, regions: seq<CompileRegion>) {
    var (env, policy) := (EnvelopeOf(r.level), r.backendPolicy);
    var residual := ResidualKept(r, regions, scope.readiness);
    var allowed := AllowedRegions(regions, scope);
    var captures := CaptureCount(regions, env, scope);
    && Meets(if residual then WarmupBounded else ShapeBoundedAot, policy.correctnessTarget)
    && Meets(if residual then WarmupBounded
             else if r.warmupPolicy.verifyCudaGraphCapture then StrictNoSurpriseJit else ShapeBoundedAot,
             policy.performanceTarget)
    && !SkipsHotShape(r, regions, scope.readiness)
    && !Clashes(r, regions, scope.readiness)
    && (policy.jitDisposition == ShapeBounded ==> policy.packaging == PreferPrebuiltThenAotThenJit)
    && (residual ==> policy.maxResidualNodes > 0)
    && Wrapped(StepsOwed(r, regions, scope.readiness)) <= env.maxWarmupSteps
    && 2 * |allowed| + captures <= env.maxArtifacts
    && 2 * |Filter(allowed, (x: CompileRegion) => x.rankDisposition == RankLocal)| + captures <= env.maxRankLocal
  }

  lemma GuaranteesAre(r: Request, shapes: seq<ShapeNode>, risks: seq<Risk>)
    ensures var (g, residual) := (GuaranteeOf(r, shapes, risks), CountResidual(shapes) > 0);
            && (Unmet(g.achievedCorrectness, g.requestedCorrectness) <==>
                  !Meets(if residual then WarmupBounded else ShapeBoundedAot, r.backendPolicy.correctnessTarget))
            && (Unmet(g.achievedPerformance, g.requestedPerformance) <==>
                  !Meets(if residual then WarmupBounded
                         else if r.warmupPolicy.verifyCudaGraphCapture then StrictNoSurpriseJit else ShapeBoundedAot,
                         r.backendPolicy.performanceTarget))
  {
    var residual := Filter(shapes, (n: ShapeNode) => n.intent == UncoveredResidual);
    if residual != [] {
      assert residual[0] in residual;
    }
  }

  lemma QuietExactly(r: Request, scope: BuildScope, p: BuildPlan)
    requires p.request == r && p.envelope == EnvelopeOf(r.level)
    requires p.guarantee == GuaranteeOf(r, p.shapes, p.guarantee.risks)
    requires MissesWarmup(p.shapes, p.obligations) && p.readiness != Some(EarlyServeBuild) <==>
              SkipsHotShape(r, p.regions, scope.readiness)
    requires DuplicateNames(p.graph.nodes) <==> Clashes(r, p.regions, scope.readiness)
    requires CountResidual(p.shapes) == if ResidualKept(r, p.regions, scope.readiness) then 1 else 0
    requires |p.requirements| == 2 * |AllowedRegions(p.regions, scope)| + CaptureCount(p.regions, p.envelope, scope)
    requires CountRankLocal(p.requirements) ==
               2 * |Filter(AllowedRegions(p.regions, scope), (x: CompileRegion) => x.rankDisposition == RankLocal)|
               + CaptureCount(p.regions, p.envelope, scope)
    requires TotalSteps(p.obligations) == StepsOwed(r, p.regions, scope.readiness)
    ensures Predicted(p) == [] <==> Acceptable(r, scope, p.regions)
  {
    hide MissesWarmup, SkipsHotShape, DuplicateNames, Clashes, CountResidual, ResidualKept, AllowedRegions,
         CaptureCount, CountRankLocal, GuaranteeOf, Unmet, Meets, EnvelopeOf, TotalSteps, StepsOwed, Filter;
    GuaranteesAre(r, p.shapes, p.guarantee.risks);
  }

  lemma MadeQuiet(host: Host, r: Request, survey: Survey, scope: BuildScope, ids: Digests, p: BuildPlan)
    requires SurveyHolds(survey) && Deduped(r) && MadeFrom(host, r, survey, scope, ids, p)
    ensures IssuesOf(p) == [] <==> Acceptable(r, scope, p.regions)
  {
    hide Obligations, Evidence, Lowering.GraphOf, CapabilityWitnesses, RewriteTrace, Registry, Selected,
         ArtifactRequirements, CompileRegions, ManifestOf, ScopedShapes, GuaranteeOf, Acceptable, Predicted, IssuesOf,
         SkipsHotShape, Clashes, Filter, MissesWarmup, DuplicateNames, CountResidual, CountRankLocal, AllowedRegions,
         CaptureCount, StepsOwed, TotalSteps;
    MadeIssues(host, r, survey, scope, ids, p);
    MissesExactly(r, scope, p);
    DuplicateNamesExactly(host, r, survey, scope, ids, p);
    ResidualCount(r, p.selection, p.envelope, p.regions, scope);
    ArtifactCounts(r, p.witnesses, p.shapes, p.selection, p.regions, p.envelope, scope);
    StepsExactly(r, p.selection, p.regions, scope);
    QuietExactly(r, scope, p);
  }

  /** The planner's answer to a request that can be planned: accepted exactly when nine
      conditions hold of the request and the planned regions. */
  lemma AcceptedExactly(host: Host, raw: Request, survey: Survey, scope: BuildScope, ids: Digests, p: BuildPlan)
    requires SurveyHolds(survey) && PlanFor(host, CanonicalBody(raw), survey, scope, ids) == Success(p)
    ensures Resolve(host, raw, survey, scope, ids).Success? <==> Acceptable(CanonicalBody(raw), scope, p.regions)
  {
    hide PlanFor, CanonicalBody, MadeFrom, IssuesOf, Acceptable;
    PlanIsMade(host, CanonicalBody(raw), survey, scope, ids);
    CanonicalIsDeduped(raw);
    MadeQuiet(host, CanonicalBody(raw), survey, scope, ids, p);
  }
}
