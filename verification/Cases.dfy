/** Requests against the adapter's survey: which are certain to be accepted, and the inputs
    on which expected properties fail. */
module Cases {
  import opened Ordering
  import opened Collections
  import opened Types
  import opened Scope
  import opened Accelerator
  import opened Planner
  import opened Plan
  import opened Resolution
  import opened RequestNormalization
  import opened PlannerFacts
  import opened WarmupCoverage
  import opened NodeNames
  import opened WarmupSteps
  import opened Acceptance
  import opened Feasibility
  import opened Adapter

  // ---------------------------------------------------------------------------
  // Accepted requests

  /** Under the adapter's survey every modest request with Triton among its families is
      accepted, on every known platform and host. */
  lemma AdapterBuildsAreAccepted(host: Host, raw: Request, ids: Digests)
    requires Modest(raw) && raw.environment.vendor != UnknownVendor && raw.backendPolicy.packaging != PrebuiltOnly
    requires Triton in raw.backendPolicy.preferredFamilies
    ensures SurveyHolds(AdapterSurvey) && Resolve(host, raw, AdapterSurvey, Unscoped, ids).Success?
  {
    hide Resolve, SurveyHolds, Modest, Filter;
    AdapterSurveyHolds();
    OneRankLocal(SurveyedLocally);
    RegionsAreFive(Prefill);
    ModestBuildsAreAccepted(host, raw, AdapterSurvey, ids, Prefill);
  }

  const SamplePolicy := BackendPolicy(
    [Triton], PreferPrebuiltThenAot, Forbidden, 0,
    GuaranteeTarget(ShapeBoundedAot, FailClosed), GuaranteeTarget(ShapeBoundedAot, FailClosed))

  const SampleRequest := Request(
    "model", "main", "vllm", "revision", Environment(Linux, Amd, [], "", "", "", ""), Topology(1, 1, 1),
    KvLayoutPolicy(StandardPaged, StandardMode, 50), SamplePolicy,
    ShapePolicy(ShapeRange(1, 8, 1, 4096), ShapeRange(1, 8, 1, 4096), [], []),
    CachePolicy("cache", false), WarmupPolicy(3, false), O0, [])

  lemma SampleIsAccepted(host: Host, ids: Digests)
    ensures SurveyHolds(AdapterSurvey) && Resolve(host, SampleRequest, AdapterSurvey, Unscoped, ids).Success?
  {
    hide Resolve, SurveyHolds;
    assert SamplePolicy.preferredFamilies[0] == Triton;
    AdapterBuildsAreAccepted(host, SampleRequest, ids);
  }

  // ---------------------------------------------------------------------------
  // CUDA graphs as the only family

  predicate Graphic(r: Request) {
    && r.environment.vendor == Nvidia && AnyArch(r.environment.gpuArches, SupportsGraphs)
    && r.backendPolicy.preferredFamilies == [CudaGraphs] && r.backendPolicy.packaging != PrebuiltOnly
  }

  lemma GraphWitness(host: Host, r: Request, survey: Survey)
    requires r.environment.vendor == Nvidia && AnyArch(r.environment.gpuArches, SupportsGraphs)
    ensures HasWitness(CapabilityWitnesses(host, r, survey), "cuda.graphs")
  {
    hide Sort, PlatformWitnesses, NvidiaVersions;
    var w := Witness("cuda.graphs", "available");
    assert NvidiaFeatures(r.environment)[0] == w;
    assert w in NvidiaWitnesses(host, r.environment);
    var unsorted := PlatformWitnesses(host, r.environment, survey)
                    + When(host.flashinferPrebuilt, Witness("flashinfer.prebuilt", "available"))
                    + NvidiaWitnesses(host, r.environment) + Map(survey.diagnostics, DiagnosticWitness);
    assert w in unsorted;
    SortPermutes(unsorted, WitnessLe);
    SameMembers(Sort(unsorted, WitnessLe), unsorted);
    assert w in CapabilityWitnesses(host, r, survey);
  }

  lemma GraphsAreAdmissible(r: Request, ws: seq<Witness>, c: Capability)
    requires c == Capability(CudaGraphs, [Nvidia], [LocalAotBuild], ["cuda.graphs"])
    requires r.environment.vendor == Nvidia && r.backendPolicy.packaging != PrebuiltOnly
    requires HasWitness(ws, "cuda.graphs")
    ensures FirstAdmissible(BackendProofs(r, ws, c)).Some?
  {
    var proof := BackendProofFor(r, ws, c, LocalAotBuild);
    assert c.vendors[0] == Nvidia;
    FilterNone(c.requiredWitnesses, (k: string) => !HasWitness(ws, k));
    assert proof.verdict == Admissible;
    assert BackendProofs(r, ws, c)[0] == proof;
    assert proof in BackendProofs(r, ws, c);
  }

  lemma GraphsAreViable(r: Request, ws: seq<Witness>)
    requires r.environment.vendor == Nvidia && r.backendPolicy.packaging != PrebuiltOnly
    requires HasWitness(ws, "cuda.graphs")
    ensures CandidateFor(r, ws, Registry(r), CudaGraphs).Some?
  {
    var graphs := AllCapabilities[1];
    assert graphs in Registry(r);
    var found := FindCapability(Registry(r), CudaGraphs);
    assert found.value in AllCapabilities;
    assert found.value == graphs;
    GraphsAreAdmissible(r, ws, graphs);
  }

  lemma WaysOf(c: Capability)
    requires c in AllCapabilities
    ensures c.family == CudaGraphs ==> c.acquisitions == [LocalAotBuild]
    ensures c.family == AotInductor ==> c.acquisitions == [UpstreamCacheBundle]
    ensures c.family == Triton ==> c.acquisitions == [LocalAotBuild]
  {
  }

  lemma OnlyWay(r: Request, ws: seq<Witness>, c: Capability, a: Acquisition)
    requires c.acquisitions == [a] && FirstAdmissible(BackendProofs(r, ws, c)).Some?
    ensures FirstAdmissible(BackendProofs(r, ws, c)).value.acquisition == a
  {
    hide FirstAdmissible;
    assert FirstAdmissible(BackendProofs(r, ws, c)).value in BackendProofs(r, ws, c);
  }

  lemma WayOf(r: Request, ws: seq<Witness>, f: BackendFamily, a: Acquisition)
    requires CandidateFor(r, ws, Registry(r), f).Some?
    requires forall c :: c in AllCapabilities && c.family == f ==> c.acquisitions == [a]
    ensures var c := CandidateFor(r, ws, Registry(r), f).value; c.family == f && c.acquisition == a
  {
    hide BackendProofs, FirstAdmissible, FindCapability;
    var found := FindCapability(Registry(r), f).value;
    assert found in Registry(r);
    OnlyWay(r, ws, found, a);
  }

  lemma CandidateIs(r: Request, ws: seq<Witness>)
    requires CandidateFor(r, ws, Registry(r), CudaGraphs).Some?
    ensures var c := CandidateFor(r, ws, Registry(r), CudaGraphs).value;
            c.family == CudaGraphs && c.acquisition == LocalAotBuild
  {
    hide CandidateFor, Registry;
    forall c | c in AllCapabilities && c.family == CudaGraphs ensures c.acquisitions == [LocalAotBuild] {
      WaysOf(c);
    }
    WayOf(r, ws, CudaGraphs, LocalAotBuild);
  }

  lemma GraphsAreSelected(host: Host, r: Request, survey: Survey)
    requires Graphic(r)
    ensures var selected := Selected(r, CapabilityWitnesses(host, r, survey), Registry(r));
            && selected.Success? && selected.value.primary.family == CudaGraphs
            && selected.value.primary.acquisition == LocalAotBuild && selected.value.secondary == []
  {
    hide CapabilityWitnesses, Registry, CandidateFor;
    var (ws, families) := (CapabilityWitnesses(host, r, survey), r.backendPolicy.preferredFamilies);
    GraphWitness(host, r, survey);
    GraphsAreViable(r, ws);
    CandidateIs(r, ws);
    assert families[..0] == [];
    assert Viable(r, ws, Registry(r), families) == [CandidateFor(r, ws, Registry(r), CudaGraphs).value];
  }

  /** The scope lets decode attention through. */
  predicate AdmitsDecode(scope: BuildScope) {
    && scope.AllowsRegion(DECODE) && scope.AllowsCacheNamespace(Decode.cacheNamespace)
    && scope.AllowsWarmupScope(DECODE)
    && scope.AllowsRankDisposition(RankLocal) && scope.AllowsFamily(CudaGraphs)
  }

  lemma GraphRequestIsPlanned(host: Host, r: Request, scope: BuildScope, ids: Digests) returns (p: BuildPlan)
    requires Graphic(r) && AdmitsDecode(scope)
    ensures PlanFor(host, r, AdapterSurvey, scope, ids) == Success(p) && MadeFrom(host, r, AdapterSurvey, scope, ids, p)
    ensures p.selection.primary.family == CudaGraphs && p.selection.primary.acquisition == LocalAotBuild
    ensures p.selection.secondary == [] && CompileRegionOf(Decode, p.selection) in p.regions
  {
    hide CapabilityWitnesses, Registry, CompileRegions, PlanFor, CompileRegionOf, Selected, MadeFrom;
    GraphsAreSelected(host, r, AdapterSurvey);
    var s := Narrowed(Selected(r, CapabilityWitnesses(host, r, AdapterSurvey), Registry(r)).value, EnvelopeOf(r.level));
    DecodeIsKept(s, scope);
    SettledPlans(host, r, AdapterSurvey, scope, ids, s, CompileRegions(s, AdapterSurvey, scope));
    p := PlanFor(host, r, AdapterSurvey, scope, ids).value;
    PlanIsMade(host, r, AdapterSurvey, scope, ids);
    MadeSelection(host, r, AdapterSurvey, scope, ids, p);
  }

  lemma DecodeIsKept(s: Selection, scope: BuildScope)
    requires AdmitsDecode(scope) && s.primary.family == CudaGraphs
    ensures CompileRegionOf(Decode, s) in CompileRegions(s, AdapterSurvey, scope)
  {
    hide CompileRegions, CompileRegionOf;
    RegionsAreFive(Decode);
    assert KeepsRegion(Decode, s, scope);
    RegionsAre(s, AdapterSurvey, scope, CompileRegionOf(Decode, s));
  }

  lemma MadeSelection(host: Host, r: Request, survey: Survey, scope: BuildScope, ids: Digests, p: BuildPlan)
    requires MadeFrom(host, r, survey, scope, ids, p)
    ensures Selected(r, CapabilityWitnesses(host, r, survey), Registry(r)).Success?
    ensures p.selection ==
              Narrowed(Selected(r, CapabilityWitnesses(host, r, survey), Registry(r)).value, EnvelopeOf(r.level))
    ensures p.regions == CompileRegions(p.selection, survey, scope)
  {
    hide CapabilityWitnesses, Registry, CompileRegions, Selected, ScopedShapes, ShapeEnvelope, ArtifactRequirements,
         Obligations, ManifestOf, Evidence, RewriteTrace, GuaranteeOf;
  }

  lemma SortedOnce<T(!new)>(x: T, le: (T, T) -> bool)
    ensures SortDedup([x], le) == [x]
  {
    assert [x][1..] == [];
    assert Sort([x][1..], le) == [] && Insert(x, [], le) == [x];
    assert Sort([x], le) == [x];
  }

  lemma CanonicalStaysGraphic(raw: Request)
    requires Graphic(raw)
    ensures Graphic(CanonicalBody(raw))
  {
    hide SortDedup;
    SortedOnce(CudaGraphs, FamilyLe);
    StringOrder();
    SortDedupMembers(raw.environment.gpuArches, StringLe);
    var (arches, sorted) := (raw.environment.gpuArches, SortDedup(raw.environment.gpuArches, StringLe));
    var a :| a in arches && Supported(a, SupportsGraphs);
    assert a in Elements(arches) && a in Elements(sorted);
    assert a in sorted;
  }

  // ---------------------------------------------------------------------------
  // A plan whose own warmups are incomplete

  lemma LocalRegionCounts(regions: seq<CompileRegion>, scope: BuildScope, region: CompileRegion)
    requires region in regions && region.rankDisposition == RankLocal && scope.AllowsArtifactScope(region.name)
    ensures |Filter(AllowedRegions(regions, scope), (x: CompileRegion) => x.rankDisposition == RankLocal)| >= 1
  {
    assert region in AllowedRegions(regions, scope);
    assert region in Filter(AllowedRegions(regions, scope), (x: CompileRegion) => x.rankDisposition == RankLocal);
  }

  lemma OverBudget(p: BuildPlan)
    requires CountRankLocal(p.requirements) > p.envelope.maxRankLocal
    ensures RankLocalBudgetExceeded in IssuesOf(p)
  {
    hide IssuesOf, SelectionIssues, CoverageIssues, ProofIssues, RecordIssues, CountRankLocal, TotalSteps,
         CountResidual;
    IssuesAre(p);
    assert RankLocalBudgetExceeded in BudgetIssues(p);
  }

  /** Where every region on the CUDA-graph plane is rank-local, as in the adapter's survey, a
      plan that leaves out one of its warmups is always over its rank-local budget too. */
  lemma SkippedIsOverBudget(host: Host, r: Request, survey: Survey, scope: BuildScope, ids: Digests, p: BuildPlan)
    requires SurveyHolds(survey) && PlanFor(host, r, survey, scope, ids) == Success(p)
    requires forall region :: region in survey.regions && CudaGraph in region.planes ==>
              region.rankDisposition == RankLocal
    requires WarmupIncomplete in IssuesOf(p)
    ensures RankLocalBudgetExceeded in IssuesOf(p)
  {
    hide PlanFor, IssuesOf, CapabilityWitnesses, Registry, CompileRegions, Selected, ScopedShapes, ShapeEnvelope,
         ArtifactRequirements, Obligations, ManifestOf, Evidence, RewriteTrace, GuaranteeOf, CountRankLocal, Filter,
         AllowedRegions;
    WarmupIncompleteExactly(host, r, survey, scope, ids);
    PlanIsMade(host, r, survey, scope, ids);
    var region :| region in p.regions && CudaGraph in region.planes;
    RegionsAre(p.selection, survey, scope, region);
    var sr :| sr in survey.regions && KeepsRegion(sr, p.selection, scope) && region == CompileRegionOf(sr, p.selection);
    assert scope.AllowsArtifactScope(region.name);
    LocalRegionCounts(p.regions, scope, region);
    ArtifactCounts(r, p.witnesses, p.shapes, p.selection, p.regions, p.envelope, scope);
    OverBudget(p);
  }

  const ARCH := "sm90"

  const GraphPoint := ShapePoint(1, 1, CudaGraph)

  const GraphRequest := SampleRequest.(
    level := O1, environment := SampleRequest.environment.(vendor := Nvidia, gpuArches := [ARCH]),
    backendPolicy := SamplePolicy.(preferredFamilies := [CudaGraphs]),
    shapePolicy := SampleRequest.shapePolicy.(hotShapes := [GraphPoint]))

  lemma GraphRequestIs()
    ensures Graphic(GraphRequest) && CanonicalBody(GraphRequest).level == O1
    ensures CanonicalBody(GraphRequest).shapePolicy.hotShapes == [GraphPoint]
  {
    hide SortDedup, ParseNvidiaClass;
    UnderscoredHopper();
    assert GraphRequest.environment.gpuArches[0] == ARCH && Supported(ARCH, SupportsGraphs);
    SortedOnce(GraphPoint, ShapeLe);
  }

  lemma DecodeIsPlanned(s: Selection)
    ensures var region := CompileRegionOf(Decode, s);
            region.name == DECODE && CudaGraph in region.planes && region.rankDisposition == RankLocal
  {
    assert Decode.planes[2] == CudaGraph;
  }

  lemma GraphPointIsSkipped(r: Request, regions: seq<CompileRegion>, region: CompileRegion)
    requires r.level == O1 && r.shapePolicy.hotShapes == [GraphPoint] && region in regions && CudaGraph in region.planes
    ensures SkipsHotShape(r, regions, None)
  {
    assert GraphPoint in r.shapePolicy.hotShapes && Skipped(r, regions, GraphPoint);
  }

  /** On every host, a request for CUDA graphs on an architecture that captures them, at O1 with
      a hot shape on the CUDA-graph plane is planned and then rejected: for a warmup the planner
      leaves out itself, and for the rank-local budget. */
  lemma GraphRequestIsRejected(host: Host, ids: Digests) returns (p: BuildPlan)
    ensures SurveyHolds(AdapterSurvey) && Resolve(host, GraphRequest, AdapterSurvey, Unscoped, ids).Failure?
    ensures PlanFor(host, CanonicalBody(GraphRequest), AdapterSurvey, Unscoped, ids) == Success(p)
    ensures WarmupIncomplete in IssuesOf(p) && RankLocalBudgetExceeded in IssuesOf(p)
  {
    hide PlanFor, IssuesOf, SkipsHotShape, SurveyHolds, Resolve, CanonicalBody, MadeFrom, Acceptable, Graphic;
    AdapterSurveyHolds();
    GraphRequestIs();
    CanonicalStaysGraphic(GraphRequest);
    var r := CanonicalBody(GraphRequest);
    p := GraphRequestIsPlanned(host, r, Unscoped, ids);
    DecodeIsPlanned(p.selection);
    GraphPointIsSkipped(r, p.regions, CompileRegionOf(Decode, p.selection));
    WarmupIncompleteExactly(host, r, AdapterSurvey, Unscoped, ids);
    OnlyDecodeCaptures();
    SkippedIsOverBudget(host, r, AdapterSurvey, Unscoped, ids, p);
    SkippingIsUnacceptable(r, p.regions);
    AcceptedExactly(host, GraphRequest, AdapterSurvey, Unscoped, ids, p);
  }

  lemma SkippingIsUnacceptable(r: Request, regions: seq<CompileRegion>)
    requires SkipsHotShape(r, regions, None)
    ensures !Acceptable(r, Unscoped, regions)
  {
  }

  lemma OnlyDecodeCaptures()
    ensures forall region :: region in Regions && CudaGraph in region.planes ==> region.rankDisposition == RankLocal
  {
    forall region | region in Regions && CudaGraph in region.planes ensures region.rankDisposition == RankLocal {
      RegionsAreFive(region);
    }
  }

  // ---------------------------------------------------------------------------
  // A plan with two nodes of one name

  const EagerPoint := ShapePoint(1, 1, Correctness)

  const TunedPoint := ShapePoint(1, 1, Performance)

  function HotRequest(points: seq<ShapePoint>): Request {
    SampleRequest.(level := O2, shapePolicy := SampleRequest.shapePolicy.(hotShapes := points))
  }

  lemma HotRequestKeeps(points: seq<ShapePoint>)
    ensures var r := CanonicalBody(HotRequest(points));
            && r.level == O2 && Triton in r.backendPolicy.preferredFamilies && r.environment.vendor == Amd
            && r.backendPolicy.packaging == PreferPrebuiltThenAot && r.backendPolicy.jitDisposition == Forbidden
            && !r.warmupPolicy.verifyCudaGraphCapture && r.shapePolicy.cudaGraphShapes == []
            && r.backendPolicy.correctnessTarget == r.backendPolicy.performanceTarget ==
                 GuaranteeTarget(ShapeBoundedAot, FailClosed)
            && r.shapePolicy.hotShapes == SortDedup(points, ShapeLe)
  {
    SortedOnce(Triton, FamilyLe);
  }

  lemma HotRequestIsPlanned(host: Host, r: Request, points: seq<ShapePoint>, ids: Digests) returns (p: BuildPlan)
    requires r == CanonicalBody(HotRequest(points))
    ensures PlanFor(host, r, AdapterSurvey, Unscoped, ids) == Success(p)
    ensures MadeFrom(host, r, AdapterSurvey, Unscoped, ids, p) && CompileRegionOf(Prefill, p.selection) in p.regions
  {
    hide PlanFor, CanonicalBody, MadeFrom, CompileRegions, CompileRegionOf, Selected, CapabilityWitnesses, Registry,
         SortDedup, HotRequest;
    HotRequestKeeps(points);
    RegionsAreFive(Prefill);
    TritonRequestIsPlanned(host, r, AdapterSurvey, ids, Prefill);
    p := PlanFor(host, r, AdapterSurvey, Unscoped, ids).value;
    PlanIsMade(host, r, AdapterSurvey, Unscoped, ids);
    MadeSelection(host, r, AdapterSurvey, Unscoped, ids, p);
    PrefillIsKept(p.selection);
  }

  lemma PrefillIsKept(s: Selection)
    ensures CompileRegionOf(Prefill, s) in CompileRegions(s, AdapterSurvey, Unscoped)
  {
    hide CompileRegions, CompileRegionOf;
    RegionsAreFive(Prefill);
    assert KeepsRegion(Prefill, s, Unscoped);
    RegionsAre(s, AdapterSurvey, Unscoped, CompileRegionOf(Prefill, s));
  }

  lemma PointsCollide(r: Request, regions: seq<CompileRegion>, region: CompileRegion)
    requires r.level == O2 && EagerPoint in r.shapePolicy.hotShapes && TunedPoint in r.shapePolicy.hotShapes
    requires region in regions && region.planes == [Correctness, Performance]
    ensures Clashes(r, regions, None)
  {
    assert region.planes[0] == Correctness && region.planes[1] == Performance;
    assert Reaches(regions, Correctness) && Reaches(regions, Performance);
    assert WarmsPoint(EnvelopeOf(O2), regions, region, EagerPoint)
           && WarmsPoint(EnvelopeOf(O2), regions, region, TunedPoint);
    assert Collide(EnvelopeOf(O2), regions, r.shapePolicy.hotShapes, EagerPoint, TunedPoint);
  }

  lemma BothPointsAreHot()
    ensures EagerPoint in SortDedup([EagerPoint, TunedPoint], ShapeLe)
    ensures TunedPoint in SortDedup([EagerPoint, TunedPoint], ShapeLe)
  {
    hide SortDedup;
    var points := [EagerPoint, TunedPoint];
    ShapeOrder();
    SortDedupMembers(points, ShapeLe);
    assert points[0] in Elements(points) && points[1] in Elements(points);
    assert Elements(SortDedup(points, ShapeLe)) == Elements(points);
  }

  /** Two hot shapes of one size, one on the correctness and one on the performance plane, give
      the plan two warmup nodes of one name, for which it is rejected. */
  lemma ClashingRequestIsRejected(host: Host, ids: Digests) returns (p: BuildPlan)
    ensures var raw := HotRequest([EagerPoint, TunedPoint]);
            && SurveyHolds(AdapterSurvey) && Resolve(host, raw, AdapterSurvey, Unscoped, ids).Failure?
            && PlanFor(host, CanonicalBody(raw), AdapterSurvey, Unscoped, ids) == Success(p)
            && DuplicateNames(p.graph.nodes)
  {
    hide PlanFor, SurveyHolds, Resolve, CanonicalBody, MadeFrom, Acceptable, Clashes, DuplicateNames, SortDedup,
         HotRequest, Deduped;
    var raw := HotRequest([EagerPoint, TunedPoint]);
    var r := CanonicalBody(raw);
    AdapterSurveyHolds();
    HotRequestKeeps([EagerPoint, TunedPoint]);
    BothPointsAreHot();
    p := HotRequestIsPlanned(host, r, [EagerPoint, TunedPoint], ids);
    PointsCollide(r, p.regions, CompileRegionOf(Prefill, p.selection));
    CanonicalIsDeduped(raw);
    DuplicateNamesExactly(host, r, AdapterSurvey, Unscoped, ids, p);
    ClashingIsUnacceptable(r, p.regions);
    AcceptedExactly(host, raw, AdapterSurvey, Unscoped, ids, p);
  }

  lemma ClashingIsUnacceptable(r: Request, regions: seq<CompileRegion>)
    requires Clashes(r, regions, None)
    ensures !Acceptable(r, Unscoped, regions)
  {
  }

  lemma OnePointIsAcceptable(r: Request, s: Selection, regions: seq<CompileRegion>, p: ShapePoint)
    requires r.level == O2 && r.backendPolicy.jitDisposition == Forbidden && !r.warmupPolicy.verifyCudaGraphCapture
    requires r.backendPolicy.correctnessTarget == r.backendPolicy.performanceTarget ==
              GuaranteeTarget(ShapeBoundedAot, FailClosed)
    requires r.shapePolicy.cudaGraphShapes == [] && r.shapePolicy.hotShapes == [p]
    requires regions == CompileRegions(s, AdapterSurvey, Unscoped)
    ensures Acceptable(r, Unscoped, regions)
  {
    hide CompileRegions, Filter;
    RegionCount(s, AdapterSurvey, Unscoped);
    OneRankLocal(SurveyedLocally);
    AllAllowed(regions);
    SameCount(regions, PlannedLocally, (x: CompileRegion) => x.rankDisposition == RankLocal);
    SumOne(p, (x: ShapePoint) => PointSteps(EnvelopeOf(O2), None, regions, x));
  }

  /** With either point alone, the same request is accepted. */
  lemma OnePointIsAccepted(host: Host, p: ShapePoint, ids: Digests)
    ensures SurveyHolds(AdapterSurvey) && Resolve(host, HotRequest([p]), AdapterSurvey, Unscoped, ids).Success?
  {
    hide PlanFor, SurveyHolds, Resolve, CanonicalBody, MadeFrom, Acceptable, SortDedup, HotRequest;
    var raw := HotRequest([p]);
    var r := CanonicalBody(raw);
    AdapterSurveyHolds();
    HotRequestKeeps([p]);
    SortedOnce(p, ShapeLe);
    var plan := HotRequestIsPlanned(host, r, [p], ids);
    MadeSelection(host, r, AdapterSurvey, Unscoped, ids, plan);
    OnePointIsAcceptable(r, plan.selection, plan.regions, p);
    AcceptedExactly(host, raw, AdapterSurvey, Unscoped, ids, plan);
  }
}
