/** The planner: from a canonical request, a host and an adapter survey to a build plan.
    Formatted reasons and summaries are left out; hashes are the values they hash. */
module Planner {
  import opened Ordering
  import opened Collections
  import opened Types
  import opened Scope
  import opened Decimal
  import opened Accelerator
  import ArtifactCache

  datatype Result<+T, +E> = Success(value: T) | Failure(error: E) {
    predicate IsFailure() { Failure? }
    function PropagateFailure<U>(): Result<U, E> requires Failure? { Failure(error) }
    function Extract(): T requires Success? { value }
  }

  datatype PlanError =
    | UnsupportedPlatform
    | NoAdmissibleBackend
    | EmptyRegionClosure
    | RegionBackendAbsent(family: BackendFamily)
    | RegionBackendInadmissible(family: BackendFamily)

  /** What host discovery tells the planner. */
  datatype Host = Host(
    vendor: AcceleratorVendor, gpuArches: seq<string>, cudaVersion: string, driverVersion: string, pythonAbi: string,
    libcAbi: string, flashinferPrebuilt: bool, deviceCount: u16)

  function ContractOf(host: Host): RuntimeContract {
    ContractFor(host.vendor, host.gpuArches, host.deviceCount, host.flashinferPrebuilt)
  }

  datatype OptimizationEnvelope = OptimizationEnvelope(
    level: OptimizationLevel, compileSecondary: bool, performanceWarmup: bool, cudaGraphs: bool, autotune: bool,
    maxWarmupSteps: nat, maxArtifacts: nat, maxRankLocal: nat)

  function EnvelopeOf(level: OptimizationLevel): OptimizationEnvelope {
    match level
    case O0 => OptimizationEnvelope(O0, false, false, false, false, 16, 12, 2)
    case O1 => OptimizationEnvelope(O1, false, true, false, true, 8, 6, 0)
    case O2 => OptimizationEnvelope(O2, true, true, true, true, 32, 12, 4)
    case O3 => OptimizationEnvelope(O3, true, true, true, true, 48, 16, 6)
  }

  function FamilyName(f: BackendFamily): string {
    match f
    case FlashInfer => "flashinfer"
    case Triton => "triton"
    case AotInductor => "aot-inductor"
    case CudaGraphs => "cuda-graphs"
  }

  function Join(parts: seq<string>): string {
    if parts == [] then "" else if |parts| == 1 then parts[0] else parts[0] + "," + Join(parts[1..])
  }

  function VendorName(v: AcceleratorVendor): string {
    match v
    case Nvidia => "Nvidia"
    case Amd => "Amd"
    case UnknownVendor => "Unknown"
  }

  // ---------------------------------------------------------------------------
  // Capability witnesses and backends

  predicate WitnessLe(a: Witness, b: Witness) {
    StringLt(a.key, b.key) || (a.key == b.key && StringLe(a.value, b.value))
  }

  function When(condition: bool, w: Witness): seq<Witness> { if condition then [w] else [] }

  function NvidiaVersions(host: Host, env: Environment): seq<Witness> {
    When(env.gpuArches != [], Witness("nvidia.compute_capability", Join(env.gpuArches)))
    + When(env.driverVersion != [], Witness("nvidia.driver_version", env.driverVersion))
    + When(env.cudaVersion != [], Witness("cuda.runtime_version", env.cudaVersion))
    + When(ContractOf(host).pciBusOrder, Witness("cuda.device_order.pci_bus_id", "true"))
  }

  function NvidiaFeatures(env: Environment): seq<Witness> {
    When(AnyArch(env.gpuArches, SupportsGraphs), Witness("cuda.graphs", "available"))
    + When(AnyArch(env.gpuArches, SupportsTma), Witness("nvidia.tma", "available"))
    + When(AnyArch(env.gpuArches, SupportsNvfp4), Witness("nvidia.nvfp4", "available"))
  }

  function NvidiaWitnesses(host: Host, env: Environment): seq<Witness> {
    NvidiaVersions(host, env) + NvidiaFeatures(env)
  }

  function PlatformWitnesses(host: Host, env: Environment, survey: Survey): seq<Witness> {
    [Witness("platform.os", "Linux"),
     Witness("platform.gpu_vendor", VendorName(env.vendor)),
     Witness("platform.gpu_arches", Join(env.gpuArches)),
     Witness("platform.cuda", env.cudaVersion),
     Witness("platform.device_count", NatText(host.deviceCount)),
     Witness("runtime.profile", ContractOf(host).profile),
     Witness("runtime.vllm_target_device", ContractOf(host).targetDevice),
     Witness("platform.python_abi", env.pythonAbi),
     Witness("engine.revision", survey.engineRevision),
     Witness("adapter.compile_region_count", NatText(|survey.regions|)),
     Witness("adapter.residual_surface_count", NatText(|survey.jitSurfaces|))]
  }

  function DiagnosticWitness(d: (string, string)): Witness {
    Witness("adapter.diagnostic." + ArtifactCache.Slug(d.0), d.1)
  }

  function CapabilityWitnesses(host: Host, r: Request, survey: Survey): seq<Witness> {
    Sort(PlatformWitnesses(host, r.environment, survey)
         + When(host.flashinferPrebuilt, Witness("flashinfer.prebuilt", "available"))
         + (if r.environment.vendor == Nvidia then NvidiaWitnesses(host, r.environment) else [])
         + Map(survey.diagnostics, DiagnosticWitness),
         WitnessLe)
  }

  predicate HasWitness(ws: seq<Witness>, key: string) { exists w | w in ws :: w.key == key }

  const AllCapabilities: seq<Capability> := [
    Capability(AotInductor, [Nvidia], [UpstreamCacheBundle], ["nvidia.tma"]),
    Capability(CudaGraphs, [Nvidia], [LocalAotBuild], ["cuda.graphs"]),
    Capability(FlashInfer, [Nvidia], [VendorPrebuilt, LocalSourceBuild], ["flashinfer.prebuilt"]),
    Capability(Triton, [Nvidia, Amd], [LocalAotBuild], [])]

  /** The registry, in the order of family names. */
  function Registry(r: Request): seq<Capability> {
    Filter(AllCapabilities, (c: Capability) => r.environment.vendor in c.vendors)
  }

  function PackagingReasons(p: PackagingStrategy, a: Acquisition): seq<string> {
    match p
    case PrebuiltOnly =>
      if a != VendorPrebuilt then ["policy requires vendor prebuilt closure only"] else []
    case PreferPrebuiltThenAot =>
      if a == LocalSourceBuild then ["policy stops at prebuilt and stable AoT materialization"] else []
    case PreferPrebuiltThenAotThenJit => []
  }

  function BackendProofFor(r: Request, ws: seq<Witness>, c: Capability, a: Acquisition): BackendProof {
    var missing := Filter(c.requiredWitnesses, (k: string) => !HasWitness(ws, k));
    var reasons := (if r.environment.vendor !in c.vendors then ["unsupported accelerator vendor"] else [])
                   + Map(missing, (k: string) => "missing witness `" + k + "`")
                   + PackagingReasons(r.backendPolicy.packaging, a);
    BackendProof(if reasons == [] then Admissible else Rejected, c.family, a, c.requiredWitnesses,
                 Filter(c.requiredWitnesses, (k: string) => HasWitness(ws, k)), reasons)
  }

  function BackendProofs(r: Request, ws: seq<Witness>, c: Capability): seq<BackendProof> {
    Map(c.acquisitions, (a: Acquisition) => BackendProofFor(r, ws, c, a))
  }

  function FirstAdmissible(proofs: seq<BackendProof>): (p: Option<BackendProof>)
    ensures p.Some? ==> p.value in proofs && p.value.verdict == Admissible
    ensures p.None? ==> forall q :: q in proofs ==> q.verdict != Admissible
  {
    if proofs == [] then None
    else
      assert proofs == [proofs[0]] + proofs[1..];
      if proofs[0].verdict == Admissible then Some(proofs[0]) else FirstAdmissible(proofs[1..])
  }

  function FindCapability(registry: seq<Capability>, family: BackendFamily): (c: Option<Capability>)
    ensures c.Some? ==> c.value in registry && c.value.family == family
    ensures c.None? ==> forall d :: d in registry ==> d.family != family
  {
    if registry == [] then None
    else
      assert registry == [registry[0]] + registry[1..];
      if registry[0].family == family then Some(registry[0]) else FindCapability(registry[1..], family)
  }

  function CandidateFor(r: Request, ws: seq<Witness>, registry: seq<Capability>,
                        family: BackendFamily): Option<Candidate> {
    match FindCapability(registry, family)
    case None => None
    case Some(c) =>
      match FirstAdmissible(BackendProofs(r, ws, c))
      case None => None
      case Some(p) => Some(Candidate(family, p.acquisition, p))
  }

  function Viable(r: Request, ws: seq<Witness>, registry: seq<Capability>,
                  families: seq<BackendFamily>): seq<Candidate> {
    if families == [] then []
    else
      var last := families[|families| - 1];
      Viable(r, ws, registry, families[..|families| - 1])
      + match CandidateFor(r, ws, registry, last) case Some(c) => [c] case None => []
  }

  function Selected(r: Request, ws: seq<Witness>, registry: seq<Capability>): Result<Selection, PlanError> {
    if r.environment.vendor == UnknownVendor then Failure(UnsupportedPlatform)
    else
      var viable := Viable(r, ws, registry, r.backendPolicy.preferredFamilies);
      if viable == [] then Failure(NoAdmissibleBackend) else Success(Selection(viable[0], viable[1..]))
  }

  method SelectBackends(r: Request, ws: seq<Witness>, registry: seq<Capability>)
    returns (selection: Result<Selection, PlanError>)
    ensures selection == Selected(r, ws, registry)
  {
    if r.environment.vendor == UnknownVendor {
      return Failure(UnsupportedPlatform);
    }
    var families := r.backendPolicy.preferredFamilies;
    var viable := [];
    for i := 0 to |families|
      invariant viable == Viable(r, ws, registry, families[..i])
    {
      assert families[..i + 1][..i] == families[..i];
      var capability := FindCapability(registry, families[i]);
      if capability.None? {
        continue;
      }
      var proof := FirstAdmissible(BackendProofs(r, ws, capability.value));
      if proof.Some? {
        viable := viable + [Candidate(families[i], proof.value.acquisition, proof.value)];
      }
    }
    assert families[..|families|] == families;
    if viable == [] {
      return Failure(NoAdmissibleBackend);
    }
    return Success(Selection(viable[0], viable[1..]));
  }

  // ---------------------------------------------------------------------------
  // Compile regions

  function ResolveBinding(b: BackendBinding, s: Selection): BackendFamily {
    match b
    case Primary => s.primary.family
    case Fixed(f) => f
  }

  predicate Selects(s: Selection, f: BackendFamily) {
    s.primary.family == f || exists c | c in s.secondary :: c.family == f
  }

  predicate BindingAdmissible(b: BackendBinding, s: Selection) {
    match b
    case Primary => true
    case Fixed(f) => Selects(s, f)
  }

  predicate KeepsRegion(region: SurveyRegion, s: Selection, scope: BuildScope) {
    && region.candidate
    && scope.AllowsRegion(region.name)
    && scope.AllowsCacheNamespace(region.cacheNamespace)
    && scope.AllowsWarmupScope(region.warmupScope)
    && scope.AllowsRankDisposition(region.rankDisposition)
    && BindingAdmissible(region.binding, s)
    && scope.AllowsFamily(ResolveBinding(region.binding, s))
  }

  function EquivalenceOf(region: SurveyRegion, family: BackendFamily): EquivalenceIdentity {
    EquivalenceIdentity(
      region.kind, family, region.boundaries, region.invalidationDomain, region.planes, region.portability,
      region.rankDisposition, region.topologySensitive, region.cacheNamespace, region.warmupScope,
      region.cacheSharing, region.portabilityScope, region.topologyScope)
  }

  function CompileRegionOf(region: SurveyRegion, s: Selection): CompileRegion {
    var family := ResolveBinding(region.binding, s);
    var equivalence := EquivalenceOf(region, family);
    CompileRegion(
      region.name, family, region.invalidationDomain, region.planes,
      StableIdentity(region.name, equivalence, region.criteria), equivalence,
      region.cacheNamespace, region.cacheSharing, region.portability, region.rankDisposition,
      region.warmupScope, region.anchors)
  }

  predicate RegionLe(a: CompileRegion, b: CompileRegion) { StringLe(a.name, b.name) }

  function CompileRegions(s: Selection, survey: Survey, scope: BuildScope): seq<CompileRegion> {
    Sort(Map(Filter(survey.regions, (region: SurveyRegion) => KeepsRegion(region, s, scope)),
             (region: SurveyRegion) => CompileRegionOf(region, s)),
         RegionLe)
  }

  function Expanded(r: Request, ws: seq<Witness>, registry: seq<Capability>, candidates: seq<Candidate>,
                    regions: seq<CompileRegion>): (e: Result<seq<Candidate>, PlanError>)
    ensures e.Success? ==> candidates <= e.value
    decreases regions
  {
    if regions == [] then Success(candidates)
    else
      var family := regions[0].family;
      if exists c | c in candidates :: c.family == family
      then Expanded(r, ws, registry, candidates, regions[1..])
      else if FindCapability(registry, family).None? then Failure(RegionBackendAbsent(family))
      else
        match CandidateFor(r, ws, registry, family)
        case None => Failure(RegionBackendInadmissible(family))
        case Some(c) => Expanded(r, ws, registry, candidates + [c], regions[1..])
  }

  method ExpandSelectedBackends(r: Request, ws: seq<Witness>, registry: seq<Capability>, s: Selection,
                                regions: seq<CompileRegion>)
    returns (selection: Result<Selection, PlanError>)
    ensures Expanded(r, ws, registry, s.All(), regions).Success? <==> selection.Success?
    ensures selection.Success? ==> selection.value.All() == Expanded(r, ws, registry, s.All(), regions).value
    ensures selection.Failure? ==> selection.error == Expanded(r, ws, registry, s.All(), regions).error
  {
    var candidates := s.All();
    for i := 0 to |regions|
      invariant candidates != []
      invariant Expanded(r, ws, registry, s.All(), regions) == Expanded(r, ws, registry, candidates, regions[i..])
    {
      assert regions[i..][1..] == regions[i + 1..];
      var family := regions[i].family;
      if exists c | c in candidates :: c.family == family {
        continue;
      }
      var capability := FindCapability(registry, family);
      if capability.None? {
        return Failure(RegionBackendAbsent(family));
      }
      var proof := FirstAdmissible(BackendProofs(r, ws, capability.value));
      if proof.None? {
        return Failure(RegionBackendInadmissible(family));
      }
      candidates := candidates + [Candidate(family, proof.value.acquisition, proof.value)];
    }
    var expanded := Selection(candidates[0], candidates[1..]);
    assert expanded.All() == candidates;
    return Success(expanded);
  }

  // ---------------------------------------------------------------------------
  // Shape envelope

  function ShapeName(prefix: string, p: ShapePoint): string {
    prefix + "-b" + NatText(p.batch) + "-s" + NatText(p.sequence)
  }

  function HotShapeNode(prefix: string, p: ShapePoint, backend: BackendFamily): ShapeNode {
    ShapeNode(ShapeName(prefix, p), p.plane, ExactHotShape,
              ShapeRange(p.batch, p.batch, p.sequence, p.sequence), Some(p), backend)
  }

  predicate ShapeNodeLe(a: ShapeNode, b: ShapeNode) {
    StringLt(a.name, b.name) || (a.name == b.name && PlaneRank(a.plane) <= PlaneRank(b.plane))
  }

  function CorrectnessNode(r: Request, primary: BackendFamily): ShapeNode {
    ShapeNode("correctness-range", Correctness, SymbolicRange, r.shapePolicy.correctnessRange, None, primary)
  }

  function PerformanceNode(r: Request, primary: BackendFamily): ShapeNode {
    ShapeNode("performance-range", Performance, FallbackRange, r.shapePolicy.performanceRange, None, primary)
  }

  function ResidualNode(r: Request, primary: BackendFamily): ShapeNode {
    ShapeNode("residual-dynamic-tail", Performance, UncoveredResidual, r.shapePolicy.correctnessRange, None, primary)
  }

  function HotNodes(r: Request, primary: BackendFamily): seq<ShapeNode> {
    Map(r.shapePolicy.hotShapes, (p: ShapePoint) => HotShapeNode("hot", p, primary))
  }

  function GraphNodes(r: Request): seq<ShapeNode> {
    Map(r.shapePolicy.cudaGraphShapes, (p: ShapePoint) => HotShapeNode("cuda-graph", p, CudaGraphs))
  }

  function EnvelopeNodes(r: Request, primary: BackendFamily, env: OptimizationEnvelope): seq<ShapeNode> {
    [CorrectnessNode(r, primary)]
    + (if env.performanceWarmup then [PerformanceNode(r, primary)] + HotNodes(r, primary) else [])
    + (if env.cudaGraphs then GraphNodes(r) else [])
    + (if r.backendPolicy.jitDisposition == ShapeBounded then [ResidualNode(r, primary)] else [])
  }

  function ShapeEnvelope(r: Request, s: Selection, env: OptimizationEnvelope): seq<ShapeNode> {
    Sort(EnvelopeNodes(r, s.primary.family, env), ShapeNodeLe)
  }

  predicate Reaches(regions: seq<CompileRegion>, plane: CoveragePlane) {
    exists region | region in regions :: plane in region.planes
  }

  predicate KeepsShape(n: ShapeNode, regions: seq<CompileRegion>, scope: BuildScope) {
    Reaches(regions, n.plane) && (scope.readiness == Some(CorrectnessBuild) ==> n.plane == Correctness)
  }

  function ScopedShapes(nodes: seq<ShapeNode>, regions: seq<CompileRegion>, scope: BuildScope): seq<ShapeNode> {
    Sort(Filter(nodes, (n: ShapeNode) => KeepsShape(n, regions, scope)), ShapeNodeLe)
  }

  // ---------------------------------------------------------------------------
  // Artifact requirements

  function ClassRank(c: ArtifactClass): nat {
    match c
    case CompiledGraph => 0
    case TritonBinary => 1
    case ExtensionBinary => 2
    case BackendPackageInput => 3
    case AutotuneResult => 4
    case CudaGraphCapture => 5
    case TopologyScopedCache => 6
  }

  function AcquisitionRank(a: Acquisition): nat {
    match a
    case VendorPrebuilt => 0
    case UpstreamCacheBundle => 1
    case LocalAotBuild => 2
    case LocalSourceBuild => 3
  }

  function RequirementRank(q: Requirement): nat {
    ClassRank(q.artifactClass) * 16 + FamilyRank(q.backend) * 4 + AcquisitionRank(q.acquisition)
  }

  predicate RequirementLe(a: Requirement, b: Requirement) {
    RequirementRank(a) < RequirementRank(b) || (RequirementRank(a) == RequirementRank(b) && StringLe(a.scope, b.scope))
  }

  function RegionAcquisition(family: BackendFamily, s: Selection): Acquisition {
    if s.primary.family == family then s.primary.acquisition else SecondaryAcquisition(family, s.secondary)
  }

  function SecondaryAcquisition(family: BackendFamily, candidates: seq<Candidate>): Acquisition {
    if candidates == [] then LocalAotBuild
    else if candidates[0].family == family then candidates[0].acquisition
    else SecondaryAcquisition(family, candidates[1..])
  }

  function ArtifactProofOf(r: Request, ws: seq<Witness>, shapes: seq<ShapeNode>, backend: BackendFamily,
                           acquisition: Acquisition, rationale: seq<Rationale>): ArtifactProof {
    var required := if backend == FlashInfer && acquisition == VendorPrebuilt then ["flashinfer.prebuilt"] else [];
    var satisfied := Filter(required, (k: string) => HasWitness(ws, k));
    ArtifactProof(AbiFingerprint(r.environment, r.topology), shapes, r.topology, required, satisfied,
                  |required| == |satisfied|, rationale)
  }

  function GraphRequirement(r: Request, ws: seq<Witness>, shapes: seq<ShapeNode>, s: Selection,
                            region: CompileRegion): Requirement {
    var acquisition := RegionAcquisition(region.family, s);
    Requirement(
      CompiledGraph, region.family, acquisition, region.name, region.portability, region.rankDisposition,
      24_000_000, 2_500, if TotalRankCount(r.topology) > 1 then 220 else 0,
      ArtifactProofOf(r, ws, shapes, region.family, acquisition,
                      [GraphOwnership(region.cacheNamespace), GraphBounded(region.name)]))
  }

  function BinaryRequirement(r: Request, ws: seq<Witness>, shapes: seq<ShapeNode>, s: Selection,
                             region: CompileRegion): Requirement {
    var acquisition := RegionAcquisition(region.family, s);
    Requirement(
      TritonBinary, region.family, acquisition, region.name, region.portability, region.rankDisposition,
      4_000_000, 800, if TotalRankCount(r.topology) > 1 then 90 else 0,
      ArtifactProofOf(r, ws, shapes, region.family, acquisition,
                      [BinaryReuse(region.cacheNamespace), BinaryAnchored(region.name)]))
  }

  const DECODE := "decode_attention"

  function CaptureRequirement(r: Request, ws: seq<Witness>, shapes: seq<ShapeNode>): Requirement {
    Requirement(
      CudaGraphCapture, CudaGraphs, LocalAotBuild, DECODE, TopologyScoped, RankLocal, 2_000_000, 300, 25,
      ArtifactProofOf(r, ws, shapes, CudaGraphs, LocalAotBuild,
                      [CaptureTopology, CaptureEnvelope]))
  }

  predicate CapturesGraphs(regions: seq<CompileRegion>, env: OptimizationEnvelope, scope: BuildScope) {
    env.cudaGraphs && (exists region | region in regions :: region.name == DECODE) && scope.AllowsArtifactScope(DECODE)
  }

  function ArtifactRequirements(
      r: Request, ws: seq<Witness>, shapes: seq<ShapeNode>, s: Selection, regions: seq<CompileRegion>,
      env: OptimizationEnvelope, scope: BuildScope): seq<Requirement>
  {
    Sort(FlatMap(Filter(regions, (region: CompileRegion) => scope.AllowsArtifactScope(region.name)),
                 (region: CompileRegion) =>
                   [GraphRequirement(r, ws, shapes, s, region), BinaryRequirement(r, ws, shapes, s, region)])
         + (if CapturesGraphs(regions, env, scope) then [CaptureRequirement(r, ws, shapes)] else []),
         RequirementLe)
  }

  // ---------------------------------------------------------------------------
  // Warmup obligations

  function Min(a: nat, b: nat): nat { if a <= b then a else b }

  function StepsFor(intent: RangeIntent, env: OptimizationEnvelope): nat {
    match intent
    case ExactHotShape => Min(1, env.maxWarmupSteps)
    case SymbolicRange => Min(env.maxWarmupSteps, 3)
    case FallbackRange => Min(env.maxWarmupSteps, 2)
    case UncoveredResidual => 0
  }

  /** Does warming this shape exercise this region? */
  predicate Warms(n: ShapeNode, region: CompileRegion, env: OptimizationEnvelope) {
    && (n.plane == Performance ==> env.performanceWarmup)
    && (n.plane == CudaGraph ==> env.cudaGraphs)
    && (n.plane in region.planes || n.plane == Correctness)
  }

  function ObligationOf(t: Topology, env: OptimizationEnvelope, n: ShapeNode, region: CompileRegion): Obligation {
    var blocking := n.plane == Correctness;
    Obligation(
      n.name, region.name, StepsFor(n.intent, env), n.plane, blocking, [region.name], TotalRanks(t),
      n.plane == CudaGraph && env.cudaGraphs, region.family == FlashInfer && env.autotune,
      WarmupProof("warmup:" + n.name + ":" + region.name, n.name, region.name, n.plane, [region.name],
                  TotalRanks(t), blocking, if blocking then PreServeBlocking else DeferredPerformance))
  }

  function ShapeObligations(t: Topology, env: OptimizationEnvelope, n: ShapeNode,
                            regions: seq<CompileRegion>): seq<Obligation> {
    if n.intent == UncoveredResidual then []
    else FlatMap(regions, (region: CompileRegion) =>
                   if Warms(n, region, env) then [ObligationOf(t, env, n, region)] else [])
  }

  predicate KeepsObligation(o: Obligation, readiness: Option<BuildReadiness>) {
    match readiness
    case None => true
    case Some(EarlyServeBuild) => false
    case Some(CorrectnessBuild) => o.blocking
    case Some(PerformanceBuild) => true
  }

  /** The derived order as far as obligations of one plan can differ: two that agree on these
      four fields are equal. */
  predicate ObligationLe(a: Obligation, b: Obligation) {
    || StringLt(a.nodeName, b.nodeName)
    || (&& a.nodeName == b.nodeName
        && (|| StringLt(a.regionName, b.regionName)
            || (&& a.regionName == b.regionName
                && (|| a.stepCount < b.stepCount
                    || (a.stepCount == b.stepCount && PlaneRank(a.plane) <= PlaneRank(b.plane))))))
  }

  function Obligations(t: Topology, shapes: seq<ShapeNode>, regions: seq<CompileRegion>,
                       env: OptimizationEnvelope, scope: BuildScope): seq<Obligation> {
    Sort(Filter(FlatMap(shapes, (n: ShapeNode) => ShapeObligations(t, env, n, regions)),
                (o: Obligation) => KeepsObligation(o, scope.readiness)),
         ObligationLe)
  }

  /** The source's nested loops. */
  method WarmupObligations(t: Topology, shapes: seq<ShapeNode>, regions: seq<CompileRegion>,
                           env: OptimizationEnvelope, scope: BuildScope) returns (obligations: seq<Obligation>)
    ensures obligations == Obligations(t, shapes, regions, env, scope)
  {
    hide Sort, ObligationOf;
    obligations := [];
    var perShape := (n: ShapeNode) => ShapeObligations(t, env, n, regions);
    for i := 0 to |shapes|
      invariant obligations == FlatMap(shapes[..i], perShape)
    {
      assert shapes[..i + 1][..i] == shapes[..i];
      var n := shapes[i];
      if n.intent == UncoveredResidual {
        continue;
      }
      ghost var before := obligations;
      var perRegion := (region: CompileRegion) =>
          if Warms(n, region, env) then [ObligationOf(t, env, n, region)] else [];
      for k := 0 to |regions|
        invariant obligations == before + FlatMap(regions[..k], perRegion)
      {
        assert regions[..k + 1][..k] == regions[..k];
        if n.plane == Performance && !env.performanceWarmup {
          continue;
        }
        if n.plane == CudaGraph && !env.cudaGraphs {
          continue;
        }
        if n.plane in regions[k].planes || n.plane == Correctness {
          obligations := obligations + [ObligationOf(t, env, n, regions[k])];
        }
      }
      assert regions[..|regions|] == regions;
    }
    assert shapes[..|shapes|] == shapes;
    if scope.readiness.Some? {
      obligations := Filter(obligations, (o: Obligation) => KeepsObligation(o, scope.readiness));
    } else {
      KeepEvery(obligations, (o: Obligation) => KeepsObligation(o, scope.readiness));
    }
    obligations := Sort(obligations, ObligationLe);
  }
}
