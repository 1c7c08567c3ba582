/** The request, survey and plan records shared by the planner, the validator, the
    executor and the replay bundle. A hash stands for the value that is hashed. */
module Types {
  import opened Ordering

  datatype Option<+T> = None | Some(value: T)

  type u8 = x: int | 0 <= x < 0x100
  type u16 = x: int | 0 <= x < 0x1_0000
  type u32 = x: int | 0 <= x < 0x1_0000_0000

  datatype OperatingSystem = Linux
  datatype AcceleratorVendor = Nvidia | Amd | UnknownVendor
  datatype BackendFamily = FlashInfer | Triton | AotInductor | CudaGraphs
  datatype ArtifactClass =
    CompiledGraph | TritonBinary | ExtensionBinary | BackendPackageInput
    | AutotuneResult | CudaGraphCapture | TopologyScopedCache
  datatype CoveragePlane = Correctness | Performance | CudaGraph | BackendSpecialization
  datatype RangeIntent = ExactHotShape | SymbolicRange | FallbackRange | UncoveredResidual
  datatype Acquisition = VendorPrebuilt | UpstreamCacheBundle | LocalAotBuild | LocalSourceBuild
  datatype Portability =
    HostLocalOnly | AbiClusterPortable | GpuArchitectureFamilyPortable | TopologyScoped | ShapeEnvelopeScoped
  datatype RankDisposition = Shared | RankLocal
  datatype GuaranteeLevel = Advisory | WarmupBounded | ShapeBoundedAot | StrictNoSurpriseJit
  datatype FailureMode = FailClosed | FailOpen
  datatype HazardClass = StaleCache | ResidualLazyCompile
  datatype PackagingStrategy = PrebuiltOnly | PreferPrebuiltThenAot | PreferPrebuiltThenAotThenJit
  datatype JitDisposition = Forbidden | ShapeBounded
  datatype OptimizationLevel = O0 | O1 | O2 | O3
  datatype CacheSharing = NamespaceLocal | ContentAddressed
  datatype BackendBinding = Primary | Fixed(family: BackendFamily)

  // Materialization graph vocabulary; constructors are listed in their `Ord` order.
  datatype QueueKind = CompileQueue | AssembleQueue | ArtifactIoQueue | WarmupQueue | VerifyQueue
  datatype NodeKind =
    CompileNode | AssembleNode | MaterializeNode | TransferNode | WarmupNode | VerifyNode
  datatype QueueDiscipline = Serial | ParallelPerRank | LeaderThenBroadcast
  datatype ServePhase = PreServeBlocking | EarlyServeReady | DeferredPerformance
  datatype FanoutStrategy = NoFanout | BroadcastFromLeader | RebuildPerRank

  function QueueRank(q: QueueKind): nat {
    match q
    case CompileQueue => 0
    case AssembleQueue => 1
    case ArtifactIoQueue => 2
    case WarmupQueue => 3
    case VerifyQueue => 4
  }

  function LevelRank(l: GuaranteeLevel): nat {
    match l
    case Advisory => 0
    case WarmupBounded => 1
    case ShapeBoundedAot => 2
    case StrictNoSurpriseJit => 3
  }

  function FamilyRank(f: BackendFamily): nat {
    match f
    case FlashInfer => 0
    case Triton => 1
    case AotInductor => 2
    case CudaGraphs => 3
  }

  function PlaneRank(p: CoveragePlane): nat {
    match p
    case Correctness => 0
    case Performance => 1
    case CudaGraph => 2
    case BackendSpecialization => 3
  }

  // ---------------------------------------------------------------------------
  // Request

  datatype Environment = Environment(
    os: OperatingSystem, vendor: AcceleratorVendor, gpuArches: seq<string>,
    cudaVersion: string, driverVersion: string, pythonAbi: string, libcAbi: string)

  datatype Topology = Topology(tensorParallelism: u16, pipelineParallelism: u16, replicas: u16)

  datatype KvLayoutId = StandardPaged | TmhFidelityPaged
  datatype KvRuntimeMode = StandardMode | AccountingMode | PhysicalMode
  datatype KvLayoutPolicy = KvLayoutPolicy(layout: KvLayoutId, runtimeMode: KvRuntimeMode, hotBudgetPct: u8)

  datatype GuaranteeTarget = GuaranteeTarget(level: GuaranteeLevel, failureMode: FailureMode)

  datatype BackendPolicy = BackendPolicy(
    preferredFamilies: seq<BackendFamily>, packaging: PackagingStrategy,
    jitDisposition: JitDisposition, maxResidualNodes: u16,
    correctnessTarget: GuaranteeTarget, performanceTarget: GuaranteeTarget)

  datatype ShapeRange = ShapeRange(minBatch: u32, maxBatch: u32, minSequence: u32, maxSequence: u32)
  datatype ShapePoint = ShapePoint(batch: u32, sequence: u32, plane: CoveragePlane)

  datatype ShapePolicy = ShapePolicy(
    correctnessRange: ShapeRange, performanceRange: ShapeRange,
    hotShapes: seq<ShapePoint>, cudaGraphShapes: seq<ShapePoint>)

  datatype CachePolicy = CachePolicy(cacheNamespace: string, allowCrossMachineReuse: bool)
  datatype WarmupPolicy = WarmupPolicy(maxWarmupSteps: u32, verifyCudaGraphCapture: bool)

  datatype ConfigEntry = ConfigEntry(key: string, value: string)
  datatype ConfigLayer = ConfigLayer(name: string, precedence: u8, entries: seq<ConfigEntry>)

  datatype Request = Request(
    modelRepository: string, modelRevision: string, engineKind: string, engineRevision: string,
    environment: Environment, topology: Topology, kvLayout: KvLayoutPolicy,
    backendPolicy: BackendPolicy, shapePolicy: ShapePolicy, cachePolicy: CachePolicy,
    warmupPolicy: WarmupPolicy, level: OptimizationLevel, layers: seq<ConfigLayer>)

  // ---------------------------------------------------------------------------
  // Adapter survey

  datatype SourceAnchor = SourceAnchor(file: string, line: nat)

  datatype SurveyRegion = SurveyRegion(
    name: string, kind: string, binding: BackendBinding, candidate: bool,
    boundaries: seq<string>, invalidationDomain: string, planes: seq<CoveragePlane>,
    portability: Portability, rankDisposition: RankDisposition, topologySensitive: bool,
    cacheNamespace: string, warmupScope: string, cacheSharing: CacheSharing,
    portabilityScope: string, topologyScope: string, criteria: seq<string>, anchors: seq<SourceAnchor>)

  /** A place where the engine may still compile at run time. `distributedOnly` is what
      the topology-context text says. */
  datatype JitSurface = JitSurface(
    name: string, backendFamily: string, triggerInputs: seq<string>, affectedRegions: seq<string>,
    requiredArtifacts: seq<string>, requiredWarmupScopes: seq<string>,
    topologySensitive: bool, distributedOnly: bool, mitigation: string)

  datatype CacheSurface = CacheSurface(name: string, artifactScopes: seq<string>)

  datatype Survey = Survey(
    engineRoot: string, engineRevision: string, regions: seq<SurveyRegion>,
    cacheSurfaces: seq<CacheSurface>, jitSurfaces: seq<JitSurface>, diagnostics: seq<(string, string)>)

  // ---------------------------------------------------------------------------
  // Plan

  datatype Witness = Witness(key: string, value: string)

  datatype Verdict = Admissible | Rejected

  datatype BackendProof = BackendProof(
    verdict: Verdict, family: BackendFamily, acquisition: Acquisition,
    requiredWitnesses: seq<string>, satisfiedWitnesses: seq<string>, rejectedReasons: seq<string>)

  datatype Candidate = Candidate(family: BackendFamily, acquisition: Acquisition, proof: BackendProof)

  datatype Selection = Selection(primary: Candidate, secondary: seq<Candidate>) {
    function All(): seq<Candidate> { [primary] + secondary }
  }

  datatype Capability = Capability(
    family: BackendFamily, vendors: seq<AcceleratorVendor>, acquisitions: seq<Acquisition>,
    requiredWitnesses: seq<string>)

  datatype EquivalenceIdentity = EquivalenceIdentity(
    kind: string, family: BackendFamily, boundaries: seq<string>, invalidationDomain: string,
    planes: seq<CoveragePlane>, portability: Portability, rankDisposition: RankDisposition,
    topologySensitive: bool, cacheNamespace: string, warmupScope: string, cacheSharing: CacheSharing,
    portabilityScope: string, topologyScope: string)

  datatype StableIdentity = StableIdentity(name: string, equivalence: EquivalenceIdentity, criteria: seq<string>)

  datatype CompileRegion = CompileRegion(
    name: string, family: BackendFamily, invalidationDomain: string, planes: seq<CoveragePlane>,
    stableIdentity: StableIdentity, equivalenceIdentity: EquivalenceIdentity,
    cacheNamespace: string, cacheSharing: CacheSharing, portability: Portability,
    rankDisposition: RankDisposition, warmupScope: string, anchors: seq<SourceAnchor>)

  datatype ShapeNode = ShapeNode(
    name: string, plane: CoveragePlane, intent: RangeIntent, range: ShapeRange,
    exactShape: Option<ShapePoint>, requiredBackend: BackendFamily)

  datatype AbiFingerprint = AbiFingerprint(environment: Environment, topology: Topology)

  /** Why an artifact is admissible; formatted into the summary that documents carry. */
  datatype Rationale =
    | GraphOwnership(cacheNamespace: string) | GraphBounded(region: string)
    | BinaryReuse(cacheNamespace: string) | BinaryAnchored(region: string)
    | CaptureTopology | CaptureEnvelope

  datatype ArtifactProof = ArtifactProof(
    targetAbi: AbiFingerprint, targetShapes: seq<ShapeNode>, targetTopology: Topology,
    requiredWitnesses: seq<string>, satisfiedWitnesses: seq<string>, failClosed: bool, rationale: seq<Rationale>)

  datatype Requirement = Requirement(
    artifactClass: ArtifactClass, backend: BackendFamily, acquisition: Acquisition, scope: string,
    portability: Portability, rankDisposition: RankDisposition,
    expectedBytes: nat, expectedCompileMs: nat, expectedTransferMs: nat, proof: ArtifactProof)

  datatype WarmupProof = WarmupProof(
    proofId: string, nodeName: string, regionName: string, plane: CoveragePlane,
    requiredArtifacts: seq<string>, rankScope: seq<nat>, blocking: bool, servePhase: ServePhase)

  datatype Obligation = Obligation(
    nodeName: string, regionName: string, stepCount: nat, plane: CoveragePlane, blocking: bool,
    requiredArtifacts: seq<string>, rankScope: seq<nat>, requiresCapture: bool, requiresAutotune: bool,
    proof: WarmupProof)

  /** Node names: `artifact:<class>:<hash>`, `fanout:<class>:<hash>` and `warmup:<label>`. */
  datatype Handle = Artifact(requirement: Requirement) | Fanout(requirement: Requirement) | Warmup(text: string)

  function WarmupLabel(o: Obligation): string { o.nodeName + ":" + o.regionName }

  datatype Node = Node(
    name: Handle, wave: nat, kind: NodeKind, queue: QueueKind, plane: CoveragePlane,
    dependencies: seq<Handle>, rankScope: seq<nat>, invalidationDomain: string,
    discipline: QueueDiscipline, servePhase: ServePhase, fanout: FanoutStrategy)

  function NameOf(n: Node): Handle { n.name }

  function Itself(name: Handle): Handle { name }

  predicate UniqueNames(nodes: seq<Node>) { DistinctBy(nodes, NameOf) }

  datatype Wave = Wave(
    number: nat, queue: QueueKind, nodeNames: seq<Handle>, discipline: QueueDiscipline, servePhase: ServePhase)

  datatype Graph = Graph(nodes: seq<Node>, waves: seq<Wave>, earlyServeFrontier: seq<Handle>)

  /** `saturating_mul` on 16-bit ranks, never below one. Replicas do not count. */
  function TotalRankCount(t: Topology): (n: nat)
    ensures 1 <= n <= 0xFFFF
  {
    var product := t.tensorParallelism * t.pipelineParallelism;
    if product == 0 then 1 else if product > 0xFFFF then 0xFFFF else product
  }

  function TotalRanks(t: Topology): seq<nat> {
    seq(TotalRankCount(t), i => i)
  }
}
