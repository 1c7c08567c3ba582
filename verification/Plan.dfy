/** The resolved build plan and its validator. */
module Plan {
  import opened Ordering
  import opened Collections
  import opened Types
  import opened Scope
  import opened Planner
  import opened ArtifactCache

  /** What bounds a run-time compilation surface. */
  datatype Bound =
    | RegionBound(region: string)
    | ProofBound(proofId: string)
    | ArtifactBound(handle: Handle)
    | TriggerBound(input: string)
    | PrimarySelected(family: BackendFamily)
    | SecondarySelected(family: BackendFamily)
    | PackagingBound(packaging: PackagingStrategy)
    | JitPolicyBound(disposition: JitDisposition)
    | PrimaryBackendBound(family: BackendFamily)

  datatype JitEvidence = JitEvidence(
    surfaceName: string, backendFamily: string, affectedRegions: seq<string>, requiredArtifacts: seq<string>,
    declaredWarmupScopes: seq<string>, requiredWarmupProofs: seq<string>, boundedBy: set<Bound>,
    contradictions: seq<string>)

  datatype Risk = Risk(hazard: HazardClass, boundedTo: Option<string>)

  datatype ManifestEntry = ManifestEntry(
    identity: ManifestIdentity, artifactClass: ArtifactClass, backend: BackendFamily, scope: string,
    proof: ArtifactProof)

  datatype DecisionEntry = DecisionEntry(
    family: BackendFamily, available: bool, selected: bool, reachableFromPlan: bool,
    chosenAcquisition: Option<Acquisition>, reachableRegions: seq<string>,
    reachableArtifactScopes: seq<string>, reachableWarmupScopes: seq<string>)

  datatype Guarantee = Guarantee(
    requestedCorrectness: GuaranteeTarget, requestedPerformance: GuaranteeTarget,
    achievedCorrectness: GuaranteeLevel, achievedPerformance: GuaranteeLevel, risks: seq<Risk>)

  datatype PassTrace = PassTrace(
    name: string, inputs: seq<string>, outputs: seq<string>, preserved: seq<string>,
    before: string, after: string, validated: seq<string>, violations: seq<string>)

  /** What the plan hash covers: neither obligations nor evidence nor the pass trace. */
  datatype PlanIdentity = PlanIdentity(
    level: OptimizationLevel, decision: seq<DecisionEntry>, selection: Selection, regions: seq<CompileRegion>,
    shapes: seq<ShapeNode>, requirements: seq<Requirement>, graph: Graph, guarantee: Guarantee,
    request: Request, registry: seq<Capability>, witnesses: seq<Witness>)

  datatype BuildPlan = BuildPlan(
    request: Request, readiness: Option<BuildReadiness>, envelope: OptimizationEnvelope,
    decision: seq<DecisionEntry>, registry: seq<Capability>, selection: Selection,
    regions: seq<CompileRegion>, shapes: seq<ShapeNode>, requirements: seq<Requirement>,
    obligations: seq<Obligation>, graph: Graph, guarantee: Guarantee,
    witnesses: seq<Witness>, manifest: seq<ManifestEntry>, evidence: seq<JitEvidence>,
    trace: seq<PassTrace>, identity: PlanIdentity)

  // ---------------------------------------------------------------------------
  // Validation

  datatype IssueCode =
    | CompileRegionBackendOutOfSelection
    | ArtifactBackendOutOfSelection
    | MissingFlashinferWitness
    | CorrectnessTargetUnmet
    | PerformanceTargetUnmet
    | WarmupIncomplete
    | ArtifactScopeMissing
    | ArtifactManifestInvalidReuse
    | WarmupProofMismatch
    | EarlyServeFrontierInvalid
    | MaterializationNodeDuplicate
    | ResidualJitForbidden
    | BoundedJitPolicyMismatch
    | ResidualJitBudgetExceeded
    | WarmupBudgetExceeded
    | ArtifactBudgetExceeded
    | RankLocalBudgetExceeded
    | BackendSelectionNotAdmissible
    | ArtifactNotFailClosed
    | CapabilityWitnessContradiction
    | CapabilityWitnessMissing
    | JitEvidenceMissing
    | JitEvidenceUnbounded
    | JitEvidenceContradiction
    | JitRegionUnknown
    | JitArtifactUnknown
    | JitWarmupUnknown
    | OperatorGateIncomplete
    | RewritePassContractViolation
    | DecisionSelectionMismatch
    | DecisionReachabilityUnbacked

  datatype OperatorGate = OperatorGate(command: string, compileFree: bool, forbiddenQueues: seq<QueueKind>)

  const OperatorGates: seq<OperatorGate> := [
    OperatorGate("verify", true, [CompileQueue, AssembleQueue, ArtifactIoQueue, WarmupQueue]),
    OperatorGate("replay", true, [CompileQueue, AssembleQueue, ArtifactIoQueue, WarmupQueue])]

  function Flag(bad: bool, code: IssueCode): seq<IssueCode> { if bad then [code] else [] }

  function ManifestOf(primary: BackendFamily, requirements: seq<Requirement>): seq<ManifestEntry> {
    Map(requirements, (q: Requirement) =>
          ManifestEntry(ManifestIdentity(primary, q.artifactClass, q.scope), q.artifactClass, q.backend, q.scope,
                        q.proof))
  }

  function FirstNamed(shapes: seq<ShapeNode>, name: string): Option<ShapeNode> {
    if shapes == [] then None
    else if shapes[0].name == name then Some(shapes[0])
    else FirstNamed(shapes[1..], name)
  }

  /** A shape node that no warmup obligation names, although it is not residual. */
  predicate MissesWarmup(shapes: seq<ShapeNode>, obligations: seq<Obligation>) {
    exists n | n in shapes ::
      && (forall o | o in obligations :: o.nodeName != n.name)
      && var first := FirstNamed(shapes, n.name);
         first.Some? && first.value.intent != UncoveredResidual
  }

  function CountResidual(shapes: seq<ShapeNode>): nat {
    |Filter(shapes, (n: ShapeNode) => n.intent == UncoveredResidual)|
  }

  function TotalSteps(obligations: seq<Obligation>): nat {
    if obligations == [] then 0
    else TotalSteps(obligations[..|obligations| - 1]) + obligations[|obligations| - 1].stepCount
  }

  /** The sum as the source keeps it, in 32 bits. */
  function Wrapped(n: nat): u32 { n % 0x1_0000_0000 }

  function CountRankLocal(requirements: seq<Requirement>): nat {
    |Filter(requirements, (q: Requirement) => q.rankDisposition == RankLocal)|
  }

  function FirstWitness(ws: seq<Witness>, key: string): Option<Witness> {
    if ws == [] then None else if ws[0].key == key then Some(ws[0]) else FirstWitness(ws[1..], key)
  }

  function LowerChar(c: char): char { if 'A' <= c <= 'Z' then c + ('a' - 'A') else c }
  function Lower(s: string): string { seq(|s|, i requires 0 <= i < |s| => LowerChar(s[i])) }

  predicate Denies(value: string) {
    Lower(value) == "missing" || Lower(value) == "absent" || Lower(value) == "false"
  }

  function WitnessIssues(ws: seq<Witness>, key: string): seq<IssueCode> {
    match FirstWitness(ws, key)
    case None => [CapabilityWitnessMissing]
    case Some(w) => Flag(Denies(w.value), CapabilityWitnessContradiction)
  }

  function EvidenceIssues(p: BuildPlan, e: JitEvidence): seq<IssueCode> {
    Flag(e.boundedBy == {}, JitEvidenceUnbounded)
    + Flag(e.contradictions != [], JitEvidenceContradiction)
    + FlatMap(e.affectedRegions, (name: string) =>
                Flag(forall region | region in p.regions :: region.name != name, JitRegionUnknown))
    + FlatMap(e.requiredArtifacts, (scope: string) =>
                Flag(forall q | q in p.requirements :: q.scope != scope, JitArtifactUnknown))
    + FlatMap(e.requiredWarmupProofs, (proof: string) =>
                Flag(forall o | o in p.obligations :: o.proof.proofId != proof, JitWarmupUnknown))
  }

  predicate Blank(s: string) { forall c | c in s :: c == ' ' || c == '\t' || c == '\n' || c == '\r' }

  predicate PassBroken(t: PassTrace) {
    || Blank(t.name) || Blank(t.before) || Blank(t.after)
    || t.inputs == [] || t.outputs == []
    || (exists invariantName | invariantName in t.validated :: invariantName !in t.preserved)
    || t.violations != []
  }

  function DecisionIssues(s: Selection, e: DecisionEntry): seq<IssueCode> {
    Flag(e.selected != exists c | c in s.All() :: FamilyName(c.family) == FamilyName(e.family),
         DecisionSelectionMismatch)
    + Flag(e.reachableFromPlan && e.reachableRegions == [] && e.reachableArtifactScopes == [],
           DecisionReachabilityUnbacked)
  }

  predicate UnknownFrontier(g: Graph) {
    exists name | name in g.earlyServeFrontier :: forall n | n in g.nodes :: n.name != name
  }

  predicate DuplicateNames(nodes: seq<Node>) { !UniqueNames(nodes) }

  function ClassName(c: ArtifactClass): string {
    match c
    case CompiledGraph => "CompiledGraph"
    case TritonBinary => "TritonBinary"
    case ExtensionBinary => "ExtensionBinary"
    case BackendPackageInput => "BackendPackageInput"
    case AutotuneResult => "AutotuneResult"
    case CudaGraphCapture => "CudaGraphCapture"
    case TopologyScopedCache => "TopologyScopedCache"
  }

  function IdentityText(m: ManifestIdentity): string {
    FamilyName(m.primary) + ":" + ClassName(m.artifactClass) + ":" + m.scope
  }

  /** Manifest entries sort by their identity text. */
  predicate ManifestLe(a: ManifestEntry, b: ManifestEntry) {
    StringLe(IdentityText(a.identity), IdentityText(b.identity))
  }

  predicate Unmet(achieved: GuaranteeLevel, target: GuaranteeTarget) {
    LevelRank(achieved) < LevelRank(target.level) && target.failureMode == FailClosed
  }

  predicate SelectsAmong(s: Selection, f: BackendFamily) { exists c | c in s.All() :: c.family == f }

  function SelectionIssues(p: BuildPlan): seq<IssueCode> {
    Flag(exists region | region in p.regions :: !SelectsAmong(p.selection, region.family),
         CompileRegionBackendOutOfSelection)
    + Flag(exists q | q in p.requirements :: !SelectsAmong(p.selection, q.backend), ArtifactBackendOutOfSelection)
    + Flag(p.selection.primary.family == FlashInfer && !HasWitness(p.witnesses, "flashinfer.prebuilt"),
           MissingFlashinferWitness)
    + Flag(Unmet(p.guarantee.achievedCorrectness, p.guarantee.requestedCorrectness), CorrectnessTargetUnmet)
    + Flag(Unmet(p.guarantee.achievedPerformance, p.guarantee.requestedPerformance), PerformanceTargetUnmet)
  }

  function ProofMismatch(o: Obligation): bool {
    o.proof.nodeName != o.nodeName || o.proof.regionName != o.regionName
  }

  function CoverageIssues(p: BuildPlan): seq<IssueCode> {
    Flag(MissesWarmup(p.shapes, p.obligations) && p.readiness != Some(EarlyServeBuild), WarmupIncomplete)
    + Flag(exists m | m in p.manifest :: m.scope == [], ArtifactScopeMissing)
    + Flag(Sort(p.manifest, ManifestLe) != Sort(ManifestOf(p.selection.primary.family, p.requirements), ManifestLe),
           ArtifactManifestInvalidReuse)
    + FlatMap(p.obligations, (o: Obligation) => Flag(ProofMismatch(o), WarmupProofMismatch))
    + Flag(UnknownFrontier(p.graph), EarlyServeFrontierInvalid)
    + Flag(DuplicateNames(p.graph.nodes), MaterializationNodeDuplicate)
  }

  function BudgetIssues(p: BuildPlan): seq<IssueCode> {
    var residual := CountResidual(p.shapes);
    var policy := p.request.backendPolicy;
    Flag(residual > 0 && policy.jitDisposition == Forbidden, ResidualJitForbidden)
    + Flag(policy.jitDisposition == ShapeBounded && policy.packaging != PreferPrebuiltThenAotThenJit,
           BoundedJitPolicyMismatch)
    + Flag(residual > policy.maxResidualNodes, ResidualJitBudgetExceeded)
    + Flag(Wrapped(TotalSteps(p.obligations)) > p.envelope.maxWarmupSteps, WarmupBudgetExceeded)
    + Flag(|p.requirements| > p.envelope.maxArtifacts, ArtifactBudgetExceeded)
    + Flag(CountRankLocal(p.requirements) > p.envelope.maxRankLocal, RankLocalBudgetExceeded)
  }

  function ProofIssues(p: BuildPlan): seq<IssueCode> {
    Flag(p.selection.primary.proof.verdict != Admissible, BackendSelectionNotAdmissible)
    + FlatMap(p.requirements, (q: Requirement) => Flag(!q.proof.failClosed, ArtifactNotFailClosed))
    + FlatMap(p.selection.primary.proof.requiredWitnesses, (key: string) => WitnessIssues(p.witnesses, key))
    + Flag((exists k | k in p.guarantee.risks :: k.hazard == ResidualLazyCompile) && p.evidence == [],
           JitEvidenceMissing)
    + FlatMap(p.evidence, (e: JitEvidence) => EvidenceIssues(p, e))
  }

  function RecordIssues(p: BuildPlan): seq<IssueCode> {
    FlatMap(OperatorGates, (g: OperatorGate) => Flag(g.compileFree && g.forbiddenQueues == [], OperatorGateIncomplete))
    + FlatMap(p.trace, (t: PassTrace) => Flag(PassBroken(t), RewritePassContractViolation))
    + FlatMap(p.decision, (e: DecisionEntry) => DecisionIssues(p.selection, e))
  }

  /** The checks, group by group, in the order the validator makes them. */
  const Checks: seq<BuildPlan -> seq<IssueCode>> :=
    [SelectionIssues, CoverageIssues, BudgetIssues, ProofIssues, RecordIssues]

  /** Every issue the validator raises, in its order. */
  function IssuesOf(p: BuildPlan): seq<IssueCode> {
    FlatMap(Checks, (check: BuildPlan -> seq<IssueCode>) => check(p))
  }

  lemma IssuesAre(p: BuildPlan)
    ensures IssuesOf(p) == SelectionIssues(p) + CoverageIssues(p) + BudgetIssues(p) + ProofIssues(p) + RecordIssues(p)
  {
    FlatMapOfFive(Checks, (check: BuildPlan -> seq<IssueCode>) => check(p));
  }

  datatype Status = Passed | FailedValidation

  datatype VerificationReport = VerificationReport(
    status: Status, issues: seq<IssueCode>, evidence: seq<JitEvidence>, gates: seq<OperatorGate>)

  /** Every issue is an error, so any issue fails the plan. */
  function Validate(p: BuildPlan): VerificationReport {
    VerificationReport(if IssuesOf(p) == [] then Passed else FailedValidation, IssuesOf(p), p.evidence, OperatorGates)
  }
}
