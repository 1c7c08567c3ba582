/** Resolution of a request into a plan: evidence, guarantees and the assembled record. */
module Resolution {
  import opened Ordering
  import opened Collections
  import opened Types
  import opened Scope
  import opened Planner
  import opened Plan
  import opened RequestNormalization
  import Lowering

  // ---------------------------------------------------------------------------
  // Residual run-time compilation

  predicate SurfaceApplies(family: string, s: Selection) {
    if family == "flashinfer" then s.primary.family == FlashInfer
    else if family == "triton" then Selects(s, Triton)
    else if family == "inductor" then Selects(s, AotInductor)
    else family == "torch.compile"
  }

  predicate TopologyApplicable(t: Topology, surface: JitSurface) {
    !(surface.topologySensitive && t.tensorParallelism == 1 && surface.distributedOnly)
  }

  predicate NamesRegion(regions: seq<CompileRegion>, name: string) {
    exists region | region in regions :: region.name == name
  }

  predicate TouchesRegion(surface: JitSurface, regions: seq<CompileRegion>) {
    exists name | name in surface.affectedRegions :: NamesRegion(regions, name)
  }

  function Risks(r: Request, shapes: seq<ShapeNode>, s: Selection, survey: Survey,
                 regions: seq<CompileRegion>, scope: BuildScope): seq<Risk> {
    Map(Filter(survey.jitSurfaces, (surface: JitSurface) =>
                 && SurfaceApplies(surface.backendFamily, s)
                 && TopologyApplicable(r.topology, surface)
                 && (scope.IsUnscoped() || TouchesRegion(surface, regions))),
        (surface: JitSurface) => Risk(ResidualLazyCompile, Some(surface.mitigation)))
    + (if exists n | n in shapes :: n.intent == UncoveredResidual
       then [Risk(ResidualLazyCompile, Some("residual-dynamic-tail"))] else [])
    + (if r.cachePolicy.allowCrossMachineReuse then [Risk(StaleCache, None)] else [])
  }

  function BoundsOf(r: Request, s: Selection, regions: seq<CompileRegion>, obligations: seq<Obligation>,
                    requirements: seq<Requirement>, surface: JitSurface): set<Bound> {
    var family := surface.backendFamily;
    (set region | region in regions && FamilyName(region.family) == family && region.name in surface.affectedRegions
       :: RegionBound(region.name))
    + (set o | o in obligations && o.regionName in surface.requiredWarmupScopes :: ProofBound(o.proof.proofId))
    + (set q | q in requirements && FamilyName(q.backend) == family && q.scope in surface.requiredArtifacts
         :: ArtifactBound(Artifact(q)))
    + (set input | input in surface.triggerInputs :: TriggerBound(input))
    + (if FamilyName(s.primary.family) == family then {PrimarySelected(s.primary.family)} else {})
    + (set c | c in s.secondary && FamilyName(c.family) == family :: SecondarySelected(c.family))
    + (if family == "torch.compile"
       then {PackagingBound(r.backendPolicy.packaging), JitPolicyBound(r.backendPolicy.jitDisposition),
             PrimaryBackendBound(s.primary.family)}
       else {})
  }

  function ProofsForScope(scope: string, obligations: seq<Obligation>): seq<string> {
    Map(Filter(obligations, (o: Obligation) => o.regionName == scope), (o: Obligation) => o.proof.proofId)
  }

  predicate HasEvidence(r: Request, s: Selection, regions: seq<CompileRegion>, surface: JitSurface) {
    && SurfaceApplies(surface.backendFamily, s)
    && TopologyApplicable(r.topology, surface)
    && (TouchesRegion(surface, regions) || surface.backendFamily == "torch.compile")
  }

  function EvidenceFor(r: Request, s: Selection, regions: seq<CompileRegion>, obligations: seq<Obligation>,
                       requirements: seq<Requirement>, surface: JitSurface): JitEvidence {
    JitEvidence(
      surface.name, surface.backendFamily,
      Filter(surface.affectedRegions, (name: string) => NamesRegion(regions, name)),
      Filter(surface.requiredArtifacts, (scope: string) => exists q | q in requirements :: q.scope == scope),
      Filter(surface.requiredWarmupScopes, (name: string) => NamesRegion(regions, name)),
      FlatMap(surface.requiredWarmupScopes, (scope: string) => ProofsForScope(scope, obligations)),
      BoundsOf(r, s, regions, obligations, requirements, surface),
      if TopologyApplicable(r.topology, surface) then []
      else ["surface claims distributed-only topology sensitivity but planned topology is single-rank"])
  }

  function Evidence(r: Request, s: Selection, regions: seq<CompileRegion>, obligations: seq<Obligation>,
                    requirements: seq<Requirement>, survey: Survey): seq<JitEvidence> {
    Map(Filter(survey.jitSurfaces, (surface: JitSurface) => HasEvidence(r, s, regions, surface)),
        (surface: JitSurface) => EvidenceFor(r, s, regions, obligations, requirements, surface))
  }

  // ---------------------------------------------------------------------------
  // Guarantees, decision and trace

  function GuaranteeOf(r: Request, shapes: seq<ShapeNode>, risks: seq<Risk>): Guarantee {
    var residual := exists n | n in shapes :: n.intent == UncoveredResidual;
    Guarantee(
      r.backendPolicy.correctnessTarget, r.backendPolicy.performanceTarget,
      if residual then WarmupBounded else ShapeBoundedAot,
      if residual then WarmupBounded
      else if r.warmupPolicy.verifyCudaGraphCapture then StrictNoSurpriseJit else ShapeBoundedAot,
      risks)
  }

  function FindCandidate(candidates: seq<Candidate>, family: BackendFamily): Option<Candidate> {
    if candidates == [] then None
    else if candidates[0].family == family then Some(candidates[0])
    else FindCandidate(candidates[1..], family)
  }

  function DecisionFor(r: Request, ws: seq<Witness>, s: Selection, regions: seq<CompileRegion>,
                       requirements: seq<Requirement>, obligations: seq<Obligation>, c: Capability): DecisionEntry {
    var found := FindCandidate(s.All(), c.family);
    var inRegions := Map(Filter(regions, (region: CompileRegion) => region.family == c.family),
                         (region: CompileRegion) => region.name);
    var inArtifacts := Map(Filter(requirements, (q: Requirement) => q.backend == c.family),
                           (q: Requirement) => q.scope);
    var inWarmups := Map(Filter(obligations, (o: Obligation) =>
                                  exists region | region in regions ::
                                    region.name == o.regionName && region.family == c.family),
                         (o: Obligation) => o.regionName);
    DecisionEntry(
      c.family, FirstAdmissible(BackendProofs(r, ws, c)).Some?, found.Some?,
      inRegions != [] || inArtifacts != [] || inWarmups != [],
      if found.Some? then Some(found.value.acquisition) else None, inRegions, inArtifacts, inWarmups)
  }

  predicate IsHex(c: char) { '0' <= c <= '9' || 'a' <= c <= 'f' }

  /** A SHA-256 digest as text: sixty-four hexadecimal digits. */
  type Digest = s: string | |s| == 64 && forall c | c in s :: IsHex(c) witness seq(64, i => '0')

  datatype Digests = Digests(
    request: Digest, backend: Digest, region: Digest, shape: Digest, artifact: Digest, warmup: Digest,
    wave: Digest, guarantee: Digest)

  function Pass(name: string, inputs: seq<string>, outputs: seq<string>, preserved: seq<string>,
                before: Digest, after: Digest, validated: seq<string>): PassTrace {
    PassTrace(name, inputs, outputs, preserved, before, after, validated, [])
  }

  function RequestPasses(ids: Digests): seq<PassTrace> {
    [Pass("parse-cleanup", ["raw-request"], ["normalized-request"], ["request-canonicalization"],
          ids.request, ids.request, ["request-canonicalization"]),
     Pass("layered-config-normalization", ["normalized-request", "layered-config"], ["normalized-config"],
          ["request-canonicalization", "config-precedence-order"], ids.request, ids.request,
          ["request-canonicalization", "config-precedence-order"]),
     Pass("survey-vllm-surface", ["normalized-request", "vendored-vllm-source"], ["adapter-survey"],
          ["source-anchored-engine-seam"], ids.request, ids.request, ["source-anchored-engine-seam"])]
  }

  function DiscoveryPasses(ids: Digests): seq<PassTrace> {
    [Pass("backend-legality-filtering", ["adapter-survey", "capability-witnesses", "backend-policy"],
          ["backend-selection"], ["fail-closed-legality"], ids.request, ids.backend, ["fail-closed-legality"]),
     Pass("compile-region-discovery", ["backend-selection", "adapter-survey"], ["compile-regions"],
          ["region-source-evidence"], ids.backend, ids.region, ["region-source-evidence"]),
     Pass("shape-envelope-lattice-construction", ["compile-regions", "shape-policy"], ["shape-envelope"],
          ["correctness-range-preserved", "hot-shape-bounds-preserved"], ids.region, ids.shape,
          ["correctness-range-preserved", "hot-shape-bounds-preserved"]),
     Pass("warmup-coverage-elaboration", ["shape-envelope", "compile-regions", "warmup-policy"],
          ["warmup-obligations"], ["non-residual-shapes-covered"], ids.shape, ids.warmup,
          ["non-residual-shapes-covered"])]
  }

  function EmissionPasses(ids: Digests): seq<PassTrace> {
    [Pass("materialization-wave-planning", ["artifact-requirements", "warmup-obligations", "topology"],
          ["materialization-graph"], ["dependency-order-preserved", "replay-boundaries-assigned"], ids.warmup, ids.wave,
          ["dependency-order-preserved", "replay-boundaries-assigned"]),
     Pass("guarantee-envelope-shaping", ["materialization-graph", "shape-envelope", "residual-risks"],
          ["guarantee-envelope"], ["correctness-performance-split"], ids.wave, ids.guarantee,
          ["correctness-performance-split"]),
     Pass("artifact-emission-shaping", ["guarantee-envelope", "artifact-requirements"], ["artifact-closure"],
          ["closure-manifest-derived-from-plan"], ids.guarantee, ids.artifact, ["closure-manifest-derived-from-plan"])]
  }

  function RewriteTrace(ids: Digests): seq<PassTrace> {
    RequestPasses(ids) + DiscoveryPasses(ids) + EmissionPasses(ids)
  }

  // ---------------------------------------------------------------------------
  // The plan

  function Narrowed(s: Selection, env: OptimizationEnvelope): Selection {
    if env.compileSecondary then s else Selection(s.primary, [])
  }

  function AssemblePlan(host: Host, r: Request, survey: Survey, scope: BuildScope, ids: Digests,
                        s: Selection, regions: seq<CompileRegion>): BuildPlan {
    var env := EnvelopeOf(r.level);
    var ws := CapabilityWitnesses(host, r, survey);
    var shapes := ScopedShapes(ShapeEnvelope(r, s, env), regions, scope);
    var requirements := ArtifactRequirements(r, ws, shapes, s, regions, env, scope);
    var obligations := Obligations(r.topology, shapes, regions, env, scope);
    var graph := Lowering.GraphOf(r.topology, requirements, obligations);
    var guarantee := GuaranteeOf(r, shapes, Risks(r, shapes, s, survey, regions, scope));
    var decision := Map(Registry(r), (c: Capability) => DecisionFor(r, ws, s, regions, requirements, obligations, c));
    BuildPlan(r, scope.readiness, env, decision, Registry(r), s, regions, shapes, requirements, obligations, graph,
              guarantee, ws, ManifestOf(s.primary.family, requirements),
              Evidence(r, s, regions, obligations, requirements, survey), RewriteTrace(ids),
              PlanIdentity(r.level, decision, s, regions, shapes, requirements, graph, guarantee, r, Registry(r), ws))
  }

  /** The plan that is handed to the validator. */
  function PlanFor(host: Host, r: Request, survey: Survey, scope: BuildScope,
                   ids: Digests): Result<BuildPlan, PlanError> {
    var ws := CapabilityWitnesses(host, r, survey);
    var selected :- Selected(r, ws, Registry(r));
    var narrowed := Narrowed(selected, EnvelopeOf(r.level));
    var regions := CompileRegions(narrowed, survey, scope);
    if regions == [] then Failure(EmptyRegionClosure)
    else
      var candidates :- Expanded(r, ws, Registry(r), narrowed.All(), regions);
      Success(AssemblePlan(host, r, survey, scope, ids, Selection(candidates[0], candidates[1..]), regions))
  }

  datatype ResolveError = Planning(error: PlanError) | Validation(issues: seq<IssueCode>)

  datatype Outcome = Outcome(plan: BuildPlan, closure: seq<ManifestEntry>, verification: VerificationReport,
                             survey: Survey)

  /** Validation decides what becomes of a planning result. */
  function Judged(planned: Result<BuildPlan, PlanError>, survey: Survey): Result<Outcome, ResolveError> {
    match planned
    case Failure(e) => Failure(Planning(e))
    case Success(p) =>
      var report := Validate(p);
      if report.status == FailedValidation then Failure(Validation(report.issues))
      else Success(Outcome(p, p.manifest, report, survey))
  }

  function Resolve(host: Host, raw: Request, survey: Survey, scope: BuildScope,
                   ids: Digests): Result<Outcome, ResolveError> {
    Judged(PlanFor(host, CanonicalBody(raw), survey, scope, ids), survey)
  }

  // ---------------------------------------------------------------------------
  // What the adapter survey provides

  ghost predicate SurveyHolds(survey: Survey) {
    && DistinctBy(survey.regions, RegionName) && DistinctBy(survey.regions, RegionDomain)
    && (forall region :: region in survey.regions ==> region.name != [])
    && (forall region :: region in survey.regions && region.name == DECODE ==> region.binding == Fixed(CudaGraphs))
    && (forall surface :: surface in survey.jitSurfaces ==> surface.triggerInputs != [])
    && (exists surface :: surface in survey.jitSurfaces && surface.backendFamily == "torch.compile"
                          && !surface.topologySensitive)
  }

  function RegionName(region: SurveyRegion): string { region.name }
  function RegionDomain(region: SurveyRegion): string { region.invalidationDomain }
}
