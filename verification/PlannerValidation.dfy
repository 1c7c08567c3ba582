/** Which validation issues a plan made by the planner can raise. Each lemma looks at the
    parts of the plan one check reads. */
module PlannerValidation {
  import opened Ordering
  import opened Collections
  import opened Types
  import opened Scope
  import opened Accelerator
  import opened Planner
  import opened Plan
  import opened Resolution
  import opened PlannerFacts
  import opened RequestNormalization
  import Lowering

  // ---------------------------------------------------------------------------
  // Selection

  lemma RegionDecodes(s: Selection, survey: Survey, scope: BuildScope)
    requires SurveyHolds(survey) && exists region :: region in CompileRegions(s, survey, scope) && region.name == DECODE
    ensures SelectsAmong(s, CudaGraphs)
  {
    var region :| region in CompileRegions(s, survey, scope) && region.name == DECODE;
    RegionsAre(s, survey, scope, region);
    RegionFamilySelected(s, survey, scope, region);
  }

  lemma RequirementSelected(
      r: Request, ws: seq<Witness>, shapes: seq<ShapeNode>, s: Selection, survey: Survey,
      env: OptimizationEnvelope, scope: BuildScope, q: Requirement)
    requires SurveyHolds(survey)
    requires q in ArtifactRequirements(r, ws, shapes, s, CompileRegions(s, survey, scope), env, scope)
    ensures SelectsAmong(s, q.backend)
    ensures q.scope != [] && exists region :: region in CompileRegions(s, survey, scope) && region.name == q.scope
  {
    var regions := CompileRegions(s, survey, scope);
    RequirementsAre(r, ws, shapes, s, regions, env, scope, q);
    if region :| region in regions && scope.AllowsArtifactScope(region.name)
                 && (|| q == GraphRequirement(r, ws, shapes, s, region)
                     || q == BinaryRequirement(r, ws, shapes, s, region))
    {
      RegionFamilySelected(s, survey, scope, region);
      RegionsAre(s, survey, scope, region);
    } else {
      RegionDecodes(s, survey, scope);
    }
  }

  lemma AcquisitionOfFlashInfer(s: Selection, family: BackendFamily)
    requires RegionAcquisition(family, s) == VendorPrebuilt
    ensures exists c :: c in s.All() && c.family == family
  {
    if s.primary.family == family {
      assert s.primary in s.All();
    } else {
      SecondaryHas(s.secondary, family);
      var c :| c in s.secondary && c.family == family;
      assert c in s.All();
    }
  }

  lemma {:induction false} SecondaryHas(candidates: seq<Candidate>, family: BackendFamily)
    requires SecondaryAcquisition(family, candidates) == VendorPrebuilt
    ensures exists c :: c in candidates && c.family == family
  {
    if candidates[0].family != family {
      SecondaryHas(candidates[1..], family);
    }
  }

  /** Every artifact proof is fail-closed: the witnesses it needs are there. */
  lemma RequirementFailClosed(
      r: Request, ws: seq<Witness>, shapes: seq<ShapeNode>, s: Selection, regions: seq<CompileRegion>,
      env: OptimizationEnvelope, scope: BuildScope, q: Requirement)
    requires forall c :: c in s.All() ==> Justified(r, ws, c)
    requires q in ArtifactRequirements(r, ws, shapes, s, regions, env, scope)
    ensures q.proof.failClosed
  {
    RequirementsAre(r, ws, shapes, s, regions, env, scope, q);
    if q.backend == FlashInfer && q.acquisition == VendorPrebuilt {
      AcquisitionOfFlashInfer(s, FlashInfer);
      var c :| c in s.All() && c.family == FlashInfer;
      FlashInferWitnessed(r, ws, c);
      ProofCloses(r, ws, shapes, q.backend, q.acquisition, q.proof.rationale);
    } else {
      ProofCloses(r, ws, shapes, q.backend, q.acquisition, q.proof.rationale);
    }
  }

  lemma ProofCloses(r: Request, ws: seq<Witness>, shapes: seq<ShapeNode>, b: BackendFamily, a: Acquisition,
                    why: seq<Rationale>)
    requires b == FlashInfer && a == VendorPrebuilt ==> HasWitness(ws, "flashinfer.prebuilt")
    ensures ArtifactProofOf(r, ws, shapes, b, a, why).failClosed
  {
    if b == FlashInfer && a == VendorPrebuilt {
      var one := ["flashinfer.prebuilt"];
      var kept := Filter(one, (k: string) => HasWitness(ws, k));
      assert one[0] in kept;
      assert |kept| >= 1;
    }
  }

  // ---------------------------------------------------------------------------
  // Witnesses

  predicate IsGate(key: string) {
    key == "flashinfer.prebuilt" || key == "cuda.graphs" || key == "nvidia.tma"
  }

  lemma GateInitial(key: string)
    requires IsGate(key)
    ensures key[0] == 'f' || key[0] == 'c' || key[0] == 'n'
  {
  }

  lemma PlatformKeys(host: Host, env: Environment, survey: Survey, w: Witness)
    requires w in PlatformWitnesses(host, env, survey)
    ensures !IsGate(w.key)
  {
    assert w.key[0] == 'p' || w.key[0] == 'r' || w.key[0] == 'e' || w.key[0] == 'a';
    if IsGate(w.key) {
      GateInitial(w.key);
    }
  }

  /** A witness that some backend needs says "available" whenever it is recorded. */
  lemma GatesAvailable(host: Host, r: Request, survey: Survey, w: Witness)
    requires w in CapabilityWitnesses(host, r, survey) && IsGate(w.key)
    ensures w.value == "available"
  {
    var env := r.environment;
    var platform := PlatformWitnesses(host, env, survey);
    var prebuilt := When(host.flashinferPrebuilt, Witness("flashinfer.prebuilt", "available"));
    var nvidia := if env.vendor == Nvidia then NvidiaWitnesses(host, env) else [];
    var diagnostics := Map(survey.diagnostics, DiagnosticWitness);
    InOnePart(platform, prebuilt, nvidia, diagnostics, w);
    if w in platform {
      PlatformKeys(host, env, survey, w);
    } else if w in nvidia {
      NvidiaKeys(host, env, w);
    } else if w in diagnostics {
      DiagnosticKeys(survey, w);
    }
  }

  lemma InOnePart(a: seq<Witness>, b: seq<Witness>, c: seq<Witness>, d: seq<Witness>, w: Witness)
    requires w in Sort(a + b + c + d, WitnessLe)
    ensures w in a || w in b || w in c || w in d
  {
    SortPermutes(a + b + c + d, WitnessLe);
  }

  lemma DiagnosticKeys(survey: Survey, w: Witness)
    requires w in Map(survey.diagnostics, DiagnosticWitness)
    ensures !IsGate(w.key)
  {
    MapContains(survey.diagnostics, DiagnosticWitness);
    assert w.key[0] == 'a';
    if IsGate(w.key) {
      GateInitial(w.key);
    }
  }

  lemma GateLength(key: string)
    requires IsGate(key)
    ensures |key| < 20
  {
  }

  lemma VersionLength(host: Host, env: Environment, w: Witness)
    requires w in NvidiaVersions(host, env)
    ensures |w.key| >= 20
  {
    hide Join;
  }

  lemma FeatureIsAvailable(host: Host, env: Environment, w: Witness)
    requires w in NvidiaFeatures(env)
    ensures w.value == "available"
  {
    hide AnyArch;
  }

  lemma NvidiaKeys(host: Host, env: Environment, w: Witness)
    requires w in NvidiaWitnesses(host, env) && IsGate(w.key)
    ensures w.value == "available"
  {
    hide NvidiaVersions, NvidiaFeatures, IsGate;
    GateLength(w.key);
    if w in NvidiaVersions(host, env) {
      VersionLength(host, env, w);
    } else {
      FeatureIsAvailable(host, env, w);
    }
  }

  lemma {:induction false} FirstWitnessIs(ws: seq<Witness>, key: string)
    ensures HasWitness(ws, key) ==> FirstWitness(ws, key).Some?
    ensures FirstWitness(ws, key).Some? ==> FirstWitness(ws, key).value in ws && FirstWitness(ws, key).value.key == key
  {
    if ws != [] {
      assert ws == [ws[0]] + ws[1..];
      FirstWitnessIs(ws[1..], key);
    }
  }

  lemma AvailableIsNoDenial()
    ensures !Denies("available")
  {
    assert |Lower("available")| == 9;
  }

  /** The witnesses a selected backend needs are present and say "available". */
  lemma NeededWitnessesAvailable(host: Host, r: Request, survey: Survey, ws: seq<Witness>, c: Candidate, key: string)
    requires ws == CapabilityWitnesses(host, r, survey) && Justified(r, ws, c) && key in c.proof.requiredWitnesses
    ensures WitnessIssues(ws, key) == []
  {
    FirstWitnessIs(ws, key);
    CapabilityKeys(r, ws, c, key);
    GatesAvailable(host, r, survey, FirstWitness(ws, key).value);
    AvailableIsNoDenial();
  }

  lemma CapabilityKeys(r: Request, ws: seq<Witness>, c: Candidate, key: string)
    requires Justified(r, ws, c) && key in c.proof.requiredWitnesses
    ensures IsGate(key)
  {
    var cap :| cap in Registry(r) && cap.family == c.family && c.proof.requiredWitnesses == cap.requiredWitnesses;
    assert cap in AllCapabilities;
  }

  // ---------------------------------------------------------------------------
  // Evidence

  lemma EvidenceIs(r: Request, s: Selection, regions: seq<CompileRegion>, obligations: seq<Obligation>,
                   requirements: seq<Requirement>, survey: Survey, e: JitEvidence)
    ensures e in Evidence(r, s, regions, obligations, requirements, survey) <==>
              exists surface :: surface in survey.jitSurfaces && HasEvidence(r, s, regions, surface)
                                && e == EvidenceFor(r, s, regions, obligations, requirements, surface)
  {
    MapContains(Filter(survey.jitSurfaces, (surface: JitSurface) => HasEvidence(r, s, regions, surface)),
                (surface: JitSurface) => EvidenceFor(r, s, regions, obligations, requirements, surface));
  }

  /** The always-applicable surface leaves evidence in every plan. */
  lemma EvidenceNeverEmpty(r: Request, s: Selection, regions: seq<CompileRegion>, obligations: seq<Obligation>,
                           requirements: seq<Requirement>, survey: Survey)
    requires SurveyHolds(survey)
    ensures Evidence(r, s, regions, obligations, requirements, survey) != []
  {
    var surface :| surface in survey.jitSurfaces && surface.backendFamily == "torch.compile"
                   && !surface.topologySensitive;
    assert HasEvidence(r, s, regions, surface);
    EvidenceIs(r, s, regions, obligations, requirements, survey,
               EvidenceFor(r, s, regions, obligations, requirements, surface));
  }

  lemma ProofsAreKnown(scopes: seq<string>, obligations: seq<Obligation>, proof: string)
    requires proof in FlatMap(scopes, (scope: string) => ProofsForScope(scope, obligations))
    ensures exists o :: o in obligations && o.proof.proofId == proof
  {
    FlatMapContains(scopes, (scope: string) => ProofsForScope(scope, obligations), proof);
    var scope :| scope in scopes && proof in ProofsForScope(scope, obligations);
    MapContains(Filter(obligations, (o: Obligation) => o.regionName == scope), (o: Obligation) => o.proof.proofId);
  }

  lemma RegionsKnown(regions: seq<CompileRegion>, names: seq<string>)
    ensures FlatMap(Filter(names, (name: string) => NamesRegion(regions, name)),
                    (name: string) =>
                      Flag(forall region | region in regions :: region.name != name, JitRegionUnknown)) == []
  {
    FlatMapEmpty(Filter(names, (name: string) => NamesRegion(regions, name)),
                 (name: string) => Flag(forall region | region in regions :: region.name != name, JitRegionUnknown));
  }

  lemma ArtifactsKnown(requirements: seq<Requirement>, scopes: seq<string>)
    ensures FlatMap(Filter(scopes, (scope: string) => exists q | q in requirements :: q.scope == scope),
                    (scope: string) => Flag(forall q | q in requirements :: q.scope != scope, JitArtifactUnknown)) == []
  {
    FlatMapEmpty(Filter(scopes, (scope: string) => exists q | q in requirements :: q.scope == scope),
                 (scope: string) => Flag(forall q | q in requirements :: q.scope != scope, JitArtifactUnknown));
  }

  lemma WarmupsKnown(obligations: seq<Obligation>, scopes: seq<string>)
    ensures FlatMap(FlatMap(scopes, (scope: string) => ProofsForScope(scope, obligations)),
                    (proof: string) =>
                      Flag(forall o | o in obligations :: o.proof.proofId != proof, JitWarmupUnknown)) == []
  {
    var proofs := FlatMap(scopes, (scope: string) => ProofsForScope(scope, obligations));
    forall proof | proof in proofs ensures exists o :: o in obligations && o.proof.proofId == proof {
      ProofsAreKnown(scopes, obligations, proof);
    }
    FlatMapEmpty(proofs,
                 (proof: string) => Flag(forall o | o in obligations :: o.proof.proofId != proof, JitWarmupUnknown));
  }

  lemma EvidenceIsBounded(r: Request, s: Selection, regions: seq<CompileRegion>, obligations: seq<Obligation>,
                          requirements: seq<Requirement>, surface: JitSurface)
    requires surface.triggerInputs != []
    ensures BoundsOf(r, s, regions, obligations, requirements, surface) != {}
  {
    assert surface.triggerInputs[0] in surface.triggerInputs;
    assert TriggerBound(surface.triggerInputs[0]) in BoundsOf(r, s, regions, obligations, requirements, surface);
  }

  lemma EvidenceIsClean(p: BuildPlan, r: Request, surface: JitSurface)
    requires surface.triggerInputs != [] && TopologyApplicable(r.topology, surface)
    ensures EvidenceIssues(p, EvidenceFor(r, p.selection, p.regions, p.obligations, p.requirements, surface)) == []
  {
    EvidenceIsBounded(r, p.selection, p.regions, p.obligations, p.requirements, surface);
    RegionsKnown(p.regions, surface.affectedRegions);
    ArtifactsKnown(p.requirements, surface.requiredArtifacts);
    WarmupsKnown(p.obligations, surface.requiredWarmupScopes);
  }

  // ---------------------------------------------------------------------------
  // Records

  /** Named, with inputs and outputs, and validating only what it declares. */
  predicate WellRecorded(t: PassTrace) {
    && t.name != [] && 'a' <= t.name[0] <= 'z'
    && t.inputs != [] && t.outputs != []
    && t.validated == t.preserved && t.violations == []
    && |t.before| == 64 && IsHex(t.before[0]) && |t.after| == 64 && IsHex(t.after[0])
  }

  lemma RecordedIsSound(t: PassTrace)
    requires WellRecorded(t)
    ensures !PassBroken(t)
  {
    assert t.name[0] in t.name && t.before[0] in t.before && t.after[0] in t.after;
  }

  lemma RequestPassesRecorded(ids: Digests, t: PassTrace)
    requires t in RequestPasses(ids)
    ensures WellRecorded(t)
  {
  }

  lemma DiscoveryPassesRecorded(ids: Digests, t: PassTrace)
    requires t in DiscoveryPasses(ids)
    ensures WellRecorded(t)
  {
  }

  lemma EmissionPassesRecorded(ids: Digests, t: PassTrace)
    requires t in EmissionPasses(ids)
    ensures WellRecorded(t)
  {
  }

  lemma TraceIsSound(ids: Digests, t: PassTrace)
    requires t in RewriteTrace(ids)
    ensures !PassBroken(t)
  {
    if t in RequestPasses(ids) {
      RequestPassesRecorded(ids, t);
    } else if t in DiscoveryPasses(ids) {
      DiscoveryPassesRecorded(ids, t);
    } else {
      EmissionPassesRecorded(ids, t);
    }
    RecordedIsSound(t);
  }

  lemma {:induction false} FindCandidateIs(candidates: seq<Candidate>, family: BackendFamily)
    ensures FindCandidate(candidates, family).Some? <==> exists c :: c in candidates && c.family == family
  {
    if candidates != [] {
      assert candidates == [candidates[0]] + candidates[1..];
      FindCandidateIs(candidates[1..], family);
    }
  }

  lemma FamilyNamesDiffer(a: BackendFamily, b: BackendFamily)
    ensures FamilyName(a) == FamilyName(b) ==> a == b
  {
    assert |FamilyName(FlashInfer)| == 10 && |FamilyName(Triton)| == 6;
    assert |FamilyName(AotInductor)| == 12 && |FamilyName(CudaGraphs)| == 11;
  }

  lemma DecisionIsSound(r: Request, ws: seq<Witness>, s: Selection, regions: seq<CompileRegion>,
                        requirements: seq<Requirement>, obligations: seq<Obligation>, c: Capability)
    ensures DecisionIssues(s, DecisionFor(r, ws, s, regions, requirements, obligations, c)) == []
  {
    FindCandidateIs(s.All(), c.family);
    forall d | d in s.All() ensures FamilyName(d.family) == FamilyName(c.family) <==> d.family == c.family {
      FamilyNamesDiffer(d.family, c.family);
    }
    var warmed := Filter(obligations, (o: Obligation) =>
                           exists region | region in regions ::
                             region.name == o.regionName && region.family == c.family);
    if warmed != [] {
      assert warmed[0] in warmed;
      var region :| region in regions && region.name == warmed[0].regionName && region.family == c.family;
      assert region in Filter(regions, (x: CompileRegion) => x.family == c.family);
    }
  }

  // ---------------------------------------------------------------------------
  // Coverage

  lemma {:induction false} FrontierIs(obligations: seq<Obligation>, name: Handle)
    ensures name in Lowering.FrontierOf(obligations) <==>
              exists o :: o in obligations && o.blocking && name == Warmup(WarmupLabel(o))
  {
    if obligations != [] {
      var n := |obligations| - 1;
      assert obligations == obligations[..n] + [obligations[n]];
      FrontierIs(obligations[..n], name);
    }
  }

  lemma FrontierKnown(t: Topology, requirements: seq<Requirement>, obligations: seq<Obligation>)
    ensures !UnknownFrontier(Lowering.GraphOf(t, requirements, obligations))
  {
    var g := Lowering.GraphOf(t, requirements, obligations);
    forall name | name in g.earlyServeFrontier ensures exists n :: n in g.nodes && n.name == name {
      FrontierIs(obligations, name);
      var o :| o in obligations && o.blocking && name == Warmup(WarmupLabel(o));
      Lowering.NodesAre(t, requirements, obligations, Lowering.WarmupNodeOf(t, requirements, o));
      assert Lowering.WarmupNodeOf(t, requirements, o).name == name;
    }
  }

  lemma ManifestScopes(primary: BackendFamily, requirements: seq<Requirement>)
    requires forall q :: q in requirements ==> q.scope != []
    ensures forall m :: m in ManifestOf(primary, requirements) ==> m.scope != []
  {
  }

  /** Residual shapes come only from the shape-bounded policy. */
  lemma ResidualNeedsPolicy(r: Request, s: Selection, env: OptimizationEnvelope, regions: seq<CompileRegion>,
                            scope: BuildScope)
    ensures CountResidual(ScopedShapes(ShapeEnvelope(r, s, env), regions, scope)) > 0 ==>
              r.backendPolicy.jitDisposition == ShapeBounded
  {
    var shapes := ScopedShapes(ShapeEnvelope(r, s, env), regions, scope);
    var residual := Filter(shapes, (n: ShapeNode) => n.intent == UncoveredResidual);
    if residual != [] {
      var n := residual[0];
      assert n in residual;
      ScopedShapesAre(ShapeEnvelope(r, s, env), regions, scope, n);
      EnvelopeIs(r, s, env, n);
      HotNodesAre(r, s.primary.family, n);
      GraphNodesAre(r, n);
    }
  }

  // ---------------------------------------------------------------------------
  // The whole validator

  /** The issues a planner-made plan can raise. */
  predicate Expected(code: IssueCode) {
    || code == CorrectnessTargetUnmet || code == PerformanceTargetUnmet
    || code == WarmupIncomplete || code == MaterializationNodeDuplicate
    || code == BoundedJitPolicyMismatch || code == ResidualJitBudgetExceeded
    || code == WarmupBudgetExceeded || code == ArtifactBudgetExceeded || code == RankLocalBudgetExceeded
  }

  function TargetFlags(p: BuildPlan): seq<IssueCode> {
    Flag(Unmet(p.guarantee.achievedCorrectness, p.guarantee.requestedCorrectness), CorrectnessTargetUnmet)
    + Flag(Unmet(p.guarantee.achievedPerformance, p.guarantee.requestedPerformance), PerformanceTargetUnmet)
  }

  function CoverageFlags(p: BuildPlan): seq<IssueCode> {
    Flag(MissesWarmup(p.shapes, p.obligations) && p.readiness != Some(EarlyServeBuild), WarmupIncomplete)
    + Flag(DuplicateNames(p.graph.nodes), MaterializationNodeDuplicate)
  }

  function BudgetFlags(p: BuildPlan): seq<IssueCode> {
    var policy := p.request.backendPolicy;
    Flag(policy.jitDisposition == ShapeBounded && policy.packaging != PreferPrebuiltThenAotThenJit,
         BoundedJitPolicyMismatch)
    + Flag(CountResidual(p.shapes) > policy.maxResidualNodes, ResidualJitBudgetExceeded)
    + Flag(Wrapped(TotalSteps(p.obligations)) > p.envelope.maxWarmupSteps, WarmupBudgetExceeded)
    + Flag(|p.requirements| > p.envelope.maxArtifacts, ArtifactBudgetExceeded)
    + Flag(CountRankLocal(p.requirements) > p.envelope.maxRankLocal, RankLocalBudgetExceeded)
  }

  /** The nine checks that can still speak about a planner-made plan. */
  function Predicted(p: BuildPlan): (issues: seq<IssueCode>)
    ensures forall code :: code in issues ==> Expected(code)
  {
    TargetFlags(p) + CoverageFlags(p) + BudgetFlags(p)
  }

  lemma BackendsSelected(r: Request, ws: seq<Witness>, survey: Survey, scope: BuildScope, p: BuildPlan)
    requires SurveyHolds(survey) && p.regions == CompileRegions(p.selection, survey, scope)
    requires p.requirements == ArtifactRequirements(r, ws, p.shapes, p.selection, p.regions, p.envelope, scope)
    ensures forall region :: region in p.regions ==> SelectsAmong(p.selection, region.family)
    ensures forall q :: q in p.requirements ==> SelectsAmong(p.selection, q.backend) && q.scope != []
  {
    forall region | region in p.regions ensures SelectsAmong(p.selection, region.family) {
      RegionFamilySelected(p.selection, survey, scope, region);
    }
    forall q | q in p.requirements ensures SelectsAmong(p.selection, q.backend) && q.scope != [] {
      RequirementSelected(r, ws, p.shapes, p.selection, survey, p.envelope, scope, q);
    }
  }

  lemma SelectionExpected(p: BuildPlan)
    requires forall region :: region in p.regions ==> SelectsAmong(p.selection, region.family)
    requires forall q :: q in p.requirements ==> SelectsAmong(p.selection, q.backend)
    requires p.selection.primary.family == FlashInfer ==> HasWitness(p.witnesses, "flashinfer.prebuilt")
    ensures SelectionIssues(p) == TargetFlags(p)
  {
  }

  lemma PrimaryWitnessed(r: Request, ws: seq<Witness>, env: OptimizationEnvelope, s: Selection)
    requires Selected(r, ws, Registry(r)).Success? && s == Narrowed(Selected(r, ws, Registry(r)).value, env)
    ensures Justified(r, ws, s.primary)
    ensures s.primary.family == FlashInfer ==> HasWitness(ws, "flashinfer.prebuilt")
  {
    SelectionJustified(r, ws, env, s);
    assert s.primary in s.All();
    if s.primary.family == FlashInfer {
      FlashInferWitnessed(r, ws, s.primary);
    }
  }

  lemma CoverageExpected(p: BuildPlan)
    requires forall q :: q in p.requirements ==> q.scope != []
    requires p.manifest == ManifestOf(p.selection.primary.family, p.requirements)
    requires FlatMap(p.obligations, (o: Obligation) => Flag(ProofMismatch(o), WarmupProofMismatch)) == []
    requires !UnknownFrontier(p.graph)
    ensures CoverageIssues(p) == CoverageFlags(p)
  {
    ManifestScopes(p.selection.primary.family, p.requirements);
  }

  lemma ProofsMatch(t: Topology, shapes: seq<ShapeNode>, regions: seq<CompileRegion>, env: OptimizationEnvelope,
                    scope: BuildScope)
    ensures FlatMap(Obligations(t, shapes, regions, env, scope),
                    (o: Obligation) => Flag(ProofMismatch(o), WarmupProofMismatch)) == []
  {
    var obligations := Obligations(t, shapes, regions, env, scope);
    forall o | o in obligations ensures !ProofMismatch(o) {
      ObligationsAre(t, shapes, regions, env, scope, o);
    }
    FlatMapEmpty(obligations, (o: Obligation) => Flag(ProofMismatch(o), WarmupProofMismatch));
  }

  lemma BudgetExpected(p: BuildPlan)
    requires CountResidual(p.shapes) > 0 ==> p.request.backendPolicy.jitDisposition == ShapeBounded
    ensures BudgetIssues(p) == BudgetFlags(p)
  {
  }

  lemma ProofsClosed(r: Request, ws: seq<Witness>, survey: Survey, scope: BuildScope, p: BuildPlan)
    requires p.witnesses == ws
    requires Selected(r, ws, Registry(r)).Success?
    requires p.selection == Narrowed(Selected(r, ws, Registry(r)).value, p.envelope)
    requires p.requirements == ArtifactRequirements(r, ws, p.shapes, p.selection, p.regions, p.envelope, scope)
    ensures FlatMap(p.requirements, (q: Requirement) => Flag(!q.proof.failClosed, ArtifactNotFailClosed)) == []
  {
    SelectionJustified(r, ws, p.envelope, p.selection);
    forall q | q in p.requirements ensures q.proof.failClosed {
      RequirementFailClosed(r, ws, p.shapes, p.selection, p.regions, p.envelope, scope, q);
    }
    FlatMapEmpty(p.requirements, (q: Requirement) => Flag(!q.proof.failClosed, ArtifactNotFailClosed));
  }

  lemma WitnessesHold(host: Host, r: Request, survey: Survey, ws: seq<Witness>, c: Candidate)
    requires ws == CapabilityWitnesses(host, r, survey) && Justified(r, ws, c)
    ensures FlatMap(c.proof.requiredWitnesses, (key: string) => WitnessIssues(ws, key)) == []
  {
    forall key | key in c.proof.requiredWitnesses ensures WitnessIssues(ws, key) == [] {
      NeededWitnessesAvailable(host, r, survey, ws, c, key);
    }
    FlatMapEmpty(c.proof.requiredWitnesses, (key: string) => WitnessIssues(ws, key));
  }

  lemma EvidenceHolds(r: Request, survey: Survey, p: BuildPlan)
    requires SurveyHolds(survey)
    requires p.evidence == Evidence(r, p.selection, p.regions, p.obligations, p.requirements, survey)
    ensures FlatMap(p.evidence, (e: JitEvidence) => EvidenceIssues(p, e)) == []
  {
    forall e | e in p.evidence ensures EvidenceIssues(p, e) == [] {
      EvidenceIs(r, p.selection, p.regions, p.obligations, p.requirements, survey, e);
      var surface :| surface in survey.jitSurfaces && HasEvidence(r, p.selection, p.regions, surface)
                     && e == EvidenceFor(r, p.selection, p.regions, p.obligations, p.requirements, surface);
      EvidenceIsClean(p, r, surface);
    }
    FlatMapEmpty(p.evidence, (e: JitEvidence) => EvidenceIssues(p, e));
  }

  lemma ProofExpected(host: Host, r: Request, survey: Survey, ws: seq<Witness>, scope: BuildScope, p: BuildPlan)
    requires SurveyHolds(survey) && p.witnesses == ws && ws == CapabilityWitnesses(host, r, survey)
    requires Selected(r, ws, Registry(r)).Success?
    requires p.selection == Narrowed(Selected(r, ws, Registry(r)).value, p.envelope)
    requires p.requirements == ArtifactRequirements(r, ws, p.shapes, p.selection, p.regions, p.envelope, scope)
    requires p.evidence == Evidence(r, p.selection, p.regions, p.obligations, p.requirements, survey)
    ensures ProofIssues(p) == []
  {
    PrimaryWitnessed(r, ws, p.envelope, p.selection);
    ProofsClosed(r, ws, survey, scope, p);
    WitnessesHold(host, r, survey, ws, p.selection.primary);
    EvidenceNeverEmpty(r, p.selection, p.regions, p.obligations, p.requirements, survey);
    EvidenceHolds(r, survey, p);
  }

  lemma TraceHolds(ids: Digests)
    ensures FlatMap(RewriteTrace(ids), (t: PassTrace) => Flag(PassBroken(t), RewritePassContractViolation)) == []
  {
    forall t | t in RewriteTrace(ids) ensures !PassBroken(t) {
      TraceIsSound(ids, t);
    }
    FlatMapEmpty(RewriteTrace(ids), (t: PassTrace) => Flag(PassBroken(t), RewritePassContractViolation));
  }

  lemma DecisionHolds(r: Request, ws: seq<Witness>, s: Selection, regions: seq<CompileRegion>,
                      requirements: seq<Requirement>, obligations: seq<Obligation>)
    ensures FlatMap(Map(Registry(r), (c: Capability) => DecisionFor(r, ws, s, regions, requirements, obligations, c)),
                    (e: DecisionEntry) => DecisionIssues(s, e)) == []
  {
    var decide := (c: Capability) => DecisionFor(r, ws, s, regions, requirements, obligations, c);
    var decision := Map(Registry(r), decide);
    MapContains(Registry(r), decide);
    forall e | e in decision ensures DecisionIssues(s, e) == [] {
      var c :| c in Registry(r) && decide(c) == e;
      DecisionIsSound(r, ws, s, regions, requirements, obligations, c);
    }
    FlatMapEmpty(decision, (e: DecisionEntry) => DecisionIssues(s, e));
  }

  lemma GatesHold()
    ensures FlatMap(OperatorGates, (g: OperatorGate) =>
                      Flag(g.compileFree && g.forbiddenQueues == [], OperatorGateIncomplete)) == []
  {
    FlatMapEmpty(OperatorGates,
                 (g: OperatorGate) => Flag(g.compileFree && g.forbiddenQueues == [], OperatorGateIncomplete));
  }

  lemma RecordExpected(r: Request, ids: Digests, p: BuildPlan)
    requires p.trace == RewriteTrace(ids)
    requires p.decision == Map(Registry(r), (c: Capability) =>
                                 DecisionFor(r, p.witnesses, p.selection, p.regions, p.requirements, p.obligations, c))
    ensures RecordIssues(p) == []
  {
    GatesHold();
    TraceHolds(ids);
    DecisionHolds(r, p.witnesses, p.selection, p.regions, p.requirements, p.obligations);
  }

  lemma SpeakingChecks(host: Host, r: Request, survey: Survey, scope: BuildScope, ids: Digests, p: BuildPlan)
    requires SurveyHolds(survey) && MadeFrom(host, r, survey, scope, ids, p)
    ensures SelectionIssues(p) == TargetFlags(p) && CoverageIssues(p) == CoverageFlags(p)
    ensures BudgetIssues(p) == BudgetFlags(p)
  {
    hide Obligations, Evidence, Lowering.GraphOf, CapabilityWitnesses, RewriteTrace, Registry, Selected,
         ArtifactRequirements, CompileRegions, ManifestOf, ScopedShapes, SelectionIssues, CoverageIssues,
         BudgetIssues, TargetFlags, CoverageFlags, BudgetFlags;
    PrimaryWitnessed(r, p.witnesses, p.envelope, p.selection);
    BackendsSelected(r, p.witnesses, survey, scope, p);
    SelectionExpected(p);
    ProofsMatch(r.topology, p.shapes, p.regions, p.envelope, scope);
    FrontierKnown(r.topology, p.requirements, p.obligations);
    CoverageExpected(p);
    ResidualNeedsPolicy(r, p.selection, p.envelope, p.regions, scope);
    BudgetExpected(p);
  }

  lemma SilentChecks(host: Host, r: Request, survey: Survey, scope: BuildScope, ids: Digests, p: BuildPlan)
    requires SurveyHolds(survey) && MadeFrom(host, r, survey, scope, ids, p)
    ensures ProofIssues(p) == [] && RecordIssues(p) == []
  {
    ProofExpected(host, r, survey, p.witnesses, scope, p);
    RecordExpected(r, ids, p);
  }

  lemma SumOfChecks(p: BuildPlan)
    requires SelectionIssues(p) == TargetFlags(p) && CoverageIssues(p) == CoverageFlags(p)
    requires BudgetIssues(p) == BudgetFlags(p)
    requires ProofIssues(p) == [] && RecordIssues(p) == []
    ensures IssuesOf(p) == Predicted(p)
  {
    IssuesAre(p);
    assert IssuesOf(p) == TargetFlags(p) + CoverageFlags(p) + BudgetFlags(p) + [] + [];
  }

  lemma MadeIssues(host: Host, r: Request, survey: Survey, scope: BuildScope, ids: Digests, p: BuildPlan)
    requires SurveyHolds(survey) && MadeFrom(host, r, survey, scope, ids, p)
    ensures IssuesOf(p) == Predicted(p)
  {
    SpeakingChecks(host, r, survey, scope, ids, p);
    SilentChecks(host, r, survey, scope, ids, p);
    SumOfChecks(p);
  }

  /** Twenty-two of the thirty-one checks are silent on every plan the planner hands to
      the validator. */
  lemma PlannerIssues(host: Host, r: Request, survey: Survey, scope: BuildScope, ids: Digests)
    requires SurveyHolds(survey) && PlanFor(host, r, survey, scope, ids).Success?
    ensures var p := PlanFor(host, r, survey, scope, ids).value; IssuesOf(p) == Predicted(p)
  {
    hide PlanFor, MadeFrom, IssuesOf, Predicted;
    PlanIsMade(host, r, survey, scope, ids);
    MadeIssues(host, r, survey, scope, ids, PlanFor(host, r, survey, scope, ids).value);
  }

  lemma RejectedIsExpected(planned: Result<BuildPlan, PlanError>, survey: Survey)
    requires planned.Success? ==> IssuesOf(planned.value) == Predicted(planned.value)
    ensures var answer := Judged(planned, survey);
            answer.Failure? && answer.error.Validation? ==>
              answer.error.issues != [] && forall code :: code in answer.error.issues ==> Expected(code)
  {
  }

  /** So a plan is rejected only for one of the nine reasons of `Expected`. */
  lemma PlannerRaisesOnlyExpected(host: Host, raw: Request, survey: Survey, scope: BuildScope, ids: Digests)
    requires SurveyHolds(survey)
    ensures var answer := Resolve(host, raw, survey, scope, ids);
            answer.Failure? && answer.error.Validation? ==>
              answer.error.issues != [] && forall code :: code in answer.error.issues ==> Expected(code)
  {
    hide PlanFor, CanonicalBody, IssuesOf, Predicted, Judged;
    var r := CanonicalBody(raw);
    if PlanFor(host, r, survey, scope, ids).Success? {
      PlannerIssues(host, r, survey, scope, ids);
    }
    RejectedIsExpected(PlanFor(host, r, survey, scope, ids), survey);
  }
}
