/** What the executor, the cache and the replay proof can rely on in an outcome that the
    planner accepted. */
module PlannedOutcome {
  import opened Collections
  import opened Types
  import opened Scope
  import opened Planner
  import opened Plan
  import opened Resolution
  import opened RequestNormalization
  import opened PlannerFacts
  import opened Scoping
  import Lowering

  /** The region is the survey region of its name. */
  ghost predicate Surveyed(survey: Survey, region: CompileRegion) {
    exists sr :: sr in survey.regions && Describes(sr, region)
  }

  predicate Describes(sr: SurveyRegion, region: CompileRegion) {
    && sr.name == region.name && sr.cacheNamespace == region.cacheNamespace
    && sr.invalidationDomain == region.invalidationDomain && sr.cacheSharing == region.cacheSharing
    && region.equivalenceIdentity.cacheNamespace == region.cacheNamespace
    && region.equivalenceIdentity.invalidationDomain == region.invalidationDomain
  }

  /** Class and scope tell requirements apart. */
  ghost predicate ToldApart(requirements: seq<Requirement>) {
    forall q, q' | q in requirements && q' in requirements
                   && q.artifactClass == q'.artifactClass && q.scope == q'.scope ::
      q == q'
  }

  /** The evidence contradicts nothing, and what it requires is in the plan. */
  ghost predicate Backed(requirements: seq<Requirement>, obligations: seq<Obligation>, e: JitEvidence) {
    && e.contradictions == []
    && (forall x :: x in e.requiredArtifacts ==> exists q :: q in requirements && q.scope == x)
    && (forall x :: x in e.requiredWarmupProofs ==> exists o :: o in obligations && o.proof.proofId == x)
  }

  /** An accepted outcome: its graph and closure are those of its requirements, artifacts
      are told apart by class and scope, every scope is a surveyed region, and node names
      are unique. */
  ghost predicate WellPlanned(o: Outcome) {
    && SurveyHolds(o.survey)
    && o.plan.graph == Lowering.GraphOf(o.plan.request.topology, o.plan.requirements, o.plan.obligations)
    && o.closure == o.plan.manifest == ManifestOf(o.plan.selection.primary.family, o.plan.requirements)
    && o.verification.evidence == o.plan.evidence && o.verification.gates == OperatorGates
    && o.verification.status == Passed
    && (forall e :: e in o.plan.evidence ==> Backed(o.plan.requirements, o.plan.obligations, e))
    && (forall region :: region in o.plan.regions ==> Surveyed(o.survey, region))
    && (forall q :: q in o.plan.requirements ==> Named(o.plan.regions, q.scope))
    && ToldApart(o.plan.requirements)
    && UniqueNames(o.plan.graph.nodes)
  }

  lemma RegionsSurveyed(s: Selection, survey: Survey, scope: BuildScope, region: CompileRegion)
    requires region in CompileRegions(s, survey, scope)
    ensures Surveyed(survey, region)
  {
    RegionsAre(s, survey, scope, region);
    var sr :| sr in survey.regions && KeepsRegion(sr, s, scope) && region == CompileRegionOf(sr, s);
    assert Describes(sr, region);
  }

  /** A requirement is determined by its class and the region of its scope. */
  ghost predicate MadeFor(r: Request, ws: seq<Witness>, shapes: seq<ShapeNode>, s: Selection, region: CompileRegion,
                          q: Requirement) {
    && region.name == q.scope
    && match q.artifactClass
       case CompiledGraph => q == GraphRequirement(r, ws, shapes, s, region)
       case TritonBinary => q == BinaryRequirement(r, ws, shapes, s, region)
       case _ => q == CaptureRequirement(r, ws, shapes)
  }

  lemma Origin(r: Request, ws: seq<Witness>, shapes: seq<ShapeNode>, s: Selection, regions: seq<CompileRegion>,
               env: OptimizationEnvelope, scope: BuildScope, q: Requirement) returns (region: CompileRegion)
    requires q in ArtifactRequirements(r, ws, shapes, s, regions, env, scope)
    ensures region in regions && MadeFor(r, ws, shapes, s, region, q)
  {
    RequirementsAre(r, ws, shapes, s, regions, env, scope, q);
    if x :| x in regions && scope.AllowsArtifactScope(x.name)
            && (q == GraphRequirement(r, ws, shapes, s, x) || q == BinaryRequirement(r, ws, shapes, s, x)) {
      RequirementLabels(r, ws, shapes, s, x);
      region := x;
    } else {
      region :| region in regions && region.name == DECODE;
    }
  }

  lemma PairsDecide(r: Request, ws: seq<Witness>, shapes: seq<ShapeNode>, s: Selection, survey: Survey,
                    scope: BuildScope,
                    regions: seq<CompileRegion>, env: OptimizationEnvelope, q: Requirement, q': Requirement)
    requires SurveyHolds(survey) && regions == CompileRegions(s, survey, scope)
    requires q in ArtifactRequirements(r, ws, shapes, s, regions, env, scope)
    requires q' in ArtifactRequirements(r, ws, shapes, s, regions, env, scope)
    requires q.artifactClass == q'.artifactClass && q.scope == q'.scope
    ensures q == q'
  {
    var region := Origin(r, ws, shapes, s, regions, env, scope, q);
    var region' := Origin(r, ws, shapes, s, regions, env, scope, q');
    SameNameSameRegion(s, survey, scope, region, region');
  }

  lemma AcceptedPlan(host: Host, raw: Request, survey: Survey, scope: BuildScope, ids: Digests) returns (p: BuildPlan)
    requires Resolve(host, raw, survey, scope, ids).Success?
    ensures PlanFor(host, CanonicalBody(raw), survey, scope, ids) == Success(p)
    ensures Validate(p).status == Passed
    ensures Resolve(host, raw, survey, scope, ids).value == Outcome(p, p.manifest, Validate(p), survey)
  {
    var planned := PlanFor(host, CanonicalBody(raw), survey, scope, ids);
    assert Judged(planned, survey).Success?;
    p := planned.value;
  }

  lemma PassedParts(p: BuildPlan)
    requires Validate(p).status == Passed
    ensures Flag(DuplicateNames(p.graph.nodes), MaterializationNodeDuplicate) == []
    ensures FlatMap(p.evidence, (e: JitEvidence) => EvidenceIssues(p, e)) == []
  {
    var (unique, evidence) := (Flag(DuplicateNames(p.graph.nodes), MaterializationNodeDuplicate),
                               FlatMap(p.evidence, (e: JitEvidence) => EvidenceIssues(p, e)));
    IssuesAre(p);
    assert |CoverageIssues(p)| >= |unique| && |ProofIssues(p)| >= |evidence|;
    assert |IssuesOf(p)| >= |CoverageIssues(p)| + |ProofIssues(p)|;
  }

  lemma PassedIsUnique(p: BuildPlan)
    requires Validate(p).status == Passed
    ensures UniqueNames(p.graph.nodes)
  {
    PassedParts(p);
  }

  lemma EmptyFlatMap<T, R>(s: seq<T>, f: T -> seq<R>, x: T)
    requires FlatMap(s, f) == [] && x in s
    ensures f(x) == []
  {
    if f(x) != [] {
      FlatMapContains(s, f, f(x)[0]);
      assert false;
    }
  }

  lemma AllEmpty<T>(a: seq<T>, b: seq<T>, c: seq<T>, d: seq<T>, e: seq<T>)
    requires a + b + c + d + e == []
    ensures a == [] && b == [] && c == [] && d == [] && e == []
  {
  }

  lemma CleanParts(p: BuildPlan, e: JitEvidence)
    requires EvidenceIssues(p, e) == []
    ensures e.contradictions == []
    ensures FlatMap(e.requiredArtifacts, (scope: string) =>
                      Flag(forall q | q in p.requirements :: q.scope != scope, JitArtifactUnknown)) == []
    ensures FlatMap(e.requiredWarmupProofs, (proof: string) =>
                      Flag(forall o | o in p.obligations :: o.proof.proofId != proof, JitWarmupUnknown)) == []
  {
    AllEmpty(Flag(e.boundedBy == {}, JitEvidenceUnbounded),
             Flag(e.contradictions != [], JitEvidenceContradiction),
             FlatMap(e.affectedRegions, (name: string) =>
                       Flag(forall region | region in p.regions :: region.name != name, JitRegionUnknown)),
             FlatMap(e.requiredArtifacts, (scope: string) =>
                       Flag(forall q | q in p.requirements :: q.scope != scope, JitArtifactUnknown)),
             FlatMap(e.requiredWarmupProofs, (proof: string) =>
                       Flag(forall o | o in p.obligations :: o.proof.proofId != proof, JitWarmupUnknown)));
  }

  lemma KnownArtifact(requirements: seq<Requirement>, scopes: seq<string>, x: string)
    requires FlatMap(scopes, (scope: string) =>
                       Flag(forall q | q in requirements :: q.scope != scope, JitArtifactUnknown)) == []
    requires x in scopes
    ensures exists q :: q in requirements && q.scope == x
  {
    EmptyFlatMap(scopes, (scope: string) => Flag(forall q | q in requirements :: q.scope != scope, JitArtifactUnknown),
                 x);
  }

  lemma KnownProof(obligations: seq<Obligation>, proofs: seq<string>, x: string)
    requires FlatMap(proofs, (proof: string) =>
                       Flag(forall o | o in obligations :: o.proof.proofId != proof, JitWarmupUnknown)) == []
    requires x in proofs
    ensures exists o :: o in obligations && o.proof.proofId == x
  {
    EmptyFlatMap(proofs,
                 (proof: string) => Flag(forall o | o in obligations :: o.proof.proofId != proof, JitWarmupUnknown), x);
  }

  lemma CleanIsBacked(p: BuildPlan, e: JitEvidence)
    requires EvidenceIssues(p, e) == []
    ensures Backed(p.requirements, p.obligations, e)
  {
    CleanParts(p, e);
    forall x | x in e.requiredArtifacts ensures exists q :: q in p.requirements && q.scope == x {
      KnownArtifact(p.requirements, e.requiredArtifacts, x);
    }
    forall x | x in e.requiredWarmupProofs ensures exists o :: o in p.obligations && o.proof.proofId == x {
      KnownProof(p.obligations, e.requiredWarmupProofs, x);
    }
  }

  lemma PassedIsBacked(p: BuildPlan, e: JitEvidence)
    requires Validate(p).status == Passed && e in p.evidence
    ensures Backed(p.requirements, p.obligations, e)
  {
    PassedParts(p);
    EmptyFlatMap(p.evidence, (x: JitEvidence) => EvidenceIssues(p, x), e);
    CleanIsBacked(p, e);
  }

  ghost predicate PartsHold(p: BuildPlan, survey: Survey) {
    && p.graph == Lowering.GraphOf(p.request.topology, p.requirements, p.obligations)
    && p.manifest == ManifestOf(p.selection.primary.family, p.requirements)
    && (forall region :: region in p.regions ==> Surveyed(survey, region))
    && (forall q :: q in p.requirements ==> Named(p.regions, q.scope))
    && ToldApart(p.requirements)
  }

  lemma PlanParts(r: Request, ws: seq<Witness>, survey: Survey, scope: BuildScope, p: BuildPlan)
    requires SurveyHolds(survey) && p.regions == CompileRegions(p.selection, survey, scope)
    requires p.requirements == ArtifactRequirements(r, ws, p.shapes, p.selection, p.regions, p.envelope, scope)
    requires p.graph == Lowering.GraphOf(p.request.topology, p.requirements, p.obligations)
    requires p.manifest == ManifestOf(p.selection.primary.family, p.requirements)
    ensures PartsHold(p, survey)
  {
    forall region | region in p.regions ensures Surveyed(survey, region) {
      RegionsSurveyed(p.selection, survey, scope, region);
    }
    forall q | q in p.requirements ensures Named(p.regions, q.scope) {
      NeededIsNamed(r, ws, p.shapes, p.selection, p.regions, p.envelope, scope, q);
    }
    forall q, q' | q in p.requirements && q' in p.requirements
                   && q.artifactClass == q'.artifactClass && q.scope == q'.scope
      ensures q == q'
    {
      PairsDecide(r, ws, p.shapes, p.selection, survey, scope, p.regions, p.envelope, q, q');
    }
  }

  lemma AssembledParts(host: Host, r: Request, survey: Survey, scope: BuildScope, ids: Digests, p: BuildPlan)
    requires SurveyHolds(survey) && PlanFor(host, r, survey, scope, ids) == Success(p)
    ensures PartsHold(p, survey)
  {
    PlanIsMade(host, r, survey, scope, ids);
    PlanParts(r, p.witnesses, survey, scope, p);
  }

  lemma PartsAreWellPlanned(p: BuildPlan, survey: Survey)
    requires SurveyHolds(survey) && PartsHold(p, survey) && Validate(p).status == Passed
    ensures WellPlanned(Outcome(p, p.manifest, Validate(p), survey))
  {
    PassedIsUnique(p);
    forall e | e in p.evidence ensures Backed(p.requirements, p.obligations, e) {
      PassedIsBacked(p, e);
    }
  }

  lemma AcceptedIsWellPlanned(host: Host, raw: Request, survey: Survey, scope: BuildScope, ids: Digests)
    requires SurveyHolds(survey) && Resolve(host, raw, survey, scope, ids).Success?
    ensures WellPlanned(Resolve(host, raw, survey, scope, ids).value)
  {
    var p := AcceptedPlan(host, raw, survey, scope, ids);
    AssembledParts(host, CanonicalBody(raw), survey, scope, ids, p);
    PartsAreWellPlanned(p, survey);
  }
}
